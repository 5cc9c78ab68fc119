/** The local-time send window of a workflow (internal/workflow/engine.go).
    An instant is a number of nanoseconds counted from a UTC midnight; a contact's zone is a fixed offset
    from UTC, in nanoseconds. */
module SendWindow {

  type Instant = int

  const SECOND := 1_000_000_000
  const MINUTE := 60 * SECOND
  const DAY := 1440 * MINUTE

  /** Minutes of the local day: open from `start`, closed from `end` on. */
  datatype Window = Window(start: int, end: int) {
    predicate Valid() { 0 <= start < end <= 1440 }

    /** How long the window stays shut each day. */
    function ClosedTime(): int { (1440 - (end - start)) * MINUTE }
  }

  function LocalMinute(t: Instant, offset: int): (minute: int)
    ensures 0 <= minute < 1440
  {
    (t + offset) % DAY / MINUTE
  }

  predicate Open(w: Window, t: Instant, offset: int) {
    w.start <= LocalMinute(t, offset) < w.end
  }

  /** The instant at which the local day of `t` began. */
  function Midnight(t: Instant, offset: int): Instant {
    t - (t + offset) % DAY
  }

  datatype Slot = Slot(at: Instant, allowed: bool)

  /** nextAllowed: now itself when the window is open, otherwise its next opening. */
  function NextAllowed(w: Window, now: Instant, offset: int): Slot {
    var minute := LocalMinute(now, offset);
    if w.start <= minute < w.end then Slot(now, true)
    else if minute < w.start then Slot(Midnight(now, offset) + w.start * MINUTE, false)
    else Slot(Midnight(now, offset) + DAY + w.start * MINUTE, false)
  }

  /** Counting from any local midnight, the local minute follows the elapsed time. */
  lemma MinuteAfterMidnight(t: Instant, offset: int, midnight: Instant)
    requires (midnight + offset) % DAY == 0
    requires 0 <= t - midnight < DAY
    ensures LocalMinute(t, offset) == (t - midnight) / MINUTE
  {
    assert t + offset == (midnight + offset) / DAY * DAY + (t - midnight);
  }

  lemma NextMidnight(t: Instant, offset: int)
    ensures (Midnight(t, offset) + offset) % DAY == 0
    ensures (Midnight(t, offset) + DAY + offset) % DAY == 0
    ensures Midnight(t, offset) <= t < Midnight(t, offset) + DAY
  {
    assert Midnight(t, offset) + offset == (t + offset) / DAY * DAY;
    assert Midnight(t, offset) + DAY + offset == ((t + offset) / DAY + 1) * DAY;
  }

  /** The slot is the least instant from `now` on at which the window is open, and a deferral
      is never longer than the window's daily closed time. */
  lemma NextAllowedIsEarliest(w: Window, now: Instant, offset: int)
    requires w.Valid()
    ensures var s := NextAllowed(w, now, offset);
      && now <= s.at <= now + w.ClosedTime()
      && Open(w, s.at, offset)
      && (forall t :: now <= t < s.at ==> !Open(w, t, offset))
      && (s.allowed <==> Open(w, now, offset))
      && (s.allowed ==> s.at == now)
      && (!s.allowed ==> now < s.at)
  {
    var s := NextAllowed(w, now, offset);
    var today := Midnight(now, offset);
    NextMidnight(now, offset);
    MinuteAfterMidnight(now, offset, today);
    if s.at < today + DAY {
      MinuteAfterMidnight(s.at, offset, today);
    } else {
      MinuteAfterMidnight(s.at, offset, today + DAY);
    }
    forall t | now <= t < s.at ensures !Open(w, t, offset) {
      if t < today + DAY {
        MinuteAfterMidnight(t, offset, today);
      } else {
        MinuteAfterMidnight(t, offset, today + DAY);
      }
    }
  }

  /** The bound on a deferral is reached: at the minute the window closes. */
  lemma DeferralBoundIsTight(w: Window, offset: int)
    requires w.Valid()
    ensures exists now: Instant {:trigger NextAllowed(w, now, offset)} ::
      NextAllowed(w, now, offset).at == now + w.ClosedTime()
  {
    var midnight := Midnight(0, offset);
    NextMidnight(0, offset);
    var now := midnight + w.end * MINUTE;
    NextMidnight(now, offset);
    if w.end < 1440 {
      MinuteAfterMidnight(now, offset, midnight);
      assert Midnight(now, offset) == midnight;
    } else {
      MinuteAfterMidnight(now, offset, midnight + DAY);
      assert Midnight(now, offset) == midnight + DAY;
    }
    assert NextAllowed(w, now, offset).at == now + w.ClosedTime();
  }

}
