/** What the engine guarantees over whole histories of one enrollment. */
module EngineRuns {
  import opened Wrappers
  import opened SendWindow
  import opened Catalog
  import opened Template
  import opened Engine

  datatype Call = Tick(now: Instant, bs: Bindings) | Hear(text: string)

  function After(d: Definition, e: Enrollment, c: Call): Enrollment {
    match c
    case Tick(now, bs) => Advanced(d, e, now, bs).enrollment
    case Hear(text) => Replied(d, e, text).enrollment
  }

  function AfterAll(d: Definition, e: Enrollment, cs: seq<Call>): Enrollment
    decreases |cs|
  {
    if cs == [] then e else AfterAll(d, After(d, e, cs[0]), cs[1..])
  }

  /** The instants at which the calls decide to send. */
  function Sends(d: Definition, e: Enrollment, cs: seq<Call>): seq<Instant>
    decreases |cs|
  {
    if cs == [] then []
    else
      (if cs[0].Tick? && IsSend(Advanced(d, e, cs[0].now, cs[0].bs).result) then [cs[0].now] else [])
      + Sends(d, After(d, e, cs[0]), cs[1..])
  }

  /** How many more messages the enrollment may ever get. */
  function Budget(d: Definition, e: Enrollment): nat {
    if Stopped(e) || e.nextRun.None? || d.kind == ManualFollowUp || e.sentCount >= d.maxOccurrences then 0
    else if d.repeatEvery == 0 then 1
    else d.maxOccurrences - e.sentCount
  }

  ghost predicate Spaced(ts: seq<Instant>, gap: int) {
    forall i :: 0 <= i < |ts| - 1 ==> ts[i] + gap <= ts[i + 1]
  }

  ghost predicate InWindow(ts: seq<Instant>, d: Definition, e: Enrollment) {
    forall i :: 0 <= i < |ts| ==> OnDuty(d.window, ts[i], e.contact.zone)
  }

  /** Whatever calls arrive at whatever times: the sends stay within the cap, never precede the run that is
      due, fall inside the contact's local window, and are at least the repeat interval apart. */
  lemma {:induction false} SendsAreBounded(d: Definition, e: Enrollment, cs: seq<Call>)
    requires d.Valid()
    ensures var ts := Sends(d, e, cs);
      && |ts| <= Budget(d, e)
      && (ts != [] ==> e.nextRun.Some? && e.nextRun.value <= ts[0])
      && InWindow(ts, d, e)
      && Spaced(ts, d.repeatEvery)
    decreases |cs|
  {
    if cs != [] {
      var next := After(d, e, cs[0]);
      SendsAreBounded(d, next, cs[1..]);
      if cs[0].Tick? {
        AdvanceEffect(d, e, cs[0].now, cs[0].bs);
        if IsSend(Advanced(d, e, cs[0].now, cs[0].bs).result) {
          OneMoreSend(d, e, cs[0].now, Sends(d, next, cs[1..]));
        }
      }
    }
  }

  lemma OneMoreSend(d: Definition, e: Enrollment, at: Instant, later: seq<Instant>)
    requires OnDuty(d.window, at, e.contact.zone) && InWindow(later, d, e) && Spaced(later, d.repeatEvery)
    requires later != [] ==> at + d.repeatEvery <= later[0]
    ensures InWindow([at] + later, d, e) && Spaced([at] + later, d.repeatEvery)
  {}

  /** Nothing is sent after a reply, whatever it says. */
  lemma NoSendAfterReply(d: Definition, e: Enrollment, text: string, cs: seq<Call>)
    requires d.Valid()
    ensures Sends(d, Replied(d, e, text).enrollment, cs) == []
  {
    SendsAreBounded(d, Replied(d, e, text).enrollment, cs);
  }

  lemma {:induction false} VariantStaysInRange(d: Definition, e: Enrollment, cs: seq<Call>)
    requires d.Valid()
    ensures AfterAll(d, e, cs).variant == e.variant && AfterAll(d, e, cs).contact == e.contact
    decreases |cs|
  {
    if cs != [] {
      if cs[0].Tick? {
        AdvanceEffect(d, e, cs[0].now, cs[0].bs);
      }
      VariantStaysInRange(d, After(d, e, cs[0]), cs[1..]);
    }
  }

  /** From enrollment on: at most maxOccurrences sends, the i-th (from 0) no earlier than i repeat
      intervals after the first due run, and always a message variant that exists. */
  lemma StartedEnrollment(d: Definition, contact: Contact, now: Instant, hash: nat, cs: seq<Call>)
    requires Start(d, contact, now, hash).Ok?
    ensures |Sends(d, Start(d, contact, now, hash).value, cs)| <=
      if d.kind == ManualFollowUp then 0 else d.maxOccurrences
    ensures var e := Start(d, contact, now, hash).value;
      forall i :: 0 <= i < |Sends(d, e, cs)| ==> e.nextRun.value + i * d.repeatEvery <= Sends(d, e, cs)[i]
    ensures d.messages != [] ==> 0 <= AfterAll(d, Start(d, contact, now, hash).value, cs).variant < |d.messages|
  {
    var e := Start(d, contact, now, hash).value;
    SendsAreBounded(d, e, cs);
    VariantStaysInRange(d, e, cs);
    var ts := Sends(d, e, cs);
    if ts != [] {
      SpacedFrom(ts, d.repeatEvery, e.nextRun.value);
    }
  }

  lemma {:induction false} SpacedFrom(ts: seq<Instant>, gap: int, from: Instant)
    requires ts != [] && Spaced(ts, gap) && from <= ts[0]
    ensures forall i :: 0 <= i < |ts| ==> from + i * gap <= ts[i]
  {
    var n := |ts| - 1;
    if n > 0 {
      SpacedFrom(ts[..n], gap, from);
      assert ts[n - 1] + gap <= ts[n];
      assert from + (n - 1) * gap <= ts[..n][n - 1];
      assert n * gap == (n - 1) * gap + gap;
    }
  }

  // ----- Driving an enrollment: one Advance at each NextRun -----

  datatype Driven = Driven(enrollment: Enrollment, sends: seq<Instant>)

  /** One call per given map order, each made exactly when it is due. */
  function Drive(d: Definition, e: Enrollment, orders: seq<Bindings>): Driven
    decreases |orders|
  {
    if orders == [] || e.nextRun.None? then Driven(e, [])
    else
      var o := Advanced(d, e, e.nextRun.value, orders[0]);
      var rest := Drive(d, o.enrollment, orders[1..]);
      if IsSend(o.result) then Driven(rest.enrollment, [e.nextRun.value] + rest.sends) else rest
  }

  /** The chosen message renders in each of the given orders. */
  predicate Renderable(d: Definition, e: Enrollment, orders: seq<Bindings>) {
    && 0 <= e.variant < |d.messages|
    && !e.contact.zone.Unloadable?
    && forall i :: 0 <= i < |orders| ==> RenderIn(d.messages[e.variant], orders[i]).Ok?
  }

  predicate Recurs(d: Definition, e: Enrollment) {
    d.Valid() && d.kind != ManualFollowUp && d.repeatEvery > 0 && e.key == d.key &&
    !Stopped(e) && e.nextRun.Some? && e.sentCount <= d.maxOccurrences
  }

  function LatestSend(d: Definition, from: Instant, sends: int): int {
    from + (sends - 1) * d.repeatEvery + sends * d.window.ClosedTime()
  }

  /** k messages short of the cap, 2k + 1 calls send exactly k more and complete the enrollment; the last
      send is late by at most one closed period per message. */
  lemma {:induction false} DriveCompletes(d: Definition, e: Enrollment, orders: seq<Bindings>)
    requires Recurs(d, e) && Renderable(d, e, orders)
    requires |orders| >= 2 * (d.maxOccurrences - e.sentCount) + 1
    ensures var r := Drive(d, e, orders);
      && r.enrollment.state == Completed && r.enrollment.nextRun.None?
      && |r.sends| == d.maxOccurrences - e.sentCount
      && (r.sends != [] ==> r.sends[|r.sends| - 1] <= LatestSend(d, e.nextRun.value, |r.sends|))
    decreases d.maxOccurrences - e.sentCount
  {
    var now := e.nextRun.value;
    var k := d.maxOccurrences - e.sentCount;
    if k == 0 {
      assert Advanced(d, e, now, orders[0]).enrollment == Finished(e);
    } else {
      NextAllowedIsEarliest(d.window, now, Offset(e.contact.zone));
      var slot := NextAllowed(d.window, now, Offset(e.contact.zone));
      var due, left := e, orders;
      if !slot.allowed {
        due, left := e.(nextRun := Some(slot.at)), orders[1..];
        assert Advanced(d, e, now, orders[0]) == Progress(due, Ok([]));
        assert Drive(d, e, orders) == Drive(d, due, left);
      }
      NextAllowedIsEarliest(d.window, slot.at, Offset(e.contact.zone));
      assert RenderIn(d.messages[due.variant], left[0]).Ok?;
      var o := Advanced(d, due, slot.at, left[0]);
      assert IsSend(o.result) && o.enrollment.nextRun == Some(slot.at + d.repeatEvery);
      DriveCompletes(d, o.enrollment, left[1..]);
      var r := Drive(d, o.enrollment, left[1..]);
      assert Drive(d, due, left) == Driven(r.enrollment, [slot.at] + r.sends);
      LatestSendStep(d, now, slot.at, k);
    }
  }

  lemma LatestSendStep(d: Definition, from: Instant, at: Instant, k: int)
    requires k >= 1 && at <= from + d.window.ClosedTime() && d.window.Valid()
    ensures k > 1 ==> LatestSend(d, at + d.repeatEvery, k - 1) <= LatestSend(d, from, k)
    ensures k == 1 ==> at <= LatestSend(d, from, 1)
  {
    assert (k - 1) * d.repeatEvery == (k - 2) * d.repeatEvery + d.repeatEvery;
    assert k * d.window.ClosedTime() == (k - 1) * d.window.ClosedTime() + d.window.ClosedTime();
  }

  /** A recurring definition, from enrollment to completion. */
  lemma DriveFromStart(d: Definition, contact: Contact, now: Instant, hash: nat, orders: seq<Bindings>)
    requires Start(d, contact, now, hash).Ok? && d.kind == RecurringSms && d.repeatEvery > 0
    requires Renderable(d, Start(d, contact, now, hash).value, orders)
    requires |orders| >= 2 * d.maxOccurrences + 1
    ensures var r := Drive(d, Start(d, contact, now, hash).value, orders);
      && r.enrollment.state == Completed
      && |r.sends| == d.maxOccurrences
      && r.sends[d.maxOccurrences - 1] <= LatestSend(d, now + d.initialDelay, d.maxOccurrences)
  {
    DriveCompletes(d, Start(d, contact, now, hash).value, orders);
  }

  /** Without a repeat interval one message is sent, and no call of Advance changes the enrollment again. The workers'
      own RetryWorkflow can still wake it: see Spacing. */
  lemma SingleSendWaits(d: Definition, e: Enrollment, now: Instant, bs: Bindings, cs: seq<Call>)
    requires d.Valid() && d.repeatEvery == 0 && IsSend(Advanced(d, e, now, bs).result)
    requires forall i :: 0 <= i < |cs| ==> cs[i].Tick?
    ensures AfterAll(d, Advanced(d, e, now, bs).enrollment, cs) == Advanced(d, e, now, bs).enrollment
    ensures Advanced(d, e, now, bs).enrollment.state == AwaitingReply
  {
    AdvanceEffect(d, e, now, bs);
    WaitsForever(d, Advanced(d, e, now, bs).enrollment, cs);
  }

  lemma {:induction false} WaitsForever(d: Definition, e: Enrollment, cs: seq<Call>)
    requires e.nextRun.None? && forall i :: 0 <= i < |cs| ==> cs[i].Tick?
    ensures AfterAll(d, e, cs) == e
    decreases |cs|
  {
    if cs != [] {
      WaitsForever(d, e, cs[1..]);
    }
  }

}
