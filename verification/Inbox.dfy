/** Received messages and delivery events (inbound_messages and delivery_events, internal/store/store.go): rows
    handled first by the webhook that inserted them and then, until processed or failed, by RunInboundWorker.
    Both tables follow the one protocol modelled here; every write-back is by id alone. */
module Inbox {
  import opened Wrappers
  import opened SendWindow
  import LeasedQueue
  import Machine

  // ----- One row, and what each statement does to it -----

  /** `settled` is processed_at or highlevel_synced_at being set, `failed` is failed_at. */
  datatype Item = Item(
    event: string,
    receivedAt: Instant,
    attempts: nat,
    lockedUntil: Option<Instant>,
    settled: bool,
    failed: bool)

  predicate Closed(r: Item) { r.settled || r.failed }

  predicate Claimable(r: Item, now: Instant) {
    !Closed(r) && (r.lockedUntil.None? || r.lockedUntil.value < now)
  }

  function Received(event: string, now: Instant): Item {
    Item(event, now, 0, Some(now + LeasedQueue.LEASE), false, false)
  }

  function Taken(r: Item, now: Instant): Item {
    r.(attempts := r.attempts + 1, lockedUntil := Some(now + LeasedQueue.LEASE))
  }

  function Settled(r: Item): Item { r.(settled := true, lockedUntil := None) }

  function Postponed(r: Item, now: Instant, delay: int): Item { r.(lockedUntil := Some(now + delay)) }

  function GivenUp(r: Item): Item { r.(failed := true, lockedUntil := None) }

  /** highLevelRetryDelay */
  function RetryDelay(attempt: nat): int { Machine.Power2(if attempt < 6 then attempt else 6) * MINUTE }

  /** What a background worker writes when processing has failed. */
  function Outcome(r: Item, attempts: nat, now: Instant): Item {
    if attempts >= LeasedQueue.MAX_ATTEMPTS then GivenUp(r) else Postponed(r, now, RetryDelay(attempts))
  }

  // ----- The table and those at work on it -----

  type Pid = LeasedQueue.Pid

  /** A webhook handler (not `background`), or a background worker; `processing` until that has failed. */
  datatype Worker = Worker(row: nat, lease: Instant, attempts: nat, background: bool, processing: bool)

  datatype State = State(rows: seq<Item>, workers: map<Pid, Worker>)

  datatype Act =
    | Receive(p: Pid, event: string, seen: bool)
    | Claim(p: Pid, row: nat, seen: bool)
    | Process(p: Pid, ok: bool, fate: Machine.Fate)   // the calls, and when they are ok the statement marking the row
    | Settle(p: Pid, lands: bool)                  // retry or fail
    | Crash(p: Pid)

  datatype Event = Event(at: Instant, act: Act)

  /** The provider's event id is the key: a redelivery inserts nothing. */
  predicate Recorded(rows: seq<Item>, event: string) { exists i :: 0 <= i < |rows| && rows[i].event == event }

  predicate Enabled(s: State, e: Event) {
    match e.act
    case Receive(p, event, _) => p !in s.workers && !Recorded(s.rows, event)
    case Claim(p, i, _) => p !in s.workers && i < |s.rows| && Claimable(s.rows[i], e.at)
    case Process(p, _, _) => p in s.workers && s.workers[p].processing && s.workers[p].row < |s.rows|
    case Settle(p, _) => p in s.workers && !s.workers[p].processing && s.workers[p].row < |s.rows|
    case Crash(p) => p in s.workers
  }

  function Next(s: State, e: Event): State {
    if !Enabled(s, e) then s
    else match e.act
      case Receive(p, event, seen) =>
        State(s.rows + [Received(event, e.at)],
          if seen then s.workers[p := Worker(|s.rows|, e.at + LeasedQueue.LEASE, 0, false, true)] else s.workers)
      case Claim(p, i, seen) =>
        State(s.rows[i := Taken(s.rows[i], e.at)],
          if seen then s.workers[p := Worker(i, e.at + LeasedQueue.LEASE, s.rows[i].attempts + 1, true, true)]
          else s.workers)
      case Process(p, ok, fate) =>
        var t := s.workers[p];
        State(if ok && fate.Lands() then s.rows[t.row := Settled(s.rows[t.row])] else s.rows,
          if (ok && fate.Seen()) || !t.background then s.workers - {p} else s.workers[p := t.(processing := false)])
      case Settle(p, lands) =>
        var t := s.workers[p];
        State(if lands then s.rows[t.row := Outcome(s.rows[t.row], t.attempts, e.at)] else s.rows, s.workers - {p})
      case Crash(p) => s.(workers := s.workers - {p})
  }

  function Trace(s: State, es: seq<Event>): State
    decreases |es|
  {
    if es == [] then s else Trace(Next(s, es[0]), es[1..])
  }

  // ----- What happens to row i -----

  datatype Kind = Claims | Retries | Ends | Losses

  predicate At(s: State, p: Pid, i: nat) { p in s.workers && s.workers[p].row == i && s.workers[p].background }

  predicate Happens(k: Kind, s: State, e: Event, i: nat) {
    Enabled(s, e) &&
    match k
    case Claims => e.act.Claim? && e.act.row == i
    case Retries =>
      e.act.Settle? && e.act.lands && At(s, e.act.p, i) && s.workers[e.act.p].attempts < LeasedQueue.MAX_ATTEMPTS
    case Ends =>
      || (e.act.Process? && e.act.ok && e.act.fate.Seen() && At(s, e.act.p, i))
      || (e.act.Settle? && e.act.lands && At(s, e.act.p, i) && s.workers[e.act.p].attempts >= LeasedQueue.MAX_ATTEMPTS)
    case Losses =>
      || (e.act.Claim? && e.act.row == i && !e.act.seen)
      || (e.act.Settle? && !e.act.lands && At(s, e.act.p, i))
      || (e.act.Crash? && At(s, e.act.p, i))
  }

  function Count(k: Kind, s: State, es: seq<Event>, i: nat): nat
    decreases |es|
  {
    if es == [] then 0 else LeasedQueue.Bit(Happens(k, s, es[0], i)) + Count(k, Next(s, es[0]), es[1..], i)
  }

  // ----- Closed rows, under any interleaving -----

  /** A processed or failed row stays so and is never claimed again, whatever stale workers still write. */
  lemma {:induction false} ClosedIsForever(s: State, es: seq<Event>, i: nat)
    requires i < |s.rows| && Closed(s.rows[i])
    ensures var n := Trace(s, es);
      && i < |n.rows| && Closed(n.rows[i]) && n.rows[i].attempts == s.rows[i].attempts
      && (s.rows[i].settled ==> n.rows[i].settled) && (s.rows[i].failed ==> n.rows[i].failed)
      && Count(Claims, s, es, i) == 0
    decreases |es|
  {
    if es != [] {
      ClosedIsForever(Next(s, es[0]), es[1..], i);
    }
  }

  // ----- Attempts -----

  function Busy(s: State, i: nat): set<Pid> { set p | p in s.workers && At(s, p, i) }

  /** A claim whose answer arrives. */
  predicate Joins(s: State, e: Event, i: nat) { Happens(Claims, s, e, i) && e.act.seen }

  /** A background worker at row i is done with it, one way or another. */
  predicate Leaves(s: State, e: Event, i: nat) {
    Happens(Retries, s, e, i) || Happens(Ends, s, e, i) || (Happens(Losses, s, e, i) && !e.act.Claim?)
  }

  lemma JoinAddsBusy(s: State, e: Event, i: nat)
    requires Joins(s, e, i)
    ensures Busy(Next(s, e), i) == Busy(s, i) + {e.act.p} && e.act.p !in Busy(s, i)
  {}

  lemma LeaveRemovesBusy(s: State, e: Event, i: nat)
    requires Leaves(s, e, i)
    ensures Busy(s, i) == Busy(Next(s, e), i) + {e.act.p} && e.act.p !in Busy(Next(s, e), i)
  {
    assert Next(s, e).workers == s.workers - {e.act.p};
  }

  lemma OthersKeepBusy(s: State, e: Event, i: nat)
    requires !Joins(s, e, i) && !Leaves(s, e, i)
    ensures Busy(Next(s, e), i) == Busy(s, i)
  {
    var n := Next(s, e);
    assert forall p :: p != e.act.p ==>
      (p in n.workers <==> p in s.workers) && (p in s.workers ==> n.workers[p] == s.workers[p]);
  }

  lemma NextConserves(s: State, e: Event, i: nat)
    ensures |Busy(s, i)| + LeasedQueue.Bit(Happens(Claims, s, e, i)) ==
      LeasedQueue.Bit(Happens(Retries, s, e, i)) + LeasedQueue.Bit(Happens(Ends, s, e, i)) +
      LeasedQueue.Bit(Happens(Losses, s, e, i)) + |Busy(Next(s, e), i)|
  {
    if Joins(s, e, i) {
      JoinAddsBusy(s, e, i);
    } else if Leaves(s, e, i) {
      LeaveRemovesBusy(s, e, i);
    } else {
      OthersKeepBusy(s, e, i);
    }
  }

  /** Every attempt is retried, ended or lost, or still under way. */
  lemma {:induction false} AttemptsAreAccountedFor(s: State, es: seq<Event>, i: nat)
    ensures |Busy(s, i)| + Count(Claims, s, es, i) ==
      Count(Retries, s, es, i) + Count(Ends, s, es, i) + Count(Losses, s, es, i) + |Busy(Trace(s, es), i)|
    decreases |es|
  {
    if es != [] {
      NextConserves(s, es[0], i);
      AttemptsAreAccountedFor(Next(s, es[0]), es[1..], i);
    }
  }

  /** No two background workers have made the same attempt at a row. */
  ghost predicate Ranked(s: State) {
    && (forall p :: p in s.workers ==> s.workers[p].row < |s.rows|)
    && (forall p :: p in s.workers && s.workers[p].background ==>
          1 <= s.workers[p].attempts <= s.rows[s.workers[p].row].attempts)
    && (forall p :: p in s.workers && !s.workers[p].background ==> s.workers[p].processing)
    && (forall p, o, i :: At(s, p, i) && At(s, o, i) && s.workers[p].attempts == s.workers[o].attempts ==> p == o)
  }

  lemma NextKeepsRanked(s: State, e: Event)
    requires Ranked(s)
    ensures Ranked(Next(s, e))
  {
    if Enabled(s, e) && e.act.Claim? {
      ClaimKeepsRanked(s, e);
    } else {
      var n := Next(s, e);
      assert forall p, i :: At(n, p, i) ==> At(s, p, i) && n.workers[p].attempts == s.workers[p].attempts;
    }
  }

  lemma ClaimKeepsRanked(s: State, e: Event)
    requires Ranked(s) && Enabled(s, e) && e.act.Claim?
    ensures Ranked(Next(s, e))
  {
    var n := Next(s, e);
    forall p, o, i | At(n, p, i) && At(n, o, i) && n.workers[p].attempts == n.workers[o].attempts ensures p == o {
      if p != e.act.p && o != e.act.p {
        assert At(s, p, i) && At(s, o, i);
      }
    }
  }

  function Attempts(s: State, i: nat): nat { if i < |s.rows| then s.rows[i].attempts else 0 }

  /** The attempts below the fifth that may still be followed by a retry. */
  function Room(s: State, i: nat): set<nat> {
    set k: nat | 1 <= k < LeasedQueue.MAX_ATTEMPTS && (k > Attempts(s, i) || k in Ranks(s, i))
  }

  function Ranks(s: State, i: nat): set<nat> { set p | p in Busy(s, i) :: s.workers[p].attempts }

  lemma RetryUsesRoom(s: State, e: Event, i: nat)
    requires Ranked(s) && Happens(Retries, s, e, i)
    ensures s.workers[e.act.p].attempts in Room(s, i) && s.workers[e.act.p].attempts !in Room(Next(s, e), i)
  {
    var n, k := Next(s, e), s.workers[e.act.p].attempts;
    LeaveRemovesBusy(s, e, i);
    assert e.act.p in Busy(s, i) && k in Ranks(s, i);
    forall p | p in Busy(n, i) ensures n.workers[p].attempts != k {
      assert p in Busy(s, i) && At(s, p, i) && At(s, e.act.p, i) && n.workers[p] == s.workers[p];
    }
    assert k <= Attempts(n, i);
    assert k !in Ranks(n, i);
  }

  lemma NextLowersRoom(s: State, e: Event, i: nat)
    requires Ranked(s)
    ensures LeasedQueue.Bit(Happens(Retries, s, e, i)) + |Room(Next(s, e), i)| <= |Room(s, i)|
  {
    var n := Next(s, e);
    forall k | k in Room(n, i) ensures k in Room(s, i) {
      if k in Ranks(n, i) {
        var p :| p in Busy(n, i) && n.workers[p].attempts == k;
        if p in Busy(s, i) && s.workers[p].attempts == k {
          assert k in Ranks(s, i);
        }
      }
    }
    Subset(Room(n, i), Room(s, i));
    if Happens(Retries, s, e, i) {
      RetryUsesRoom(s, e, i);
      Subset(Room(n, i) + {s.workers[e.act.p].attempts}, Room(s, i));
    }
  }

  lemma {:induction false} Subset(a: set<nat>, b: set<nat>)
    requires a <= b
    ensures |a| <= |b|
  {
    assert b == a + (b - a);
  }

  /** At most four retries of a row are ever written, with no assumption on leases. */
  lemma {:induction false} RetriesAreBounded(s: State, es: seq<Event>, i: nat)
    requires Ranked(s)
    ensures Count(Retries, s, es, i) <= |Room(s, i)| <= 4
    decreases |es|
  {
    Subset(Room(s, i), {1, 2, 3, 4});
    if es != [] {
      NextLowersRoom(s, es[0], i);
      NextKeepsRanked(s, es[0]);
      RetriesAreBounded(Next(s, es[0]), es[1..], i);
    }
  }

  // ----- The live-lease hypothesis -----

  /** What is written is written within the writer's lease. */
  predicate Proper(s: State, e: Event) {
    match e.act
    case Process(p, ok, fate) => Enabled(s, e) && ok && fate.Lands() ==> e.at <= s.workers[p].lease
    case Settle(p, lands) => Enabled(s, e) && lands ==> e.at <= s.workers[p].lease
    case _ => true
  }

  predicate ProperRun(s: State, from: Instant, es: seq<Event>)
    decreases |es|
  {
    es == [] || (from <= es[0].at && Proper(s, es[0]) && ProperRun(Next(s, es[0]), es[0].at, es[1..]))
  }

  predicate Holds(s: State, p: Pid, i: nat, now: Instant) {
    p in s.workers && s.workers[p].row == i && now <= s.workers[p].lease
  }

  /** The lock of a live worker stands, unless its own mark has closed the row unseen. */
  predicate LiveOk(s: State, t: Worker, now: Instant) {
    t.row < |s.rows| &&
    (now <= t.lease ==>
      || (!Closed(s.rows[t.row]) && s.rows[t.row].lockedUntil == Some(t.lease))
      || (Closed(s.rows[t.row]) && !t.processing))
  }

  ghost predicate AllLive(s: State, now: Instant) { forall p :: p in s.workers ==> LiveOk(s, s.workers[p], now) }

  /** At most one live worker at a row. */
  ghost predicate Exclusive(s: State, now: Instant) {
    forall p, o, i :: Holds(s, p, i, now) && Holds(s, o, i, now) ==> p == o
  }

  ghost predicate Sound(s: State, now: Instant) { Ranked(s) && AllLive(s, now) && Exclusive(s, now) }

  lemma NextKeepsSound(s: State, now: Instant, e: Event)
    requires Sound(s, now) && now <= e.at && Proper(s, e)
    ensures Sound(Next(s, e), e.at)
  {
    NextKeepsRanked(s, e);
    NextKeepsExclusive(s, now, e);
    NextKeepsLive(s, now, e);
  }

  lemma NextKeepsExclusive(s: State, now: Instant, e: Event)
    requires Sound(s, now) && now <= e.at && Proper(s, e)
    ensures Exclusive(Next(s, e), e.at)
  {
    var n := Next(s, e);
    NoneHoldsClaimable(s, now, e);
    forall p, o, i | Holds(n, p, i, e.at) && Holds(n, o, i, e.at) ensures p == o {
      if Holds(s, p, i, e.at) && Holds(s, o, i, e.at) {
        assert Holds(s, p, i, now) && Holds(s, o, i, now);
      }
    }
  }

  lemma NextKeepsLive(s: State, now: Instant, e: Event)
    requires Sound(s, now) && now <= e.at && Proper(s, e)
    ensures AllLive(Next(s, e), e.at)
  {
    var n := Next(s, e);
    NoneHoldsClaimable(s, now, e);
    forall p | p in n.workers ensures LiveOk(n, n.workers[p], e.at) {
      if p in s.workers {
        assert LiveOk(s, s.workers[p], now);
        if Enabled(s, e) && (e.act.Process? || e.act.Settle?) && Holds(s, p, s.workers[e.act.p].row, e.at) {
          assert Holds(s, p, s.workers[e.act.p].row, now);
          assert e.at <= s.workers[e.act.p].lease ==> Holds(s, e.act.p, s.workers[e.act.p].row, now);
        }
      }
    }
  }

  /** A row that can be claimed is held by no live worker. */
  lemma NoneHoldsClaimable(s: State, now: Instant, e: Event)
    requires Sound(s, now) && now <= e.at
    ensures Enabled(s, e) && e.act.Claim? ==> forall p :: !Holds(s, p, e.act.row, e.at)
    ensures Enabled(s, e) && e.act.Receive? ==> forall p :: !Holds(s, p, |s.rows|, e.at)
  {
    forall p | p in s.workers ensures LiveOk(s, s.workers[p], now) {}
  }

  /** The row is closed and no live worker is left to write to it. */
  ghost predicate Over(s: State, i: nat, now: Instant) {
    i < |s.rows| && Closed(s.rows[i]) && forall p :: !Holds(s, p, i, now)
  }

  lemma OverStays(s: State, now: Instant, e: Event, i: nat)
    requires Sound(s, now) && now <= e.at && Proper(s, e) && Over(s, i, now)
    ensures Over(Next(s, e), i, e.at) && !Happens(Ends, s, e, i)
  {
    forall p | Holds(Next(s, e), p, i, e.at) ensures Holds(s, p, i, now) {}
    assert Happens(Ends, s, e, i) ==> Holds(s, e.act.p, i, now);
  }

  lemma EndIsOver(s: State, now: Instant, e: Event, i: nat)
    requires Sound(s, now) && now <= e.at && Proper(s, e) && Happens(Ends, s, e, i)
    ensures Over(Next(s, e), i, e.at)
  {
    assert Holds(s, e.act.p, i, now);
    forall p ensures !Holds(Next(s, e), p, i, e.at) {
      if Holds(Next(s, e), p, i, e.at) {
        assert Holds(s, p, i, now);
      }
    }
  }

  lemma {:induction false} EndsAtMostOnce(s: State, now: Instant, es: seq<Event>, i: nat)
    requires Sound(s, now) && ProperRun(s, now, es)
    ensures Count(Ends, s, es, i) <= (if Over(s, i, now) then 0 else 1)
    decreases |es|
  {
    if es != [] {
      var e := es[0];
      NextKeepsSound(s, now, e);
      EndsAtMostOnce(Next(s, e), e.at, es[1..], i);
      if Over(s, i, now) {
        OverStays(s, now, e, i);
      } else if Happens(Ends, s, e, i) {
        EndIsOver(s, now, e, i);
      }
    }
  }

  /** For a row not yet received: background attempts exceed five only by those lost or under way. */
  lemma AttemptsAreBounded(s: State, now: Instant, es: seq<Event>, i: nat)
    requires Sound(s, now) && ProperRun(s, now, es) && i >= |s.rows|
    ensures Count(Claims, s, es, i) <= LeasedQueue.MAX_ATTEMPTS + Count(Losses, s, es, i) + |Busy(Trace(s, es), i)|
  {
    AttemptsAreAccountedFor(s, es, i);
    RetriesAreBounded(s, es, i);
    EndsAtMostOnce(s, now, es, i);
    assert Busy(s, i) == {};
  }

  // ----- Runs put together -----

  /** The events of an undisturbed attempt at row i. */
  function AttemptEvents(now: Instant, i: nat, ok: bool): seq<Event> {
    [Event(now, Claim(0, i, true)), Event(now, Process(0, ok, Machine.Succeeds))]
    + if ok then [] else [Event(now, Settle(0, true))]
  }

  lemma {:induction false} TraceConcat(s: State, es: seq<Event>, fs: seq<Event>)
    ensures Trace(s, es + fs) == Trace(Trace(s, es), fs)
    decreases |es|
  {
    if es == [] {
      assert es + fs == fs;
    } else {
      assert (es + fs)[1..] == es[1..] + fs;
      TraceConcat(Next(s, es[0]), es[1..], fs);
    }
  }

  predicate NoneAfter(es: seq<Event>, at: Instant) { forall j :: 0 <= j < |es| ==> es[j].at <= at }

  lemma {:induction false} ProperConcat(s: State, from: Instant, es: seq<Event>, at: Instant, fs: seq<Event>)
    requires ProperRun(s, from, es) && ProperRun(Trace(s, es), at, fs)
    requires from <= at && NoneAfter(es, at)
    ensures ProperRun(s, from, es + fs)
    decreases |es|
  {
    if es == [] {
      assert es + fs == fs;
    } else {
      assert (es + fs)[1..] == es[1..] + fs;
      assert forall j :: 0 <= j < |es| - 1 ==> es[1..][j] == es[j + 1];
      ProperConcat(Next(s, es[0]), es[0].at, es[1..], at, fs);
    }
  }

}
