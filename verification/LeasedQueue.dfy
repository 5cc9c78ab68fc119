/** A table of jobs claimed under a time-limited lease: outbound_jobs (internal/store/store.go) and crm_jobs
    (internal/store/crm.go), with the workers that hold rows of it. Every statement is one atomic event at a
    database time; workers may die, stall or lose a write at any point. */
module LeasedQueue {
  import opened Wrappers
  import opened SendWindow

  // ----- One row, and what each statement does to it -----

  datatype Status = Queued | Running | Done | Failed | Cancelled

  datatype Row = Row(status: Status, attempts: nat, availableAt: Instant, lockedUntil: Option<Instant>)

  const LEASE := 2 * MINUTE
  const MAX_ATTEMPTS: nat := 5

  /** What a worker writes back: Complete, Retry after a delay, or Fail. */
  datatype Outcome = Finish | Requeue(delay: int) | GiveUp

  predicate Terminal(r: Row) { r.status == Done || r.status == Failed || r.status == Cancelled }

  predicate Eligible(r: Row, now: Instant) {
    || (r.status == Queued && r.availableAt <= now)
    || (r.status == Running && r.lockedUntil.Some? && r.lockedUntil.value < now)
  }

  function New(availableAt: Instant): Row { Row(Queued, 0, availableAt, None) }

  function Claimed(r: Row, now: Instant): Row {
    r.(status := Running, attempts := r.attempts + 1, lockedUntil := Some(now + LEASE))
  }

  function Written(r: Row, o: Outcome, now: Instant): Row {
    match o
    case Finish => r.(status := Done, lockedUntil := None)
    case Requeue(delay) => r.(status := Queued, availableAt := now + delay, lockedUntil := None)
    case GiveUp => r.(status := Failed, lockedUntil := None)
  }

  function Withdrawn(r: Row): Row { if r.status == Queued then r.(status := Cancelled) else r }

  // ----- The table and its workers -----

  type Pid = nat

  /** A worker's snapshot of the row it claimed; `ran` once it has called the outside service. */
  datatype Ticket = Ticket(row: nat, lease: Instant, attempts: nat, ran: bool)

  datatype Queue = Queue(rows: seq<Row>, held: map<Pid, Ticket>)

  datatype Act =
    | Insert(availableAt: Instant)
    | Withdraw(ids: set<nat>)
    | Claim(p: Pid, row: nat)
    | ClaimUnseen(row: nat)                            // the claim commits, its answer is lost
    | Perform(p: Pid)                                      // the worker calls Telnyx or HighLevel
    | Write(p: Pid, outcome: Outcome, lands: bool)     // updates by id alone
    | Drop(p: Pid)                                     // the worker dies

  datatype Event = Event(at: Instant, act: Act)

  predicate Enabled(q: Queue, e: Event) {
    match e.act
    case Insert(_) => true
    case Withdraw(_) => true
    case Claim(p, i) => p !in q.held && i < |q.rows| && Eligible(q.rows[i], e.at)
    case ClaimUnseen(i) => i < |q.rows| && Eligible(q.rows[i], e.at)
    case Perform(p) => p in q.held && !q.held[p].ran
    case Write(p, _, _) => p in q.held && q.held[p].row < |q.rows|
    case Drop(p) => p in q.held
  }

  function Next(q: Queue, e: Event): Queue {
    if !Enabled(q, e) then q
    else match e.act
      case Insert(t) => q.(rows := q.rows + [New(t)])
      case Withdraw(ids) => q.(rows := WithdrawRows(q.rows, ids))
      case Claim(p, i) =>
        Queue(q.rows[i := Claimed(q.rows[i], e.at)],
          q.held[p := Ticket(i, e.at + LEASE, q.rows[i].attempts + 1, false)])
      case ClaimUnseen(i) => q.(rows := q.rows[i := Claimed(q.rows[i], e.at)])
      case Perform(p) => q.(held := q.held[p := q.held[p].(ran := true)])
      case Write(p, o, lands) =>
        var i := q.held[p].row;
        Queue(if lands then q.rows[i := Written(q.rows[i], o, e.at)] else q.rows, q.held - {p})
      case Drop(p) => q.(held := q.held - {p})
  }

  function WithdrawRows(rows: seq<Row>, ids: set<nat>): (r: seq<Row>)
    ensures |r| == |rows|
    ensures forall i :: 0 <= i < |rows| ==> r[i] == if i in ids then Withdrawn(rows[i]) else rows[i]
  {
    seq(|rows|, i requires 0 <= i < |rows| => if i in ids then Withdrawn(rows[i]) else rows[i])
  }

  function Trace(q: Queue, es: seq<Event>): Queue
    decreases |es|
  {
    if es == [] then q else Trace(Next(q, es[0]), es[1..])
  }

  // ----- Hypotheses on a run -----

  /** A worker calls out and writes back only while its lease has not passed, and it puts back a job it has
      run only when fewer than five attempts have been made. */
  predicate Proper(q: Queue, e: Event) {
    match e.act
    case Perform(p) => p in q.held ==> e.at <= q.held[p].lease
    case Write(p, o, lands) => p in q.held && lands ==>
      e.at <= q.held[p].lease && (o.Requeue? && q.held[p].ran ==> q.held[p].attempts < MAX_ATTEMPTS)
    case _ => true
  }

  /** Database time does not run backwards, and every event is proper. */
  predicate ProperTrace(q: Queue, from: Instant, es: seq<Event>)
    decreases |es|
  {
    es == [] || (from <= es[0].at && Proper(q, es[0]) && ProperTrace(Next(q, es[0]), es[0].at, es[1..]))
  }

  // ----- The invariant -----

  predicate Holds(q: Queue, p: Pid, i: nat, now: Instant) {
    p in q.held && q.held[p].row == i && now <= q.held[p].lease
  }

  /** While a worker's lease lives, the row records that lease and the attempt the worker counts. */
  predicate Agrees(q: Queue, t: Ticket, now: Instant) {
    && t.row < |q.rows|
    && t.attempts >= 1
    && (now <= t.lease ==>
        var r := q.rows[t.row];
        r.status == Running && r.lockedUntil == Some(t.lease) && r.attempts == t.attempts)
  }

  /** Live leases are recorded, and no two workers ever share a row's lease. */
  ghost predicate Sound(q: Queue, now: Instant) {
    && (forall p :: p in q.held ==> Agrees(q, q.held[p], now))
    && Unshared(q)
  }

  ghost predicate Unshared(q: Queue) {
    forall p, o :: p in q.held && o in q.held && p != o && q.held[p].row == q.held[o].row ==>
      q.held[p].lease != q.held[o].lease
  }

  /** At most one worker holds a row. */
  lemma HoldersExclude(q: Queue, now: Instant, p: Pid, o: Pid, i: nat)
    requires Sound(q, now) && Holds(q, p, i, now) && Holds(q, o, i, now)
    ensures p == o
  {}

  lemma NextKeepsSound(q: Queue, now: Instant, e: Event)
    requires Sound(q, now) && now <= e.at && Proper(q, e)
    ensures Sound(Next(q, e), e.at)
  {
    var n := Next(q, e);
    if Enabled(q, e) {
      match e.act
      case Claim(p, i) =>
        forall o | o in q.held && q.held[o].row == i ensures q.held[o].lease < e.at {
          assert Agrees(q, q.held[o], now);
        }
        KeepsAgreement(q, now, e);
      case Perform(p) =>
        KeepsAgreement(q, now, e);
      case _ =>
        assert forall o :: o in n.held ==> o in q.held && n.held[o] == q.held[o];
        KeepsAgreement(q, now, e);
    }
  }

  lemma KeepsAgreement(q: Queue, now: Instant, e: Event)
    requires Sound(q, now) && now <= e.at && Proper(q, e)
    ensures forall o :: o in Next(q, e).held ==> Agrees(Next(q, e), Next(q, e).held[o], e.at)
  {
    var n := Next(q, e);
    forall o | o in n.held ensures Agrees(n, n.held[o], e.at) {
      if o in q.held {
        assert Agrees(q, q.held[o], now);
        if e.act.Write? && Enabled(q, e) {
          assert Agrees(q, q.held[e.act.p], now);
        }
      }
    }
  }

  // ----- What a run keeps -----

  lemma NextKeepsTerminal(q: Queue, now: Instant, e: Event, i: nat)
    requires Sound(q, now) && now <= e.at && Proper(q, e)
    requires i < |q.rows| && Terminal(q.rows[i])
    ensures i < |Next(q, e).rows| && Next(q, e).rows[i] == q.rows[i]
  {}

  /** Done, failed and cancelled are absorbing: the row never changes again. */
  lemma {:induction false} TerminalIsAbsorbing(q: Queue, now: Instant, es: seq<Event>, i: nat)
    requires Sound(q, now) && ProperTrace(q, now, es)
    requires i < |q.rows| && Terminal(q.rows[i])
    ensures i < |Trace(q, es).rows| && Trace(q, es).rows[i] == q.rows[i]
    decreases |es|
  {
    if es != [] {
      NextKeepsTerminal(q, now, es[0], i);
      NextKeepsSound(q, now, es[0]);
      TerminalIsAbsorbing(Next(q, es[0]), es[0].at, es[1..], i);
    }
  }

  // ----- Counting what happened to one row -----

  function Bit(b: bool): nat { if b then 1 else 0 }

  predicate On(q: Queue, p: Pid, i: nat) { p in q.held && q.held[p].row == i }

  /** The outside service is called for row i. */
  predicate IsRun(q: Queue, e: Event, i: nat) {
    e.act.Perform? && Enabled(q, e) && On(q, e.act.p, i)
  }

  /** The outcome of a call for row i reaches the table. */
  predicate IsRecorded(q: Queue, e: Event, i: nat) {
    e.act.Write? && e.act.lands && Enabled(q, e) && On(q, e.act.p, i) && q.held[e.act.p].ran
  }

  /** The outcome of a call for row i is lost: the worker died or its write failed. */
  predicate IsLost(q: Queue, e: Event, i: nat) {
    (e.act.Drop? || (e.act.Write? && !e.act.lands)) && Enabled(q, e) && On(q, e.act.p, i) && q.held[e.act.p].ran
  }

  /** Row i is finished or given up by a worker. */
  predicate IsEnding(q: Queue, e: Event, i: nat) {
    e.act.Write? && e.act.lands && !e.act.outcome.Requeue? && Enabled(q, e) && On(q, e.act.p, i)
  }

  function Runs(q: Queue, es: seq<Event>, i: nat): nat
    decreases |es|
  {
    if es == [] then 0 else Bit(IsRun(q, es[0], i)) + Runs(Next(q, es[0]), es[1..], i)
  }

  function Recorded(q: Queue, es: seq<Event>, i: nat): nat
    decreases |es|
  {
    if es == [] then 0 else Bit(IsRecorded(q, es[0], i)) + Recorded(Next(q, es[0]), es[1..], i)
  }

  function Lost(q: Queue, es: seq<Event>, i: nat): nat
    decreases |es|
  {
    if es == [] then 0 else Bit(IsLost(q, es[0], i)) + Lost(Next(q, es[0]), es[1..], i)
  }

  function Endings(q: Queue, es: seq<Event>, i: nat): nat
    decreases |es|
  {
    if es == [] then 0 else Bit(IsEnding(q, es[0], i)) + Endings(Next(q, es[0]), es[1..], i)
  }

  /** Workers that have called the service for row i and still owe its outcome. */
  function Owing(q: Queue, i: nat): set<Pid> {
    set p | p in q.held && q.held[p].row == i && q.held[p].ran
  }

  lemma OwingUnchanged(q: Queue, e: Event, i: nat)
    requires !IsRun(q, e, i) && !IsRecorded(q, e, i) && !IsLost(q, e, i)
    ensures Owing(Next(q, e), i) == Owing(q, i)
  {
    var n := Next(q, e);
    if Enabled(q, e) {
      if e.act.Claim? || e.act.Perform? || e.act.Write? || e.act.Drop? {
        assert forall o :: o != e.act.p ==> (o in n.held <==> o in q.held) && (o in q.held ==> n.held[o] == q.held[o]);
      }
    }
  }

  lemma RunAddsOwing(q: Queue, e: Event, i: nat)
    requires IsRun(q, e, i)
    ensures Owing(Next(q, e), i) == Owing(q, i) + {e.act.p} && e.act.p !in Owing(q, i)
  {
    var n := Next(q, e);
    assert n.held == q.held[e.act.p := q.held[e.act.p].(ran := true)];
  }

  lemma OutcomeSettlesOwing(q: Queue, e: Event, i: nat)
    requires IsRecorded(q, e, i) || IsLost(q, e, i)
    ensures Owing(q, i) == Owing(Next(q, e), i) + {e.act.p} && e.act.p !in Owing(Next(q, e), i)
  {
    assert Next(q, e).held == q.held - {e.act.p};
  }

  lemma NextConserves(q: Queue, e: Event, i: nat)
    ensures |Owing(q, i)| + Bit(IsRun(q, e, i)) ==
      Bit(IsRecorded(q, e, i)) + Bit(IsLost(q, e, i)) + |Owing(Next(q, e), i)|
  {
    var before, after := Owing(q, i), Owing(Next(q, e), i);
    if IsRun(q, e, i) {
      RunAddsOwing(q, e, i);
      assert |before + {e.act.p}| == |before| + 1;
    } else if IsRecorded(q, e, i) || IsLost(q, e, i) {
      OutcomeSettlesOwing(q, e, i);
      assert |after + {e.act.p}| == |after| + 1;
    } else {
      OwingUnchanged(q, e, i);
    }
  }

  /** Every call is recorded, lost, or still owed. */
  lemma {:induction false} RunsAreAccountedFor(q: Queue, es: seq<Event>, i: nat)
    ensures |Owing(q, i)| + Runs(q, es, i) == Recorded(q, es, i) + Lost(q, es, i) + |Owing(Trace(q, es), i)|
    decreases |es|
  {
    if es != [] {
      NextConserves(q, es[0], i);
      RunsAreAccountedFor(Next(q, es[0]), es[1..], i);
    }
  }

  /** How many outcomes of row i can still be recorded. */
  ghost function Allowance(q: Queue, now: Instant, i: nat): nat {
    if i >= |q.rows| then MAX_ATTEMPTS
    else if Terminal(q.rows[i]) then 0
    else if (exists p :: Holds(q, p, i, now)) then AtLeastOne(MAX_ATTEMPTS + 1 - q.rows[i].attempts)
    else AtLeastOne(MAX_ATTEMPTS - q.rows[i].attempts)
  }

  function AtLeastOne(n: int): nat { if n < 1 then 1 else n }

  lemma LapseLowersAllowance(q: Queue, now: Instant, later: Instant, i: nat)
    requires now <= later
    ensures Allowance(q, later, i) <= Allowance(q, now, i)
  {
    if i < |q.rows| && !(exists p :: Holds(q, p, i, now)) {
      assert forall p :: Holds(q, p, i, later) ==> Holds(q, p, i, now);
    }
  }

  lemma NextLowersAllowance(q: Queue, e: Event, i: nat)
    requires Sound(q, e.at) && Proper(q, e)
    ensures Bit(IsRecorded(q, e, i)) + Allowance(Next(q, e), e.at, i) <= Allowance(q, e.at, i)
  {
    var n := Next(q, e);
    if Enabled(q, e) && i < |q.rows| && !Terminal(q.rows[i]) {
      match e.act
      case Claim(p, j) =>
        assert i != j ==> forall o :: Holds(n, o, i, e.at) ==> Holds(q, o, i, e.at);
      case ClaimUnseen(j) =>
        assert forall o :: Holds(n, o, i, e.at) ==> Holds(q, o, i, e.at);
        assert i == j ==> forall o :: !Holds(q, o, i, e.at);
      case Perform(p) =>
        assert forall o :: Holds(n, o, i, e.at) <==> Holds(q, o, i, e.at);
      case Write(p, o, lands) =>
        assert forall o :: Holds(n, o, i, e.at) ==> Holds(q, o, i, e.at);
        if lands && q.held[p].row == i {
          assert Holds(q, p, i, e.at);
          assert forall o :: !Holds(n, o, i, e.at);
        }
      case Drop(p) =>
        assert forall o :: Holds(n, o, i, e.at) ==> Holds(q, o, i, e.at);
      case Insert(_) =>
        assert forall o :: Holds(n, o, i, e.at) <==> Holds(q, o, i, e.at);
      case Withdraw(_) =>
        assert forall o :: Holds(n, o, i, e.at) <==> Holds(q, o, i, e.at);
    }
  }

  lemma {:induction false} RecordedWithinAllowance(q: Queue, now: Instant, es: seq<Event>, i: nat)
    requires Sound(q, now) && ProperTrace(q, now, es)
    ensures Recorded(q, es, i) <= Allowance(q, now, i)
    decreases |es|
  {
    if es != [] {
      var e := es[0];
      LapseLowersAllowance(q, now, e.at, i);
      NextLowersAllowance(q, e, i);
      NextKeepsSound(q, now, e);
      RecordedWithinAllowance(Next(q, e), e.at, es[1..], i);
    }
  }

  /** A row is ended at most once, and then never again. */
  lemma {:induction false} EndsAtMostOnce(q: Queue, now: Instant, es: seq<Event>, i: nat)
    requires Sound(q, now) && ProperTrace(q, now, es)
    ensures Endings(q, es, i) <= if i < |q.rows| && Terminal(q.rows[i]) then 0 else 1
    decreases |es|
  {
    if es != [] {
      NextKeepsSound(q, now, es[0]);
      EndsAtMostOnce(Next(q, es[0]), es[0].at, es[1..], i);
      if i < |q.rows| && Terminal(q.rows[i]) {
        NextKeepsTerminal(q, now, es[0], i);
      }
    }
  }

  /** For a row not yet inserted, or never attempted: at most five calls have their outcome recorded, so
      calls exceed five only by outcomes lost or still owed. */
  lemma CallsAreBounded(q: Queue, now: Instant, es: seq<Event>, i: nat)
    requires Sound(q, now) && ProperTrace(q, now, es)
    requires i < |q.rows| ==> q.rows[i].attempts == 0
    ensures Recorded(q, es, i) <= MAX_ATTEMPTS
    ensures Runs(q, es, i) <= MAX_ATTEMPTS + Lost(q, es, i) + |Owing(Trace(q, es), i)|
  {
    RecordedWithinAllowance(q, now, es, i);
    RunsAreAccountedFor(q, es, i);
    forall p | p in q.held && q.held[p].row == i ensures i < |q.rows| && q.held[p].lease < now {
      assert Agrees(q, q.held[p], now);
    }
  }

}
