/** When an inbound row or a delivery event ends both processed and failed. */
module InboxMarks {
  import opened SendWindow
  import opened Inbox

  // ----- When a row ends both processed and failed -----

  predicate Both(s: State, i: nat) { i < |s.rows| && s.rows[i].settled && s.rows[i].failed }

  /** A worker on its fifth attempt or later marks row i, and its answer is lost. */
  predicate UnseenLastMark(s: State, e: Event, i: nat) {
    && e.act.Process? && Enabled(s, e) && e.act.ok && e.act.fate == Machine.CommitsUnseen
    && At(s, e.act.p, i) && s.workers[e.act.p].attempts >= LeasedQueue.MAX_ATTEMPTS
  }

  /** The workers that have made such a mark and done nothing since. */
  function Marking(s: State, e: Event, i: nat, marking: set<Pid>): set<Pid> {
    if UnseenLastMark(s, e, i) then marking + {e.act.p}
    else if Enabled(s, e) then marking - {e.act.p}
    else marking
  }

  predicate FailsAfterMark(s: State, e: Event, marking: set<Pid>) {
    e.act.Settle? && e.act.lands && Enabled(s, e) && e.act.p in marking
  }

  /** Somewhere in the run such a mark is followed by the same worker's landing failure. */
  predicate MarkedThenFailed(s: State, es: seq<Event>, i: nat, marking: set<Pid>)
    decreases |es|
  {
    es != [] &&
    (FailsAfterMark(s, es[0], marking) || MarkedThenFailed(Next(s, es[0]), es[1..], i, Marking(s, es[0], i, marking)))
  }

  /** Those at work for a mark: past processing, on the fifth attempt or later, at a row they have settled. */
  ghost predicate Marked(s: State, i: nat, marking: set<Pid>) {
    forall p :: p in marking ==>
      && At(s, p, i) && !s.workers[p].processing && s.workers[p].attempts >= LeasedQueue.MAX_ATTEMPTS
      && i < |s.rows| && s.rows[i].settled
  }

  /** Nobody else is left who could add the other mark to row i. */
  ghost predicate Single(s: State, i: nat, now: Instant, marking: set<Pid>) {
    i < |s.rows| ==>
      && !(s.rows[i].settled && s.rows[i].failed)
      && (s.rows[i].failed ==> forall p :: !Holds(s, p, i, now))
      && (s.rows[i].settled ==>
            forall p :: Holds(s, p, i, now) ==> s.workers[p].attempts < LeasedQueue.MAX_ATTEMPTS || p in marking)
  }

  lemma NextKeepsMarked(s: State, e: Event, i: nat, marking: set<Pid>)
    requires Marked(s, i, marking)
    ensures Marked(Next(s, e), i, Marking(s, e, i, marking))
  {
    forall p | p in Marking(s, e, i, marking) && p != e.act.p ensures p in marking {}
  }

  lemma NextKeepsSingle(s: State, now: Instant, e: Event, i: nat, marking: set<Pid>)
    requires Sound(s, now) && now <= e.at && Proper(s, e)
    requires Single(s, i, now, marking) && !FailsAfterMark(s, e, marking)
    ensures Single(Next(s, e), i, e.at, Marking(s, e, i, marking))
  {
    var n := Next(s, e);
    NoneHoldsClaimable(s, now, e);
    assert forall p :: Holds(s, p, i, e.at) ==> Holds(s, p, i, now);
    if Enabled(s, e) && i < |s.rows| {
      if (e.act.Process? || e.act.Settle?) && s.workers[e.act.p].row == i {
        WriteKeepsSingle(s, now, e, i, marking);
      } else {
        assert n.rows[i].settled == s.rows[i].settled && n.rows[i].failed == s.rows[i].failed;
        forall p | Holds(n, p, i, e.at) && Closed(s.rows[i])
          ensures Holds(s, p, i, now) && n.workers[p].attempts == s.workers[p].attempts && p != e.act.p {}
      }
    }
  }

  /** A statement by a worker at row i itself. */
  lemma WriteKeepsSingle(s: State, now: Instant, e: Event, i: nat, marking: set<Pid>)
    requires Sound(s, now) && now <= e.at && Proper(s, e) && Enabled(s, e)
    requires (e.act.Process? || e.act.Settle?) && s.workers[e.act.p].row == i && i < |s.rows|
    requires Single(s, i, now, marking) && !FailsAfterMark(s, e, marking)
    ensures Single(Next(s, e), i, e.at, Marking(s, e, i, marking))
  {
    var n, p := Next(s, e), e.act.p;
    assert LiveOk(s, s.workers[p], now);
    forall o | Holds(n, o, i, e.at)
      ensures Holds(s, o, i, now) && n.workers[o].attempts == s.workers[o].attempts {}
    if n.rows != s.rows {
      assert Holds(s, p, i, now);
      assert forall o :: Holds(n, o, i, e.at) ==> o == p;
    }
  }

  /** Such a failure leaves the row both for good. */
  lemma FailureMakesBoth(s: State, es: seq<Event>, i: nat, marking: set<Pid>)
    requires es != [] && Marked(s, i, marking) && FailsAfterMark(s, es[0], marking)
    ensures Both(Trace(s, es), i)
  {
    var s1 := Next(s, es[0]);
    assert s1.rows[i].settled && s1.rows[i].failed;
    ClosedIsForever(s1, es[1..], i);
  }

  lemma {:induction false} BothFrom(s: State, now: Instant, es: seq<Event>, i: nat, marking: set<Pid>)
    requires Sound(s, now) && ProperRun(s, now, es)
    requires Marked(s, i, marking) && Single(s, i, now, marking)
    ensures Both(Trace(s, es), i) <==> MarkedThenFailed(s, es, i, marking)
    decreases |es|
  {
    if es != [] {
      var e := es[0];
      if FailsAfterMark(s, e, marking) {
        FailureMakesBoth(s, es, i, marking);
      } else {
        NextKeepsSound(s, now, e);
        NextKeepsMarked(s, e, i, marking);
        NextKeepsSingle(s, now, e, i, marking);
        BothFrom(Next(s, e), e.at, es[1..], i, Marking(s, e, i, marking));
      }
    }
  }

  /** Within leases, a row not yet received ends both processed and failed exactly when some worker's mark of a
      fifth or later attempt commits unseen and the failure that worker then writes lands. */
  lemma BothExactly(s: State, now: Instant, es: seq<Event>, i: nat)
    requires Sound(s, now) && ProperRun(s, now, es) && i >= |s.rows|
    ensures Both(Trace(s, es), i) <==> MarkedThenFailed(s, es, i, {})
  {
    BothFrom(s, now, es, i, {});
  }

  /** In particular never, when no such mark commits unseen. */
  predicate NoUnseenLastMark(s: State, es: seq<Event>, i: nat)
    decreases |es|
  {
    es == [] || (!UnseenLastMark(s, es[0], i) && NoUnseenLastMark(Next(s, es[0]), es[1..], i))
  }

  lemma {:induction false} NoMarkNoFailure(s: State, es: seq<Event>, i: nat)
    requires NoUnseenLastMark(s, es, i)
    ensures !MarkedThenFailed(s, es, i, {})
    decreases |es|
  {
    if es != [] {
      assert Marking(s, es[0], i, {}) == {};
      NoMarkNoFailure(Next(s, es[0]), es[1..], i);
    }
  }

  lemma NeverBoth(s: State, now: Instant, es: seq<Event>, i: nat)
    requires Sound(s, now) && ProperRun(s, now, es) && i >= |s.rows| && NoUnseenLastMark(s, es, i)
    ensures !Both(Trace(s, es), i)
  {
    BothExactly(s, now, es, i);
    NoMarkNoFailure(s, es, i);
  }

  // ----- A run in which it happens -----

  /** The row after k failed attempts, each made as soon as it may be. */
  function AfterFailures(k: nat): Item
    requires k < LeasedQueue.MAX_ATTEMPTS
  {
    if k == 0 then Received("e", 0)
    else
      var r := AfterFailures(k - 1);
      Postponed(Taken(r, r.lockedUntil.value + 1), r.lockedUntil.value + 1, RetryDelay(k))
  }

  function LastTime(k: nat): Instant
    requires k < LeasedQueue.MAX_ATTEMPTS
  {
    if k == 0 then 0 else AfterFailures(k - 1).lockedUntil.value + 1
  }

  /** The handler dies, and then background attempts fail one after the other. */
  lemma {:induction false} FailuresReach(k: nat) returns (es: seq<Event>)
    requires k < LeasedQueue.MAX_ATTEMPTS
    ensures Trace(State([], map[]), es) == State([AfterFailures(k)], map[])
    ensures ProperRun(State([], map[]), 0, es)
    ensures NoneAfter(es, LastTime(k))
    ensures AfterFailures(k).attempts == k && !Closed(AfterFailures(k))
    ensures 0 <= LastTime(k) < AfterFailures(k).lockedUntil.value
  {
    if k == 0 {
      es := [Event(0, Receive(0, "e", true)), Event(0, Crash(0))];
      HandlerDies(es);
    } else {
      var before := FailuresReach(k - 1);
      OneMoreFailure(k);
      AddAttempt(before, AfterFailures(k - 1), LastTime(k));
      es := before + AttemptEvents(LastTime(k), 0, false);
    }
  }

  lemma OneMoreFailure(k: nat)
    requires 0 < k < LeasedQueue.MAX_ATTEMPTS && AfterFailures(k - 1).attempts == k - 1 && !Closed(AfterFailures(k - 1))
    requires AfterFailures(k - 1).lockedUntil.Some?
    ensures Claimable(AfterFailures(k - 1), LastTime(k))
    ensures AfterFailures(k) == Outcome(Taken(AfterFailures(k - 1), LastTime(k)), k, LastTime(k))
    ensures AfterFailures(k).attempts == k && !Closed(AfterFailures(k))
    ensures LastTime(k) < AfterFailures(k).lockedUntil.value
  {
    PowerIsPositive(if k < 6 then k else 6);
  }

  /** A failed attempt at the only row, appended to a run. */
  lemma AddAttempt(before: seq<Event>, r: Item, now: Instant)
    requires Trace(State([], map[]), before) == State([r], map[]) && ProperRun(State([], map[]), 0, before)
    requires 0 <= now && NoneAfter(before, now) && Claimable(r, now)
    ensures var es := before + AttemptEvents(now, 0, false);
      && Trace(State([], map[]), es) == State([Outcome(Taken(r, now), r.attempts + 1, now)], map[])
      && ProperRun(State([], map[]), 0, es)
      && NoneAfter(es, now)
  {
    AttemptFails(r, now);
    TraceConcat(State([], map[]), before, AttemptEvents(now, 0, false));
    ProperConcat(State([], map[]), 0, before, now, AttemptEvents(now, 0, false));
  }

  lemma HandlerDies(es: seq<Event>)
    requires es == [Event(0, Receive(0, "e", true)), Event(0, Crash(0))]
    ensures Trace(State([], map[]), es) == State([Received("e", 0)], map[])
    ensures ProperRun(State([], map[]), 0, es)
  {
    var s1 := Next(State([], map[]), es[0]);
    var s2 := Next(s1, es[1]);
    assert es[1..] == [es[1]] && es[1..][1..] == [];
    assert s2 == State([Received("e", 0)], map[]);
    assert Trace(s1, es[1..]) == Trace(s2, []) == s2;
    assert ProperRun(s2, 0, []) && ProperRun(s1, 0, es[1..]);
  }

  lemma PowerIsPositive(n: nat)
    ensures Machine.Power2(n) > 0
  {
    if n > 0 { PowerIsPositive(n - 1); }
  }

  lemma AttemptFails(r: Item, now: Instant)
    requires Claimable(r, now)
    ensures Trace(State([r], map[]), AttemptEvents(now, 0, false)) ==
      State([Outcome(Taken(r, now), r.attempts + 1, now)], map[])
    ensures ProperRun(State([r], map[]), now, AttemptEvents(now, 0, false))
  {
    var s0, es := State([r], map[]), AttemptEvents(now, 0, false);
    var s1 := Next(s0, es[0]);
    var s2 := Next(s1, es[1]);
    var s3 := Next(s2, es[2]);
    assert es[1..][1..] == es[2..] && es[2..][1..] == [];
    assert s3 == State([Outcome(Taken(r, now), r.attempts + 1, now)], map[]);
    assert Trace(s0, es) == Trace(s1, es[1..]) == Trace(s2, es[2..]) == Trace(s3, []) == s3;
    assert ProperRun(s3, now, []) && ProperRun(s2, now, es[2..]) && ProperRun(s1, now, es[1..]);
  }

  /** A run from the empty table, every write within its lease, that leaves a row processed and failed. */
  lemma BothIsReachable() returns (es: seq<Event>)
    ensures ProperRun(State([], map[]), 0, es) && Both(Trace(State([], map[]), es), 0)
  {
    var empty := State([], map[]);
    var before := FailuresReach(4);
    var r := AfterFailures(4);
    var now := r.lockedUntil.value + 1;
    var mark, fail := Event(now, Process(0, true, Machine.CommitsUnseen)), Event(now, Settle(0, true));
    var last := [Event(now, Claim(0, 0, true)), mark, fail];
    LastAttemptMakesBoth(r, now, mark, fail);
    TraceConcat(empty, before, last);
    ProperConcat(empty, 0, before, now, last);
    es := before + last;
  }

  lemma LastAttemptMakesBoth(r: Item, now: Instant, mark: Event, fail: Event)
    requires Claimable(r, now) && r.attempts == 4
    requires mark == Event(now, Process(0, true, Machine.CommitsUnseen)) && fail == Event(now, Settle(0, true))
    ensures var s, es := State([r], map[]), [Event(now, Claim(0, 0, true)), mark, fail];
      ProperRun(s, now, es) && Both(Trace(s, es), 0)
  {
    var s0, es := State([r], map[]), [Event(now, Claim(0, 0, true)), mark, fail];
    var s1 := Next(s0, es[0]);
    var s2 := Next(s1, mark);
    var s3 := Next(s2, fail);
    assert es[1..] == [mark, fail] && es[1..][1..] == [fail] && [fail][1..] == [];
    assert Trace(s0, es) == Trace(s1, es[1..]) == Trace(s2, [fail]) == Trace(s3, []) == s3;
    assert ProperRun(s3, now, []) && ProperRun(s2, now, [fail]) && ProperRun(s1, now, es[1..]);
  }

}
