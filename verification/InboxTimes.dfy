/** When the background attempts at an inbound row or a delivery event are made. */
module InboxTimes {
  import opened Wrappers
  import opened SendWindow
  import opened Inbox

  // ----- When attempts are made -----

  /** The delays scheduled before attempt k. */
  function Scheduled(k: nat): int { if k <= 1 then 0 else Scheduled(k - 1) + RetryDelay(k - 1) }

  lemma {:induction false} ScheduledClosedForm(k: nat)
    requires 1 <= k <= 7
    ensures Scheduled(k) == (Machine.Power2(k) - 2) * MINUTE
    ensures k <= LeasedQueue.MAX_ATTEMPTS ==> Scheduled(k) <= 30 * MINUTE
    ensures forall r: Item :: Earliest(r, k) == r.receivedAt + Machine.Power2(k) * MINUTE
  {
    if k > 1 {
      ScheduledClosedForm(k - 1);
    }
  }

  /** No outcome of row i is lost, and it is not claimed while a background worker is still at it. */
  predicate Kept(s: State, e: Event, i: nat) {
    !Happens(Losses, s, e, i) && (Happens(Claims, s, e, i) ==> Busy(s, i) == {})
  }

  predicate KeptRun(s: State, from: Instant, es: seq<Event>, i: nat)
    decreases |es|
  {
    es == [] || (from <= es[0].at && Kept(s, es[0], i) && KeptRun(Next(s, es[0]), es[0].at, es[1..], i))
  }

  /** Attempt k at a row comes only after the handler's two minutes and the delays scheduled before it. */
  function Earliest(r: Item, k: nat): Instant { r.receivedAt + LeasedQueue.LEASE + Scheduled(k) }

  ghost predicate Spaced(s: State, i: nat, now: Instant) {
    && Ranked(s)
    && (i < |s.rows| && !Closed(s.rows[i]) && Busy(s, i) == {} ==>
          s.rows[i].attempts < LeasedQueue.MAX_ATTEMPTS && s.rows[i].lockedUntil.Some? &&
          s.rows[i].lockedUntil.value >= Earliest(s.rows[i], s.rows[i].attempts + 1))
    && (forall p :: p in Busy(s, i) ==>
          var t := s.workers[p];
          && t.attempts == s.rows[i].attempts <= LeasedQueue.MAX_ATTEMPTS
          && Earliest(s.rows[i], t.attempts) < t.lease - LeasedQueue.LEASE <= now)
  }

  lemma NextKeepsSpaced(s: State, now: Instant, e: Event, i: nat)
    requires Spaced(s, i, now) && now <= e.at && Kept(s, e, i)
    ensures Spaced(Next(s, e), i, e.at)
    ensures Happens(Claims, s, e, i) ==> e.at > Earliest(s.rows[i], s.rows[i].attempts + 1)
  {
    NextKeepsRanked(s, e);
    if Joins(s, e, i) {
      JoinKeepsSpaced(s, now, e, i);
    } else if Leaves(s, e, i) {
      LeaveKeepsSpaced(s, now, e, i);
    } else {
      OthersKeepSpaced(s, now, e, i);
    }
  }

  lemma JoinKeepsSpaced(s: State, now: Instant, e: Event, i: nat)
    requires Spaced(s, i, now) && now <= e.at && Kept(s, e, i) && Joins(s, e, i) && Ranked(Next(s, e))
    ensures Spaced(Next(s, e), i, e.at)
    ensures e.at > Earliest(s.rows[i], s.rows[i].attempts + 1)
  {
    JoinAddsBusy(s, e, i);
  }

  lemma LeaveKeepsSpaced(s: State, now: Instant, e: Event, i: nat)
    requires Spaced(s, i, now) && now <= e.at && Kept(s, e, i) && Leaves(s, e, i) && Ranked(Next(s, e))
    ensures Spaced(Next(s, e), i, e.at)
  {
    LeaveRemovesBusy(s, e, i);
    var t := s.workers[e.act.p];
    assert Scheduled(t.attempts + 1) == Scheduled(t.attempts) + RetryDelay(t.attempts);
    assert forall p :: p in Busy(s, i) ==> At(s, p, i) && s.workers[p].attempts == t.attempts;
  }

  lemma OthersKeepSpaced(s: State, now: Instant, e: Event, i: nat)
    requires Spaced(s, i, now) && now <= e.at && Kept(s, e, i) && Ranked(Next(s, e))
    requires !Joins(s, e, i) && !Leaves(s, e, i)
    ensures Spaced(Next(s, e), i, e.at)
    ensures !Happens(Claims, s, e, i)
  {
    OthersKeepBusy(s, e, i);
    OthersKeepRow(s, e, i);
  }

  predicate JustReceived(r: Item) {
    r.attempts == 0 && !Closed(r) && r.lockedUntil == Some(r.receivedAt + LeasedQueue.LEASE)
  }

  predicate AtMostClosed(was: Item, now: Item) {
    && (now == was || Closed(now))
    && now.attempts == was.attempts && now.receivedAt == was.receivedAt
  }

  /** A row is otherwise only inserted, or closed. */
  lemma OthersKeepRow(s: State, e: Event, i: nat)
    requires Ranked(s) && !Happens(Claims, s, e, i) && !Leaves(s, e, i)
    ensures i >= |s.rows| && i < |Next(s, e).rows| ==> JustReceived(Next(s, e).rows[i])
    ensures i < |s.rows| ==> i < |Next(s, e).rows| && AtMostClosed(s.rows[i], Next(s, e).rows[i])
    ensures var n := Next(s, e);
      forall p :: p in Busy(s, i) && p in Busy(n, i) ==>
        n.workers[p].attempts == s.workers[p].attempts && n.workers[p].lease == s.workers[p].lease
  {}

  /** The claims of row i in a run come no earlier than they may. */
  predicate ClaimsWait(s: State, es: seq<Event>, i: nat)
    decreases |es|
  {
    es == [] ||
    ((Happens(Claims, s, es[0], i) ==> es[0].at > Earliest(s.rows[i], s.rows[i].attempts + 1)) &&
     ClaimsWait(Next(s, es[0]), es[1..], i))
  }

  /** In a run that loses nothing of row i, attempt k comes more than 2^k minutes after the row was received. */
  lemma {:induction false} AttemptsAreSpaced(s: State, now: Instant, es: seq<Event>, i: nat)
    requires Spaced(s, i, now) && KeptRun(s, now, es, i)
    ensures ClaimsWait(s, es, i)
    decreases |es|
  {
    if es != [] {
      NextKeepsSpaced(s, now, es[0], i);
      AttemptsAreSpaced(Next(s, es[0]), es[0].at, es[1..], i);
    }
  }

  /** The empty table meets every hypothesis above. */
  lemma EmptyIsSound(now: Instant, i: nat)
    ensures Sound(State([], map[]), now) && Spaced(State([], map[]), i, now)
  {}

}
