/** What a processed inbound row means: over every run of the inbound table and the system together. */
module InboundRuns {
  import opened SendWindow
  import opened LeasedQueue
  import opened Tables
  import opened Machine
  import opened Enrollments
  import opened ReplySafety
  import opened Inbound

  // ----- Where visits and marks come from -----

  /** Deed k of the run is the hearing of row i's reply, which can claim just these records. */
  ghost predicate HeardAt(
    w: Workflows, now: Instant, deeds: seq<Deed>, k: nat, i: nat, claimed: seq<Record>)
  {
    && k < |deeds| && deeds[k].Hears?
    && var x := Doing(w, Empty(now), deeds[..k]);
    && AtWork(x, deeds[k].p) && x.inbox.workers[deeds[k].p].row == i && claimed == Claims(x, deeds[k].p)
  }

  ghost predicate Told(w: Workflows, now: Instant, deeds: seq<Deed>) {
    var j := Doing(w, Empty(now), deeds);
    && (forall p :: p in j.visits && p in j.inbox.workers && !j.visits[p].Calling? ==>
          exists k :: HeardAt(w, now, deeds, k, j.inbox.workers[p].row, j.visits[p].claimed))
    && (forall i :: 0 <= i < |j.inbox.rows| && j.inbox.rows[i].settled ==>
          exists k, claimed :: HeardAt(w, now, deeds, k, i, claimed) && OverUpTo(j.sys, claimed, |claimed|))
  }

  lemma HeardBefore(
    w: Workflows, now: Instant, deeds: seq<Deed>, d: Deed, k: nat, i: nat, claimed: seq<Record>)
    requires HeardAt(w, now, deeds, k, i, claimed)
    ensures HeardAt(w, now, deeds + [d], k, i, claimed)
  {
    assert (deeds + [d])[..k] == deeds[..k] && (deeds + [d])[k] == deeds[k];
  }

  predicate Begins(j: Bridge, n: Bridge, d: Deed, q: Pid) {
    d.Hears? && d.p == q && AtWork(j, q) && q in n.visits && !n.visits[q].Calling? && n.visits[q].claimed == Claims(j, q)
  }

  predicate GoesOn(j: Bridge, n: Bridge, q: Pid) {
    q in j.visits && !j.visits[q].Calling? && q in n.visits && !n.visits[q].Calling? &&
    n.visits[q].claimed == j.visits[q].claimed
  }

  predicate SameSeat(j: Bridge, n: Bridge, q: Pid) {
    q in j.inbox.workers && q in n.inbox.workers && n.inbox.workers[q].row == j.inbox.workers[q].row
  }

  /** Without definitions nobody is enrolled. */
  lemma NobodyToClaim(w: Workflows, v: View)
    requires Locking(w, v)
    ensures v.sequences == [] || w != map[]
  {
    if v.sequences != [] {
      assert LockOk(w, v, 0);
    }
  }

  /** A visit past its call was so before, or has just heard the reply. */
  lemma VisitOrigin(w: Workflows, j: Bridge, d: Deed, q: Pid)
    requires Bridged(w, j)
    requires var n := Do(w, j, d); q in n.visits && !n.visits[q].Calling?
    ensures var n := Do(w, j, d); (GoesOn(j, n, q) || Begins(j, n, d, q)) && SameSeat(j, n, q)
  {
    if d.Hears? && d.p == q && w == map[] && AtWork(j, q) {
      NobodyToClaim(w, Look(j.sys));
    }
    if q in j.visits {
      SeatStays(w, j, d, q);
    }
  }

  lemma SeatStays(w: Workflows, j: Bridge, d: Deed, q: Pid)
    requires Seated(j) && q in j.visits && q in Do(w, j, d).visits
    ensures SameSeat(j, Do(w, j, d), q)
  {}

  /** A row is settled only by the mark of a worker that has answered its reply. */
  lemma MarkOrigin(w: Workflows, j: Bridge, d: Deed, i: nat)
    requires Seated(j) && i < |Do(w, j, d).inbox.rows| && Do(w, j, d).inbox.rows[i].settled
    ensures (i < |j.inbox.rows| && j.inbox.rows[i].settled) ||
      (d.Marks? && AtWork(j, d.p) && j.visits[d.p].Answered? && j.inbox.workers[d.p].row == i)
  {}

  lemma DeedMovesOn(w: Workflows, j: Bridge, d: Deed)
    requires WellKeyed(w) && Locking(w, Look(j.sys))
    ensures Frozen(Look(j.sys), Look(Do(w, j, d).sys))
  {
    DeedMoves(w, j, d);
    if Do(w, j, d).sys != j.sys {
      var a :| Do(w, j, d).sys == Step(w, j.sys, a);
      StepKeepsLocking(w, j.sys, a);
    }
  }

  lemma VisitsAreTold(w: Workflows, now: Instant, deeds: seq<Deed>, d: Deed, q: Pid)
    requires var j := Doing(w, Empty(now), deeds);
      Told(w, now, deeds) && Bridged(w, j) && q in Do(w, j, d).visits && !Do(w, j, d).visits[q].Calling?
    ensures var n := Do(w, Doing(w, Empty(now), deeds), d);
      q in n.inbox.workers && exists k :: HeardAt(w, now, deeds + [d], k, n.inbox.workers[q].row, n.visits[q].claimed)
  {
    var j := Doing(w, Empty(now), deeds);
    VisitOrigin(w, j, d, q);
    if GoesOn(j, Do(w, j, d), q) {
      var k :| HeardAt(w, now, deeds, k, j.inbox.workers[q].row, j.visits[q].claimed);
      HeardBefore(w, now, deeds, d, k, j.inbox.workers[q].row, j.visits[q].claimed);
    } else {
      assert (deeds + [d])[..|deeds|] == deeds;
      assert HeardAt(w, now, deeds + [d], |deeds|, j.inbox.workers[q].row, Claims(j, q));
    }
  }

  lemma ToldOf(w: Workflows, now: Instant, deeds: seq<Deed>, i: nat) returns (k: nat, claimed: seq<Record>)
    requires Told(w, now, deeds)
    requires var j := Doing(w, Empty(now), deeds); i < |j.inbox.rows| && j.inbox.rows[i].settled
    ensures HeardAt(w, now, deeds, k, i, claimed)
    ensures OverUpTo(Doing(w, Empty(now), deeds).sys, claimed, |claimed|)
  {
    var j := Doing(w, Empty(now), deeds);
    k, claimed :| HeardAt(w, now, deeds, k, i, claimed) && OverUpTo(j.sys, claimed, |claimed|);
  }

  lemma MarksAreTold(w: Workflows, now: Instant, deeds: seq<Deed>, d: Deed, i: nat)
    requires var j := Doing(w, Empty(now), deeds);
      && WellKeyed(w) && Told(w, now, deeds) && Bridged(w, j)
      && i < |Do(w, j, d).inbox.rows| && Do(w, j, d).inbox.rows[i].settled
    ensures var n := Do(w, Doing(w, Empty(now), deeds), d);
      exists k, claimed :: HeardAt(w, now, deeds + [d], k, i, claimed) && OverUpTo(n.sys, claimed, |claimed|)
  {
    var j := Doing(w, Empty(now), deeds);
    var n := Do(w, j, d);
    MarkOrigin(w, j, d, i);
    DeedMovesOn(w, j, d);
    var k, claimed := MarkedClaims(w, now, deeds, d, i);
    HeardBefore(w, now, deeds, d, k, i, claimed);
    OverStays(j.sys, n.sys);
    assert OverUpTo(n.sys, claimed, |claimed|);
  }

  /** What the hearing behind a mark, old or new, has claimed. */
  lemma MarkedClaims(w: Workflows, now: Instant, deeds: seq<Deed>, d: Deed, i: nat)
    returns (k: nat, claimed: seq<Record>)
    requires var j := Doing(w, Empty(now), deeds);
      && Told(w, now, deeds) && Bridged(w, j)
      && ((i < |j.inbox.rows| && j.inbox.rows[i].settled) ||
          (d.Marks? && AtWork(j, d.p) && j.visits[d.p].Answered? && j.inbox.workers[d.p].row == i))
    ensures HeardAt(w, now, deeds, k, i, claimed)
    ensures OverUpTo(Doing(w, Empty(now), deeds).sys, claimed, |claimed|)
  {
    var j := Doing(w, Empty(now), deeds);
    if i < |j.inbox.rows| && j.inbox.rows[i].settled {
      k, claimed := ToldOf(w, now, deeds, i);
    } else {
      assert OnWay(j.sys, d.p, j.visits[d.p]);
      claimed := j.visits[d.p].claimed;
      k :| HeardAt(w, now, deeds, k, i, claimed);
    }
  }

  lemma {:induction false} RunIsTold(w: Workflows, now: Instant, deeds: seq<Deed>)
    requires WellKeyed(w)
    ensures Told(w, now, deeds)
    decreases |deeds|
  {
    if deeds != [] {
      var m := |deeds| - 1;
      var before, d := deeds[..m], deeds[m];
      assert before + [d] == deeds;
      RunIsTold(w, now, before);
      RunKeepsBridged(w, now, before);
      var n := Do(w, Doing(w, Empty(now), before), d);
      forall p | p in n.visits && p in n.inbox.workers && !n.visits[p].Calling?
        ensures exists k :: HeardAt(w, now, deeds, k, n.inbox.workers[p].row, n.visits[p].claimed)
      {
        VisitsAreTold(w, now, before, d, p);
      }
      forall i | 0 <= i < |n.inbox.rows| && n.inbox.rows[i].settled
        ensures exists k, claimed :: HeardAt(w, now, deeds, k, i, claimed) && OverUpTo(n.sys, claimed, |claimed|)
      {
        MarksAreTold(w, now, before, d, i);
      }
    }
  }

  // ----- Main result -----

  /** All that the reply was meant for and nobody had locked is over. */
  ghost predicate AnsweredFor(x: Bridge, p: Pid, s: System)
    requires AtWork(x, p)
  {
    forall e: nat :: Meant(Look(x.sys), e, LetterOf(x, p).from, LetterOf(x, p).to) && Free(x.sys, e) ==> Over(s, e)
  }

  lemma ClaimedIsAnswered(x: Bridge, p: Pid, s: System)
    requires AtWork(x, p) && OverUpTo(s, Claims(x, p), |Claims(x, p)|)
    ensures AnsweredFor(x, p, s)
  {
    var claimed := Claims(x, p);
    forall e: nat | Meant(Look(x.sys), e, LetterOf(x, p).from, LetterOf(x, p).to) && Free(x.sys, e) ensures Over(s, e) {
      assert Concerned(x.sys.db.sequences[e], LetterOf(x, p).from, LetterOf(x, p).to, x.sys.db.now);
      var l :| 0 <= l < |claimed| && claimed[l] == Snapshot(x.sys.db.sequences, e);
      assert claimed[l].id == e;
    }
  }

  /** In every run of the two together, a row that is marked processed had its reply heard at some point by the worker
      at it, and every enrollment the reply was meant for that nobody had locked at that point is over. */
  lemma ProcessedWasAnswered(w: Workflows, now: Instant, deeds: seq<Deed>, i: nat) returns (k: nat)
    requires WellKeyed(w)
    requires var j := Doing(w, Empty(now), deeds); i < |j.inbox.rows| && j.inbox.rows[i].settled
    ensures k < |deeds| && deeds[k].Hears?
    ensures var x, p := Doing(w, Empty(now), deeds[..k]), deeds[k].p;
      AtWork(x, p) && x.inbox.workers[p].row == i && AnsweredFor(x, p, Doing(w, Empty(now), deeds).sys)
  {
    RunIsTold(w, now, deeds);
    var claimed: seq<Record>;
    k, claimed := ToldOf(w, now, deeds, i);
    ClaimedIsAnswered(Doing(w, Empty(now), deeds[..k]), deeds[k].p, Doing(w, Empty(now), deeds).sys);
  }

}
