/** Which enrollments a reply is sure to end, whatever other workers do while it is handled. */
module ReplySafety {
  import opened Wrappers
  import opened SendWindow
  import opened Template
  import opened Engine
  import opened LeasedQueue
  import opened Tables
  import opened Machine
  import opened Frames
  import opened Enrollments
  import opened Numbering
  import Replies

  // ----- A reply handled in time -----

  predicate Handling(s: System, p: Pid) { p in s.repliers && s.repliers[p].records != [] }

  /** While p still has records, its steps succeed before its locks expire, and it does not die. */
  predicate InTime(s: System, a: Action, p: Pid, until: Instant) {
    && (a.ReplierStep? && a.p == p ==> a.fate == Succeeds && s.db.now <= until)
    && !(a.ReplierCrash? && a.p == p)
  }

  /** In this run p gets through its loop in time; all others are free, then and afterwards. */
  predicate Answers(w: Workflows, s: System, actions: seq<Action>, p: Pid, until: Instant)
    decreases |actions|
  {
    !Handling(s, p) ||
    (actions != [] && InTime(s, actions[0], p, until) && Answers(w, Step(w, s, actions[0]), actions[1..], p, until))
  }

  // ----- Who can get in the way -----

  predicate ActiveAt(v: View, f: nat) { f < |v.sequences| && Active(v.sequences[f]) }

  /** The advancer will write to row f. */
  predicate WorksOn(t: Advancer, f: nat) {
    match t
    case Ready(r) => r.id == f
    case Postponing(id, _) => id == f
    case Failing(id) => id == f
  }

  /** And may leave it active. */
  predicate Frees(t: Advancer, f: nat) { WorksOn(t, f) && !t.Failing? }

  ghost predicate Freed(v: View, f: nat) { exists a :: a in v.advancers && Frees(v.advancers[a], f) }

  /** Another reply's worker can get to row f: none of its records before that has ended, which would stop it. */
  ghost predicate Reaches(v: View, t: Replier, f: nat) {
    exists k :: 0 <= k < |t.records| && t.records[k].id == f && ActiveUpTo(v, t.records, k)
  }

  ghost predicate ActiveUpTo(v: View, records: seq<Record>, k: nat)
    requires k < |records|
  {
    forall j :: 0 <= j <= k ==> ActiveAt(v, records[j].id)
  }

  /** Somebody but p can still write to row f. */
  ghost predicate Touched(v: View, f: nat, p: Pid) {
    || (exists a :: a in v.advancers && WorksOn(v.advancers[a], f))
    || (exists q :: q in v.repliers && q != p && Reaches(v, v.repliers[q], f))
  }

  // ----- Records are handed out in the order of their rows -----

  predicate Rising(records: seq<Record>) { forall i, j :: 0 <= i < j < |records| ==> records[i].id < records[j].id }

  ghost predicate Ordered(v: View) { forall p :: p in v.repliers ==> Rising(v.repliers[p].records) }

  lemma ForgetKeepsOrdered(v: View, n: View)
    requires Ordered(v) && Forgets(v, n)
    ensures Ordered(n)
  {
    forall p | p in n.repliers ensures Rising(n.repliers[p].records) {
      assert Rising(v.repliers[p].records) && Remains(v.repliers[p].records, n.repliers[p].records);
    }
  }

  lemma HearKeepsOrdered(s: System, p: Pid, phone: string, to: string, text: string, fate: Fate)
    requires Ordered(Look(s))
    ensures Ordered(Look(ClaimForReply(s, p, phone, to, text, fate)))
  {
    assert Rising(ConcernedRecords(s.db.sequences, phone, to, s.db.now));
  }

  /** All actions but claims only make workers forget. */
  lemma WorkersForget(w: Workflows, s: System, a: Action)
    requires !a.AdvancerClaim? && !a.HearReply?
    ensures Forgets(Look(s), Look(Step(w, s, a)))
  {
    if a.AdvancerStep? {
      if a.p in s.advancers { AdvancerForgets(w, s, a.p, a.fate, a.wall, a.bs); }
    } else if a.ReplierStep? {
      if a.p in s.repliers { ReplierForgets(w, s, a.p, a.fate, a.wall); }
    } else {
      StepFrame(w, s, a);
      FrameForgets(s, Step(w, s, a), a);
    }
  }

  lemma FrameForgets(s: System, n: System, a: Action)
    requires Frame(s, n, a)
    requires !a.AdvancerClaim? && !a.HearReply? && !a.AdvancerStep? && !a.ReplierStep?
    ensures Forgets(Look(s), Look(n))
  {}

  lemma StepKeepsOrdered(w: Workflows, s: System, a: Action)
    requires Ordered(Look(s))
    ensures Ordered(Look(Step(w, s, a)))
  {
    if a.HearReply? {
      HearKeepsOrdered(s, a.p, a.phone, a.to, a.text, a.fate);
    } else if a.AdvancerClaim? {
      AdvancersFrame(w, s, a);
    } else {
      WorkersForget(w, s, a);
      ForgetKeepsOrdered(Look(s), Look(Step(w, s, a)));
    }
  }

  lemma {:induction false} RunKeepsOrdered(w: Workflows, s: System, actions: seq<Action>)
    requires Ordered(Look(s))
    ensures Ordered(Look(Execution(w, s, actions)))
    decreases |actions|
  {
    if actions != [] {
      StepKeepsOrdered(w, s, actions[0]);
      RunKeepsOrdered(w, Step(w, s, actions[0]), actions[1..]);
    }
  }

  // ----- Time -----

  lemma ApplyKeepsTime(db: Database, r: Record, cs: seq<Command>, reply: string, fate: Fate, wall: Instant)
    ensures TryApply(db, r, cs, reply, fate, wall).now == db.now
  {
    if fate.Lands() && Claimable(db, r) {
      Replies.CommandsKeepSequences(
        db.(sequences := db.sequences[r.id := Rewritten(db.sequences[r.id], r, reply)], batches := db.batches + 1),
        r, cs, reply, wall);
    }
  }

  lemma AdvancerKeepsTime(w: Workflows, db: Database, t: Advancer, fate: Fate, wall: Instant, bs: Bindings)
    ensures AdvancerEffect(w, db, t, fate, wall, bs).now == db.now
  {
    if t.Ready? && Configured(w, t.record.enrollment.key) {
      var x := Advanced(w[t.record.enrollment.key], t.record.enrollment, wall, bs);
      if x.result.Ok? {
        ApplyKeepsTime(db, t.record.(enrollment := x.enrollment), x.result.value, "", fate, wall);
      }
    }
  }

  lemma ReplierKeepsTime(w: Workflows, db: Database, t: Replier, fate: Fate, wall: Instant)
    ensures ReplierEffect(w, db, t, fate, wall).now == db.now
  {
    if t.records != [] && t.records[0].enrollment.key in w {
      var r := t.records[0];
      var x := Replied(w[r.enrollment.key], r.enrollment, t.text);
      ApplyKeepsTime(db, r.(enrollment := x.enrollment), x.commands, t.text, fate, wall);
    }
  }

  lemma TimeMovesOn(w: Workflows, s: System, a: Action)
    ensures s.db.now <= Step(w, s, a).db.now
    ensures a.AdvancerStep? || a.ReplierStep? ==> Step(w, s, a).db.now == s.db.now
  {
    if a.AdvancerStep? {
      if a.p in s.advancers { AdvancerKeepsTime(w, s.db, s.advancers[a.p], a.fate, a.wall, a.bs); }
    } else if a.ReplierStep? {
      if a.p in s.repliers { ReplierKeepsTime(w, s.db, s.repliers[a.p], a.fate, a.wall); }
    } else {
      StepFrame(w, s, a);
      FrameOfTime(s, Step(w, s, a), a);
    }
  }

  /** As long as p has records to handle in time, its locks stand. */
  lemma {:induction false} StillInTime(w: Workflows, s: System, actions: seq<Action>, p: Pid, until: Instant)
    requires Handling(s, p) && Answers(w, s, actions, p, until)
    ensures s.db.now <= until
    decreases |actions|
  {
    var a, next := actions[0], Step(w, s, actions[0]);
    TimeMovesOn(w, s, a);
    if Handling(next, p) {
      StillInTime(w, next, actions[1..], p, until);
    } else {
      OnlyOwnStepsFinish(w, s, a, p, until);
    }
  }

  lemma OnlyOwnStepsFinish(w: Workflows, s: System, a: Action, p: Pid, until: Instant)
    requires Handling(s, p) && InTime(s, a, p, until) && !Handling(Step(w, s, a), p)
    ensures s.db.now <= until
  {
    if !(a.ReplierStep? || a.HearReply? || a.ReplierCrash?) {
      StepFrame(w, s, a);
      FrameOfRepliers(s, Step(w, s, a), a);
    }
  }

  lemma FrameOfRepliers(s: System, n: System, a: Action)
    requires Frame(s, n, a) && !a.ReplierStep? && !a.HearReply? && !a.ReplierCrash?
    ensures n.repliers == s.repliers
  {}

  // ----- The invariant while e is still to be handled -----

  predicate LockedAt(v: View, f: nat, until: Instant) {
    ActiveAt(v, f) && v.sequences[f].lockedUntil == Some(until)
  }

  /** p has e before it; the rows it handles first are locked for it alone, and nobody can free e. */
  ghost predicate Awaiting(v: View, p: Pid, e: nat, until: Instant) {
    && p in v.repliers
    && (exists i :: 0 <= i < |v.repliers[p].records| && v.repliers[p].records[i].id == e)
    && (forall i :: 0 <= i < |v.repliers[p].records| && v.repliers[p].records[i].id < e ==>
          LockedAt(v, v.repliers[p].records[i].id, until) && !Touched(v, v.repliers[p].records[i].id, p))
    && LockedAt(v, e, until) && !Freed(v, e)
  }

  /** Nobody new can write to row f, and it is as it was. */
  ghost predicate Left(v: View, n: View, f: nat, p: Pid) {
    && f < |v.sequences| && f < |n.sequences| && n.sequences[f] == v.sequences[f]
    && (Freed(n, f) ==> Freed(v, f))
    && (Touched(n, f, p) ==> Touched(v, f, p))
  }

  /** If p keeps its records and all its rows up to e are left alone, it still awaits e. */
  lemma LeftStaysAwaiting(v: View, n: View, p: Pid, e: nat, until: Instant)
    requires Awaiting(v, p, e, until) && p in n.repliers && n.repliers[p] == v.repliers[p]
    requires forall f: nat :: f < e && LockedAt(v, f, until) && !Touched(v, f, p) ==> Left(v, n, f, p)
    requires Left(v, n, e, p)
    ensures Awaiting(n, p, e, until)
  {
    var records := v.repliers[p].records;
    forall i | 0 <= i < |records| && records[i].id < e
      ensures LockedAt(n, records[i].id, until) && !Touched(n, records[i].id, p)
    {
      assert Left(v, n, records[i].id, p);
    }
  }

  /** Rows only end, and each replier but p has at most the tail it had after an active record. */
  ghost predicate Recedes(v: View, n: View, p: Pid) {
    && (forall f: nat :: ActiveAt(n, f) && f < |v.sequences| ==> ActiveAt(v, f))
    && (forall q :: q in n.repliers && q != p ==>
          q in v.repliers && Follows(v, v.repliers[q].records, n.repliers[q].records))
  }

  predicate Follows(v: View, was: seq<Record>, now: seq<Record>) {
    now == was || (was != [] && ActiveAt(v, was[0].id) && now == was[1..])
  }

  lemma ReachRecedes(v: View, n: View, p: Pid, q: Pid, f: nat)
    requires Recedes(v, n, p) && KnownAll(v) && q in n.repliers && q != p && Reaches(n, n.repliers[q], f)
    ensures Reaches(v, v.repliers[q], f)
  {
    var was, now := v.repliers[q].records, n.repliers[q].records;
    var k :| 0 <= k < |now| && now[k].id == f && ActiveUpTo(n, now, k);
    assert Follows(v, was, now);
    var l := if now == was then k else k + 1;
    assert was[l].id == f;
    forall j | 0 <= j <= l ensures ActiveAt(v, was[j].id) {
      assert Known(v, was[j]);
      if now == was {
        assert ActiveAt(n, now[j].id);
      } else if j > 0 {
        assert ActiveAt(n, now[j - 1].id);
      }
    }
    assert ActiveUpTo(v, was, l);
  }

  ghost predicate Withdraws(was: Advancer, now: Advancer) {
    forall f: nat :: (WorksOn(now, f) ==> WorksOn(was, f)) && (Frees(now, f) ==> Frees(was, f))
  }

  /** Advancers stay where they were, or leave. */
  ghost predicate Retreats(v: View, n: View) {
    forall a :: a in n.advancers ==> a in v.advancers && Withdraws(v.advancers[a], n.advancers[a])
  }

  lemma RetreatLeaves(v: View, n: View, f: nat, p: Pid)
    requires Recedes(v, n, p) && Retreats(v, n) && KnownAll(v)
    requires f < |v.sequences| && f < |n.sequences| && n.sequences[f] == v.sequences[f]
    ensures Left(v, n, f, p)
  {
    if q :| q in n.repliers && q != p && Reaches(n, n.repliers[q], f) {
      ReachRecedes(v, n, p, q, f);
    }
    if a :| a in n.advancers && Frees(n.advancers[a], f) {
      assert Frees(v.advancers[a], f);
    }
  }

  // ----- What each step does to rows -----

  /** An advancer writes to its own row only, and FailWorkflow ends it. */
  lemma AdvancerRows(w: Workflows, db: Database, t: Advancer, fate: Fate, wall: Instant, bs: Bindings)
    ensures var n := AdvancerEffect(w, db, t, fate, wall, bs).sequences;
      && |n| == |db.sequences|
      && (forall f: nat :: f < |n| && !WorksOn(t, f) ==> n[f] == db.sequences[f])
      && (t.Failing? && t.id < |n| ==> n[t.id] == db.sequences[t.id] || !Active(n[t.id]))
  {
    if t.Ready? && Configured(w, t.record.enrollment.key) {
      var x := Advanced(w[t.record.enrollment.key], t.record.enrollment, wall, bs);
      if x.result.Ok? {
        ApplyRows(db, t.record.(enrollment := x.enrollment), x.result.value, "", fate, wall);
      }
    }
  }

  lemma ApplyRows(db: Database, r: Record, cs: seq<Command>, reply: string, fate: Fate, wall: Instant)
    ensures var n := TryApply(db, r, cs, reply, fate, wall).sequences;
      n == if fate.Lands() && Claimable(db, r) then db.sequences[r.id := Rewritten(db.sequences[r.id], r, reply)]
           else db.sequences
  {
    if fate.Lands() && Claimable(db, r) {
      CommandsInsertNewRows(
        db.(sequences := db.sequences[r.id := Rewritten(db.sequences[r.id], r, reply)], batches := db.batches + 1),
        r, cs, reply, wall);
    }
  }

  /** A reply writes to its first record's row only: it ends it if it is locked, and otherwise leaves it. */
  lemma ReplierRows(w: Workflows, db: Database, t: Replier, fate: Fate, wall: Instant)
    requires t.records != [] && t.records[0].enrollment.key in w
    ensures var n, r := ReplierEffect(w, db, t, fate, wall).sequences, t.records[0];
      && |n| == |db.sequences|
      && (forall f: nat :: f < |n| && f != r.id ==> n[f] == db.sequences[f])
      && (if fate.Lands() && Claimable(db, r) then !Active(n[r.id]) && n[r.id].lockedUntil.None? else n == db.sequences)
  {
    var r := t.records[0];
    var x := Replied(w[r.enrollment.key], r.enrollment, t.text);
    ApplyRows(db, r.(enrollment := x.enrollment), x.commands, t.text, fate, wall);
  }

  // ----- Each step leaves p waiting, or e ended -----

  ghost predicate StillAwaits(n: View, p: Pid, e: nat, until: Instant) { !ActiveAt(n, e) || Awaiting(n, p, e, until) }

  /** All rows as they were, nobody gone anywhere. */
  lemma BystandersKeepAwaiting(v: View, n: View, p: Pid, e: nat, until: Instant)
    requires KnownAll(v) && Awaiting(v, p, e, until) && Retreats(v, n) && v.sequences <= n.sequences
    requires p in n.repliers && n.repliers[p] == v.repliers[p]
    requires forall q :: q in n.repliers ==> q in v.repliers && n.repliers[q] == v.repliers[q]
    ensures Awaiting(n, p, e, until)
  {
    assert Recedes(v, n, p);
    forall f: nat | f < |v.sequences| ensures Left(v, n, f, p) {
      RetreatLeaves(v, n, f, p);
    }
    LeftStaysAwaiting(v, n, p, e, until);
  }

  lemma AdvancerKeepsAwaiting(
    w: Workflows, s: System, a: Pid, fate: Fate, wall: Instant, bs: Bindings, p: Pid, e: nat, until: Instant)
    requires WellKeyed(w) && Locking(w, Look(s)) && Awaiting(Look(s), p, e, until) && a in s.advancers
    ensures StillAwaits(Look(StepAdvancer(w, s, a, fate, wall, bs)), p, e, until)
  {
    var v, n, t := Look(s), Look(StepAdvancer(w, s, a, fate, wall, bs)), s.advancers[a];
    AdvancerRows(w, s.db, t, fate, wall, bs);
    AdvancerRecedes(w, s, a, fate, wall, bs, p);
    forall f: nat | f < |v.sequences| && (!WorksOn(t, f) || n.sequences[f] == v.sequences[f]) ensures Left(v, n, f, p) {
      RetreatLeaves(v, n, f, p);
    }
    if ActiveAt(n, e) {
      assert WorksOn(t, e) ==> t.Failing?;
      LeftStaysAwaiting(v, n, p, e, until);
    }
  }

  lemma AdvancerRecedes(w: Workflows, s: System, a: Pid, fate: Fate, wall: Instant, bs: Bindings, p: Pid)
    requires WellKeyed(w) && Locking(w, Look(s)) && a in s.advancers
    ensures var v, n := Look(s), Look(StepAdvancer(w, s, a, fate, wall, bs)); Recedes(v, n, p) && Retreats(v, n)
  {
    AdvancerKeepsLocking(w, s, a, fate, wall, bs);
    assert forall f: nat :: f < |s.db.sequences| && !ActiveAt(Look(s), f) ==>
      !ActiveAt(Look(StepAdvancer(w, s, a, fate, wall, bs)), f);
  }

  lemma ClaimKeepsAwaiting(s: System, a: Pid, fate: Fate, p: Pid, e: nat, until: Instant)
    requires Awaiting(Look(s), p, e, until) && s.db.now <= until
    ensures Awaiting(Look(ClaimSequence(s, a, fate)), p, e, until)
  {
    var v, n := Look(s), Look(ClaimSequence(s, a, fate));
    forall f: nat | LockedAt(v, f, until) ensures Left(v, n, f, p) {
      assert !Due(s.db.sequences[f], s.db.now);
      ClaimLeaves(s, a, fate, f, p);
    }
    LeftStaysAwaiting(v, n, p, e, until);
  }

  lemma ClaimLeaves(s: System, a: Pid, fate: Fate, f: nat, p: Pid)
    requires f < |s.db.sequences| && !Due(s.db.sequences[f], s.db.now)
    ensures Left(Look(s), Look(ClaimSequence(s, a, fate)), f, p)
  {
    var v, n := Look(s), Look(ClaimSequence(s, a, fate));
    SameReach(v, n, f);
  }

  /** Reaching depends on which rows are active only. */
  lemma SameReach(v: View, n: View, f: nat)
    requires |n.sequences| == |v.sequences|
    requires forall i: nat :: i < |v.sequences| ==> Active(n.sequences[i]) == Active(v.sequences[i])
    ensures forall t :: Reaches(n, t, f) ==> Reaches(v, t, f)
  {
    forall t | Reaches(n, t, f) ensures Reaches(v, t, f) {
      var k :| 0 <= k < |t.records| && t.records[k].id == f && ActiveUpTo(n, t.records, k);
      assert forall j :: 0 <= j <= k ==> ActiveAt(n, t.records[j].id) ==> ActiveAt(v, t.records[j].id);
      assert ActiveUpTo(v, t.records, k);
    }
  }

  lemma HearKeepsAwaiting(
    s: System, q: Pid, phone: string, to: string, text: string, fate: Fate, p: Pid, e: nat, until: Instant)
    requires Awaiting(Look(s), p, e, until) && s.db.now <= until
    ensures Awaiting(Look(ClaimForReply(s, q, phone, to, text, fate)), p, e, until)
  {
    var v, n := Look(s), Look(ClaimForReply(s, q, phone, to, text, fate));
    forall f: nat | LockedAt(v, f, until) ensures Left(v, n, f, p) {
      assert !Concerned(s.db.sequences[f], phone, to, s.db.now);
      HearLeaves(s, q, phone, to, text, fate, f, p);
    }
    LeftStaysAwaiting(v, n, p, e, until);
  }

  lemma HearLeaves(s: System, q: Pid, phone: string, to: string, text: string, fate: Fate, f: nat, p: Pid)
    requires f < |s.db.sequences| && !Concerned(s.db.sequences[f], phone, to, s.db.now)
    ensures Left(Look(s), Look(ClaimForReply(s, q, phone, to, text, fate)), f, p)
  {
    var v, n := Look(s), Look(ClaimForReply(s, q, phone, to, text, fate));
    SameReach(v, n, f);
    assert forall r :: r in ConcernedRecords(s.db.sequences, phone, to, s.db.now) ==> r.id != f;
  }

  /** Another reply's step. */
  lemma OtherReplyKeepsAwaiting(
    w: Workflows, s: System, q: Pid, fate: Fate, wall: Instant, p: Pid, e: nat, until: Instant)
    requires WellKeyed(w) && Locking(w, Look(s)) && Awaiting(Look(s), p, e, until) && q in s.repliers && q != p
    ensures StillAwaits(Look(StepReplier(w, s, q, fate, wall)), p, e, until)
  {
    var v, n, t := Look(s), Look(StepReplier(w, s, q, fate, wall)), s.repliers[q];
    ReplierRecedes(w, s, q, fate, wall, p);
    if t.records != [] {
      assert Known(v, t.records[0]) && LockOk(w, v, t.records[0].id);
      ReplierRows(w, s.db, t, fate, wall);
      FirstIsReached(v, t);
    }
    forall f: nat | f < |v.sequences| && n.sequences[f] == v.sequences[f] ensures Left(v, n, f, p) {
      RetreatLeaves(v, n, f, p);
    }
    if ActiveAt(n, e) {
      LeftStaysAwaiting(v, n, p, e, until);
    }
  }

  lemma FirstIsReached(v: View, t: Replier)
    requires t.records != []
    ensures ActiveAt(v, t.records[0].id) ==> Reaches(v, t, t.records[0].id)
  {
    if ActiveAt(v, t.records[0].id) {
      assert ActiveUpTo(v, t.records, 0);
    }
  }

  lemma ReplierRecedes(w: Workflows, s: System, q: Pid, fate: Fate, wall: Instant, p: Pid)
    requires WellKeyed(w) && Locking(w, Look(s)) && q in s.repliers
    ensures var v, n := Look(s), Look(StepReplier(w, s, q, fate, wall)); Recedes(v, n, p) && Retreats(v, n)
  {
    ReplierKeepsLocking(w, s, q, fate, wall);
    var v, records := Look(s), s.repliers[q].records;
    if records != [] {
      assert Known(v, records[0]) && LockOk(w, v, records[0].id);
    }
    assert forall f: nat :: f < |s.db.sequences| && !ActiveAt(v, f) ==>
      !ActiveAt(Look(StepReplier(w, s, q, fate, wall)), f);
  }

  /** p's own step, in time: e itself is ended, or p goes on to its next record. */
  lemma OwnReplyKeepsAwaiting(w: Workflows, s: System, p: Pid, wall: Instant, e: nat, until: Instant)
    requires WellKeyed(w) && Locking(w, Look(s)) && Ordered(Look(s)) && Awaiting(Look(s), p, e, until)
    ensures StillAwaits(Look(StepReplier(w, s, p, Succeeds, wall)), p, e, until)
  {
    var v, n, t := Look(s), Look(StepReplier(w, s, p, Succeeds, wall)), s.repliers[p];
    var r := t.records[0];
    assert Known(v, r) && LockOk(w, v, r.id);
    ReplierRows(w, s.db, t, Succeeds, wall);
    ReplierRecedes(w, s, p, Succeeds, wall, p);
    FirstIsLocked(v, p, e, until);
    if r.id != e {
      forall f: nat | f < |v.sequences| && f != r.id ensures Left(v, n, f, p) {
        RetreatLeaves(v, n, f, p);
      }
      TailStaysAwaiting(v, n, p, e, until);
    }
  }

  lemma FirstIsLocked(v: View, p: Pid, e: nat, until: Instant)
    requires Ordered(v) && Awaiting(v, p, e, until)
    ensures v.repliers[p].records != [] && LockedAt(v, v.repliers[p].records[0].id, until)
    ensures v.repliers[p].records[0].id <= e
  {
    assert Rising(v.repliers[p].records);
  }

  lemma TailStaysAwaiting(v: View, n: View, p: Pid, e: nat, until: Instant)
    requires Ordered(v) && Awaiting(v, p, e, until) && v.repliers[p].records != [] && v.repliers[p].records[0].id != e
    requires p in n.repliers && n.repliers[p].records == v.repliers[p].records[1..]
    requires forall f: nat :: f < |v.sequences| && f != v.repliers[p].records[0].id ==> Left(v, n, f, p)
    ensures Awaiting(n, p, e, until)
  {
    var was, now := v.repliers[p].records, n.repliers[p].records;
    assert Rising(was);
    var i :| 0 <= i < |was| && was[i].id == e;
    assert now[i - 1].id == e;
    forall j | 0 <= j < |now| && now[j].id < e ensures LockedAt(n, now[j].id, until) && !Touched(n, now[j].id, p) {
      assert now[j] == was[j + 1] && was[0].id < was[j + 1].id;
      assert LockedAt(v, was[j + 1].id, until);
      assert Left(v, n, was[j + 1].id, p);
    }
    assert Left(v, n, e, p);
  }

  predicate IsAdvancers(a: Action) { a.AdvancerClaim? || a.AdvancerStep? }

  lemma AdvancersKeepAwaiting(w: Workflows, s: System, a: Action, p: Pid, e: nat, until: Instant)
    requires WellKeyed(w) && Locking(w, Look(s)) && Awaiting(Look(s), p, e, until) && s.db.now <= until && IsAdvancers(a)
    ensures StillAwaits(Look(Step(w, s, a)), p, e, until)
  {
    if a.AdvancerClaim? {
      ClaimKeepsAwaiting(s, a.p, a.fate, p, e, until);
    } else if a.p in s.advancers {
      AdvancerKeepsAwaiting(w, s, a.p, a.fate, a.wall, a.bs, p, e, until);
    }
  }

  lemma RepliersKeepAwaiting(w: Workflows, s: System, a: Action, p: Pid, e: nat, until: Instant)
    requires WellKeyed(w) && Locking(w, Look(s)) && Ordered(Look(s)) && Awaiting(Look(s), p, e, until)
    requires s.db.now <= until && InTime(s, a, p, until) && (a.HearReply? || a.ReplierStep?)
    ensures StillAwaits(Look(Step(w, s, a)), p, e, until)
  {
    if a.HearReply? {
      HearKeepsAwaiting(s, a.p, a.phone, a.to, a.text, a.fate, p, e, until);
    } else if a.p == p {
      OwnReplyKeepsAwaiting(w, s, p, a.wall, e, until);
    } else if a.p in s.repliers {
      OtherReplyKeepsAwaiting(w, s, a.p, a.fate, a.wall, p, e, until);
    }
  }

  lemma OutsideKeepsAwaiting(w: Workflows, s: System, a: Action, p: Pid, e: nat, until: Instant)
    requires Locking(w, Look(s)) && Awaiting(Look(s), p, e, until) && InTime(s, a, p, until)
    requires !IsAdvancers(a) && !a.HearReply? && !a.ReplierStep?
    ensures Awaiting(Look(Step(w, s, a)), p, e, until)
  {
    if !TouchesSequences(a) {
      OthersAreInvisible(w, s, a);
    } else {
      StepFrame(w, s, a);
      EnrollAppends(w, s, a);
      BystandersKeepAwaiting(Look(s), Look(Step(w, s, a)), p, e, until);
    }
  }

  lemma EnrollAppends(w: Workflows, s: System, a: Action)
    requires a.EnrollContact? || a.Enqueue? || a.AdvancerCrash? || a.ReplierCrash?
    ensures s.db.sequences <= Step(w, s, a).db.sequences
  {}

  lemma StepKeepsAwaiting(w: Workflows, s: System, a: Action, p: Pid, e: nat, until: Instant)
    requires WellKeyed(w) && Locking(w, Look(s)) && Ordered(Look(s)) && Awaiting(Look(s), p, e, until)
    requires s.db.now <= until && InTime(s, a, p, until)
    ensures StillAwaits(Look(Step(w, s, a)), p, e, until)
  {
    if IsAdvancers(a) {
      AdvancersKeepAwaiting(w, s, a, p, e, until);
    } else if a.HearReply? || a.ReplierStep? {
      RepliersKeepAwaiting(w, s, a, p, e, until);
    } else {
      OutsideKeepsAwaiting(w, s, a, p, e, until);
    }
  }

  // ----- The reply ends what it awaits -----

  predicate Ended(s: System, e: nat) { !ActiveAt(Look(s), e) }

  lemma {:induction false} AwaitedEnds(w: Workflows, s: System, actions: seq<Action>, p: Pid, e: nat, until: Instant)
    requires WellKeyed(w) && Locking(w, Look(s)) && Ordered(Look(s)) && Awaiting(Look(s), p, e, until)
    requires Answers(w, s, actions, p, until)
    ensures Ended(Execution(w, s, actions), e)
    decreases |actions|
  {
    var a, next := actions[0], Step(w, s, actions[0]);
    StillInTime(w, s, actions, p, until);
    StepKeepsAwaiting(w, s, a, p, e, until);
    StepKeepsLocking(w, s, a);
    StepKeepsOrdered(w, s, a);
    if ActiveAt(Look(next), e) {
      AwaitedEnds(w, next, actions[1..], p, e, until);
    } else {
      EnrollmentRuns.TerminalIsForever(w, next, actions[1..]);
    }
  }

  // ----- The hearing -----

  /** What a reply is to end: the active enrollments of the two numbers, locked or not. */
  predicate Meant(v: View, e: nat, phone: string, to: string) {
    && ActiveAt(v, e)
    && v.sequences[e].enrollment.contact.phone == phone && (to == "" || v.sequences[e].from == to)
  }

  predicate Free(s: System, f: nat) { f < |s.db.sequences| && Unlocked(s.db.sequences[f], s.db.now) }

  /** Before the reply is heard: the row is free, nobody is about to put it back, and no row that the reply comes to
      first can be written to by anyone. */
  ghost predicate SafeAt(s: System, e: nat, phone: string, to: string) {
    && Free(s, e) && !Freed(Look(s), e)
    && forall f: nat :: f < e && Meant(Look(s), f, phone, to) && Free(s, f) ==> !Writable(Look(s), f)
  }

  /** Some worker can still write to row f. */
  ghost predicate Writable(v: View, f: nat) {
    || (exists a :: a in v.advancers && WorksOn(v.advancers[a], f))
    || (exists q :: q in v.repliers && Reaches(v, v.repliers[q], f))
  }

  function Heard(w: Workflows, s: System, p: Pid, phone: string, to: string, text: string): System {
    Step(w, s, HearReply(p, phone, to, text, Succeeds))
  }

  lemma HeardState(w: Workflows, s: System, p: Pid, phone: string, to: string, text: string)
    requires p !in s.repliers
    ensures var h := Heard(w, s, p, phone, to, text);
      && h.db == s.db.(sequences := LockConcerned(s.db.sequences, phone, to, s.db.now))
      && h.advancers == s.advancers
      && h.repliers == s.repliers[p := Replier(ConcernedRecords(s.db.sequences, phone, to, s.db.now), text)]
  {}

  lemma HeardTouches(w: Workflows, s: System, p: Pid, phone: string, to: string, text: string, f: nat)
    requires p !in s.repliers && f < |s.db.sequences|
    ensures var h := Look(Heard(w, s, p, phone, to, text));
      && (Freed(h, f) <==> Freed(Look(s), f))
      && (Touched(h, f, p) <==> Writable(Look(s), f))
      && (ActiveAt(h, f) <==> ActiveAt(Look(s), f))
  {
    HeardState(w, s, p, phone, to, text);
    var v, h := Look(s), Look(Heard(w, s, p, phone, to, text));
    SameReach(v, h, f);
    SameReach(h, v, f);
    if q :| q in v.repliers && Reaches(v, v.repliers[q], f) {
      assert q != p && h.repliers[q] == v.repliers[q] && Reaches(h, h.repliers[q], f);
    }
    if q :| q in h.repliers && q != p && Reaches(h, h.repliers[q], f) {
      assert h.repliers[q] == v.repliers[q] && Reaches(v, v.repliers[q], f);
    }
  }

  lemma SafeIsAwaited(w: Workflows, s: System, p: Pid, phone: string, to: string, text: string, e: nat)
    requires p !in s.repliers && Meant(Look(s), e, phone, to) && SafeAt(s, e, phone, to)
    ensures Awaiting(Look(Heard(w, s, p, phone, to, text)), p, e, s.db.now + SEQUENCE_LEASE)
  {
    var h, until := Look(Heard(w, s, p, phone, to, text)), s.db.now + SEQUENCE_LEASE;
    HeardState(w, s, p, phone, to, text);
    var records := ConcernedRecords(s.db.sequences, phone, to, s.db.now);
    HeardTouches(w, s, p, phone, to, text, e);
    assert Snapshot(s.db.sequences, e) in records;
    var k :| 0 <= k < |records| && records[k] == Snapshot(s.db.sequences, e);
    assert records[k].id == e;
    forall i | 0 <= i < |records| && records[i].id < e
      ensures LockedAt(h, records[i].id, until) && !Touched(h, records[i].id, p)
    {
      EarlierIsAlone(w, s, p, phone, to, text, e, records[i].id);
    }
  }

  lemma EarlierIsAlone(w: Workflows, s: System, p: Pid, phone: string, to: string, text: string, e: nat, f: nat)
    requires p !in s.repliers && SafeAt(s, e, phone, to)
    requires f < e && f < |s.db.sequences| && Concerned(s.db.sequences[f], phone, to, s.db.now)
    ensures var h := Look(Heard(w, s, p, phone, to, text));
      LockedAt(h, f, s.db.now + SEQUENCE_LEASE) && !Touched(h, f, p)
  {
    HeardState(w, s, p, phone, to, text);
    HeardTouches(w, s, p, phone, to, text, f);
    assert Meant(Look(s), f, phone, to) && Free(s, f);
  }

}
