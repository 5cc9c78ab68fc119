/** The condition of ReplySafety is exact: an enrollment that is not safe from the other workers can outlive a reply
    that was handled wholly and in time. */
module ReplyRace {
  import opened Wrappers
  import opened SendWindow
  import opened Engine
  import opened LeasedQueue
  import opened Tables
  import opened Machine
  import opened Enrollments
  import opened ReplySafety
  import EnrollmentRuns
  import Haste

  // ----- Runs of the others -----

  /** No action of p's own worker. */
  predicate Foreign(actions: seq<Action>, p: Pid) {
    forall i :: 0 <= i < |actions| ==>
      !(actions[i].ReplierStep? && actions[i].p == p) && !(actions[i].ReplierCrash? && actions[i].p == p)
  }

  lemma {:induction false} ForeignPrefix(
    w: Workflows, s: System, first: seq<Action>, second: seq<Action>, p: Pid, until: Instant)
    requires Foreign(first, p) && Answers(w, Execution(w, s, first), second, p, until)
    ensures Answers(w, s, first + second, p, until)
    decreases |first|
  {
    if first == [] {
      assert first + second == second;
    } else {
      assert (first + second)[1..] == first[1..] + second && (first + second)[0] == first[0];
      assert InTime(s, first[0], p, until);
      ForeignPrefix(w, Step(w, s, first[0]), first[1..], second, p, until);
    }
  }

  /** y is x but for row g and what only concerns other workers. */
  predicate OnlyRow(x: System, y: System, g: nat, p: Pid) {
    && y.db.now == x.db.now && |y.db.sequences| == |x.db.sequences|
    && (forall f: nat :: f < |x.db.sequences| && f != g ==> y.db.sequences[f] == x.db.sequences[f])
    && p in x.repliers && p in y.repliers && y.repliers[p] == x.repliers[p]
  }

  predicate UnlockedAt(s: System, f: nat) { f < |s.db.sequences| && s.db.sequences[f].lockedUntil.None? }

  // ----- A refused reply leaves the rest as it is -----

  /** p never comes to e, or is refused at a row before it or at e itself. */
  ghost predicate Missed(s: System, p: Pid, e: nat) {
    p in s.repliers &&
    var records := s.repliers[p].records;
    || (forall i :: 0 <= i < |records| ==> records[i].id != e)
    || (exists i :: 0 <= i < |records| && records[i].id <= e && UnlockedAt(s, records[i].id))
  }

  /** p's next step: its first row is ended if it is locked, and else p is refused and gives up. */
  lemma OwnStepRows(w: Workflows, s: System, p: Pid)
    requires WellKeyed(w) && Locking(w, Look(s)) && Handling(s, p)
    ensures var n, r := Step(w, s, ReplierStep(p, Succeeds, 0)), s.repliers[p].records[0];
      && n.db.now == s.db.now && |n.db.sequences| == |s.db.sequences|
      && (forall f: nat :: f < |s.db.sequences| && f != r.id ==> n.db.sequences[f] == s.db.sequences[f])
      && r.id < |s.db.sequences|
      && (if UnlockedAt(s, r.id) then n.db.sequences == s.db.sequences && !Handling(n, p)
          else
            && !Active(n.db.sequences[r.id]) && UnlockedAt(n, r.id)
            && p in n.repliers && n.repliers[p].records == s.repliers[p].records[1..])
  {
    var r := s.repliers[p].records[0];
    assert Known(Look(s), r) && LockOk(w, Look(s), r.id);
    ReplierRows(w, s.db, s.repliers[p], Succeeds, 0);
    ReplierKeepsTime(w, s.db, s.repliers[p], Succeeds, 0);
  }

  lemma OwnStep(w: Workflows, s: System, p: Pid, e: nat)
    requires WellKeyed(w) && Locking(w, Look(s)) && Ordered(Look(s)) && Handling(s, p)
    requires Missed(s, p, e) && ActiveAt(Look(s), e)
    ensures var n := Step(w, s, ReplierStep(p, Succeeds, 0));
      && ActiveAt(Look(n), e) && n.db.now == s.db.now
      && (Handling(n, p) ==> n.repliers[p].records == s.repliers[p].records[1..] && Missed(n, p, e))
  {
    var n := Step(w, s, ReplierStep(p, Succeeds, 0));
    OwnStepRows(w, s, p);
    if !UnlockedAt(s, s.repliers[p].records[0].id) {
      TailMissed(s, n, p, e);
    }
  }

  lemma TailMissed(s: System, n: System, p: Pid, e: nat)
    requires Handling(s, p) && Rising(s.repliers[p].records) && Missed(s, p, e)
    requires !UnlockedAt(s, s.repliers[p].records[0].id)
    requires p in n.repliers && n.repliers[p].records == s.repliers[p].records[1..]
    requires forall f: nat :: f < |s.db.sequences| && f != s.repliers[p].records[0].id ==>
      f < |n.db.sequences| && n.db.sequences[f] == s.db.sequences[f]
    ensures Missed(n, p, e) && s.repliers[p].records[0].id != e
  {
    var was, now := s.repliers[p].records, n.repliers[p].records;
    if i :| 0 <= i < |was| && was[i].id <= e && UnlockedAt(s, was[i].id) {
      assert was[0].id < was[i].id && now[i - 1] == was[i];
      assert UnlockedAt(n, now[i - 1].id);
    }
  }

  lemma {:induction false} Solo(w: Workflows, s: System, p: Pid, e: nat, until: Instant) returns (actions: seq<Action>)
    requires WellKeyed(w) && Locking(w, Look(s)) && Ordered(Look(s)) && s.db.now <= until
    requires Missed(s, p, e) && ActiveAt(Look(s), e)
    ensures Answers(w, s, actions, p, until) && !Ended(Execution(w, s, actions), e)
    decreases |s.repliers[p].records|
  {
    if !Handling(s, p) {
      actions := [];
    } else {
      var a := ReplierStep(p, Succeeds, 0);
      var n := Step(w, s, a);
      OwnStep(w, s, p, e);
      StepKeepsLocking(w, s, a);
      StepKeepsOrdered(w, s, a);
      var rest := [];
      if Handling(n, p) {
        rest := Solo(w, n, p, e, until);
      }
      actions := [a] + rest;
      assert actions[1..] == rest;
    }
  }

  // ----- An advancer that puts the row back -----

  lemma StepIs(w: Workflows, s: System, a: Pid, wall: Instant)
    requires a in s.advancers
    ensures Step(w, s, AdvancerStep(a, Succeeds, wall, [])) == StepAdvancer(w, s, a, Succeeds, wall, [])
  {}

  /** RetryWorkflow. */
  lemma PostponeFrees(w: Workflows, s: System, a: Pid, f: nat, p: Pid)
    requires a in s.advancers && s.advancers[a].Postponing? && s.advancers[a].id == f && p in s.repliers
    requires ActiveAt(Look(s), f)
    ensures var n := Step(w, s, AdvancerStep(a, Succeeds, 0, []));
      OnlyRow(s, n, f, p) && UnlockedAt(n, f) && ActiveAt(Look(n), f)
  {}

  /** FailWorkflow. */
  lemma FailUnlocks(w: Workflows, s: System, a: Pid, f: nat, p: Pid)
    requires a in s.advancers && s.advancers[a].Failing? && s.advancers[a].id == f && p in s.repliers
    requires f < |s.db.sequences|
    ensures var n := Step(w, s, AdvancerStep(a, Succeeds, 0, [])); OnlyRow(s, n, f, p) && UnlockedAt(n, f)
  {}

  /** A clock at which the run is not due. */
  function Before(x: Enrollment): Instant { if x.nextRun.Some? then x.nextRun.value - 1 else 0 }

  lemma NotDueChangesNothing(w: Workflows, r: Record)
    requires WellKeyed(w) && Configured(w, r.enrollment.key)
    ensures Advanced(w[r.enrollment.key], r.enrollment, Before(r.enrollment), []) == Progress(r.enrollment, Ok([]))
  {}

  /** The engine finds nothing to do, and the batch only unlocks the row. */
  lemma IdleBatchFrees(w: Workflows, s: System, a: Pid, f: nat, p: Pid)
    requires WellKeyed(w) && Locking(w, Look(s)) && a in s.advancers && s.advancers[a].Ready? && p in s.repliers
    requires s.advancers[a].record.id == f && Configured(w, s.advancers[a].record.enrollment.key)
    requires Claimable(s.db, s.advancers[a].record)
    ensures var n := Step(w, s, AdvancerStep(a, Succeeds, Before(s.advancers[a].record.enrollment), []));
      OnlyRow(s, n, f, p) && UnlockedAt(n, f) && ActiveAt(Look(n), f)
  {
    var r := s.advancers[a].record;
    assert Known(Look(s), r);
    NotDueChangesNothing(w, r);
    assert RunCommands(s.db, r, [], "", 0) == s.db;
    StepIs(w, s, a, Before(r.enrollment));
  }

  lemma UnconfiguredPostpones(w: Workflows, s: System, a: Pid)
    requires a in s.advancers && s.advancers[a].Ready? && !Configured(w, s.advancers[a].record.enrollment.key)
    ensures Step(w, s, AdvancerStep(a, Succeeds, 0, [])) ==
      s.(advancers := s.advancers[a := Postponing(s.advancers[a].record.id, 60 * MINUTE)])
  {}

  /** Any advancer at row f that is not failing it can unlock it and leave it active. */
  lemma AdvancerFrees(w: Workflows, s: System, a: Pid, f: nat, p: Pid) returns (actions: seq<Action>)
    requires WellKeyed(w) && Locking(w, Look(s)) && a in s.advancers && Frees(s.advancers[a], f) && p in s.repliers
    requires ActiveAt(Look(s), f) && s.db.sequences[f].lockedUntil.Some?
    ensures Foreign(actions, p)
    ensures var n := Execution(w, s, actions); OnlyRow(s, n, f, p) && UnlockedAt(n, f) && ActiveAt(Look(n), f)
  {
    var put := AdvancerStep(a, Succeeds, 0, []);
    if s.advancers[a].Postponing? {
      actions := [put];
      PostponeFrees(w, s, a, f, p);
      ExecutionOne(w, s, put);
    } else if Configured(w, s.advancers[a].record.enrollment.key) {
      var idle := AdvancerStep(a, Succeeds, Before(s.advancers[a].record.enrollment), []);
      actions := [idle];
      IdleBatchFrees(w, s, a, f, p);
      ExecutionOne(w, s, idle);
    } else {
      UnconfiguredPostpones(w, s, a);
      var next := Step(w, s, put);
      PostponeFrees(w, next, a, f, p);
      ExecutionConcat(w, s, [put], [put]);
      ExecutionOne(w, s, put);
      ExecutionOne(w, next, put);
      actions := [put] + [put];
    }
  }

  // ----- Another reply's worker that gets there first -----

  lemma DeadAgain(w: Workflows, s: System, h: System, q: Pid)
    requires q !in s.repliers && q in h.repliers && h.repliers == s.repliers[q := h.repliers[q]]
    ensures Step(w, h, ReplierCrash(q)) == h.(repliers := s.repliers)
  {
    assert h.repliers - {q} == s.repliers;
  }

  /** Some further reply locks row g again, and its worker dies. */
  lemma Relocks(w: Workflows, s: System, g: nat, p: Pid) returns (actions: seq<Action>)
    requires ActiveAt(Look(s), g) && s.db.sequences[g].lockedUntil.None? && p in s.repliers
    ensures Foreign(actions, p)
    ensures var n := Execution(w, s, actions);
      && n.db.now == s.db.now && n.repliers == s.repliers && n.advancers == s.advancers
      && |n.db.sequences| == |s.db.sequences| && n.db.sequences[g].lockedUntil.Some?
      && (forall f: nat :: f < |s.db.sequences| ==>
            n.db.sequences[f].enrollment == s.db.sequences[f].enrollment &&
            (!Unlocked(s.db.sequences[f], s.db.now) ==> n.db.sequences[f] == s.db.sequences[f]))
  {
    var q := Haste.FreshPid(s.repliers.Keys);
    var phone := s.db.sequences[g].enrollment.contact.phone;
    var hear, die := HearReply(q, phone, "", "", Succeeds), ReplierCrash(q);
    var h := Heard(w, s, q, phone, "", "");
    HeardState(w, s, q, phone, "", "");
    DeadAgain(w, s, h, q);
    actions := [hear] + [die];
    ExecutionConcat(w, s, [hear], [die]);
    ExecutionOne(w, s, hear);
    ExecutionOne(w, h, die);
    assert Concerned(s.db.sequences[g], phone, "", s.db.now);
  }

  lemma OthersUntouched(w: Workflows, s: System, q: Pid, p: Pid)
    requires q in s.repliers && q != p && p in s.repliers
    ensures var n := Step(w, s, ReplierStep(q, Succeeds, 0)); p in n.repliers && n.repliers[p] == s.repliers[p]
  {}

  /** A replier's step at a locked row ends and unlocks it, and brings the worker to its next record. */
  lemma OneFurther(w: Workflows, s: System, q: Pid, f: nat, p: Pid)
    requires WellKeyed(w) && Locking(w, Look(s)) && Ordered(Look(s)) && Handling(s, q) && q != p && p in s.repliers
    requires Reaches(Look(s), s.repliers[q], f) && !UnlockedAt(s, s.repliers[q].records[0].id)
    ensures var n, g := Step(w, s, ReplierStep(q, Succeeds, 0)), s.repliers[q].records[0].id;
      && OnlyRow(s, n, g, p) && UnlockedAt(n, g) && g <= f && q in n.repliers
      && n.repliers[q].records == s.repliers[q].records[1..]
      && (g != f ==> Reaches(Look(n), n.repliers[q], f))
  {
    var n := Step(w, s, ReplierStep(q, Succeeds, 0));
    OwnStepRows(w, s, q);
    OthersUntouched(w, s, q, p);
    TailReaches(Look(s), Look(n), s.repliers[q], n.repliers[q], f);
  }

  lemma TailReaches(v: View, n: View, was: Replier, now: Replier, f: nat)
    requires Rising(was.records) && was.records != [] && now.records == was.records[1..] && Reaches(v, was, f)
    requires |n.sequences| == |v.sequences|
    requires forall i: nat :: i < |v.sequences| && i != was.records[0].id ==> n.sequences[i] == v.sequences[i]
    ensures was.records[0].id <= f && (was.records[0].id != f ==> Reaches(n, now, f))
  {
    var k :| 0 <= k < |was.records| && was.records[k].id == f && ActiveUpTo(v, was.records, k);
    if k > 0 {
      forall j | 0 <= j <= k - 1 ensures ActiveAt(n, now.records[j].id) {
        assert now.records[j] == was.records[j + 1] && was.records[0].id < was.records[j + 1].id;
        assert ActiveAt(v, was.records[j + 1].id);
      }
      assert ActiveUpTo(n, now.records, k - 1);
    }
  }

  /** y differs from x in no way that matters to p and to row e. */
  predicate Same(x: System, y: System, e: nat, p: Pid) {
    && y.db.now == x.db.now && e < |x.db.sequences| && e < |y.db.sequences|
    && y.db.sequences[e] == x.db.sequences[e]
    && p in x.repliers && p in y.repliers && y.repliers[p] == x.repliers[p]
  }

  /** Row g is locked by someone, and nothing else has changed. */
  lemma EnsureLocked(w: Workflows, s: System, q: Pid, f: nat, p: Pid, e: nat) returns (actions: seq<Action>)
    requires WellKeyed(w) && Locking(w, Look(s)) && Ordered(Look(s)) && Handling(s, q) && q != p && p in s.repliers
    requires Reaches(Look(s), s.repliers[q], f) && e < |s.db.sequences| && !Unlocked(s.db.sequences[e], s.db.now)
    ensures Foreign(actions, p)
    ensures var n := Execution(w, s, actions);
      && Same(s, n, e, p) && Locking(w, Look(n)) && Ordered(Look(n)) && Handling(n, q) && n.repliers[q] == s.repliers[q]
      && Reaches(Look(n), n.repliers[q], f) && !UnlockedAt(n, s.repliers[q].records[0].id)
  {
    var g := s.repliers[q].records[0].id;
    FirstIsActive(Look(s), s.repliers[q], f);
    if UnlockedAt(s, g) {
      actions := Relocks(w, s, g, p);
      var n := Execution(w, s, actions);
      SameReach(Look(n), Look(s), f);
      EnrollmentRuns.TerminalIsForever(w, s, actions);
      RunKeepsOrdered(w, s, actions);
    } else {
      actions := [];
    }
  }

  lemma FirstIsActive(v: View, t: Replier, f: nat)
    requires Reaches(v, t, f)
    ensures t.records != [] && ActiveAt(v, t.records[0].id)
  {
    var k :| 0 <= k < |t.records| && t.records[k].id == f && ActiveUpTo(v, t.records, k);
    assert ActiveAt(v, t.records[0].id);
  }

  /** Its first row is locked if need be, and ended. */
  lemma LockAndEnd(w: Workflows, s: System, q: Pid, f: nat, p: Pid, e: nat) returns (actions: seq<Action>)
    requires WellKeyed(w) && Locking(w, Look(s)) && Ordered(Look(s)) && Handling(s, q) && q != p && p in s.repliers
    requires Reaches(Look(s), s.repliers[q], f) && f < e < |s.db.sequences| && !Unlocked(s.db.sequences[e], s.db.now)
    ensures Foreign(actions, p)
    ensures var n, g := Execution(w, s, actions), s.repliers[q].records[0].id;
      && Same(s, n, e, p) && UnlockedAt(n, g) && Locking(w, Look(n)) && Ordered(Look(n)) && q in n.repliers
      && n.repliers[q].records == s.repliers[q].records[1..] && (g != f ==> Reaches(Look(n), n.repliers[q], f))
  {
    var lock := EnsureLocked(w, s, q, f, p, e);
    var x, a := Execution(w, s, lock), ReplierStep(q, Succeeds, 0);
    OneFurther(w, x, q, f, p);
    StepKeepsLocking(w, x, a);
    StepKeepsOrdered(w, x, a);
    ExecutionSnoc(w, s, lock, a);
    actions := lock + [a];
  }

  /** A worker that reaches row f gets there and unlocks it, e untouched. */
  lemma {:induction false} ReplierUnlocks(w: Workflows, s: System, q: Pid, f: nat, p: Pid, e: nat)
    returns (actions: seq<Action>)
    requires WellKeyed(w) && Locking(w, Look(s)) && Ordered(Look(s)) && Handling(s, q) && q != p && p in s.repliers
    requires Reaches(Look(s), s.repliers[q], f) && f < e < |s.db.sequences| && !Unlocked(s.db.sequences[e], s.db.now)
    ensures Foreign(actions, p)
    ensures var n := Execution(w, s, actions); Same(s, n, e, p) && UnlockedAt(n, f)
    decreases |s.repliers[q].records|
  {
    actions := LockAndEnd(w, s, q, f, p, e);
    var n := Execution(w, s, actions);
    if s.repliers[q].records[0].id != f {
      FirstIsActive(Look(n), n.repliers[q], f);
      var rest := ReplierUnlocks(w, n, q, f, p, e);
      ExecutionConcat(w, s, actions, rest);
      actions := actions + rest;
    }
  }

  // ----- The enrollment that is missed -----

  /** Somebody unlocks a row that the reply comes to before e. */
  lemma WriterUnlocks(w: Workflows, s: System, f: nat, p: Pid, e: nat) returns (actions: seq<Action>)
    requires WellKeyed(w) && Locking(w, Look(s)) && Ordered(Look(s)) && p in s.repliers
    requires Touched(Look(s), f, p) && ActiveAt(Look(s), f) && s.db.sequences[f].lockedUntil.Some?
    requires f < e < |s.db.sequences| && !Unlocked(s.db.sequences[e], s.db.now)
    ensures Foreign(actions, p)
    ensures var n := Execution(w, s, actions); Same(s, n, e, p) && UnlockedAt(n, f)
  {
    if a :| a in s.advancers && WorksOn(s.advancers[a], f) {
      if s.advancers[a].Failing? {
        var fail := AdvancerStep(a, Succeeds, 0, []);
        actions := [fail];
        FailUnlocks(w, s, a, f, p);
        ExecutionOne(w, s, fail);
      } else {
        actions := AdvancerFrees(w, s, a, f, p);
      }
    } else {
      var q :| q in s.repliers && q != p && Reaches(Look(s), s.repliers[q], f);
      FirstIsActive(Look(s), s.repliers[q], f);
      actions := ReplierUnlocks(w, s, q, f, p, e);
    }
  }

  /** After others' doings that make p miss e, p alone is refused. */
  lemma ThenSolo(w: Workflows, s: System, first: seq<Action>, p: Pid, e: nat, until: Instant)
    returns (actions: seq<Action>)
    requires WellKeyed(w) && Locking(w, Look(s)) && Ordered(Look(s)) && Foreign(first, p)
    requires var n := Execution(w, s, first); Missed(n, p, e) && ActiveAt(Look(n), e) && n.db.now <= until
    ensures Answers(w, s, actions, p, until) && !Ended(Execution(w, s, actions), e)
  {
    var n := Execution(w, s, first);
    EnrollmentRuns.TerminalIsForever(w, s, first);
    RunKeepsOrdered(w, s, first);
    var rest := Solo(w, n, p, e, until);
    ForeignPrefix(w, s, first, rest, p, until);
    ExecutionConcat(w, s, first, rest);
    actions := first + rest;
  }

  /** Its own record is among those p holds, and its row is unlocked. */
  lemma RecordMissed(n: System, p: Pid, records: seq<Record>, f: nat, e: nat)
    requires p in n.repliers && n.repliers[p].records == records && f <= e && UnlockedAt(n, f)
    requires Holds(records, f)
    ensures Missed(n, p, e)
  {}

  predicate Holds(records: seq<Record>, f: nat) { exists i :: 0 <= i < |records| && records[i].id == f }

  lemma ConcernedIsHeld(sequences: seq<Sequence>, phone: string, to: string, now: Instant, f: nat)
    requires f < |sequences| && Concerned(sequences[f], phone, to, now)
    ensures Holds(ConcernedRecords(sequences, phone, to, now), f)
  {
    var records := ConcernedRecords(sequences, phone, to, now);
    var i :| 0 <= i < |records| && records[i] == Snapshot(sequences, f);
    assert records[i].id == f;
  }

  /** e was locked when the reply was heard. */
  lemma LockedIsMissed(w: Workflows, s: System, p: Pid, phone: string, to: string, text: string, e: nat)
    returns (actions: seq<Action>)
    requires WellKeyed(w) && Locking(w, Look(s)) && Ordered(Look(s)) && p !in s.repliers
    requires Meant(Look(s), e, phone, to) && !Free(s, e)
    ensures var h := Heard(w, s, p, phone, to, text);
      Answers(w, h, actions, p, s.db.now + SEQUENCE_LEASE) && !Ended(Execution(w, h, actions), e)
  {
    var h := Heard(w, s, p, phone, to, text);
    HeardState(w, s, p, phone, to, text);
    HeardIsSound(w, s, p, phone, to, text);
    actions := ThenSolo(w, h, [], p, e, s.db.now + SEQUENCE_LEASE);
  }

  lemma HeardIsSound(w: Workflows, s: System, p: Pid, phone: string, to: string, text: string)
    requires WellKeyed(w) && Locking(w, Look(s)) && Ordered(Look(s))
    ensures var h := Heard(w, s, p, phone, to, text); Locking(w, Look(h)) && Ordered(Look(h))
  {
    StepKeepsLocking(w, s, HearReply(p, phone, to, text, Succeeds));
    StepKeepsOrdered(w, s, HearReply(p, phone, to, text, Succeeds));
  }

  /** Somebody puts e back. */
  lemma FreedIsMissed(w: Workflows, s: System, p: Pid, phone: string, to: string, text: string, e: nat)
    returns (actions: seq<Action>)
    requires WellKeyed(w) && Locking(w, Look(s)) && Ordered(Look(s)) && p !in s.repliers
    requires Meant(Look(s), e, phone, to) && Free(s, e) && Freed(Look(s), e)
    ensures var h := Heard(w, s, p, phone, to, text);
      Answers(w, h, actions, p, s.db.now + SEQUENCE_LEASE) && !Ended(Execution(w, h, actions), e)
  {
    var h := Heard(w, s, p, phone, to, text);
    HeardState(w, s, p, phone, to, text);
    HeardIsSound(w, s, p, phone, to, text);
    var a :| a in s.advancers && Frees(s.advancers[a], e);
    var first := AdvancerFrees(w, h, a, e, p);
    ConcernedIsHeld(s.db.sequences, phone, to, s.db.now, e);
    RecordMissed(Execution(w, h, first), p, h.repliers[p].records, e, e);
    actions := ThenSolo(w, h, first, p, e, s.db.now + SEQUENCE_LEASE);
  }

  /** Somebody writes to a row that comes before e. */
  lemma RefusedBeforeIsMissed(
    w: Workflows, s: System, p: Pid, phone: string, to: string, text: string, f: nat, e: nat)
    returns (actions: seq<Action>)
    requires WellKeyed(w) && Locking(w, Look(s)) && Ordered(Look(s)) && p !in s.repliers
    requires Meant(Look(s), e, phone, to) && Free(s, e)
    requires f < e && Meant(Look(s), f, phone, to) && Free(s, f) && Writable(Look(s), f)
    ensures var h := Heard(w, s, p, phone, to, text);
      Answers(w, h, actions, p, s.db.now + SEQUENCE_LEASE) && !Ended(Execution(w, h, actions), e)
  {
    var h := Heard(w, s, p, phone, to, text);
    HeardState(w, s, p, phone, to, text);
    HeardIsSound(w, s, p, phone, to, text);
    HeardTouches(w, s, p, phone, to, text, f);
    var first := WriterUnlocks(w, h, f, p, e);
    ConcernedIsHeld(s.db.sequences, phone, to, s.db.now, f);
    RecordMissed(Execution(w, h, first), p, h.repliers[p].records, f, e);
    actions := ThenSolo(w, h, first, p, e, s.db.now + SEQUENCE_LEASE);
  }

  // ----- Main results -----

  /** Every run in which p gets through in time ends e. */
  ghost predicate AlwaysEnds(w: Workflows, h: System, p: Pid, until: Instant, e: nat) {
    forall actions :: Answers(w, h, actions, p, until) ==> Ended(Execution(w, h, actions), e)
  }

  lemma AwaitedAlwaysEnds(w: Workflows, h: System, p: Pid, until: Instant, e: nat)
    requires WellKeyed(w) && Locking(w, Look(h)) && Ordered(Look(h)) && Awaiting(Look(h), p, e, until)
    ensures AlwaysEnds(w, h, p, until, e)
  {
    forall actions | Answers(w, h, actions, p, until) ensures Ended(Execution(w, h, actions), e) {
      AwaitedEnds(w, h, actions, p, e, until);
    }
  }

  /** For one enrollment a reply is meant for, in any reachable state: every run in which the reply's worker gets
      through in time ends it, exactly when it is safe from the others at the moment the reply is heard. */
  lemma EndsExactlyWhenSafe(
    w: Workflows, now: Instant, before: seq<Action>, p: Pid, phone: string, to: string, text: string, e: nat)
    requires WellKeyed(w)
    requires var s := Execution(w, Boot(now), before); p !in s.repliers && Meant(Look(s), e, phone, to)
    ensures var s := Execution(w, Boot(now), before);
      AlwaysEnds(w, Heard(w, s, p, phone, to, text), p, s.db.now + SEQUENCE_LEASE, e) <==> SafeAt(s, e, phone, to)
  {
    EnrollmentRuns.BootIsLocking(w, now);
    EnrollmentRuns.TerminalIsForever(w, Boot(now), before);
    RunKeepsOrdered(w, Boot(now), before);
    EndsIffSafe(w, Execution(w, Boot(now), before), p, phone, to, text, e);
  }

  lemma EndsIffSafe(w: Workflows, s: System, p: Pid, phone: string, to: string, text: string, e: nat)
    requires WellKeyed(w) && Locking(w, Look(s)) && Ordered(Look(s)) && p !in s.repliers
    requires Meant(Look(s), e, phone, to)
    ensures AlwaysEnds(w, Heard(w, s, p, phone, to, text), p, s.db.now + SEQUENCE_LEASE, e) <==> SafeAt(s, e, phone, to)
  {
    if SafeAt(s, e, phone, to) {
      HeardIsSound(w, s, p, phone, to, text);
      SafeIsAwaited(w, s, p, phone, to, text, e);
      AwaitedAlwaysEnds(w, Heard(w, s, p, phone, to, text), p, s.db.now + SEQUENCE_LEASE, e);
    } else {
      var _ := UnsafeIsMissed(w, s, p, phone, to, text, e);
    }
  }

  lemma UnsafeIsMissed(w: Workflows, s: System, p: Pid, phone: string, to: string, text: string, e: nat)
    returns (actions: seq<Action>)
    requires WellKeyed(w) && Locking(w, Look(s)) && Ordered(Look(s)) && p !in s.repliers
    requires Meant(Look(s), e, phone, to) && !SafeAt(s, e, phone, to)
    ensures var h := Heard(w, s, p, phone, to, text);
      Answers(w, h, actions, p, s.db.now + SEQUENCE_LEASE) && !Ended(Execution(w, h, actions), e)
  {
    if !Free(s, e) {
      actions := LockedIsMissed(w, s, p, phone, to, text, e);
    } else if Freed(Look(s), e) {
      actions := FreedIsMissed(w, s, p, phone, to, text, e);
    } else {
      var f: nat :| f < e && Meant(Look(s), f, phone, to) && Free(s, f) && Writable(Look(s), f);
      actions := RefusedBeforeIsMissed(w, s, p, phone, to, text, f, e);
    }
  }

  /** Every run in which p gets through in time ends all that the reply was meant for in state s. */
  ghost predicate AlwaysEndsAll(
    w: Workflows, s: System, h: System, p: Pid, until: Instant, phone: string, to: string)
  {
    forall actions, e: nat :: Answers(w, h, actions, p, until) && Meant(Look(s), e, phone, to) ==>
      Ended(Execution(w, h, actions), e)
  }

  ghost predicate AllSafe(s: System, phone: string, to: string) {
    forall e: nat :: Meant(Look(s), e, phone, to) ==> SafeAt(s, e, phone, to)
  }

  /** "Stop on any reply": every timely run ends all enrollments the reply is meant for, exactly when each is safe. */
  lemma ReplyStopsExactly(
    w: Workflows, now: Instant, before: seq<Action>, p: Pid, phone: string, to: string, text: string)
    requires WellKeyed(w) && p !in Execution(w, Boot(now), before).repliers
    ensures var s := Execution(w, Boot(now), before);
      AlwaysEndsAll(w, s, Heard(w, s, p, phone, to, text), p, s.db.now + SEQUENCE_LEASE, phone, to) <==>
      AllSafe(s, phone, to)
  {
    EnrollmentRuns.BootIsLocking(w, now);
    EnrollmentRuns.TerminalIsForever(w, Boot(now), before);
    RunKeepsOrdered(w, Boot(now), before);
    StopsIffSafe(w, Execution(w, Boot(now), before), p, phone, to, text);
  }

  lemma StopsIffSafe(w: Workflows, s: System, p: Pid, phone: string, to: string, text: string)
    requires WellKeyed(w) && Locking(w, Look(s)) && Ordered(Look(s)) && p !in s.repliers
    ensures AlwaysEndsAll(w, s, Heard(w, s, p, phone, to, text), p, s.db.now + SEQUENCE_LEASE, phone, to) <==>
      AllSafe(s, phone, to)
  {
    var h, until := Heard(w, s, p, phone, to, text), s.db.now + SEQUENCE_LEASE;
    forall e: nat | Meant(Look(s), e, phone, to)
      ensures AlwaysEnds(w, h, p, until, e) <==> SafeAt(s, e, phone, to)
    {
      EndsIffSafe(w, s, p, phone, to, text, e);
    }
    if AllSafe(s, phone, to) {
      forall actions, e: nat | Answers(w, h, actions, p, until) && Meant(Look(s), e, phone, to)
        ensures Ended(Execution(w, h, actions), e)
      {
        assert AlwaysEnds(w, h, p, until, e);
      }
    } else {
      var e: nat :| Meant(Look(s), e, phone, to) && !SafeAt(s, e, phone, to);
      assert !AlwaysEnds(w, h, p, until, e);
    }
  }

}
