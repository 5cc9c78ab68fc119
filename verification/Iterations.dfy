/** Undisturbed iterations of the worker loops are runs of the machine: what holds of all runs holds of them. */
module Iterations {
  import opened Wrappers
  import opened SendWindow
  import opened Numbers
  import opened Template
  import opened Engine
  import opened LeasedQueue
  import opened Tables
  import opened Machine
  import opened Outbox
  import opened Workers
  import opened Replies

  /** The system once worker p has put its job down and the tables are `db`. */
  function Freed(s: System, p: Pid, db: Database): System {
    s.(db := db, senders := s.senders - {p}, held := s.held - {p})
  }

  /** Worker p holds row i for its given attempt, and carries its destination and no contact. */
  predicate Carrying(s: System, p: Pid, i: nat, attempts: nat) {
    && Steps(s, p) && s.held[p].row == i && s.held[p].attempts == attempts
    && s.senders[p].job == s.db.jobs[i].message.(contact := "")
  }

  lemma PrependStep(w: Workflows, s: System, a: Action, rest: seq<Action>)
    ensures Execution(w, s, [a] + rest) == Execution(w, Step(w, s, a), rest)
  {
    assert ([a] + rest)[1..] == rest;
  }

  /** Only worker p has moved. */
  predicate Moved(s: System, n: System, p: Pid) {
    && n == s.(db := n.db, senders := n.senders, held := n.held)
    && n.senders - {p} == s.senders - {p} && n.held - {p} == s.held - {p}
  }

  lemma Chain(w: Workflows, s: System, p: Pid, a: Action, rest: seq<Action>, db: Database)
    requires Moved(s, Step(w, s, a), p) && Execution(w, Step(w, s, a), rest) == Freed(Step(w, s, a), p, db)
    ensures Execution(w, s, [a] + rest) == Freed(s, p, db)
  {
    PrependStep(w, s, a, rest);
  }

  lemma FromWriteBack(w: Workflows, s: System, p: Pid, i: nat, attempts: nat, response: Response, lookup: Lookup)
    requires Carrying(s, p, i, attempts) && s.senders[p].pc.WriteBack?
    ensures var WriteBack(outcome, provider) := s.senders[p].pc;
      Execution(w, s, [SenderStep(p, Succeeds, response, lookup)]) ==
        Freed(s, p, if outcome == Finish then CompleteJob(s.db, i, provider) else WriteJob(s.db, i, outcome))
  {
    PrependStep(w, s, SenderStep(p, Succeeds, response, lookup), []);
    assert [SenderStep(p, Succeeds, response, lookup)] + [] == [SenderStep(p, Succeeds, response, lookup)];
  }

  lemma RefusalRecorded(w: Workflows, s: System, p: Pid, i: nat, attempts: nat, response: Response, lookup: Lookup)
    requires Carrying(s, p, i, attempts) && s.senders[p].pc.RecordSuppression?
    ensures Step(w, s, SenderStep(p, Succeeds, response, lookup)) ==
      s.(db := AddSuppression(s.db, s.db.jobs[i].message.to),
         senders := s.senders[p := s.senders[p].(pc := CancelOthers)])
  {}

  lemma OthersCancelled(w: Workflows, s: System, p: Pid, i: nat, attempts: nat, response: Response, lookup: Lookup)
    requires Carrying(s, p, i, attempts) && s.senders[p].pc.CancelOthers?
    ensures Step(w, s, SenderStep(p, Succeeds, response, lookup)) ==
      s.(db := CancelQueued(s.db, s.db.jobs[i].message.to),
         senders := s.senders[p := s.senders[p].(pc := GiveBack(GiveUp))])
  {}

  lemma FromRefusal(w: Workflows, s: System, p: Pid, i: nat, attempts: nat, response: Response, lookup: Lookup)
    returns (actions: seq<Action>)
    requires Carrying(s, p, i, attempts) && s.senders[p].pc.RecordSuppression?
    ensures var to := s.db.jobs[i].message.to;
      Execution(w, s, actions) == Freed(s, p, WriteJob(CancelQueued(AddSuppression(s.db, to), to), i, GiveUp))
  {
    var step, to := SenderStep(p, Succeeds, response, lookup), s.db.jobs[i].message.to;
    var s1 := Step(w, s, step);
    RefusalRecorded(w, s, p, i, attempts, response, lookup);
    var s2 := Step(w, s1, step);
    OthersCancelled(w, s1, p, i, attempts, response, lookup);
    FromWriteBack(w, s2, p, i, attempts, response, lookup);
    PrependStep(w, s1, step, [step]);
    PrependStep(w, s, step, [step] + [step]);
    actions := [step] + ([step] + [step]);
    assert Freed(s2, p, WriteJob(s2.db, i, GiveUp)) == Freed(s, p, WriteJob(s2.db, i, GiveUp));
  }

  lemma FromAnswer(w: Workflows, s: System, p: Pid, i: nat, attempts: nat, response: Response, lookup: Lookup)
    returns (actions: seq<Action>)
    requires Carrying(s, p, i, attempts) && s.senders[p].pc == AfterSend(attempts, response)
    ensures Execution(w, s, actions) == Freed(s, p, Resolved(s.db, i, attempts, Ok(s.db.jobs[i].message.from), response))
  {
    if s.senders[p].pc.RecordSuppression? {
      actions := FromRefusal(w, s, p, i, attempts, response, lookup);
    } else {
      actions := [SenderStep(p, Succeeds, response, lookup)];
      FromWriteBack(w, s, p, i, attempts, response, lookup);
    }
  }

  lemma FromSubmit(w: Workflows, s: System, p: Pid, i: nat, attempts: nat, response: Response, lookup: Lookup)
    returns (actions: seq<Action>)
    requires Carrying(s, p, i, attempts) && s.senders[p].pc.Submit?
    ensures Execution(w, s, actions) == Freed(s, p, Resolved(s.db, i, attempts, Ok(s.db.jobs[i].message.from), response))
  {
    var step := SenderStep(p, Succeeds, response, lookup);
    var s1 := Step(w, s, step);
    assert s1 == s.(held := s.held[p := s.held[p].(ran := true)],
      senders := s.senders[p := s.senders[p].(pc := AfterSend(attempts, response))]);
    var rest := FromAnswer(w, s1, p, i, attempts, response, lookup);
    Chain(w, s, p, step, rest, Resolved(s.db, i, attempts, Ok(s.db.jobs[i].message.from), response));
    actions := [step] + rest;
  }

  lemma FromResolve(w: Workflows, s: System, p: Pid, i: nat, attempts: nat, response: Response, lookup: Lookup)
    returns (actions: seq<Action>)
    requires Carrying(s, p, i, attempts) && s.senders[p].pc.ResolveNumber?
    ensures Execution(w, s, actions) == Freed(s, p, Resolved(s.db, i, attempts, Ok(s.db.jobs[i].message.from), response))
  {
    var step := SenderStep(p, Succeeds, response, lookup);
    var s1 := Step(w, s, step);
    assert s1 == s.(senders := s.senders[p := s.senders[p].(pc := Submit(s.db.jobs[i].message.from))]);
    var rest := FromSubmit(w, s1, p, i, attempts, response, lookup);
    Chain(w, s, p, step, rest, Resolved(s.db, i, attempts, Ok(s.db.jobs[i].message.from), response));
    actions := [step] + rest;
  }

  lemma ListChecked(w: Workflows, s: System, p: Pid, i: nat, attempts: nat, response: Response, lookup: Lookup)
    requires Carrying(s, p, i, attempts) && s.senders[p].pc.CheckSuppression?
    ensures Step(w, s, SenderStep(p, Succeeds, response, lookup)) ==
      s.(senders := s.senders[p := s.senders[p].(pc :=
        if s.db.jobs[i].message.to in s.db.suppressed then GiveBack(GiveUp) else ResolveNumber)])
  {}

  lemma FromSuppressionCheck(w: Workflows, s: System, p: Pid, i: nat, attempts: nat, response: Response, lookup: Lookup)
    returns (actions: seq<Action>)
    requires Carrying(s, p, i, attempts) && s.senders[p].pc.CheckSuppression?
    ensures Execution(w, s, actions) == Freed(s, p, Checked(s.db, i, attempts, response))
  {
    var step := SenderStep(p, Succeeds, response, lookup);
    var s1 := Step(w, s, step);
    ListChecked(w, s, p, i, attempts, response, lookup);
    if s.db.jobs[i].message.to in s.db.suppressed {
      FromWriteBack(w, s1, p, i, attempts, response, lookup);
      actions := [step];
    } else {
      actions := FromResolve(w, s1, p, i, attempts, response, lookup);
    }
    Chain(w, s, p, step, actions, Checked(s.db, i, attempts, response));
    actions := [step] + actions;
  }

  lemma FromPauseCheck(w: Workflows, s: System, p: Pid, i: nat, attempts: nat, response: Response, lookup: Lookup)
    returns (actions: seq<Action>)
    requires Carrying(s, p, i, attempts) && s.senders[p].pc.CheckPause?
    ensures Execution(w, s, actions) ==
      Freed(s, p, if s.db.paused then WriteJob(s.db, i, SHORT_DELAY) else Checked(s.db, i, attempts, response))
  {
    var step := SenderStep(p, Succeeds, response, lookup);
    var s1 := Step(w, s, step);
    if s.db.paused {
      assert s1 == s.(senders := s.senders[p := s.senders[p].(pc := GiveBack(SHORT_DELAY))]);
      FromWriteBack(w, s1, p, i, attempts, response, lookup);
      actions := [step];
    } else {
      assert s1 == s.(senders := s.senders[p := s.senders[p].(pc := CheckSuppression)]);
      actions := FromSuppressionCheck(w, s1, p, i, attempts, response, lookup);
    }
    Chain(w, s, p, step, actions,
      if s.db.paused then WriteJob(s.db, i, SHORT_DELAY) else Checked(s.db, i, attempts, response));
    actions := [step] + actions;
  }

  /** Worker p with job i in hand. */
  function InHand(s: System, p: Pid, i: nat): System
    requires i < |s.db.jobs|
  {
    var job := s.db.jobs[i];
    s.(db := TakeJob(s.db, i), held := s.held[p := TicketFor(i, job.lease, s.db.now)],
       senders := s.senders[p := Sender(CheckPause, job.message.(contact := ""))])
  }

  lemma JobClaims(w: Workflows, s: System, p: Pid, i: nat)
    requires p !in s.senders && p !in s.held && FirstEligible(Leases(s.db.jobs), s.db.now) == Some(i)
    ensures Step(w, s, SenderClaim(p, Succeeds)) == InHand(s, p, i)
  {}

  lemma PutDown(s: System, p: Pid, i: nat, db: Database)
    requires i < |s.db.jobs| && p !in s.senders && p !in s.held
    ensures Freed(InHand(s, p, i), p, db) == s.(db := db)
  {
    var t := InHand(s, p, i);
    assert t.senders - {p} == s.senders && t.held - {p} == s.held;
  }

  /** For every idle worker, every state and every answer of the provider: some run of the machine does to the
      tables exactly what the loop's iteration does, and leaves everything else alone. */
  lemma IterationIsRun(w: Workflows, s: System, p: Pid, i: nat, response: Response, lookup: Lookup)
    returns (actions: seq<Action>)
    requires p !in s.senders && p !in s.held && FirstEligible(Leases(s.db.jobs), s.db.now) == Some(i)
    ensures Execution(w, s, actions) == s.(db := Worked(s.db, i, response))
  {
    JobClaims(w, s, p, i);
    var rest := FromInHand(w, s, p, i, response, lookup);
    PrependStep(w, s, SenderClaim(p, Succeeds), rest);
    actions := [SenderClaim(p, Succeeds)] + rest;
  }

  lemma FromInHand(w: Workflows, s: System, p: Pid, i: nat, response: Response, lookup: Lookup)
    returns (actions: seq<Action>)
    requires i < |s.db.jobs| && p !in s.senders && p !in s.held
    ensures Execution(w, InHand(s, p, i), actions) == s.(db := Worked(s.db, i, response))
  {
    actions := FromPauseCheck(w, InHand(s, p, i), p, i, s.db.jobs[i].lease.attempts + 1, response, lookup);
    PutDown(s, p, i, Worked(s.db, i, response));
  }

  // ----- RunCRMWorker -----

  /** The same for an iteration of RunCRMWorker. */
  lemma CrmIterationIsRun(w: Workflows, s: System, p: Pid, i: nat, ok: bool) returns (actions: seq<Action>)
    requires p !in s.crmPcs && p !in s.crmHeld && FirstEligible(CrmLeases(s.db.crm), s.db.now) == Some(i)
    ensures Execution(w, s, actions) == s.(db := CrmWorked(s.db, i, ok))
  {
    var claim, step := CrmClaim(p, Succeeds), CrmStep(p, Succeeds, ok);
    var s1, s2 := Step(w, s, claim), Step(w, Step(w, s, claim), step);
    CrmClaims(w, s, p, i);
    CrmExecutes(w, s1, p, i, ok);
    CrmWritesBack(w, s2, p, i, ok);
    ExecutionOne(w, s2, step);
    PrependStep(w, s1, step, [step]);
    PrependStep(w, s, claim, [step] + [step]);
    actions := [claim] + ([step] + [step]);
    assert s1.crmPcs - {p} == s.crmPcs && s1.crmHeld - {p} == s.crmHeld;
    assert s2.crmPcs - {p} == s1.crmPcs - {p} && s2.crmHeld - {p} == s1.crmHeld - {p};
    assert Step(w, s2, step).db.crm == CrmWorked(s.db, i, ok).crm;
  }

  lemma CrmClaims(w: Workflows, s: System, p: Pid, i: nat)
    requires p !in s.crmPcs && p !in s.crmHeld && FirstEligible(CrmLeases(s.db.crm), s.db.now) == Some(i)
    ensures Step(w, s, CrmClaim(p, Succeeds)) ==
      s.(db := SetCrmLease(s.db, i, Claimed(s.db.crm[i].lease, s.db.now)), crmPcs := s.crmPcs[p := Execute],
         crmHeld := s.crmHeld[p := TicketFor(i, s.db.crm[i].lease, s.db.now)])
  {}

  lemma CrmExecutes(w: Workflows, s: System, p: Pid, i: nat, ok: bool)
    requires p in s.crmPcs && p in s.crmHeld && s.crmHeld[p].row == i < |s.db.crm| && s.crmPcs[p].Execute?
    ensures Step(w, s, CrmStep(p, Succeeds, ok)) ==
      s.(crmPcs := s.crmPcs[p := CrmWriteBack(AfterExecute(s.crmHeld[p].attempts, ok))],
         crmHeld := s.crmHeld[p := s.crmHeld[p].(ran := true)])
  {}

  lemma CrmWritesBack(w: Workflows, s: System, p: Pid, i: nat, ok: bool)
    requires p in s.crmPcs && p in s.crmHeld && s.crmHeld[p].row == i < |s.db.crm| && s.crmPcs[p].CrmWriteBack?
    ensures Step(w, s, CrmStep(p, Succeeds, ok)) ==
      s.(db := SetCrmLease(s.db, i, Written(s.db.crm[i].lease, s.crmPcs[p].outcome, s.db.now)),
         crmPcs := s.crmPcs - {p}, crmHeld := s.crmHeld - {p})
  {}

  // ----- RunWorkflowWorker -----

  /** The same for an iteration of RunWorkflowWorker. */
  lemma WorkflowIterationIsRun(w: Workflows, s: System, p: Pid, i: nat, broken: nat, wall: Instant, bs: Bindings)
    returns (actions: seq<Action>)
    requires p !in s.advancers && FirstDue(s.db.sequences, s.db.now) == Some(i)
    ensures Execution(w, s, actions) ==
      s.(db := Handled(w, LockSequence(s.db, i), Snapshot(s.db.sequences, i), broken, wall, bs))
  {
    var r := Snapshot(s.db.sequences, i);
    var fate := FateOf(w, r, broken, wall, bs);
    var claim, step := AdvancerClaim(p, Succeeds), AdvancerStep(p, fate, wall, bs);
    var again := AdvancerStep(p, Succeeds, wall, bs);
    var s1 := Step(w, s, claim);
    DueClaims(w, s, p, i);
    ReadySteps(w, s1, p, r, fate, wall, bs);
    var s2 := Step(w, s1, step);
    assert s1.advancers - {p} == s.advancers;
    if p !in s2.advancers {
      ExecutionOne(w, s1, step);
      PrependStep(w, s, claim, [step]);
      actions := [claim] + [step];
    } else {
      WriteBackSteps(w, s2, p, wall, bs);
      assert s2.advancers - {p} == s1.advancers - {p};
      ExecutionOne(w, s2, again);
      PrependStep(w, s1, step, [again]);
      PrependStep(w, s, claim, [step] + [again]);
      actions := [claim] + ([step] + [again]);
    }
  }

  lemma DueClaims(w: Workflows, s: System, p: Pid, i: nat)
    requires p !in s.advancers && FirstDue(s.db.sequences, s.db.now) == Some(i)
    ensures Step(w, s, AdvancerClaim(p, Succeeds)) ==
      s.(db := LockSequence(s.db, i), advancers := s.advancers[p := Ready(Snapshot(s.db.sequences, i))])
  {}

  lemma ReadySteps(w: Workflows, s: System, p: Pid, r: Record, fate: Fate, wall: Instant, bs: Bindings)
    requires p in s.advancers && s.advancers[p] == Ready(r)
    ensures var next := AdvancerNext(w, s.db, Ready(r), fate, wall, bs);
      Step(w, s, AdvancerStep(p, fate, wall, bs)) ==
        s.(db := AdvancerEffect(w, s.db, Ready(r), fate, wall, bs),
           advancers := if next.None? then s.advancers - {p} else s.advancers[p := next.value])
    ensures var next := AdvancerNext(w, s.db, Ready(r), fate, wall, bs); next.Some? ==> !next.value.Ready?
  {}

  lemma WriteBackSteps(w: Workflows, s: System, p: Pid, wall: Instant, bs: Bindings)
    requires p in s.advancers && !s.advancers[p].Ready?
    ensures Step(w, s, AdvancerStep(p, Succeeds, wall, bs)) ==
      s.(db := AdvancerEffect(w, s.db, s.advancers[p], Succeeds, wall, bs), advancers := s.advancers - {p})
  {}

  // ----- applyWorkflowReply -----

  /** Handling one record writes to its own row alone. */
  lemma AnswerTouchesOne(w: Workflows, db: Database, r: Record, text: string, wall: Instant, j: nat)
    requires r.id < |db.sequences| && j < |db.sequences| && j != r.id
    ensures var n := AnswerEffect(w, db, r, text, wall);
      |n.sequences| == |db.sequences| && n.sequences[j] == db.sequences[j]
  {
    if r.enrollment.key in w && Claimable(db, r) {
      var x := Replied(w[r.enrollment.key], r.enrollment, text);
      var after := r.(enrollment := x.enrollment);
      CommandsKeepSequences(
        db.(sequences := db.sequences[r.id := Rewritten(db.sequences[r.id], after, text)], batches := db.batches + 1),
        after, x.commands, text, wall);
    }
  }

  predicate Ordered(records: seq<Record>, n: nat) {
    (forall k :: 0 <= k < |records| ==> records[k].id < n) &&
    (forall k, l :: 0 <= k < l < |records| ==> records[k].id < records[l].id)
  }

  /** The rows not yet handled keep their lock. */
  lemma {:induction false} LocksRemain(
    w: Workflows, db: Database, records: seq<Record>, text: string, wall: Instant, done: nat, j: nat)
    requires Ordered(records, |db.sequences|) && done <= j < |records|
    requires db.sequences[records[j].id].lockedUntil.Some?
    ensures Claimable(AfterAnswers(w, db, records, text, wall, done), records[j])
    ensures |AfterAnswers(w, db, records, text, wall, done).sequences| == |db.sequences|
  {
    if done > 0 {
      LocksRemain(w, db, records, text, wall, done - 1, j);
      AnswerTouchesOne(w, AfterAnswers(w, db, records, text, wall, done - 1), records[done - 1], text, wall, records[j].id);
    }
  }

  /** The machine after k of the records. */
  function Answering(
    w: Workflows, s: System, p: Pid, records: seq<Record>, text: string, wall: Instant, k: nat): System
    requires k <= |records|
  {
    s.(db := AfterAnswers(w, s.db, records, text, wall, k), repliers := s.repliers[p := Replier(records[k..], text)])
  }

  lemma AnswerSteps(w: Workflows, s: System, p: Pid, records: seq<Record>, text: string, wall: Instant, k: nat)
    requires k < |records| && Claimable(AfterAnswers(w, s.db, records, text, wall, k), records[k])
    ensures Step(w, Answering(w, s, p, records, text, wall, k), ReplierStep(p, Succeeds, wall)) ==
      Answering(w, s, p, records, text, wall, k + 1)
  {
    var t := Answering(w, s, p, records, text, wall, k);
    assert records[k..][0] == records[k] && records[k..][1..] == records[k + 1..];
    assert t.repliers[p := Replier(records[k + 1..], text)] == s.repliers[p := Replier(records[k + 1..], text)];
  }

  lemma StopsAnswering(w: Workflows, s: System, p: Pid, wall: Instant)
    requires p in s.repliers
    ensures Step(w, s, ReplierStep(p, Aborts, wall)) == s.(repliers := s.repliers - {p})
  {}

  lemma AnswerNextStep(w: Workflows, s: System, p: Pid, records: seq<Record>, text: string, wall: Instant, k: nat)
    requires k < |records| && Ordered(records, |s.db.sequences|)
    requires s.db.sequences[records[k].id].lockedUntil.Some?
    ensures Step(w, Answering(w, s, p, records, text, wall, k), ReplierStep(p, Succeeds, wall)) ==
      Answering(w, s, p, records, text, wall, k + 1)
  {
    LocksRemain(w, s.db, records, text, wall, k, k);
    AnswerSteps(w, s, p, records, text, wall, k);
  }

  lemma {:induction false} AnswersAreRun(
    w: Workflows, s: System, p: Pid, records: seq<Record>, text: string, wall: Instant, start: System, done: nat)
    returns (actions: seq<Action>)
    requires done <= |records| && Ordered(records, |s.db.sequences|)
    requires forall j :: 0 <= j < |records| ==> s.db.sequences[records[j].id].lockedUntil.Some?
    requires start == Answering(w, s, p, records, text, wall, 0)
    ensures Execution(w, start, actions) == Answering(w, s, p, records, text, wall, done)
    decreases done
  {
    if done == 0 {
      actions := [];
    } else {
      actions := AnswersAreRun(w, s, p, records, text, wall, start, done - 1);
      AnswerNextStep(w, s, p, records, text, wall, done - 1);
      ExecutionSnoc(w, start, actions, ReplierStep(p, Succeeds, wall));
      actions := actions + [ReplierStep(p, Succeeds, wall)];
    }
  }

  lemma HearsReply(w: Workflows, s: System, p: Pid, phone: string, from: string, text: string, wall: Instant)
    requires p !in s.repliers
    ensures Step(w, s, HearReply(p, phone, from, text, Succeeds)) ==
      Answering(w, s.(db := Concerning(s.db, phone, from)), p,
        ConcernedRecords(s.db.sequences, phone, from, s.db.now), text, wall, 0)
  {
    var records := ConcernedRecords(s.db.sequences, phone, from, s.db.now);
    assert records[0..] == records;
  }

  lemma AnswersThenStop(
    w: Workflows, s: System, p: Pid, records: seq<Record>, text: string, wall: Instant, start: System, done: nat)
    returns (actions: seq<Action>)
    requires done <= |records| && Ordered(records, |s.db.sequences|) && p !in s.repliers
    requires forall j :: 0 <= j < |records| ==> s.db.sequences[records[j].id].lockedUntil.Some?
    requires start == Answering(w, s, p, records, text, wall, 0)
    ensures Execution(w, start, actions) == s.(db := AfterAnswers(w, s.db, records, text, wall, done))
  {
    actions := AnswersAreRun(w, s, p, records, text, wall, start, done);
    StopsAfter(w, Execution(w, start, actions), s, p, records, text, wall, done);
    ExecutionSnoc(w, start, actions, ReplierStep(p, Aborts, wall));
    actions := actions + [ReplierStep(p, Aborts, wall)];
  }

  lemma StopsAfter(
    w: Workflows, t: System, s: System, p: Pid, records: seq<Record>, text: string, wall: Instant, done: nat)
    requires done <= |records| && p !in s.repliers && t == Answering(w, s, p, records, text, wall, done)
    ensures Step(w, t, ReplierStep(p, Aborts, wall)) == s.(db := AfterAnswers(w, s.db, records, text, wall, done))
  {
    StopsAnswering(w, t, p, wall);
    assert t.repliers - {p} == s.repliers;
  }

  /** The same for a reply, handled wholly or cut short after any number of its records. */
  lemma ReplyIsRun(
    w: Workflows, s: System, p: Pid, phone: string, from: string, text: string, wall: Instant, done: nat)
    returns (actions: seq<Action>)
    requires p !in s.repliers && done <= |ConcernedRecords(s.db.sequences, phone, from, s.db.now)|
    ensures Execution(w, s, actions) ==
      s.(db := AfterAnswers(w, Concerning(s.db, phone, from),
           ConcernedRecords(s.db.sequences, phone, from, s.db.now), text, wall, done))
  {
    var records := ConcernedRecords(s.db.sequences, phone, from, s.db.now);
    var locked := s.(db := Concerning(s.db, phone, from));
    var hear := HearReply(p, phone, from, text, Succeeds);
    HearsReply(w, s, p, phone, from, text, wall);
    var rest := AnswersThenStop(w, locked, p, records, text, wall, Step(w, s, hear), done);
    PrependStep(w, s, hear, rest);
    actions := [hear] + rest;
  }

}
