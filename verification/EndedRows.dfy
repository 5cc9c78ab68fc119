/** Rows that have ended never change again, in any column, while workers act within their leases. */
module EndedRows {
  import opened SendWindow
  import opened Numbers
  import opened Template
  import opened Engine
  import opened LeasedQueue
  import opened Tables
  import opened Machine
  import opened Frames
  import opened Enrollments
  import opened Outbox
  import opened OutboxRuns
  import opened Errands
  import opened Idempotency
  import opened Deliveries

  // ----- Outbound jobs -----

  /** The lease columns, from the queue that the workers refine. */
  lemma StepKeepsEndedLease(w: Workflows, s: System, a: Action, i: nat)
    requires Settled(s) && WithinLease(s, a)
    requires i < |s.db.jobs| && Terminal(s.db.jobs[i].lease)
    ensures i < |Step(w, s, a).db.jobs| && Step(w, s, a).db.jobs[i].lease == s.db.jobs[i].lease
  {
    StepIsProper(w, s, a, i);
    StepRefines(w, s, a);
    TerminalIsAbsorbing(Outgoing(s), s.db.now, Events(w, s, a), i);
  }

  /** The provider id: Complete lands only on a row that is being sent. */
  lemma StepKeepsEndedProvider(w: Workflows, s: System, a: Action, i: nat)
    requires Settled(s) && WithinLease(s, a)
    requires i < |s.db.jobs| && Terminal(s.db.jobs[i].lease)
    ensures i < |Step(w, s, a).db.jobs| && Step(w, s, a).db.jobs[i].provider == s.db.jobs[i].provider
  {
    if a.SenderStep? {
      SenderStepKeepsEndedProvider(w, s, a, i);
    } else {
      OthersKeepProvider(w, s, a, i);
    }
  }

  lemma OthersKeepProvider(w: Workflows, s: System, a: Action, i: nat)
    requires !a.SenderStep? && i < |s.db.jobs|
    ensures i < |Step(w, s, a).db.jobs| && Step(w, s, a).db.jobs[i].provider == s.db.jobs[i].provider
  {
    var n := Step(w, s, a);
    if a.Webhook? {
      StepFrame(w, s, a);
      FrameOfJobs(s, n, a);
    } else {
      StepAddsUnsent(w, s, a);
      assert Providers(n.db.jobs)[i] == Providers(s.db.jobs)[i];
    }
  }

  lemma SenderStepKeepsEndedProvider(w: Workflows, s: System, a: Action, i: nat)
    requires Settled(s) && WithinLease(s, a) && a.SenderStep?
    requires i < |s.db.jobs| && Terminal(s.db.jobs[i].lease)
    ensures i < |Step(w, s, a).db.jobs| && Step(w, s, a).db.jobs[i].provider == s.db.jobs[i].provider
  {
    if Steps(s, a.p) {
      SenderKeepsEndedProvider(s, a.p, a.fate, a.response, a.lookup, i);
    }
  }

  lemma SenderKeepsEndedProvider(s: System, p: Pid, fate: Fate, response: Response, lookup: Lookup, i: nat)
    requires Settled(s) && Steps(s, p) && WithinLease(s, SenderStep(p, fate, response, lookup))
    requires i < |s.db.jobs| && Terminal(s.db.jobs[i].lease)
    ensures var n := StepSender(s, p, fate, response, lookup).db;
      i < |n.jobs| && n.jobs[i].provider == s.db.jobs[i].provider
  {
    assert Agrees(Outgoing(s), s.held[p], s.db.now);
  }

  lemma StepKeepsEndedJob(w: Workflows, s: System, a: Action, i: nat)
    requires Settled(s) && WithinLease(s, a)
    requires i < |s.db.jobs| && Terminal(s.db.jobs[i].lease)
    ensures i < |Step(w, s, a).db.jobs| && Step(w, s, a).db.jobs[i] == s.db.jobs[i]
  {
    StepKeepsEndedLease(w, s, a, i);
    StepKeepsEndedProvider(w, s, a, i);
    StepGrows(w, s, a);
    assert Mail(Step(w, s, a).db.jobs)[i] == Mail(s.db.jobs)[i];
  }

  lemma StepKeepsSettled(w: Workflows, s: System, a: Action)
    requires Settled(s) && WithinLease(s, a)
    ensures Settled(Step(w, s, a))
  {
    StepIsProper(w, s, a, 0);
    StepRefines(w, s, a);
    StepKeepsDiscipline(w, s, a);
    TimeMovesOn(w, s, a);
    TraceKeepsSound(Outgoing(s), s.db.now, Events(w, s, a), Step(w, s, a).db.now);
  }

  /** Sent, failed and cancelled jobs never change again. */
  lemma {:induction false} EndedJobsStay(w: Workflows, s: System, actions: seq<Action>, i: nat)
    requires Settled(s) && LiveRun(w, s, actions)
    requires i < |s.db.jobs| && Terminal(s.db.jobs[i].lease)
    ensures var n := Execution(w, s, actions); i < |n.db.jobs| && n.db.jobs[i] == s.db.jobs[i]
    decreases |actions|
  {
    if actions != [] {
      StepKeepsEndedJob(w, s, actions[0], i);
      StepKeepsSettled(w, s, actions[0]);
      EndedJobsStay(w, Step(w, s, actions[0]), actions[1..], i);
    }
  }

  // ----- CRM jobs -----

  /** Everything of a row but its lease. */
  datatype Errand = Errand(enrollment: nat, action: string, body: string, reply: string, batch: nat)

  function Content(crm: seq<CrmJob>): (r: seq<Errand>)
    ensures |r| == |crm|
    ensures forall i :: 0 <= i < |crm| ==>
      r[i] == Errand(crm[i].enrollment, crm[i].action, crm[i].body, crm[i].reply, crm[i].batch)
  {
    seq(|crm|, i requires 0 <= i < |crm| =>
      Errand(crm[i].enrollment, crm[i].action, crm[i].body, crm[i].reply, crm[i].batch))
  }

  lemma {:induction false} CommandsKeepContent(db: Database, r: Record, cs: seq<Command>, reply: string, wall: Instant)
    ensures Content(db.crm) <= Content(RunCommands(db, r, cs, reply, wall).crm)
    decreases |cs|
  {
    if cs != [] {
      var n := |cs| - 1;
      var before := RunCommands(db, r, cs[..n], reply, wall);
      CommandsKeepContent(db, r, cs[..n], reply, wall);
      CommandKeepsContent(before, r, cs[n], reply, wall);
    }
  }

  lemma CommandKeepsContent(db: Database, r: Record, c: Command, reply: string, wall: Instant)
    ensures Content(db.crm) <= Content(RunCommand(db, r, c, reply, wall).crm)
  {}

  lemma ApplyKeepsContent(db: Database, r: Record, cs: seq<Command>, reply: string, fate: Fate, wall: Instant)
    ensures Content(db.crm) <= Content(TryApply(db, r, cs, reply, fate, wall).crm)
  {
    if fate.Lands() && Claimable(db, r) {
      CommandsKeepContent(
        db.(sequences := db.sequences[r.id := Rewritten(db.sequences[r.id], r, reply)], batches := db.batches + 1),
        r, cs, reply, wall);
    }
  }

  lemma AdvancerKeepsContent(w: Workflows, db: Database, t: Advancer, fate: Fate, wall: Instant, bs: Bindings)
    ensures Content(db.crm) <= Content(AdvancerEffect(w, db, t, fate, wall, bs).crm)
  {
    if t.Ready? && Configured(w, t.record.enrollment.key) {
      var a := Advanced(w[t.record.enrollment.key], t.record.enrollment, wall, bs);
      if a.result.Ok? {
        ApplyKeepsContent(db, t.record.(enrollment := a.enrollment), a.result.value, "", fate, wall);
      }
    }
  }

  lemma ReplierKeepsContent(w: Workflows, db: Database, t: Replier, fate: Fate, wall: Instant)
    ensures Content(db.crm) <= Content(ReplierEffect(w, db, t, fate, wall).crm)
  {
    if t.records != [] && t.records[0].enrollment.key in w {
      var x := Replied(w[t.records[0].enrollment.key], t.records[0].enrollment, t.text);
      ApplyKeepsContent(db, t.records[0].(enrollment := x.enrollment), x.commands, t.text, fate, wall);
    }
  }

  lemma CrmClaimKeepsContent(s: System, p: Pid, fate: Fate)
    ensures Content(ClaimCrm(s, p, fate).db.crm) == Content(s.db.crm)
  {}

  lemma CrmStepKeepsContent(s: System, p: Pid, fate: Fate, ok: bool)
    requires CrmSteps(s, p)
    ensures Content(StepCrm(s, p, fate, ok).db.crm) == Content(s.db.crm)
  {
    if s.crmPcs[p].CrmWriteBack? {
      var i := s.crmHeld[p].row;
      LeaseKeepsContent(s.db, i, Written(s.db.crm[i].lease, s.crmPcs[p].outcome, s.db.now));
    }
  }

  lemma LeaseKeepsContent(db: Database, i: nat, lease: Row)
    requires i < |db.crm|
    ensures Content(SetCrmLease(db, i, lease).crm) == Content(db.crm)
  {}

  lemma StepKeepsContent(w: Workflows, s: System, a: Action)
    ensures Content(s.db.crm) <= Content(Step(w, s, a).db.crm)
  {
    if IsCrm(a) {
      CrmWorkersKeepContent(w, s, a);
    } else if a.AdvancerStep? || a.ReplierStep? {
      SequenceWorkersKeepContent(w, s, a);
    } else {
      OthersKeepPending(w, s, a);
    }
  }

  lemma CrmWorkersKeepContent(w: Workflows, s: System, a: Action)
    requires IsCrm(a)
    ensures Content(s.db.crm) == Content(Step(w, s, a).db.crm)
  {
    if a.CrmClaim? {
      CrmClaimKeepsContent(s, a.p, a.fate);
    } else if a.CrmStep? && CrmSteps(s, a.p) {
      CrmStepKeepsContent(s, a.p, a.fate, a.ok);
    }
  }

  lemma SequenceWorkersKeepContent(w: Workflows, s: System, a: Action)
    requires a.AdvancerStep? || a.ReplierStep?
    ensures Content(s.db.crm) <= Content(Step(w, s, a).db.crm)
  {
    if a.AdvancerStep? {
      AdvancerStepKeepsContent(w, s, a.p, a.fate, a.wall, a.bs);
    } else {
      ReplierStepKeepsContent(w, s, a.p, a.fate, a.wall);
    }
  }

  lemma AdvancerStepKeepsContent(w: Workflows, s: System, p: Pid, fate: Fate, wall: Instant, bs: Bindings)
    ensures Content(s.db.crm) <= Content(Step(w, s, AdvancerStep(p, fate, wall, bs)).db.crm)
  {
    if p in s.advancers { AdvancerKeepsContent(w, s.db, s.advancers[p], fate, wall, bs); }
  }

  lemma ReplierStepKeepsContent(w: Workflows, s: System, p: Pid, fate: Fate, wall: Instant)
    ensures Content(s.db.crm) <= Content(Step(w, s, ReplierStep(p, fate, wall)).db.crm)
  {
    if p in s.repliers { ReplierKeepsContent(w, s.db, s.repliers[p], fate, wall); }
  }

  lemma StepKeepsEndedErrand(w: Workflows, s: System, a: Action, i: nat)
    requires CrmSettled(s) && CrmWithinLease(s, a)
    requires i < |s.db.crm| && Terminal(s.db.crm[i].lease)
    ensures i < |Step(w, s, a).db.crm| && Step(w, s, a).db.crm[i] == s.db.crm[i]
  {
    CrmIsProper(w, s, a, i);
    CrmRefines(w, s, a);
    TerminalIsAbsorbing(Errands.Pending(s), s.db.now, CrmEvents(w, s, a), i);
    StepKeepsContent(w, s, a);
    assert Content(Step(w, s, a).db.crm)[i] == Content(s.db.crm)[i];
  }

  /** Done and failed CRM jobs never change again. */
  lemma {:induction false} EndedCrmJobsStay(w: Workflows, s: System, actions: seq<Action>, i: nat)
    requires CrmSettled(s) && LiveCrmRun(w, s, actions)
    requires i < |s.db.crm| && Terminal(s.db.crm[i].lease)
    ensures var n := Execution(w, s, actions); i < |n.db.crm| && n.db.crm[i] == s.db.crm[i]
    decreases |actions|
  {
    if actions != [] {
      StepKeepsEndedErrand(w, s, actions[0], i);
      StepKeepsCrmSettled(w, s, actions[0]);
      EndedCrmJobsStay(w, Step(w, s, actions[0]), actions[1..], i);
    }
  }

}
