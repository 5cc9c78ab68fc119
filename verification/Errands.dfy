/** crm_jobs and its workers (internal/store/crm.go, RunCRMWorker) refine the same leased queue. */
module Errands {
  import opened SendWindow
  import opened Template
  import opened Engine
  import opened LeasedQueue
  import opened Tables
  import opened Machine
  import opened Frames
  import opened Outbox
  import opened OutboxRuns

  function Pending(s: System): Queue { Queue(CrmLeases(s.db.crm), s.crmHeld) }

  // ----- The queue events of each action -----

  function CommandInserts(db: Database, r: Record, c: Command): seq<Event> {
    if c.SendSms? || c.SuppressContact? || HasCrm(db.crm, r.id, ActionName(c)) then []
    else [Event(db.now, Insert(db.now))]
  }

  function BatchInserts(db: Database, r: Record, cs: seq<Command>, reply: string, wall: Instant): seq<Event>
    decreases |cs|
  {
    if cs == [] then []
    else
      var n := |cs| - 1;
      BatchInserts(db, r, cs[..n], reply, wall) + CommandInserts(RunCommands(db, r, cs[..n], reply, wall), r, cs[n])
  }

  function ApplyInserts(db: Database, r: Record, cs: seq<Command>, reply: string, fate: Fate, wall: Instant): seq<Event> {
    if fate.Lands() && Claimable(db, r) then
      BatchInserts(
        db.(sequences := db.sequences[r.id := Rewritten(db.sequences[r.id], r, reply)], batches := db.batches + 1),
        r, cs, reply, wall)
    else []
  }

  function AdvancerInserts(w: Workflows, db: Database, t: Advancer, fate: Fate, wall: Instant, bs: Bindings): seq<Event> {
    if !t.Ready? || !Configured(w, t.record.enrollment.key) then []
    else
      var a := Advanced(w[t.record.enrollment.key], t.record.enrollment, wall, bs);
      if a.result.Err? then []
      else ApplyInserts(db, t.record.(enrollment := a.enrollment), a.result.value, "", fate, wall)
  }

  function ReplierInserts(w: Workflows, db: Database, t: Replier, fate: Fate, wall: Instant): seq<Event> {
    if t.records == [] || t.records[0].enrollment.key !in w then []
    else
      var x := Replied(w[t.records[0].enrollment.key], t.records[0].enrollment, t.text);
      ApplyInserts(db, t.records[0].(enrollment := x.enrollment), x.commands, t.text, fate, wall)
  }

  predicate CrmSteps(s: System, p: Pid) { p in s.crmPcs && p in s.crmHeld && s.crmHeld[p].row < |s.db.crm| }

  function CrmAct(s: System, p: Pid, fate: Fate): Act
    requires p in s.crmPcs
  {
    match s.crmPcs[p]
    case Execute => Perform(p)
    case CrmWriteBack(outcome) => Write(p, outcome, fate.Lands())
  }

  function CrmEvents(w: Workflows, s: System, a: Action): seq<Event> {
    match a
    case CrmClaim(p, fate) =>
      var i := CrmToClaim(s, p, fate);
      if i.None? then [] else [Event(s.db.now, if fate.Seen() then Claim(p, i.value) else ClaimUnseen(i.value))]
    case CrmStep(p, fate, _) => if CrmSteps(s, p) then [Event(s.db.now, CrmAct(s, p, fate))] else []
    case CrmCrash(p) => [Event(s.db.now, Drop(p))]
    case AdvancerStep(p, fate, wall, bs) =>
      if p in s.advancers then AdvancerInserts(w, s.db, s.advancers[p], fate, wall, bs) else []
    case ReplierStep(p, fate, wall) =>
      if p in s.repliers then ReplierInserts(w, s.db, s.repliers[p], fate, wall) else []
    case _ => []
  }

  function CrmRunEvents(w: Workflows, s: System, actions: seq<Action>): seq<Event>
    decreases |actions|
  {
    if actions == [] then [] else CrmEvents(w, s, actions[0]) + CrmRunEvents(w, Step(w, s, actions[0]), actions[1..])
  }

  // ----- Refinement -----

  lemma CrmUpdate(crm: seq<CrmJob>, i: nat, lease: Row)
    requires i < |crm|
    ensures CrmLeases(crm[i := crm[i].(lease := lease)]) == CrmLeases(crm)[i := lease]
  {}

  lemma {:induction false} BatchInsertsRefine(
    db: Database, r: Record, cs: seq<Command>, reply: string, wall: Instant, held: map<Pid, Ticket>)
    ensures Trace(Queue(CrmLeases(db.crm), held), BatchInserts(db, r, cs, reply, wall)) ==
      Queue(CrmLeases(RunCommands(db, r, cs, reply, wall).crm), held)
    ensures AllAt(BatchInserts(db, r, cs, reply, wall), db.now) && Harmless(BatchInserts(db, r, cs, reply, wall))
    ensures RunCommands(db, r, cs, reply, wall).now == db.now
    decreases |cs|
  {
    if cs != [] {
      var n := |cs| - 1;
      var before := RunCommands(db, r, cs[..n], reply, wall);
      var q, es := Queue(CrmLeases(db.crm), held), CommandInserts(before, r, cs[n]);
      BatchInsertsRefine(db, r, cs[..n], reply, wall, held);
      CommandInsertsRefine(before, r, cs[n], reply, wall, held);
      TraceConcat(q, BatchInserts(db, r, cs[..n], reply, wall), es);
    }
  }

  lemma CommandInsertsRefine(db: Database, r: Record, c: Command, reply: string, wall: Instant, held: map<Pid, Ticket>)
    ensures Trace(Queue(CrmLeases(db.crm), held), CommandInserts(db, r, c)) ==
      Queue(CrmLeases(RunCommand(db, r, c, reply, wall).crm), held)
    ensures RunCommand(db, r, c, reply, wall).now == db.now
  {
    var q, es := Queue(CrmLeases(db.crm), held), CommandInserts(db, r, c);
    if es != [] {
      TraceOne(q, es[0]);
      assert CrmLeases(RunCommand(db, r, c, reply, wall).crm) == CrmLeases(db.crm) + [New(db.now)];
    }
  }

  lemma ApplyInsertsRefine(
    db: Database, r: Record, cs: seq<Command>, reply: string, fate: Fate, wall: Instant, held: map<Pid, Ticket>)
    ensures Trace(Queue(CrmLeases(db.crm), held), ApplyInserts(db, r, cs, reply, fate, wall)) ==
      Queue(CrmLeases(TryApply(db, r, cs, reply, fate, wall).crm), held)
    ensures var es := ApplyInserts(db, r, cs, reply, fate, wall); AllAt(es, db.now) && Harmless(es)
  {
    if fate.Lands() && Claimable(db, r) {
      BatchInsertsRefine(
        db.(sequences := db.sequences[r.id := Rewritten(db.sequences[r.id], r, reply)], batches := db.batches + 1),
        r, cs, reply, wall, held);
    }
  }

  lemma AdvancerInsertsRefine(
    w: Workflows, db: Database, t: Advancer, fate: Fate, wall: Instant, bs: Bindings, held: map<Pid, Ticket>)
    ensures Trace(Queue(CrmLeases(db.crm), held), AdvancerInserts(w, db, t, fate, wall, bs)) ==
      Queue(CrmLeases(AdvancerEffect(w, db, t, fate, wall, bs).crm), held)
    ensures var es := AdvancerInserts(w, db, t, fate, wall, bs); AllAt(es, db.now) && Harmless(es)
  {
    if t.Ready? && Configured(w, t.record.enrollment.key) {
      var a := Advanced(w[t.record.enrollment.key], t.record.enrollment, wall, bs);
      if a.result.Ok? {
        ApplyInsertsRefine(db, t.record.(enrollment := a.enrollment), a.result.value, "", fate, wall, held);
      }
    }
  }

  lemma ReplierInsertsRefine(w: Workflows, db: Database, t: Replier, fate: Fate, wall: Instant, held: map<Pid, Ticket>)
    ensures Trace(Queue(CrmLeases(db.crm), held), ReplierInserts(w, db, t, fate, wall)) ==
      Queue(CrmLeases(ReplierEffect(w, db, t, fate, wall).crm), held)
    ensures var es := ReplierInserts(w, db, t, fate, wall); AllAt(es, db.now) && Harmless(es)
  {
    if t.records != [] && t.records[0].enrollment.key in w {
      var x := Replied(w[t.records[0].enrollment.key], t.records[0].enrollment, t.text);
      ApplyInsertsRefine(db, t.records[0].(enrollment := x.enrollment), x.commands, t.text, fate, wall, held);
    }
  }

  lemma CrmClaimRefines(w: Workflows, s: System, p: Pid, fate: Fate)
    ensures Trace(Pending(s), CrmEvents(w, s, CrmClaim(p, fate))) == Pending(ClaimCrm(s, p, fate))
  {
    var i := CrmToClaim(s, p, fate);
    if i.Some? {
      TraceOne(Pending(s), CrmEvents(w, s, CrmClaim(p, fate))[0]);
      CrmUpdate(s.db.crm, i.value, Claimed(s.db.crm[i.value].lease, s.db.now));
    }
  }

  lemma CrmStepRefines(s: System, p: Pid, fate: Fate, ok: bool)
    requires CrmSteps(s, p)
    ensures Trace(Pending(s), [Event(s.db.now, CrmAct(s, p, fate))]) == Pending(StepCrm(s, p, fate, ok))
  {
    TraceOne(Pending(s), Event(s.db.now, CrmAct(s, p, fate)));
    if s.crmPcs[p].CrmWriteBack? {
      var i := s.crmHeld[p].row;
      CrmUpdate(s.db.crm, i, Written(s.db.crm[i].lease, s.crmPcs[p].outcome, s.db.now));
    }
  }

  lemma CrmCrashRefines(w: Workflows, s: System, p: Pid)
    ensures Trace(Pending(s), [Event(s.db.now, Drop(p))]) == Pending(Step(w, s, CrmCrash(p)))
  {
    TraceOne(Pending(s), Event(s.db.now, Drop(p)));
    assert p !in s.crmHeld ==> s.crmHeld - {p} == s.crmHeld;
  }

  predicate TouchesCrm(a: Action) { a.CrmClaim? || a.CrmStep? || a.CrmCrash? || a.AdvancerStep? || a.ReplierStep? }

  lemma OthersKeepPending(w: Workflows, s: System, a: Action)
    requires !TouchesCrm(a)
    ensures Step(w, s, a).db.crm == s.db.crm
  {
    StepFrame(w, s, a);
    FrameOfCrm(s, Step(w, s, a), a);
  }

  lemma OthersKeepCrmWorkers(w: Workflows, s: System, a: Action)
    requires !a.CrmClaim? && !a.CrmStep? && !a.CrmCrash?
    ensures Step(w, s, a).crmHeld == s.crmHeld && Step(w, s, a).crmPcs == s.crmPcs
  {
    StepFrame(w, s, a);
    FrameOfCrmWorkers(s, Step(w, s, a), a);
  }

  lemma SequenceWorkersRefine(w: Workflows, s: System, a: Action)
    requires a.AdvancerStep? || a.ReplierStep?
    ensures Trace(Pending(s), CrmEvents(w, s, a)) == Pending(Step(w, s, a))
  {
    if a.AdvancerStep? {
      AdvancerStepInserts(w, s, a.p, a.fate, a.wall, a.bs);
    } else {
      ReplierStepInserts(w, s, a.p, a.fate, a.wall);
    }
  }

  lemma AdvancerStepInserts(w: Workflows, s: System, p: Pid, fate: Fate, wall: Instant, bs: Bindings)
    ensures var a := AdvancerStep(p, fate, wall, bs); Trace(Pending(s), CrmEvents(w, s, a)) == Pending(Step(w, s, a))
  {
    if p in s.advancers { AdvancerInsertsRefine(w, s.db, s.advancers[p], fate, wall, bs, s.crmHeld); }
  }

  lemma ReplierStepInserts(w: Workflows, s: System, p: Pid, fate: Fate, wall: Instant)
    ensures var a := ReplierStep(p, fate, wall); Trace(Pending(s), CrmEvents(w, s, a)) == Pending(Step(w, s, a))
  {
    if p in s.repliers { ReplierInsertsRefine(w, s.db, s.repliers[p], fate, wall, s.crmHeld); }
  }

  /** Every action of the system is a sequence of events of the CRM queue. */
  lemma CrmRefines(w: Workflows, s: System, a: Action)
    ensures Trace(Pending(s), CrmEvents(w, s, a)) == Pending(Step(w, s, a))
  {
    if IsCrm(a) {
      CrmWorkersRefine(w, s, a);
    } else if a.AdvancerStep? || a.ReplierStep? {
      SequenceWorkersRefine(w, s, a);
    } else {
      OthersKeepPending(w, s, a);
      OthersKeepCrmWorkers(w, s, a);
    }
  }

  lemma CrmWorkersRefine(w: Workflows, s: System, a: Action)
    requires IsCrm(a)
    ensures Trace(Pending(s), CrmEvents(w, s, a)) == Pending(Step(w, s, a))
  {
    if a.CrmClaim? {
      CrmClaimRefines(w, s, a.p, a.fate);
    } else if a.CrmCrash? {
      CrmCrashRefines(w, s, a.p);
    } else if CrmSteps(s, a.p) {
      CrmStepRefines(s, a.p, a.fate, a.ok);
    }
  }

  // ----- The live-lease hypothesis and RunCRMWorker's own discipline -----

  predicate CrmWithinLease(s: System, a: Action) {
    a.CrmStep? && CrmSteps(s, a.p) && (s.crmPcs[a.p].Execute? || a.fate.Lands()) ==> s.db.now <= s.crmHeld[a.p].lease
  }

  predicate LiveCrmRun(w: Workflows, s: System, actions: seq<Action>)
    decreases |actions|
  {
    actions == [] || (CrmWithinLease(s, actions[0]) && LiveCrmRun(w, Step(w, s, actions[0]), actions[1..]))
  }

  /** It calls HighLevel once per claim, and puts the job back only below five attempts. */
  predicate CrmDisciplined(t: CrmPc, ticket: Ticket) {
    match t
    case Execute => !ticket.ran
    case CrmWriteBack(outcome) => outcome.Requeue? ==> ticket.attempts < MAX_ATTEMPTS
  }

  ghost predicate CrmAllDisciplined(s: System) {
    forall p :: p in s.crmPcs && p in s.crmHeld ==> CrmDisciplined(s.crmPcs[p], s.crmHeld[p])
  }

  ghost predicate CrmSettled(s: System) { CrmAllDisciplined(s) && Sound(Pending(s), s.db.now) }

  lemma CrmBootIsSettled(now: Instant)
    ensures CrmSettled(Boot(now))
  {}

  lemma CrmKeepsDiscipline(w: Workflows, s: System, a: Action)
    requires CrmAllDisciplined(s)
    ensures CrmAllDisciplined(Step(w, s, a))
  {
    if IsCrm(a) {
      CrmWorkersKeepDiscipline(w, s, a);
    } else {
      OthersKeepCrmWorkers(w, s, a);
    }
  }

  lemma CrmWorkersKeepDiscipline(w: Workflows, s: System, a: Action)
    requires CrmAllDisciplined(s) && IsCrm(a)
    ensures CrmAllDisciplined(Step(w, s, a))
  {
    if a.CrmClaim? {
      CrmClaimKeepsDiscipline(s, a.p, a.fate);
    } else if a.CrmStep? && CrmSteps(s, a.p) {
      CrmStepKeepsDiscipline(s, a.p, a.fate, a.ok);
    }
  }

  lemma CrmClaimKeepsDiscipline(s: System, p: Pid, fate: Fate)
    requires CrmAllDisciplined(s)
    ensures CrmAllDisciplined(ClaimCrm(s, p, fate))
  {}

  lemma CrmStepKeepsDiscipline(s: System, p: Pid, fate: Fate, ok: bool)
    requires CrmAllDisciplined(s) && CrmSteps(s, p)
    ensures CrmAllDisciplined(StepCrm(s, p, fate, ok))
  {}

  /** Action a executes CRM job i. */
  predicate Executes(s: System, a: Action, i: nat) {
    a.CrmStep? && CrmSteps(s, a.p) && s.crmPcs[a.p].Execute? && s.crmHeld[a.p].row == i
  }

  lemma CrmIsProper(w: Workflows, s: System, a: Action, i: nat)
    requires CrmSettled(s) && CrmWithinLease(s, a)
    ensures AllAt(CrmEvents(w, s, a), s.db.now) && ProperTrace(Pending(s), s.db.now, CrmEvents(w, s, a))
    ensures Runs(Pending(s), CrmEvents(w, s, a), i) == Bit(Executes(s, a, i))
  {
    var q, es := Pending(s), CrmEvents(w, s, a);
    if a.AdvancerStep? && a.p in s.advancers {
      AdvancerInsertsRefine(w, s.db, s.advancers[a.p], a.fate, a.wall, a.bs, s.crmHeld);
      HarmlessIsProper(q, s.db.now, es, i);
    } else if a.ReplierStep? && a.p in s.repliers {
      ReplierInsertsRefine(w, s.db, s.repliers[a.p], a.fate, a.wall, s.crmHeld);
      HarmlessIsProper(q, s.db.now, es, i);
    } else {
      if a.CrmStep? && CrmSteps(s, a.p) {
        assert CrmDisciplined(s.crmPcs[a.p], s.crmHeld[a.p]);
      }
      OneIsProper(q, s.db.now, es, i);
    }
  }

  lemma StepKeepsCrmSettled(w: Workflows, s: System, a: Action)
    requires CrmSettled(s) && CrmWithinLease(s, a)
    ensures CrmSettled(Step(w, s, a))
  {
    var n := Step(w, s, a);
    CrmIsProper(w, s, a, 0);
    CrmRefines(w, s, a);
    CrmKeepsDiscipline(w, s, a);
    TimeMovesOn(w, s, a);
    TraceKeepsSound(Pending(s), s.db.now, CrmEvents(w, s, a), n.db.now);
  }

  // ----- Main results -----

  function Executions(w: Workflows, s: System, actions: seq<Action>, i: nat): nat
    decreases |actions|
  {
    if actions == [] then 0 else
      Bit(Executes(s, actions[0], i)) + Executions(w, Step(w, s, actions[0]), actions[1..], i)
  }

  lemma {:induction false} CrmRunRefines(w: Workflows, s: System, actions: seq<Action>, i: nat)
    requires CrmSettled(s) && LiveCrmRun(w, s, actions)
    ensures CrmSettled(Execution(w, s, actions))
    ensures Trace(Pending(s), CrmRunEvents(w, s, actions)) == Pending(Execution(w, s, actions))
    ensures ProperTrace(Pending(s), s.db.now, CrmRunEvents(w, s, actions))
    ensures Runs(Pending(s), CrmRunEvents(w, s, actions), i) == Executions(w, s, actions, i)
    decreases |actions|
  {
    if actions != [] {
      var a, next := actions[0], Step(w, s, actions[0]);
      var es, rest := CrmEvents(w, s, a), CrmRunEvents(w, next, actions[1..]);
      CrmIsProper(w, s, a, i);
      CrmRefines(w, s, a);
      StepKeepsCrmSettled(w, s, a);
      TimeMovesOn(w, s, a);
      CrmRunRefines(w, next, actions[1..], i);
      TraceConcat(Pending(s), es, rest);
      ProperConcat(Pending(s), s.db.now, es, next.db.now, rest);
      RunsConcat(Pending(s), es, rest, i);
    }
  }

  /** In a run of workers within their leases: no two of them hold a CRM job; done and failed jobs never change
      again; and a job is executed at most five times plus the executions whose outcome was lost or is owed. */
  lemma CrmJobsAreBounded(w: Workflows, now: Instant, actions: seq<Action>, i: nat)
    requires LiveCrmRun(w, Boot(now), actions)
    ensures var q, es, end := Pending(Boot(now)), CrmRunEvents(w, Boot(now), actions), Execution(w, Boot(now), actions);
      && (forall p, o :: Holds(Pending(end), p, i, end.db.now) && Holds(Pending(end), o, i, end.db.now) ==> p == o)
      && Endings(q, es, i) <= 1
      && Executions(w, Boot(now), actions, i) <= MAX_ATTEMPTS + Lost(q, es, i) + |Owing(Pending(end), i)|
  {
    var s := Boot(now);
    CrmBootIsSettled(now);
    CrmRunRefines(w, s, actions, i);
    LeasedQueue.EndsAtMostOnce(Pending(s), now, CrmRunEvents(w, s, actions), i);
    CallsAreBounded(Pending(s), now, CrmRunEvents(w, s, actions), i);
    var end := Execution(w, s, actions);
    forall p, o | Holds(Pending(end), p, i, end.db.now) && Holds(Pending(end), o, i, end.db.now) ensures p == o {
      HoldersExclude(Pending(end), end.db.now, p, o, i);
    }
  }

}
