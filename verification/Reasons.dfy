/** No verdict without its reason, over every run and any interleaving: what must have happened for a job to be sent or
    failed, for a CRM job to be done or failed, and for a number to be suppressed. */
module Reasons {
  import opened Wrappers
  import opened SendWindow
  import opened Template
  import opened Numbers
  import opened Engine
  import opened LeasedQueue
  import opened Tables
  import opened Machine
  import opened Frames
  import Promises

  // ----- What counts as a reason -----

  datatype Verdict =
    | SentAs(provider: string)
    | NotSent
    | Blocked(number: string)
    | CrmTaken
    | CrmLost

  /** A worker at outbound row i does its next step. */
  predicate Handles(x: System, a: Action, i: nat) {
    a.SenderStep? && a.p in x.senders && a.p in x.held && x.held[a.p].row == i < |x.db.jobs|
  }

  /** A worker at CRM row i calls HighLevel. */
  predicate Calls(x: System, a: Action, i: nat) {
    a.CrmStep? && a.p in x.crmPcs && a.p in x.crmHeld && x.crmHeld[a.p].row == i < |x.db.crm| && x.crmPcs[a.p].Execute?
  }

  /** In state x action a is the reason for the verdict on row i:
      sent: Telnyx accepts it under that id;
      not sent: its number is read as suppressed, or Telnyx refuses it for good, or for now at the fifth attempt or
      later;
      blocked: Telnyx refuses it with code 40300, submitted to that number;
      CRM job taken: HighLevel takes it; lost: it fails at the fifth attempt or later. */
  predicate Gives(x: System, a: Action, i: nat, v: Verdict) {
    match v
    case SentAs(provider) => Handles(x, a, i) && x.senders[a.p].pc.Submit? && a.response == Accepted(provider)
    case NotSent =>
      Handles(x, a, i) &&
      (|| (x.senders[a.p].pc.CheckSuppression? && a.fate.Seen() && x.senders[a.p].job.to in x.db.suppressed)
       || (x.senders[a.p].pc.Submit? && !a.response.Accepted? &&
           (Promises.Passing(a.response) ==> x.held[a.p].attempts >= 5)))
    case Blocked(number) =>
      Handles(x, a, i) && x.senders[a.p].pc.Submit? && x.senders[a.p].job.to == number &&
      a.response.Refused? && a.response.code == "40300"
    case CrmTaken => Calls(x, a, i) && a.ok
    case CrmLost => Calls(x, a, i) && !a.ok && x.crmHeld[a.p].attempts >= 5
  }

  ghost predicate Justified(w: Workflows, now: Instant, actions: seq<Action>, i: nat, v: Verdict) {
    exists k :: 0 <= k < |actions| && GivesAt(w, now, actions, k, i, v)
  }

  predicate GivesAt(w: Workflows, now: Instant, actions: seq<Action>, k: nat, i: nat, v: Verdict)
    requires k < |actions|
  {
    Gives(Execution(w, Boot(now), actions[..k]), actions[k], i, v)
  }

  lemma StillJustified(w: Workflows, now: Instant, actions: seq<Action>, a: Action, i: nat, v: Verdict)
    requires Justified(w, now, actions, i, v)
    ensures Justified(w, now, actions + [a], i, v)
  {
    var k :| 0 <= k < |actions| && GivesAt(w, now, actions, k, i, v);
    assert (actions + [a])[..k] == actions[..k] && (actions + [a])[k] == actions[k];
    assert GivesAt(w, now, actions + [a], k, i, v);
  }

  lemma NowJustified(w: Workflows, now: Instant, actions: seq<Action>, a: Action, i: nat, v: Verdict)
    requires Gives(Execution(w, Boot(now), actions), a, i, v)
    ensures Justified(w, now, actions + [a], i, v)
  {
    var k := |actions|;
    assert (actions + [a])[..k] == actions && (actions + [a])[k] == a;
    assert GivesAt(w, now, actions + [a], k, i, v);
  }

  // ----- What workers and rows claim -----

  /** The verdict a program counter is about to write. */
  function AboutTo(pc: SenderPc): Option<Verdict> {
    match pc
    case WriteBack(Finish, provider) => Some(SentAs(provider))
    case WriteBack(GiveUp, _) => Some(NotSent)
    case RecordSuppression => Some(NotSent)
    case CancelOthers => Some(NotSent)
    case _ => None
  }

  function CrmAboutTo(pc: CrmPc): Option<Verdict> {
    match pc
    case CrmWriteBack(Finish) => Some(CrmTaken)
    case CrmWriteBack(GiveUp) => Some(CrmLost)
    case _ => None
  }

  /** What a row says; a job that is done has its provider's id. */
  predicate Says(job: Job, v: Verdict) {
    match v
    case SentAs(provider) => job.lease.status == Done && job.provider == Some(provider)
    case NotSent => job.lease.status == Status.Failed
    case _ => false
  }

  predicate CrmSays(job: CrmJob, v: Verdict) {
    (v == CrmTaken && job.lease.status == Done) || (v == CrmLost && job.lease.status == Status.Failed)
  }

  /** Worker p at outbound row i is about to give this verdict. */
  predicate SenderClaims(s: System, p: Pid, i: nat, v: Verdict) {
    && p in s.senders && p in s.held && s.held[p].row == i
    && (AboutTo(s.senders[p].pc) == Some(v) ||
        (s.senders[p].pc.RecordSuppression? && v == Blocked(s.senders[p].job.to)))
  }

  predicate CrmWorkerClaims(s: System, p: Pid, i: nat, v: Verdict) {
    p in s.crmPcs && p in s.crmHeld && s.crmHeld[p].row == i && CrmAboutTo(s.crmPcs[p]) == Some(v)
  }

  predicate RowClaims(s: System, i: nat, v: Verdict) {
    (i < |s.db.jobs| && Says(s.db.jobs[i], v)) || (i < |s.db.crm| && CrmSays(s.db.crm[i], v))
  }

  ghost predicate Claims(s: System, i: nat, v: Verdict) {
    RowClaims(s, i, v) || exists p :: SenderClaims(s, p, i, v) || CrmWorkerClaims(s, p, i, v)
  }

  // ----- Outbound rows between two states -----

  predicate Final(r: Row) { r.status == Done || r.status == Status.Failed }

  /** Sent and failed rows are as they were, and new ones are neither. */
  predicate Settled(was: seq<Job>, now: seq<Job>) {
    && |was| <= |now|
    && (forall i :: 0 <= i < |was| && Final(now[i].lease) ==> now[i] == was[i])
    && (forall i :: |was| <= i < |now| ==> !Final(now[i].lease))
  }

  lemma CommandSettles(db: Database, r: Record, c: Command, reply: string, wall: Instant)
    ensures Settled(db.jobs, RunCommand(db, r, c, reply, wall).jobs)
  {}

  lemma SettledTransitive(a: seq<Job>, b: seq<Job>, c: seq<Job>)
    requires Settled(a, b) && Settled(b, c)
    ensures Settled(a, c)
  {
    forall i | |a| <= i < |c| ensures !Final(c[i].lease) {
      assert i < |b| ==> !Final(b[i].lease);
    }
  }

  lemma {:induction false} CommandsSettle(db: Database, r: Record, cs: seq<Command>, reply: string, wall: Instant)
    ensures Settled(db.jobs, RunCommands(db, r, cs, reply, wall).jobs)
    decreases |cs|
  {
    if cs != [] {
      var n := |cs| - 1;
      CommandsSettle(db, r, cs[..n], reply, wall);
      CommandSettles(RunCommands(db, r, cs[..n], reply, wall), r, cs[n], reply, wall);
      SettledTransitive(
        db.jobs, RunCommands(db, r, cs[..n], reply, wall).jobs, RunCommands(db, r, cs, reply, wall).jobs);
    }
  }

  lemma {:induction false} CommandsSettleCrm(db: Database, r: Record, cs: seq<Command>, reply: string, wall: Instant)
    ensures CrmSettled(db.crm, RunCommands(db, r, cs, reply, wall).crm)
    decreases |cs|
  {
    if cs != [] {
      var n := |cs| - 1;
      CommandsSettleCrm(db, r, cs[..n], reply, wall);
      CommandSettlesCrm(RunCommands(db, r, cs[..n], reply, wall), r, cs[n], reply, wall);
    }
  }

  predicate CrmSettled(was: seq<CrmJob>, now: seq<CrmJob>) {
    && |was| <= |now|
    && (forall i :: 0 <= i < |was| && Final(now[i].lease) ==> now[i].lease == was[i].lease)
    && (forall i :: |was| <= i < |now| ==> !Final(now[i].lease))
  }

  lemma CommandSettlesCrm(db: Database, r: Record, c: Command, reply: string, wall: Instant)
    ensures db.crm <= RunCommand(db, r, c, reply, wall).crm
    ensures CrmSettled(db.crm, RunCommand(db, r, c, reply, wall).crm)
  {}

  predicate BothSettled(db: Database, n: Database) { Settled(db.jobs, n.jobs) && CrmSettled(db.crm, n.crm) }

  lemma ApplySettles(db: Database, r: Record, cs: seq<Command>, reply: string, fate: Fate, wall: Instant)
    ensures BothSettled(db, TryApply(db, r, cs, reply, fate, wall))
  {
    if fate.Lands() && Claimable(db, r) {
      var started := db.(
        sequences := db.sequences[r.id := Rewritten(db.sequences[r.id], r, reply)], batches := db.batches + 1);
      CommandsSettle(started, r, cs, reply, wall);
      CommandsSettleCrm(started, r, cs, reply, wall);
    }
  }

  lemma AdvancerSettles(w: Workflows, db: Database, t: Advancer, fate: Fate, wall: Instant, bs: Bindings)
    ensures BothSettled(db, AdvancerEffect(w, db, t, fate, wall, bs))
  {
    if t.Ready? && Configured(w, t.record.enrollment.key) {
      var x := Advanced(w[t.record.enrollment.key], t.record.enrollment, wall, bs);
      if x.result.Ok? {
        ApplySettles(db, t.record.(enrollment := x.enrollment), x.result.value, "", fate, wall);
      }
    }
  }

  lemma ReplierSettles(w: Workflows, db: Database, t: Replier, fate: Fate, wall: Instant)
    ensures BothSettled(db, ReplierEffect(w, db, t, fate, wall))
  {
    if t.records != [] && t.records[0].enrollment.key in w {
      var r := t.records[0];
      var x := Replied(w[r.enrollment.key], r.enrollment, t.text);
      ApplySettles(db, r.(enrollment := x.enrollment), x.commands, t.text, fate, wall);
    }
  }

  lemma AdvancerStepSettles(w: Workflows, s: System, p: Pid, fate: Fate, wall: Instant, bs: Bindings)
    ensures BothSettled(s.db, Step(w, s, AdvancerStep(p, fate, wall, bs)).db)
  {
    if p in s.advancers { AdvancerSettles(w, s.db, s.advancers[p], fate, wall, bs); }
  }

  lemma ReplierStepSettles(w: Workflows, s: System, p: Pid, fate: Fate, wall: Instant)
    ensures BothSettled(s.db, Step(w, s, ReplierStep(p, fate, wall)).db)
  {
    if p in s.repliers { ReplierSettles(w, s.db, s.repliers[p], fate, wall); }
  }

  lemma SequenceWorkersSettle(w: Workflows, s: System, a: Action)
    requires a.AdvancerStep? || a.ReplierStep?
    ensures BothSettled(s.db, Step(w, s, a).db)
  {
    if a.AdvancerStep? {
      AdvancerStepSettles(w, s, a.p, a.fate, a.wall, a.bs);
    } else {
      ReplierStepSettles(w, s, a.p, a.fate, a.wall);
    }
  }

  /** All but the workers' own write-backs. */
  lemma OthersSettle(w: Workflows, s: System, a: Action)
    requires !a.SenderStep?
    ensures Settled(s.db.jobs, Step(w, s, a).db.jobs)
  {
    if a.AdvancerStep? || a.ReplierStep? {
      SequenceWorkersSettle(w, s, a);
    } else if a.SenderClaim? {
      ClaimSettles(s, a.p, a.fate);
    } else {
      StepFrame(w, s, a);
      FrameSettles(s, Step(w, s, a), a);
    }
  }

  lemma ClaimSettles(s: System, p: Pid, fate: Fate)
    ensures Settled(s.db.jobs, ClaimJob(s, p, fate).db.jobs)
  {
    var next := JobToClaim(s, p, fate);
    if next.Some? {
      LeaseSettles(s.db.jobs, next.value, Claimed(s.db.jobs[next.value].lease, s.db.now));
    }
  }

  lemma LeaseSettles(jobs: seq<Job>, i: nat, lease: Row)
    requires i < |jobs| && lease.status == Running
    ensures Settled(jobs, SetLease(jobs, i, lease))
  {}

  lemma FrameSettles(s: System, n: System, a: Action)
    requires Frame(s, n, a) && !a.SenderStep? && !a.SenderClaim? && !a.AdvancerStep? && !a.ReplierStep?
    ensures Settled(s.db.jobs, n.db.jobs)
  {}

  lemma CrmClaimSettles(s: System, p: Pid, fate: Fate)
    ensures CrmSettled(s.db.crm, ClaimCrm(s, p, fate).db.crm)
  {
    var next := CrmToClaim(s, p, fate);
    if next.Some? {
      CrmLeaseSettles(s.db, next.value, Claimed(s.db.crm[next.value].lease, s.db.now));
    }
  }

  lemma CrmLeaseSettles(db: Database, i: nat, lease: Row)
    requires i < |db.crm| && lease.status == Running
    ensures CrmSettled(db.crm, SetCrmLease(db, i, lease).crm)
  {}

  lemma OthersSettleCrm(w: Workflows, s: System, a: Action)
    requires !a.CrmStep?
    ensures CrmSettled(s.db.crm, Step(w, s, a).db.crm)
  {
    if a.AdvancerStep? || a.ReplierStep? {
      SequenceWorkersSettle(w, s, a);
    } else if a.CrmClaim? {
      CrmClaimSettles(s, a.p, a.fate);
    } else {
      StepFrame(w, s, a);
      FrameSettlesCrm(s, Step(w, s, a), a);
    }
  }

  lemma FrameSettlesCrm(s: System, n: System, a: Action)
    requires Frame(s, n, a) && !a.CrmStep? && !a.CrmClaim? && !a.AdvancerStep? && !a.ReplierStep?
    ensures CrmSettled(s.db.crm, n.db.crm)
  {}

  // ----- The workers' own steps -----

  /** Every verdict a sender is about to give after its step was its verdict before, or is given by this step. */
  lemma SenderGives(s: System, p: Pid, fate: Fate, response: Response, lookup: Lookup, i: nat, v: Verdict)
    requires p in s.senders && p in s.held && s.held[p].row < |s.db.jobs| && s.senders[p].job.contact == ""
    requires SenderClaims(StepSender(s, p, fate, response, lookup), p, i, v)
    ensures SenderClaims(s, p, i, v) || Gives(s, SenderStep(p, fate, response, lookup), i, v)
  {}

  lemma CrmWorkerGives(s: System, p: Pid, fate: Fate, ok: bool, i: nat, v: Verdict)
    requires p in s.crmPcs && p in s.crmHeld && s.crmHeld[p].row < |s.db.crm|
    requires CrmWorkerClaims(StepCrm(s, p, fate, ok), p, i, v)
    ensures CrmWorkerClaims(s, p, i, v) || Gives(s, CrmStep(p, fate, ok), i, v)
  {}

  /** A verdict in a row is the one its worker was about to write, or an old one. */
  lemma EffectOrigin(db: Database, t: Sender, row: nat, i: nat, v: Verdict)
    requires row < |db.jobs| && i < |db.jobs| && |SenderEffect(db, t, row).jobs| == |db.jobs|
    requires Says(SenderEffect(db, t, row).jobs[i], v)
    ensures Says(db.jobs[i], v) || (i == row && AboutTo(t.pc) == Some(v))
  {}

  lemma EffectKeepsCount(db: Database, t: Sender, row: nat)
    requires row < |db.jobs|
    ensures |SenderEffect(db, t, row).jobs| == |db.jobs|
  {}

  lemma SenderRows(s: System, p: Pid, fate: Fate, response: Response, lookup: Lookup, i: nat, v: Verdict)
    requires p in s.senders && p in s.held && s.held[p].row < |s.db.jobs|
    requires i < |StepSender(s, p, fate, response, lookup).db.jobs|
    requires Says(StepSender(s, p, fate, response, lookup).db.jobs[i], v)
    ensures RowClaims(s, i, v) || SenderClaims(s, p, i, v)
  {
    EffectKeepsCount(s.db, s.senders[p], s.held[p].row);
    if fate.Lands() {
      EffectOrigin(s.db, s.senders[p], s.held[p].row, i, v);
    }
  }

  lemma JobOrigin(w: Workflows, s: System, a: Action, i: nat, v: Verdict)
    requires i < |Step(w, s, a).db.jobs| && Says(Step(w, s, a).db.jobs[i], v)
    ensures Claims(s, i, v)
  {
    if a.SenderStep? {
      if a.p in s.senders && a.p in s.held && s.held[a.p].row < |s.db.jobs| {
        SenderRows(s, a.p, a.fate, a.response, a.lookup, i, v);
      }
    } else {
      OthersSettle(w, s, a);
      assert Final(Step(w, s, a).db.jobs[i].lease);
    }
  }

  lemma CrmRows(s: System, p: Pid, fate: Fate, ok: bool, i: nat, v: Verdict)
    requires p in s.crmPcs && p in s.crmHeld && s.crmHeld[p].row < |s.db.crm|
    requires i < |StepCrm(s, p, fate, ok).db.crm| && CrmSays(StepCrm(s, p, fate, ok).db.crm[i], v)
    ensures RowClaims(s, i, v) || CrmWorkerClaims(s, p, i, v)
  {}

  lemma CrmOrigin(w: Workflows, s: System, a: Action, i: nat, v: Verdict)
    requires i < |Step(w, s, a).db.crm| && CrmSays(Step(w, s, a).db.crm[i], v)
    ensures Claims(s, i, v)
  {
    if a.CrmStep? {
      if a.p in s.crmPcs && a.p in s.crmHeld && s.crmHeld[a.p].row < |s.db.crm| {
        CrmRows(s, a.p, a.fate, a.ok, i, v);
      }
    } else {
      OthersSettleCrm(w, s, a);
      assert Final(Step(w, s, a).db.crm[i].lease);
    }
  }

  // ----- Every step -----

  /** Claim does not return the contact. */
  predicate Anonymous(s: System) { forall p :: p in s.senders ==> s.senders[p].job.contact == "" }

  lemma StepKeepsAnonymous(w: Workflows, s: System, a: Action)
    requires Anonymous(s)
    ensures Anonymous(Step(w, s, a))
  {
    if a.SenderClaim? {
      ClaimKeepsAnonymous(s, a.p, a.fate);
    } else if a.SenderStep? {
      if a.p in s.senders && a.p in s.held && s.held[a.p].row < |s.db.jobs| {
        SenderKeepsAnonymous(s, a.p, a.fate, a.response, a.lookup);
      }
    } else if !a.SenderCrash? {
      StepFrame(w, s, a);
      FrameOfSenders(s, Step(w, s, a), a);
    }
  }

  lemma ClaimKeepsAnonymous(s: System, p: Pid, fate: Fate)
    requires Anonymous(s)
    ensures Anonymous(ClaimJob(s, p, fate))
  {}

  lemma SenderKeepsAnonymous(s: System, p: Pid, fate: Fate, response: Response, lookup: Lookup)
    requires Anonymous(s) && p in s.senders && p in s.held && s.held[p].row < |s.db.jobs|
    ensures Anonymous(StepSender(s, p, fate, response, lookup))
  {}

  lemma ClaimGivesNothing(s: System, p: Pid, fate: Fate, q: Pid, i: nat, v: Verdict)
    requires SenderClaims(ClaimJob(s, p, fate), q, i, v)
    ensures SenderClaims(s, q, i, v)
  {}

  lemma OtherSendersKeep(s: System, p: Pid, fate: Fate, response: Response, lookup: Lookup, q: Pid, i: nat, v: Verdict)
    requires p in s.senders && p in s.held && s.held[p].row < |s.db.jobs| && q != p
    requires SenderClaims(StepSender(s, p, fate, response, lookup), q, i, v)
    ensures SenderClaims(s, q, i, v)
  {}

  lemma SenderOrigin(w: Workflows, s: System, a: Action, q: Pid, i: nat, v: Verdict)
    requires Anonymous(s) && SenderClaims(Step(w, s, a), q, i, v)
    ensures SenderClaims(s, q, i, v) || Gives(s, a, i, v)
  {
    if a.SenderClaim? {
      ClaimGivesNothing(s, a.p, a.fate, q, i, v);
    } else if a.SenderStep? {
      if a.p in s.senders && a.p in s.held && s.held[a.p].row < |s.db.jobs| {
        if q == a.p {
          SenderGives(s, a.p, a.fate, a.response, a.lookup, i, v);
        } else {
          OtherSendersKeep(s, a.p, a.fate, a.response, a.lookup, q, i, v);
        }
      }
    } else if !a.SenderCrash? {
      StepFrame(w, s, a);
      FrameOfSenders(s, Step(w, s, a), a);
    }
  }

  lemma CrmClaimGivesNothing(s: System, p: Pid, fate: Fate, q: Pid, i: nat, v: Verdict)
    requires CrmWorkerClaims(ClaimCrm(s, p, fate), q, i, v)
    ensures CrmWorkerClaims(s, q, i, v)
  {}

  lemma OtherCrmKeep(s: System, p: Pid, fate: Fate, ok: bool, q: Pid, i: nat, v: Verdict)
    requires p in s.crmPcs && p in s.crmHeld && s.crmHeld[p].row < |s.db.crm| && q != p
    requires CrmWorkerClaims(StepCrm(s, p, fate, ok), q, i, v)
    ensures CrmWorkerClaims(s, q, i, v)
  {}

  lemma CrmWorkerOrigin(w: Workflows, s: System, a: Action, q: Pid, i: nat, v: Verdict)
    requires CrmWorkerClaims(Step(w, s, a), q, i, v)
    ensures CrmWorkerClaims(s, q, i, v) || Gives(s, a, i, v)
  {
    if a.CrmClaim? {
      CrmClaimGivesNothing(s, a.p, a.fate, q, i, v);
    } else if a.CrmStep? {
      if a.p in s.crmPcs && a.p in s.crmHeld && s.crmHeld[a.p].row < |s.db.crm| {
        if q == a.p {
          CrmWorkerGives(s, a.p, a.fate, a.ok, i, v);
        } else {
          OtherCrmKeep(s, a.p, a.fate, a.ok, q, i, v);
        }
      }
    } else if !a.CrmCrash? {
      StepFrame(w, s, a);
      FrameOfCrmWorkers(s, Step(w, s, a), a);
    }
  }

  /** Every verdict there is after a step was there before it, or the step gives it. */
  lemma VerdictOrigin(w: Workflows, s: System, a: Action, i: nat, v: Verdict)
    requires Anonymous(s) && Claims(Step(w, s, a), i, v)
    ensures Claims(s, i, v) || Gives(s, a, i, v)
  {
    var n := Step(w, s, a);
    if i < |n.db.jobs| && Says(n.db.jobs[i], v) {
      JobOrigin(w, s, a, i, v);
    } else if i < |n.db.crm| && CrmSays(n.db.crm[i], v) {
      CrmOrigin(w, s, a, i, v);
    } else {
      var q :| SenderClaims(n, q, i, v) || CrmWorkerClaims(n, q, i, v);
      if SenderClaims(n, q, i, v) {
        SenderOrigin(w, s, a, q, i, v);
      } else {
        CrmWorkerOrigin(w, s, a, q, i, v);
      }
    }
  }

  // ----- A job that is done has an id -----

  predicate Identified(jobs: seq<Job>) {
    forall i :: 0 <= i < |jobs| && jobs[i].lease.status == Done ==> jobs[i].provider.Some?
  }

  lemma EffectKeepsIds(db: Database, t: Sender, row: nat)
    requires row < |db.jobs| && Identified(db.jobs)
    ensures Identified(SenderEffect(db, t, row).jobs)
  {}

  lemma SettledKeepsIds(was: seq<Job>, now: seq<Job>)
    requires Identified(was) && Settled(was, now)
    ensures Identified(now)
  {}

  lemma StepKeepsIds(w: Workflows, s: System, a: Action)
    requires Identified(s.db.jobs)
    ensures Identified(Step(w, s, a).db.jobs)
  {
    if a.SenderStep? {
      if a.p in s.senders && a.p in s.held && s.held[a.p].row < |s.db.jobs| {
        EffectKeepsIds(s.db, s.senders[a.p], s.held[a.p].row);
      }
    } else {
      OthersSettle(w, s, a);
      SettledKeepsIds(s.db.jobs, Step(w, s, a).db.jobs);
    }
  }

  lemma {:induction false} RunKeepsIds(w: Workflows, s: System, actions: seq<Action>)
    requires Identified(s.db.jobs)
    ensures Identified(Execution(w, s, actions).db.jobs)
    decreases |actions|
  {
    if actions != [] {
      StepKeepsIds(w, s, actions[0]);
      RunKeepsIds(w, Step(w, s, actions[0]), actions[1..]);
    }
  }

  // ----- Who suppresses a number -----

  /** A request to suppress it, or the step of a reply from it that says STOP. */
  predicate Silences(x: System, a: Action, number: string) {
    || (a.BeginSuppress? && a.number == number)
    || (a.ReplierStep? && a.p in x.repliers && x.repliers[a.p].records != [] && SaysStop(x.repliers[a.p].text) &&
        x.repliers[a.p].records[0].enrollment.contact.phone == number)
  }

  lemma {:induction false} OnlyStopsSuppress(db: Database, r: Record, cs: seq<Command>, reply: string, wall: Instant)
    ensures var n := RunCommands(db, r, cs, reply, wall).suppressed;
      n == if SuppressContact in cs then db.suppressed + {r.enrollment.contact.phone} else db.suppressed
    decreases |cs|
  {
    if cs != [] {
      var k := |cs| - 1;
      OnlyStopsSuppress(db, r, cs[..k], reply, wall);
      OneSuppresses(RunCommands(db, r, cs[..k], reply, wall), r, cs[k], reply, wall);
      assert SuppressContact in cs <==> SuppressContact in cs[..k] || cs[k] == SuppressContact;
    }
  }

  lemma OneSuppresses(db: Database, r: Record, c: Command, reply: string, wall: Instant)
    ensures RunCommand(db, r, c, reply, wall).suppressed ==
      if c == SuppressContact then db.suppressed + {r.enrollment.contact.phone} else db.suppressed
  {}

  lemma ApplySuppresses(db: Database, r: Record, cs: seq<Command>, reply: string, fate: Fate, wall: Instant, n: string)
    requires n in TryApply(db, r, cs, reply, fate, wall).suppressed && n !in db.suppressed
    ensures SuppressContact in cs && r.enrollment.contact.phone == n
  {
    if fate.Lands() && Claimable(db, r) {
      OnlyStopsSuppress(
        db.(sequences := db.sequences[r.id := Rewritten(db.sequences[r.id], r, reply)], batches := db.batches + 1),
        r, cs, reply, wall);
    }
  }

  lemma AdvanceNeverSuppresses(w: Workflows, db: Database, t: Advancer, fate: Fate, wall: Instant, bs: Bindings)
    ensures AdvancerEffect(w, db, t, fate, wall, bs).suppressed <= db.suppressed
  {
    if t.Ready? && Configured(w, t.record.enrollment.key) {
      var x := Advanced(w[t.record.enrollment.key], t.record.enrollment, wall, bs);
      if x.result.Ok? {
        forall n | n in AdvancerEffect(w, db, t, fate, wall, bs).suppressed ensures n in db.suppressed {
          if n !in db.suppressed {
            ApplySuppresses(db, t.record.(enrollment := x.enrollment), x.result.value, "", fate, wall, n);
          }
        }
      }
    }
  }

  lemma ReplySuppresses(w: Workflows, db: Database, t: Replier, fate: Fate, wall: Instant, n: string)
    requires n in ReplierEffect(w, db, t, fate, wall).suppressed && n !in db.suppressed
    ensures t.records != [] && SaysStop(t.text) && t.records[0].enrollment.contact.phone == n
  {
    if t.records != [] && t.records[0].enrollment.key in w {
      var r := t.records[0];
      var x := Replied(w[r.enrollment.key], r.enrollment, t.text);
      ReplyIsByWords(w[r.enrollment.key], r.enrollment, t.text);
      ApplySuppresses(db, r.(enrollment := x.enrollment), x.commands, t.text, fate, wall, n);
    }
  }

  /** A number that a step suppresses: asked for, stopped by a reply, or refused by Telnyx with code 40300. */
  lemma SuppressionOrigin(w: Workflows, s: System, a: Action, n: string)
    requires n in Step(w, s, a).db.suppressed && n !in s.db.suppressed
    ensures Silences(s, a, n) || exists i: nat :: Claims(s, i, Blocked(n))
  {
    if a.AdvancerStep? {
      if a.p in s.advancers { AdvanceNeverSuppresses(w, s.db, s.advancers[a.p], a.fate, a.wall, a.bs); }
    } else if a.ReplierStep? {
      if a.p in s.repliers { ReplySuppresses(w, s.db, s.repliers[a.p], a.fate, a.wall, n); }
    } else if a.SenderStep? {
      if a.p in s.senders && a.p in s.held && s.held[a.p].row < |s.db.jobs| {
        SenderSuppresses(s, a.p, a.fate, a.response, a.lookup, n);
      }
    } else {
      StepFrame(w, s, a);
      if a.BeginSuppress? {
        BeginSuppresses(w, s, a, n);
      } else {
        FrameOfSuppressed(s, Step(w, s, a), a);
      }
    }
  }

  lemma SenderSuppresses(s: System, p: Pid, fate: Fate, response: Response, lookup: Lookup, n: string)
    requires p in s.senders && p in s.held && s.held[p].row < |s.db.jobs|
    requires n in StepSender(s, p, fate, response, lookup).db.suppressed && n !in s.db.suppressed
    ensures Claims(s, s.held[p].row, Blocked(n))
  {
    assert SenderClaims(s, p, s.held[p].row, Blocked(n));
  }

  lemma BeginSuppresses(w: Workflows, s: System, a: Action, n: string)
    requires a.BeginSuppress? && n in Step(w, s, a).db.suppressed && n !in s.db.suppressed
    ensures a.number == n
  {}

  lemma FrameOfSuppressed(s: System, n: System, a: Action)
    requires Frame(s, n, a) && !a.AdvancerStep? && !a.ReplierStep? && !a.SenderStep? && !a.BeginSuppress?
    ensures n.db.suppressed == s.db.suppressed
  {}

  ghost predicate Silenced(w: Workflows, now: Instant, actions: seq<Action>, n: string) {
    || (exists k :: 0 <= k < |actions| && Silences(Execution(w, Boot(now), actions[..k]), actions[k], n))
    || (exists i: nat :: Justified(w, now, actions, i, Blocked(n)))
  }

  lemma StillSilenced(w: Workflows, now: Instant, before: seq<Action>, a: Action, n: string)
    requires Silenced(w, now, before, n)
    ensures Silenced(w, now, before + [a], n)
  {
    if k :| 0 <= k < |before| && Silences(Execution(w, Boot(now), before[..k]), before[k], n) {
      assert (before + [a])[..k] == before[..k] && (before + [a])[k] == before[k];
    } else {
      var i: nat :| Justified(w, now, before, i, Blocked(n));
      StillJustified(w, now, before, a, i, Blocked(n));
    }
  }

  lemma NowSilenced(w: Workflows, now: Instant, before: seq<Action>, a: Action, n: string)
    requires Silences(Execution(w, Boot(now), before), a, n)
    ensures Silenced(w, now, before + [a], n)
  {
    var k := |before|;
    assert (before + [a])[..k] == before && (before + [a])[k] == a;
  }

  // ----- Main results -----

  lemma {:induction false} ClaimsAreJustified(w: Workflows, now: Instant, actions: seq<Action>)
    ensures Anonymous(Execution(w, Boot(now), actions))
    ensures forall i: nat, v :: Claims(Execution(w, Boot(now), actions), i, v) ==> Justified(w, now, actions, i, v)
    decreases |actions|
  {
    if actions != [] {
      var k := |actions| - 1;
      var before, a := actions[..k], actions[k];
      var s := Execution(w, Boot(now), before);
      assert before + [a] == actions;
      ClaimsAreJustified(w, now, before);
      ExecutionSnoc(w, Boot(now), before, a);
      StepKeepsAnonymous(w, s, a);
      forall i: nat, v | Claims(Step(w, s, a), i, v) ensures Justified(w, now, actions, i, v) {
        OneMoreIsJustified(w, now, before, a, i, v);
      }
    }
  }

  lemma OneMoreIsJustified(w: Workflows, now: Instant, before: seq<Action>, a: Action, i: nat, v: Verdict)
    requires var s := Execution(w, Boot(now), before);
      && Anonymous(s) && Claims(Step(w, s, a), i, v)
      && (Claims(s, i, v) ==> Justified(w, now, before, i, v))
    ensures Justified(w, now, before + [a], i, v)
  {
    var s := Execution(w, Boot(now), before);
    VerdictOrigin(w, s, a, i, v);
    if Claims(s, i, v) {
      StillJustified(w, now, before, a, i, v);
    } else {
      NowJustified(w, now, before, a, i, v);
    }
  }

  /** In every run: a job that is sent under an id was accepted by Telnyx under that id; one that has failed had its
      number suppressed, or was refused for good, or for now at the fifth attempt or later. */
  lemma JobsEndForAReason(w: Workflows, now: Instant, actions: seq<Action>, i: nat)
    requires i < |Execution(w, Boot(now), actions).db.jobs|
    ensures var job := Execution(w, Boot(now), actions).db.jobs[i];
      && (job.lease.status == Done ==>
            job.provider.Some? && Justified(w, now, actions, i, SentAs(job.provider.value)))
      && (job.lease.status == Status.Failed ==> Justified(w, now, actions, i, NotSent))
  {
    ClaimsAreJustified(w, now, actions);
    RunKeepsIds(w, Boot(now), actions);
    var s := Execution(w, Boot(now), actions);
    var job := s.db.jobs[i];
    if job.lease.status == Done {
      assert RowClaims(s, i, SentAs(job.provider.value));
    } else if job.lease.status == Status.Failed {
      assert RowClaims(s, i, NotSent);
    }
  }

  /** In every run: a CRM job that is done was taken by HighLevel; one that has failed had a fifth or later attempt
      fail. */
  lemma CrmJobsEndForAReason(w: Workflows, now: Instant, actions: seq<Action>, i: nat)
    requires i < |Execution(w, Boot(now), actions).db.crm|
    ensures var job := Execution(w, Boot(now), actions).db.crm[i];
      && (job.lease.status == Done ==> Justified(w, now, actions, i, CrmTaken))
      && (job.lease.status == Status.Failed ==> Justified(w, now, actions, i, CrmLost))
  {
    ClaimsAreJustified(w, now, actions);
    var s := Execution(w, Boot(now), actions);
    assert s.db.crm[i].lease.status == Done ==> RowClaims(s, i, CrmTaken);
    assert s.db.crm[i].lease.status == Status.Failed ==> RowClaims(s, i, CrmLost);
  }

  /** In every run: a suppressed number was asked to be, or wrote STOP, or was refused by Telnyx with code 40300. */
  lemma {:induction false} NumbersAreSuppressedForAReason(w: Workflows, now: Instant, actions: seq<Action>, n: string)
    requires n in Execution(w, Boot(now), actions).db.suppressed
    ensures Silenced(w, now, actions, n)
    decreases |actions|
  {
    if actions != [] {
      var k := |actions| - 1;
      var before, a := actions[..k], actions[k];
      var s := Execution(w, Boot(now), before);
      assert before + [a] == actions;
      ExecutionSnoc(w, Boot(now), before, a);
      if n in s.db.suppressed {
        NumbersAreSuppressedForAReason(w, now, before, n);
        StillSilenced(w, now, before, a, n);
      } else {
        NewlySuppressed(w, now, before, a, n);
      }
    }
  }

  lemma NewlySuppressed(w: Workflows, now: Instant, before: seq<Action>, a: Action, n: string)
    requires var s := Execution(w, Boot(now), before); n in Step(w, s, a).db.suppressed && n !in s.db.suppressed
    ensures Silenced(w, now, before + [a], n)
  {
    var s := Execution(w, Boot(now), before);
    SuppressionOrigin(w, s, a, n);
    if Silences(s, a, n) {
      NowSilenced(w, now, before, a, n);
    } else {
      var i: nat :| Claims(s, i, Blocked(n));
      ClaimsAreJustified(w, now, before);
      StillJustified(w, now, before, a, i, Blocked(n));
    }
  }

}
