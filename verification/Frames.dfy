/** What each action of the machine leaves alone: the facts most invariants need of most actions. */
module Frames {
  import opened Wrappers
  import opened Numbers
  import opened LeasedQueue
  import opened Tables
  import opened Machine

  /** n is s but for the parts that action a may write. */
  predicate Frame(s: System, n: System, a: Action) {
    match a
    case Tick(_) => n == s.(db := s.db.(now := n.db.now)) && s.db.now <= n.db.now
    case SetPaused(_) => n == s.(db := s.db.(paused := n.db.paused))
    case Enqueue(m) =>
      n == s.(db := s.db.(jobs := n.db.jobs)) &&
      n.db.jobs == InsertMessage(s.db.jobs, m.(enrollment := None), s.db.now)
    case BeginSuppress(_, _) => SuppressFrame(s, n) && n.db.jobs == s.db.jobs
    case EndSuppress(p, _) =>
      SuppressFrame(s, n) && n.db.suppressed == s.db.suppressed &&
      (n.db.jobs == s.db.jobs || (p in s.cancellers && n.db.jobs == Withdrawal(s.db.jobs, s.cancellers[p])))
    case Webhook(_, _, _) => n == s.(db := s.db.(deliveries := n.db.deliveries))
    case EnrollContact(_, _, _, _, _, _, _) => n == s.(db := s.db.(sequences := n.db.sequences))
    case SenderClaim(_, _) =>
      n == s.(db := s.db.(jobs := n.db.jobs), held := n.held, senders := n.senders)
    case SenderStep(_, _, _, _) => SenderFrame(s, n)
    case SenderCrash(p) => n == s.(held := s.held - {p}, senders := s.senders - {p})
    case CrmClaim(_, _) => CrmFrame(s, n)
    case CrmStep(_, _, _) => CrmFrame(s, n)
    case CrmCrash(p) => n == s.(crmHeld := s.crmHeld - {p}, crmPcs := s.crmPcs - {p})
    case AdvancerClaim(_, _) => n == s.(db := s.db.(sequences := n.db.sequences), advancers := n.advancers)
    case AdvancerStep(_, _, _, _) => n == s.(db := n.db, advancers := n.advancers)
    case AdvancerCrash(p) => n == s.(advancers := s.advancers - {p})
    case HearReply(_, _, _, _, _) => n == s.(db := s.db.(sequences := n.db.sequences), repliers := n.repliers)
    case ReplierStep(_, _, _) => n == s.(db := n.db, repliers := n.repliers)
    case ReplierCrash(p) => n == s.(repliers := s.repliers - {p})
  }

  predicate SuppressFrame(s: System, n: System) {
    n == s.(db := s.db.(jobs := n.db.jobs, suppressed := n.db.suppressed), cancellers := n.cancellers) &&
    s.db.suppressed <= n.db.suppressed
  }

  predicate SenderFrame(s: System, n: System) {
    && n == s.(db := s.db.(jobs := n.db.jobs, suppressed := n.db.suppressed, deliveries := n.db.deliveries),
               held := n.held, senders := n.senders)
    && s.db.suppressed <= n.db.suppressed
  }

  predicate CrmFrame(s: System, n: System) {
    n == s.(db := s.db.(crm := n.db.crm), crmHeld := n.crmHeld, crmPcs := n.crmPcs)
  }

  predicate IsOutside(a: Action) {
    a.Tick? || a.SetPaused? || a.Enqueue? || a.BeginSuppress? || a.EndSuppress? || a.Webhook? || a.EnrollContact?
  }

  lemma SwitchFrame(w: Workflows, s: System, a: Action)
    requires a.Tick? || a.SetPaused? || a.Enqueue? || a.Webhook? || a.EnrollContact?
    ensures Frame(s, Step(w, s, a), a)
  {}

  lemma SuppressionFrame(w: Workflows, s: System, a: Action)
    requires a.BeginSuppress? || a.EndSuppress?
    ensures Frame(s, Step(w, s, a), a)
  {}

  lemma EffectFrame(db: Database, t: Sender, row: nat)
    requires row < |db.jobs|
    ensures var n := SenderEffect(db, t, row);
      && n == db.(jobs := n.jobs, suppressed := n.suppressed, deliveries := n.deliveries)
      && db.suppressed <= n.suppressed
  {}

  lemma SenderStepFrame(s: System, p: Pid, fate: Fate, response: Response, lookup: Lookup)
    requires p in s.senders && p in s.held && s.held[p].row < |s.db.jobs|
    ensures SenderFrame(s, StepSender(s, p, fate, response, lookup))
  {
    EffectFrame(s.db, s.senders[p], s.held[p].row);
  }

  lemma ClaimFrame(s: System, p: Pid, fate: Fate)
    ensures var n := ClaimJob(s, p, fate); n == s.(db := s.db.(jobs := n.db.jobs), held := n.held, senders := n.senders)
  {}

  lemma SendersFrame(w: Workflows, s: System, a: Action)
    requires a.SenderClaim? || a.SenderStep? || a.SenderCrash?
    ensures Frame(s, Step(w, s, a), a)
  {
    if a.SenderClaim? {
      ClaimFrame(s, a.p, a.fate);
    } else if a.SenderStep? && a.p in s.senders && a.p in s.held && s.held[a.p].row < |s.db.jobs| {
      SenderStepFrame(s, a.p, a.fate, a.response, a.lookup);
    }
  }

  lemma CrmStepFrame(s: System, p: Pid, fate: Fate, ok: bool)
    requires p in s.crmPcs && p in s.crmHeld && s.crmHeld[p].row < |s.db.crm|
    ensures CrmFrame(s, StepCrm(s, p, fate, ok))
  {}

  lemma CrmClaimFrame(s: System, p: Pid, fate: Fate)
    ensures CrmFrame(s, ClaimCrm(s, p, fate))
  {}

  lemma CrmWorkersFrame(w: Workflows, s: System, a: Action)
    requires a.CrmClaim? || a.CrmStep? || a.CrmCrash?
    ensures Frame(s, Step(w, s, a), a)
  {
    if a.CrmClaim? {
      CrmClaimFrame(s, a.p, a.fate);
    } else if a.CrmStep? && a.p in s.crmPcs && a.p in s.crmHeld && s.crmHeld[a.p].row < |s.db.crm| {
      CrmStepFrame(s, a.p, a.fate, a.ok);
    }
  }

  lemma AdvancersFrame(w: Workflows, s: System, a: Action)
    requires a.AdvancerClaim? || a.AdvancerStep? || a.AdvancerCrash?
    ensures Frame(s, Step(w, s, a), a)
  {}

  lemma RepliersFrame(w: Workflows, s: System, a: Action)
    requires a.HearReply? || a.ReplierStep? || a.ReplierCrash?
    ensures Frame(s, Step(w, s, a), a)
  {}

  /** Every action keeps to its part. */
  lemma StepFrame(w: Workflows, s: System, a: Action)
    ensures Frame(s, Step(w, s, a), a)
  {
    if a.BeginSuppress? || a.EndSuppress? {
      SuppressionFrame(w, s, a);
    } else if IsOutside(a) {
      SwitchFrame(w, s, a);
    } else if a.SenderClaim? || a.SenderStep? || a.SenderCrash? {
      SendersFrame(w, s, a);
    } else if a.CrmClaim? || a.CrmStep? || a.CrmCrash? {
      CrmWorkersFrame(w, s, a);
    } else if a.AdvancerClaim? || a.AdvancerStep? || a.AdvancerCrash? {
      AdvancersFrame(w, s, a);
    } else {
      RepliersFrame(w, s, a);
    }
  }

  // ----- What follows for the parts -----

  predicate IsSenders(a: Action) { a.SenderClaim? || a.SenderStep? || a.SenderCrash? }

  predicate IsCrm(a: Action) { a.CrmClaim? || a.CrmStep? || a.CrmCrash? }

  lemma FrameOfSenders(s: System, n: System, a: Action)
    requires Frame(s, n, a) && !IsSenders(a)
    ensures n.senders == s.senders && n.held == s.held
  {}

  lemma FrameOfCrmWorkers(s: System, n: System, a: Action)
    requires Frame(s, n, a) && !IsCrm(a)
    ensures n.crmHeld == s.crmHeld && n.crmPcs == s.crmPcs
  {}

  lemma FrameOfCrm(s: System, n: System, a: Action)
    requires Frame(s, n, a) && !IsCrm(a) && !a.AdvancerStep? && !a.ReplierStep?
    ensures n.db.crm == s.db.crm
  {}

  predicate WritesJobs(a: Action) {
    a.Enqueue? || a.EndSuppress? || a.SenderClaim? || a.SenderStep? || a.AdvancerStep? || a.ReplierStep?
  }

  lemma FrameOfJobs(s: System, n: System, a: Action)
    requires Frame(s, n, a) && !WritesJobs(a)
    ensures n.db.jobs == s.db.jobs
    ensures !a.Webhook? ==> n.db.deliveries == s.db.deliveries
  {}

  lemma FrameOfTime(s: System, n: System, a: Action)
    requires Frame(s, n, a) && !a.AdvancerStep? && !a.ReplierStep?
    ensures s.db.now <= n.db.now && s.db.suppressed <= n.db.suppressed
  {}

}
