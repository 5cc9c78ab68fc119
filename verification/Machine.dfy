/** The whole system as one machine: the tables, every worker with its program counter and its snapshot, and
    one action per statement, transaction or outside call. A run is any sequence of actions. */
module Machine {
  import opened Wrappers
  import opened SendWindow
  import opened Numbers
  import opened Catalog
  import opened Template
  import opened Engine
  import opened LeasedQueue
  import opened Tables

  type Workflows = map<string, Definition>

  // ----- Program counters -----

  /** RunWorker, between two statements. */
  datatype SenderPc =
    | CheckPause
    | CheckSuppression
    | ResolveNumber
    | Submit(from: string)
    | RecordSuppression
    | CancelOthers
    | WriteBack(outcome: Outcome, provider: string)

  /** The job as Claim returns it: without the contact id, which the statement does not select. */
  datatype Sender = Sender(pc: SenderPc, job: Message)

  datatype CrmPc = Execute | CrmWriteBack(outcome: Outcome)

  /** RunWorkflowWorker. */
  datatype Advancer = Ready(record: Record) | Postponing(id: nat, delay: int) | Failing(id: nat)

  /** applyWorkflowReply: the records it has claimed and not yet handled. */
  datatype Replier = Replier(records: seq<Record>, text: string)

  datatype System = System(
    db: Database,
    held: map<Pid, Ticket>,
    senders: map<Pid, Sender>,
    crmHeld: map<Pid, Ticket>,
    crmPcs: map<Pid, CrmPc>,
    advancers: map<Pid, Advancer>,
    repliers: map<Pid, Replier>,
    cancellers: map<Pid, string>)

  function Boot(now: Instant): System {
    System(Database(now, true, [], {}, [], [], map[], map[], 0), map[], map[], map[], map[], map[], map[], map[])
  }

  // ----- Actions -----

  /** What Telnyx answers; Unreachable is any error that is not the provider's own. */
  datatype Response = Accepted(provider: string) | Refused(status: int, code: string) | Unreachable

  /** How a statement ends: it may fail before it takes effect, or commit while its answer is lost. */
  datatype Fate = Succeeds | CommitsUnseen | Aborts {
    predicate Lands() { !Aborts? }
    predicate Seen() { Succeeds? }
  }

  datatype Action =
    | Tick(d: nat)
    | SetPaused(paused: bool)
    | Enqueue(message: Message)
    | BeginSuppress(p: Pid, number: string)                  // Suppress, first statement
    | EndSuppress(p: Pid, lands: bool)                       // Suppress, second statement, or its handler dies
    | Webhook(event: string, provider: string, status: string)
    | EnrollContact(
        external: string, location: string, from: string, key: string, contact: Contact, wall: Instant, hash: nat)
    | SenderClaim(p: Pid, fate: Fate)
    | SenderStep(p: Pid, fate: Fate, response: Response, lookup: Lookup)
    | SenderCrash(p: Pid)
    | CrmClaim(p: Pid, fate: Fate)
    | CrmStep(p: Pid, fate: Fate, ok: bool)
    | CrmCrash(p: Pid)
    | AdvancerClaim(p: Pid, fate: Fate)
    | AdvancerStep(p: Pid, fate: Fate, wall: Instant, bs: Bindings)
    | AdvancerCrash(p: Pid)
    | HearReply(p: Pid, phone: string, to: string, text: string, fate: Fate)
    | ReplierStep(p: Pid, fate: Fate, wall: Instant)
    | ReplierCrash(p: Pid)

  function Step(w: Workflows, s: System, a: Action): System {
    match a
    case Tick(d) => s.(db := s.db.(now := s.db.now + d))
    case SetPaused(b) => s.(db := s.db.(paused := b))
    case Enqueue(m) => s.(db := s.db.(jobs := InsertMessage(s.db.jobs, m.(enrollment := None), s.db.now)))
    case BeginSuppress(p, number) =>
      if p in s.cancellers then s
      else s.(db := AddSuppression(s.db, number), cancellers := s.cancellers[p := number])
    case EndSuppress(p, lands) =>
      if p !in s.cancellers then s
      else s.(db := if lands then CancelQueued(s.db, s.cancellers[p]) else s.db, cancellers := s.cancellers - {p})
    case Webhook(event, provider, status) => s.(db := RecordDelivery(s.db, event, provider, status))
    case EnrollContact(external, location, from, key, contact, wall, hash) =>
      if key !in w || Engine.Start(w[key], contact, wall, hash).Err? then s
      else s.(db := Enroll(s.db, external, location, from, Engine.Start(w[key], contact, wall, hash).value))
    case SenderClaim(p, fate) => ClaimJob(s, p, fate)
    case SenderStep(p, fate, response, lookup) =>
      if p in s.senders && p in s.held && s.held[p].row < |s.db.jobs| then StepSender(s, p, fate, response, lookup) else s
    case SenderCrash(p) => s.(senders := s.senders - {p}, held := s.held - {p})
    case CrmClaim(p, fate) => ClaimCrm(s, p, fate)
    case CrmStep(p, fate, ok) =>
      if p in s.crmPcs && p in s.crmHeld && s.crmHeld[p].row < |s.db.crm| then StepCrm(s, p, fate, ok) else s
    case CrmCrash(p) => s.(crmPcs := s.crmPcs - {p}, crmHeld := s.crmHeld - {p})
    case AdvancerClaim(p, fate) => ClaimSequence(s, p, fate)
    case AdvancerStep(p, fate, wall, bs) => if p in s.advancers then StepAdvancer(w, s, p, fate, wall, bs) else s
    case AdvancerCrash(p) => s.(advancers := s.advancers - {p})
    case HearReply(p, phone, to, text, fate) => ClaimForReply(s, p, phone, to, text, fate)
    case ReplierStep(p, fate, wall) => if p in s.repliers then StepReplier(w, s, p, fate, wall) else s
    case ReplierCrash(p) => s.(repliers := s.repliers - {p})
  }

  function Execution(w: Workflows, s: System, actions: seq<Action>): System
    decreases |actions|
  {
    if actions == [] then s else Execution(w, Step(w, s, actions[0]), actions[1..])
  }

  lemma {:induction false} ExecutionConcat(w: Workflows, s: System, first: seq<Action>, second: seq<Action>)
    ensures Execution(w, s, first + second) == Execution(w, Execution(w, s, first), second)
    decreases |first|
  {
    if first == [] {
      assert first + second == second;
    } else {
      assert (first + second)[1..] == first[1..] + second;
      ExecutionConcat(w, Step(w, s, first[0]), first[1..], second);
    }
  }

  lemma ExecutionOne(w: Workflows, s: System, a: Action)
    ensures Execution(w, s, [a]) == Step(w, s, a)
  {
    assert [a][1..] == [];
    assert Execution(w, Step(w, s, a), []) == Step(w, s, a);
  }

  lemma ExecutionSnoc(w: Workflows, s: System, actions: seq<Action>, a: Action)
    ensures Execution(w, s, actions + [a]) == Step(w, Execution(w, s, actions), a)
  {
    ExecutionConcat(w, s, actions, [a]);
    ExecutionOne(w, Execution(w, s, actions), a);
  }

  // ----- RunWorker -----

  /** The job a claim by p would take. */
  function JobToClaim(s: System, p: Pid, fate: Fate): (r: Option<nat>)
    ensures r.Some? ==> IsFirst(Leases(s.db.jobs), s.db.now, r.value) && p !in s.senders && p !in s.held && fate.Lands()
  {
    if !fate.Lands() || p in s.senders || p in s.held then None else FirstEligible(Leases(s.db.jobs), s.db.now)
  }

  function TakeJob(db: Database, i: nat): Database
    requires i < |db.jobs|
  {
    db.(jobs := SetLease(db.jobs, i, Claimed(db.jobs[i].lease, db.now)))
  }

  function TicketFor(row: nat, lease: Row, now: Instant): Ticket {
    Ticket(row, now + LEASE, lease.attempts + 1, false)
  }

  function ClaimJob(s: System, p: Pid, fate: Fate): System {
    var next := JobToClaim(s, p, fate);
    if next.None? then s
    else
      var job := s.db.jobs[next.value];
      System(TakeJob(s.db, next.value),
        if fate.Seen() then s.held[p := TicketFor(next.value, job.lease, s.db.now)] else s.held,
        if fate.Seen() then s.senders[p := Sender(CheckPause, job.message.(contact := ""))] else s.senders,
        s.crmHeld, s.crmPcs, s.advancers, s.repliers, s.cancellers)
  }

  function Backoff(attempts: nat): int { Power2(if attempts < 6 then attempts else 6) * SECOND }

  function Power2(n: nat): nat { if n == 0 then 1 else 2 * Power2(n - 1) }

  const SHORT_DELAY := Requeue(SECOND)

  function GiveBack(o: Outcome): SenderPc { WriteBack(o, "") }

  /** The branches after Send. */
  function AfterSend(attempts: nat, response: Response): SenderPc {
    match response
    case Accepted(provider) => WriteBack(Finish, provider)
    case _ =>
      if response.Refused? && ClassifyProviderError(response.status, response.code) == RetrySuppression
      then RecordSuppression
      else if response.Refused? && ClassifyProviderError(response.status, response.code) == RetryPermanent
      then GiveBack(GiveUp)
      else if attempts < MAX_ATTEMPTS then GiveBack(Requeue(Backoff(attempts)))
      else GiveBack(GiveUp)
  }

  /** Where the worker goes next; None is back to the top of its loop. */
  function SenderNext(s: System, t: Sender, attempts: nat, fate: Fate, response: Response, lookup: Lookup)
    : Option<SenderPc>
  {
    match t.pc
    case CheckPause =>
      Some(if !fate.Seen() || s.db.paused then GiveBack(SHORT_DELAY) else CheckSuppression)
    case CheckSuppression =>
      Some(if !fate.Seen() then GiveBack(SHORT_DELAY)
           else if t.job.to in s.db.suppressed then GiveBack(GiveUp)
           else ResolveNumber)
    case ResolveNumber =>
      Some(match ResolveSendingNumber(t.job.contact, t.job.from, lookup)
           case Ok(from) => Submit(from)
           case Err(e) => GiveBack(if e == ResolveError.Refused(UnknownSendingNumber) then GiveUp else SHORT_DELAY))
    case Submit(_) => Some(AfterSend(attempts, response))
    case RecordSuppression => Some(if fate.Seen() then CancelOthers else GiveBack(GiveUp))
    case CancelOthers => Some(GiveBack(GiveUp))
    case WriteBack(_, _) => None
  }

  /** What the statement at the program counter does to the tables when it lands. */
  function SenderEffect(db: Database, t: Sender, row: nat): Database
    requires row < |db.jobs|
  {
    match t.pc
    case RecordSuppression => AddSuppression(db, t.job.to)
    case CancelOthers => CancelQueued(db, t.job.to)
    case WriteBack(outcome, provider) =>
      if outcome == Finish then CompleteJob(db, row, provider) else WriteJob(db, row, outcome)
    case _ => db
  }

  function StepSender(s: System, p: Pid, fate: Fate, response: Response, lookup: Lookup): System
    requires p in s.senders && p in s.held && s.held[p].row < |s.db.jobs|
  {
    var t, ticket := s.senders[p], s.held[p];
    var next := SenderNext(s, t, ticket.attempts, fate, response, lookup);
    System(if fate.Lands() then SenderEffect(s.db, t, ticket.row) else s.db,
      if next.None? then s.held - {p} else if t.pc.Submit? then s.held[p := ticket.(ran := true)] else s.held,
      if next.None? then s.senders - {p} else s.senders[p := t.(pc := next.value)],
      s.crmHeld, s.crmPcs, s.advancers, s.repliers, s.cancellers)
  }

  // ----- RunCRMWorker -----

  function CrmLeases(crm: seq<CrmJob>): (r: seq<Row>)
    ensures |r| == |crm| && forall i :: 0 <= i < |crm| ==> r[i] == crm[i].lease
  {
    seq(|crm|, i requires 0 <= i < |crm| => crm[i].lease)
  }

  function SetCrmLease(db: Database, i: nat, lease: Row): Database
    requires i < |db.crm|
  {
    db.(crm := db.crm[i := db.crm[i].(lease := lease)])
  }

  function CrmToClaim(s: System, p: Pid, fate: Fate): (r: Option<nat>)
    ensures r.Some? ==> IsFirst(CrmLeases(s.db.crm), s.db.now, r.value) && p !in s.crmPcs && p !in s.crmHeld && fate.Lands()
  {
    if !fate.Lands() || p in s.crmPcs || p in s.crmHeld then None else FirstEligible(CrmLeases(s.db.crm), s.db.now)
  }

  function ClaimCrm(s: System, p: Pid, fate: Fate): System {
    var next := CrmToClaim(s, p, fate);
    if next.None? then s
    else
      var lease := s.db.crm[next.value].lease;
      System(SetCrmLease(s.db, next.value, Claimed(lease, s.db.now)), s.held, s.senders,
        if fate.Seen() then s.crmHeld[p := TicketFor(next.value, lease, s.db.now)] else s.crmHeld,
        if fate.Seen() then s.crmPcs[p := Execute] else s.crmPcs,
        s.advancers, s.repliers, s.cancellers)
  }

  /** What is written back after the HighLevel call. */
  function AfterExecute(attempts: nat, ok: bool): Outcome {
    if ok then Finish else if attempts < MAX_ATTEMPTS then Requeue(Backoff(attempts)) else GiveUp
  }

  function StepCrm(s: System, p: Pid, fate: Fate, ok: bool): System
    requires p in s.crmPcs && p in s.crmHeld && s.crmHeld[p].row < |s.db.crm|
  {
    var ticket := s.crmHeld[p];
    match s.crmPcs[p]
    case Execute =>
      System(s.db, s.held, s.senders, s.crmHeld[p := ticket.(ran := true)],
        s.crmPcs[p := CrmWriteBack(AfterExecute(ticket.attempts, ok))], s.advancers, s.repliers, s.cancellers)
    case CrmWriteBack(outcome) =>
      var lease := s.db.crm[ticket.row].lease;
      System(if fate.Lands() then SetCrmLease(s.db, ticket.row, Written(lease, outcome, s.db.now)) else s.db,
        s.held, s.senders, s.crmHeld - {p}, s.crmPcs - {p}, s.advancers, s.repliers, s.cancellers)
  }

  // ----- RunWorkflowWorker -----

  function SequenceToClaim(s: System, p: Pid, fate: Fate): (r: Option<nat>)
    ensures r.Some? ==> IsFirstDue(s.db.sequences, s.db.now, r.value) && p !in s.advancers && fate.Lands()
  {
    if !fate.Lands() || p in s.advancers then None else FirstDue(s.db.sequences, s.db.now)
  }

  function ClaimSequence(s: System, p: Pid, fate: Fate): System {
    var next := SequenceToClaim(s, p, fate);
    if next.None? then s
    else
      System(LockSequence(s.db, next.value), s.held, s.senders, s.crmHeld, s.crmPcs,
        if fate.Seen() then s.advancers[p := Ready(Snapshot(s.db.sequences, next.value))] else s.advancers,
        s.repliers, s.cancellers)
  }

  /** ApplyWorkflowCommands, refused when the row is not locked. */
  function TryApply(db: Database, r: Record, cs: seq<Command>, reply: string, fate: Fate, wall: Instant): Database {
    if fate.Lands() && Claimable(db, r) then Apply(db, r, cs, reply, wall) else db
  }

  /** The worker runs the engine: its definition is configured and switched on. */
  predicate Configured(w: Workflows, key: string) { key in w && w[key].enabled }

  /** Where the worker goes next; `wall` is its own clock. */
  function AdvancerNext(w: Workflows, db: Database, t: Advancer, fate: Fate, wall: Instant, bs: Bindings)
    : Option<Advancer>
  {
    match t
    case Ready(r) =>
      if !Configured(w, r.enrollment.key) then Some(Postponing(r.id, 60 * MINUTE))
      else if Advanced(w[r.enrollment.key], r.enrollment, wall, bs).result.Err? then Some(Failing(r.id))
      else if fate.Seen() && Claimable(db, r) then None
      else Some(Postponing(r.id, MINUTE))
    case _ => None
  }

  function AdvancerEffect(w: Workflows, db: Database, t: Advancer, fate: Fate, wall: Instant, bs: Bindings): Database {
    match t
    case Ready(r) =>
      if !Configured(w, r.enrollment.key) then db
      else
        var a := Advanced(w[r.enrollment.key], r.enrollment, wall, bs);
        if a.result.Err? then db
        else TryApply(db, r.(enrollment := a.enrollment), a.result.value, "", fate, wall)
    case Postponing(id, delay) =>
      if fate.Lands() && id < |db.sequences| then PostponeSequence(db, id, delay) else db
    case Failing(id) =>
      if fate.Lands() && id < |db.sequences| then FailSequence(db, id) else db
  }

  function StepAdvancer(w: Workflows, s: System, p: Pid, fate: Fate, wall: Instant, bs: Bindings): System
    requires p in s.advancers
  {
    var next := AdvancerNext(w, s.db, s.advancers[p], fate, wall, bs);
    System(AdvancerEffect(w, s.db, s.advancers[p], fate, wall, bs), s.held, s.senders, s.crmHeld, s.crmPcs,
      if next.None? then s.advancers - {p} else s.advancers[p := next.value], s.repliers, s.cancellers)
  }

  // ----- applyWorkflowReply -----

  function ClaimForReply(s: System, p: Pid, phone: string, to: string, text: string, fate: Fate): System {
    if !fate.Lands() || p in s.repliers then s
    else
      var records := ConcernedRecords(s.db.sequences, phone, to, s.db.now);
      System(s.db.(sequences := LockConcerned(s.db.sequences, phone, to, s.db.now)),
        s.held, s.senders, s.crmHeld, s.crmPcs, s.advancers,
        if fate.Seen() then s.repliers[p := Replier(records, text)] else s.repliers, s.cancellers)
  }

  /** The records still to handle; any error abandons them. */
  function ReplierNext(w: Workflows, db: Database, t: Replier, fate: Fate): Option<Replier> {
    if t.records == [] || !fate.Seen() then None
    else if t.records[0].enrollment.key in w && !Claimable(db, t.records[0]) then None
    else Some(Replier(t.records[1..], t.text))
  }

  /** Reply and its transaction for the first record; a record without a definition is failed. */
  function ReplierEffect(w: Workflows, db: Database, t: Replier, fate: Fate, wall: Instant): Database {
    if t.records == [] then db
    else
      var r := t.records[0];
      if r.enrollment.key !in w then
        if fate.Lands() && r.id < |db.sequences| then FailSequence(db, r.id) else db
      else
        var reaction := Replied(w[r.enrollment.key], r.enrollment, t.text);
        TryApply(db, r.(enrollment := reaction.enrollment), reaction.commands, t.text, fate, wall)
  }

  function StepReplier(w: Workflows, s: System, p: Pid, fate: Fate, wall: Instant): System
    requires p in s.repliers
  {
    var next := ReplierNext(w, s.db, s.repliers[p], fate);
    System(ReplierEffect(w, s.db, s.repliers[p], fate, wall), s.held, s.senders, s.crmHeld, s.crmPcs, s.advancers,
      if next.None? then s.repliers - {p} else s.repliers[p := next.value], s.cancellers)
  }

}
