/** The PostgreSQL tables, and what each statement or transaction of internal/store does to them.
    Ids are positions: rows are only ever appended. */
module Tables {
  import opened Wrappers
  import opened Strings
  import opened SendWindow
  import opened Catalog
  import opened Engine
  import opened RateLimit
  import opened LeasedQueue

  // ----- Rows -----

  datatype Message = Message(
    location: string, id: string, contact: string, to: string, from: string, body: string, enrollment: Option<nat>)

  /** One row of outbound_jobs. */
  datatype Job = Job(message: Message, lease: Row, provider: Option<string>)

  /** One row of workflow_enrollments. */
  datatype Sequence = Sequence(
    external: string,
    location: string,
    from: string,
    enrollment: Enrollment,
    lockedUntil: Option<Instant>,
    lastReply: string)

  /** One row of crm_jobs; `batch` is the transaction that inserted it. */
  datatype CrmJob = CrmJob(enrollment: nat, action: string, body: string, reply: string, lease: Row, batch: nat)

  /** One row of delivery_events. */
  datatype Delivery = Delivery(provider: string, status: string, job: Option<nat>)

  datatype Database = Database(
    now: Instant,
    paused: bool,
    jobs: seq<Job>,
    suppressed: set<string>,
    sequences: seq<Sequence>,
    crm: seq<CrmJob>,
    rates: map<string, Allowance>,
    deliveries: map<string, Delivery>,
    batches: nat)

  // ----- outbound_jobs -----

  predicate Taken(jobs: seq<Job>, location: string, id: string) {
    exists i :: 0 <= i < |jobs| && jobs[i].message.location == location && jobs[i].message.id == id
  }

  /** INSERT ... ON CONFLICT(location_id,message_id) DO NOTHING */
  function InsertMessage(jobs: seq<Job>, m: Message, availableAt: Instant): seq<Job> {
    if Taken(jobs, m.location, m.id) then jobs else jobs + [Job(m, New(availableAt), None)]
  }

  function Withdrawal(jobs: seq<Job>, number: string): (r: seq<Job>)
    ensures |r| == |jobs|
    ensures forall i :: 0 <= i < |jobs| ==>
      r[i] == if jobs[i].message.to == number then jobs[i].(lease := Withdrawn(jobs[i].lease)) else jobs[i]
  {
    seq(|jobs|, i requires 0 <= i < |jobs| =>
      if jobs[i].message.to == number then jobs[i].(lease := Withdrawn(jobs[i].lease)) else jobs[i])
  }

  function Leases(jobs: seq<Job>): (r: seq<Row>)
    ensures |r| == |jobs| && forall i :: 0 <= i < |jobs| ==> r[i] == jobs[i].lease
  {
    seq(|jobs|, i requires 0 <= i < |jobs| => jobs[i].lease)
  }

  /** ORDER BY available_at,id: the order in which claims take rows. */
  predicate Before(rows: seq<Row>, i: nat, j: nat)
    requires i < |rows| && j < |rows|
  {
    rows[i].availableAt < rows[j].availableAt || (rows[i].availableAt == rows[j].availableAt && i <= j)
  }

  predicate IsFirst(rows: seq<Row>, now: Instant, i: nat) {
    && i < |rows|
    && Eligible(rows[i], now)
    && forall j :: 0 <= j < |rows| && Eligible(rows[j], now) ==> Before(rows, i, j)
  }

  /** The row a claim takes, if any. */
  function FirstEligible(rows: seq<Row>, now: Instant): (r: Option<nat>)
    ensures r.Some? ==> IsFirst(rows, now, r.value)
    ensures r.None? ==> forall j :: 0 <= j < |rows| ==> !Eligible(rows[j], now)
  {
    if rows == [] then None
    else
      var n := |rows| - 1;
      var r := FirstEligible(rows[..n], now);
      assert forall j :: 0 <= j < n ==> rows[..n][j] == rows[j];
      if !Eligible(rows[n], now) || (r.Some? && Before(rows, r.value, n)) then r else Some(n)
  }

  function SetLease(jobs: seq<Job>, i: nat, lease: Row): seq<Job>
    requires i < |jobs|
  {
    jobs[i := jobs[i].(lease := lease)]
  }

  /** The delivery events of a provider id that have no job yet get this one. */
  function Correlate(deliveries: map<string, Delivery>, job: nat, provider: string): map<string, Delivery> {
    map e | e in deliveries ::
      if deliveries[e].provider == provider && deliveries[e].job.None? then deliveries[e].(job := Some(job))
      else deliveries[e]
  }

  function WriteJob(db: Database, i: nat, o: Outcome): Database
    requires i < |db.jobs|
  {
    db.(jobs := SetLease(db.jobs, i, Written(db.jobs[i].lease, o, db.now)))
  }

  /** Complete: both updates in one transaction. */
  function CompleteJob(db: Database, i: nat, provider: string): Database
    requires i < |db.jobs|
  {
    var done := WriteJob(db, i, Finish);
    done.(jobs := done.jobs[i := done.jobs[i].(provider := Some(provider))],
      deliveries := Correlate(db.deliveries, i, provider))
  }

  // ----- delivery_events -----

  predicate Sent(jobs: seq<Job>, i: nat, provider: string) {
    i < |jobs| && jobs[i].provider == Some(provider)
  }

  /** The scalar subquery SELECT id ... WHERE provider_message_id=$2: no value, one, or an error. */
  predicate Ambiguous(jobs: seq<Job>, provider: string) {
    exists i, j :: 0 <= i < j < |jobs| && Sent(jobs, i, provider) && Sent(jobs, j, provider)
  }

  function JobOf(jobs: seq<Job>, provider: string): (r: Option<nat>)
    ensures r.Some? ==> Sent(jobs, r.value, provider)
    ensures r.None? ==> forall i :: 0 <= i < |jobs| ==> !Sent(jobs, i, provider)
  {
    if jobs == [] then None
    else
      var n := |jobs| - 1;
      assert forall i :: 0 <= i < n ==> Sent(jobs, i, provider) == Sent(jobs[..n], i, provider);
      if Sent(jobs, n, provider) then Some(n) else JobOf(jobs[..n], provider)
  }

  function RecordDelivery(db: Database, event: string, provider: string, status: string): Database {
    if Ambiguous(db.jobs, provider) || event in db.deliveries then db
    else db.(deliveries := db.deliveries[event := Delivery(provider, status, JobOf(db.jobs, provider))])
  }

  // ----- suppressions -----

  function AddSuppression(db: Database, number: string): Database {
    db.(suppressed := db.suppressed + {number})
  }

  function CancelQueued(db: Database, number: string): Database {
    db.(jobs := Withdrawal(db.jobs, number))
  }

  // ----- workflow_enrollments -----

  const SEQUENCE_LEASE := 5 * MINUTE

  /** A snapshot of an enrollment row, as the claiming statements return it. */
  datatype Record = Record(id: nat, location: string, from: string, enrollment: Enrollment)

  predicate Active(q: Sequence) { q.enrollment.state == Pending || q.enrollment.state == AwaitingReply }

  predicate Unlocked(q: Sequence, now: Instant) { q.lockedUntil.None? || q.lockedUntil.value < now }

  predicate Due(q: Sequence, now: Instant) {
    Active(q) && q.enrollment.nextRun.Some? && q.enrollment.nextRun.value <= now && Unlocked(q, now)
  }

  predicate Concerned(q: Sequence, phone: string, from: string, now: Instant) {
    q.enrollment.contact.phone == phone && (from == "" || q.from == from) && Active(q) && Unlocked(q, now)
  }

  function Snapshot(sequences: seq<Sequence>, i: nat): Record
    requires i < |sequences|
  {
    Record(i, sequences[i].location, sequences[i].from, sequences[i].enrollment)
  }

  function Locked(q: Sequence, now: Instant): Sequence { q.(lockedUntil := Some(now + SEQUENCE_LEASE)) }

  predicate IsFirstDue(sequences: seq<Sequence>, now: Instant, i: nat) {
    && i < |sequences|
    && Due(sequences[i], now)
    && forall j :: 0 <= j < |sequences| && Due(sequences[j], now) ==>
        var a, b := sequences[i].enrollment.nextRun.value, sequences[j].enrollment.nextRun.value;
        a < b || (a == b && i <= j)
  }

  /** The enrollment ClaimDueWorkflow takes, ordered by (next_run_at, id). */
  function FirstDue(sequences: seq<Sequence>, now: Instant): (r: Option<nat>)
    ensures r.Some? ==> IsFirstDue(sequences, now, r.value)
    ensures r.None? ==> forall j :: 0 <= j < |sequences| ==> !Due(sequences[j], now)
  {
    if sequences == [] then None
    else
      var n := |sequences| - 1;
      var r := FirstDue(sequences[..n], now);
      assert forall j :: 0 <= j < n ==> sequences[..n][j] == sequences[j];
      if !Due(sequences[n], now) then r
      else if r.Some? && sequences[r.value].enrollment.nextRun.value <= sequences[n].enrollment.nextRun.value then r
      else Some(n)
  }

  function LockSequence(db: Database, i: nat): Database
    requires i < |db.sequences|
  {
    db.(sequences := db.sequences[i := Locked(db.sequences[i], db.now)])
  }

  /** ClaimWorkflowsForReply locks every unlocked active enrollment of the two numbers. */
  function LockConcerned(sequences: seq<Sequence>, phone: string, from: string, now: Instant): (r: seq<Sequence>)
    ensures |r| == |sequences|
    ensures forall i :: 0 <= i < |sequences| ==>
      r[i] == if Concerned(sequences[i], phone, from, now) then Locked(sequences[i], now) else sequences[i]
  {
    seq(|sequences|, i requires 0 <= i < |sequences| =>
      if Concerned(sequences[i], phone, from, now) then Locked(sequences[i], now) else sequences[i])
  }

  function ConcernedRecords(sequences: seq<Sequence>, phone: string, from: string, now: Instant): (r: seq<Record>)
    ensures forall k :: 0 <= k < |r| ==>
      && r[k].id < |sequences|
      && Concerned(sequences[r[k].id], phone, from, now)
      && r[k] == Snapshot(sequences, r[k].id)
    ensures forall i :: 0 <= i < |sequences| && Concerned(sequences[i], phone, from, now) ==>
      Snapshot(sequences, i) in r
    ensures forall k, l :: 0 <= k < l < |r| ==> r[k].id < r[l].id
  {
    if sequences == [] then []
    else
      var n := |sequences| - 1;
      assert forall i :: 0 <= i < n ==> Snapshot(sequences[..n], i) == Snapshot(sequences, i);
      ConcernedRecords(sequences[..n], phone, from, now)
      + if Concerned(sequences[n], phone, from, now) then [Snapshot(sequences, n)] else []
  }

  function FailSequence(db: Database, i: nat): Database
    requires i < |db.sequences|
  {
    var q := db.sequences[i];
    db.(sequences := db.sequences[i :=
      q.(enrollment := q.enrollment.(state := State.Failed, nextRun := None), lockedUntil := None)])
  }

  function PostponeSequence(db: Database, i: nat, delay: int): Database
    requires i < |db.sequences|
  {
    var q := db.sequences[i];
    db.(sequences := db.sequences[i :=
      q.(enrollment := q.enrollment.(nextRun := Some(db.now + delay)), lockedUntil := None)])
  }

  predicate Enrolled(sequences: seq<Sequence>, location: string, external: string) {
    exists i :: 0 <= i < |sequences| && sequences[i].location == location && sequences[i].external == external
  }

  function Enroll(db: Database, external: string, location: string, from: string, e: Enrollment): Database {
    if Enrolled(db.sequences, location, external) then db
    else db.(sequences := db.sequences + [Sequence(external, location, from, e, None, "")])
  }

  // ----- ApplyWorkflowCommands -----

  /** fmt.Sprintf("workflow:%d:%d", ...) */
  function SequenceMessageId(sequence: nat, count: nat): string {
    "workflow:" + (Decimal(sequence) + (":" + Decimal(count)))
  }

  function ActionName(c: Command): string {
    match c
    case CrmAction(action) => if action == "" then "crm_action" else action
    case ArchiveConversation => "archive_conversation"
    case CreateTask(_) => "create_task"
    case _ => ""
  }

  predicate HasCrm(crm: seq<CrmJob>, sequence: nat, action: string) {
    exists i :: 0 <= i < |crm| && crm[i].enrollment == sequence && crm[i].action == action
  }

  function SmsOf(r: Record, body: string): Message {
    Message(r.location, SequenceMessageId(r.id, Natural(r.enrollment.sentCount)), r.enrollment.contact.id,
      r.enrollment.contact.phone, r.from, body, Some(r.id))
  }

  /** sent_count is never negative. */
  function Natural(n: int): nat { if n < 0 then 0 else n }

  function ReserveRate(db: Database, key: string, rate: Rate, wall: Instant): Reservation {
    var r := EffectiveRate(rate);
    Reserve(if key in db.rates then db.rates[key] else Allowance(db.now, r.batchSize), r, wall)
  }

  /** One command inside the transaction; `wall` is the Go clock reading of the rate reserver. */
  function RunCommand(db: Database, r: Record, c: Command, reply: string, wall: Instant): Database {
    match c
    case SendSms(body, rate) =>
      var res := ReserveRate(db, r.enrollment.key, rate, wall);
      db.(rates := db.rates[r.enrollment.key := res.left],
        jobs := InsertMessage(db.jobs, SmsOf(r, body), res.at))
    case SuppressContact =>
      CancelQueued(AddSuppression(db, r.enrollment.contact.phone), r.enrollment.contact.phone)
    case _ =>
      if HasCrm(db.crm, r.id, ActionName(c)) then db
      else db.(crm := db.crm +
        [CrmJob(r.id, ActionName(c), if c.CreateTask? then c.body else "", reply, New(db.now), db.batches)])
  }

  function RunCommands(db: Database, r: Record, cs: seq<Command>, reply: string, wall: Instant): Database
    decreases |cs|
  {
    if cs == [] then db
    else
      var n := |cs| - 1;
      RunCommand(RunCommands(db, r, cs[..n], reply, wall), r, cs[n], reply, wall)
  }

  /** The guard of the transaction: the row is locked by someone. */
  predicate Claimable(db: Database, r: Record) {
    r.id < |db.sequences| && db.sequences[r.id].lockedUntil.Some?
  }

  /** The row as the transaction rewrites it from the worker's snapshot. */
  function Rewritten(q: Sequence, r: Record, reply: string): Sequence {
    q.(enrollment := q.enrollment.(
         state := r.enrollment.state, nextRun := r.enrollment.nextRun,
         variant := r.enrollment.variant, sentCount := r.enrollment.sentCount),
       lastReply := if reply == "" then q.lastReply else reply,
       lockedUntil := None)
  }

  function Apply(db: Database, r: Record, cs: seq<Command>, reply: string, wall: Instant): Database
    requires Claimable(db, r)
  {
    var updated := db.(
      sequences := db.sequences[r.id := Rewritten(db.sequences[r.id], r, reply)],
      batches := db.batches + 1);
    RunCommands(updated, r, cs, reply, wall)
  }

}
