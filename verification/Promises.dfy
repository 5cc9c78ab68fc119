/** What each statement and each iteration of a worker promises about rows, column by column. Nothing here refers to
    the functions that compute it. */
module Promises {
  import opened Wrappers
  import opened Strings
  import opened SendWindow
  import opened Catalog
  import opened Template
  import opened Engine
  import opened LeasedQueue
  import opened Tables
  import opened Machine
  import Enrollments

  // ----- Claims -----

  /** A queued row whose time has come, or one being worked on whose lease is over. */
  predicate Ripe(r: Row, now: Instant) {
    || (r.status == Queued && r.availableAt <= now)
    || (r.status == Running && r.lockedUntil.Some? && r.lockedUntil.value < now)
  }

  predicate Oldest(rows: seq<Row>, now: Instant, i: nat) {
    && i < |rows| && Ripe(rows[i], now)
    && forall j :: 0 <= j < |rows| && Ripe(rows[j], now) ==>
        rows[i].availableAt < rows[j].availableAt || (rows[i].availableAt == rows[j].availableAt && i <= j)
  }

  lemma FirstIsOldest(rows: seq<Row>, now: Instant)
    ensures FirstEligible(rows, now).Some? ==> Oldest(rows, now, FirstEligible(rows, now).value)
    ensures FirstEligible(rows, now).None? ==> forall i :: 0 <= i < |rows| ==> !Ripe(rows[i], now)
  {
    var r := FirstEligible(rows, now);
    forall j | 0 <= j < |rows| ensures Ripe(rows[j], now) <==> Eligible(rows[j], now) {}
    if r.Some? {
      assert IsFirst(rows, now, r.value);
    }
  }

  // ----- What is written back to a claimed row -----

  /** Seconds after attempts one to four. */
  const DELAYS: seq<int> := [2, 4, 8, 16]

  /** One more attempt is behind it, nobody holds it, and it has this status. */
  predicate LeftAs(was: Row, now: Row, status: Status) {
    now.attempts == was.attempts + 1 && now.lockedUntil == None && now.status == status &&
    (status != Queued ==> now.availableAt == was.availableAt)
  }

  /** It waits for another attempt, twice as long each time; after the fifth it has failed. */
  predicate Again(was: Row, now: Row, at: Instant) {
    if was.attempts < 4 then LeftAs(was, now, Queued) && now.availableAt == at + DELAYS[was.attempts] * SECOND
    else LeftAs(was, now, Status.Failed)
  }

  predicate OthersStay(was: seq<Job>, now: seq<Job>, i: nat) {
    |now| == |was| && forall j :: 0 <= j < |was| && j != i ==> now[j] == was[j]
  }

  /** Of the other rows, those queued to the number are cancelled. */
  predicate OthersCancelled(was: seq<Job>, now: seq<Job>, i: nat, number: string) {
    |now| == |was| && forall j :: 0 <= j < |was| && j != i ==>
      && now[j].message == was[j].message && now[j].provider == was[j].provider
      && (if was[j].message.to == number && was[j].lease.status == Queued
          then now[j].lease == was[j].lease.(status := Cancelled) else now[j].lease == was[j].lease)
  }

  /** The events of the provider id that had no job have this one. */
  predicate EventsFollow(was: map<string, Delivery>, now: map<string, Delivery>, i: nat, provider: string) {
    now.Keys == was.Keys && forall e :: e in was ==>
      && now[e].provider == was[e].provider && now[e].status == was[e].status
      && now[e].job == if was[e].provider == provider && was[e].job == None then Some(i) else was[e].job
  }

  predicate OnlyOutbound(db: Database, n: Database) {
    n == db.(jobs := n.jobs, suppressed := n.suppressed, deliveries := n.deliveries)
  }

  /** Telnyx is out of reach, or answers with an error that passes. */
  predicate Passing(response: Response) {
    response.Unreachable? ||
    (response.Refused? && response.code != "40300" &&
     (response.status == 408 || response.status == 425 || response.status == 429 || response.status >= 500))
  }

  /** RunWorker has taken job i and handled it, Telnyx answering as given if it is asked. */
  ghost predicate JobHandled(db: Database, n: Database, i: nat, response: Response)
    requires i < |db.jobs|
  {
    && OnlyOutbound(db, n) && |n.jobs| == |db.jobs| && n.jobs[i].message == db.jobs[i].message
    && var to, was, now := db.jobs[i].message.to, db.jobs[i].lease, n.jobs[i].lease;
    if db.paused then
      && OthersStay(db.jobs, n.jobs, i) && n.suppressed == db.suppressed && n.deliveries == db.deliveries
      && n.jobs[i].provider == db.jobs[i].provider
      && LeftAs(was, now, Queued) && now.availableAt == db.now + SECOND
    else if to in db.suppressed then
      && OthersStay(db.jobs, n.jobs, i) && n.suppressed == db.suppressed && n.deliveries == db.deliveries
      && n.jobs[i].provider == db.jobs[i].provider
      && LeftAs(was, now, Status.Failed)
    else if response.Accepted? then
      && OthersStay(db.jobs, n.jobs, i) && n.suppressed == db.suppressed
      && EventsFollow(db.deliveries, n.deliveries, i, response.provider)
      && n.jobs[i].provider == Some(response.provider)
      && LeftAs(was, now, Done)
    else if response.Refused? && response.code == "40300" then
      && OthersCancelled(db.jobs, n.jobs, i, to) && n.suppressed == db.suppressed + {to}
      && n.deliveries == db.deliveries && n.jobs[i].provider == db.jobs[i].provider
      && LeftAs(was, now, Status.Failed)
    else
      && OthersStay(db.jobs, n.jobs, i) && n.suppressed == db.suppressed && n.deliveries == db.deliveries
      && n.jobs[i].provider == db.jobs[i].provider
      && (if Passing(response) then Again(was, now, db.now) else LeftAs(was, now, Status.Failed))
  }

  /** After a refusal with code 40300 nothing is queued to the number any more. */
  lemma RefusalEmptiesQueue(db: Database, n: Database, i: nat, response: Response)
    requires i < |db.jobs| && JobHandled(db, n, i, response) && !db.paused && db.jobs[i].message.to !in db.suppressed
    requires response.Refused? && response.code == "40300"
    ensures db.jobs[i].message.to in n.suppressed
    ensures forall j :: 0 <= j < |n.jobs| && n.jobs[j].message.to == db.jobs[i].message.to ==>
      n.jobs[j].lease.status != Queued
  {}

  /** RunCRMWorker has taken CRM job i and handled it; `ok` unless HighLevel failed. */
  predicate CrmHandled(db: Database, n: Database, i: nat, ok: bool)
    requires i < |db.crm|
  {
    && n == db.(crm := n.crm) && |n.crm| == |db.crm|
    && (forall j :: 0 <= j < |db.crm| && j != i ==> n.crm[j] == db.crm[j])
    && n.crm[i] == db.crm[i].(lease := n.crm[i].lease)
    && if ok then LeftAs(db.crm[i].lease, n.crm[i].lease, Done) else Again(db.crm[i].lease, n.crm[i].lease, db.now)
  }

  // ----- Workflow statements -----

  predicate IsActive(q: Sequence) { q.enrollment.state == Pending || q.enrollment.state == AwaitingReply }

  predicate IsFree(q: Sequence, now: Instant) { q.lockedUntil == None || q.lockedUntil.value < now }

  /** Active, due and not locked. */
  predicate InLine(q: Sequence, now: Instant) {
    IsActive(q) && IsFree(q, now) && q.enrollment.nextRun.Some? && q.enrollment.nextRun.value <= now
  }

  /** The first of those, by next run and then by id. */
  predicate FirstInLine(sequences: seq<Sequence>, now: Instant, i: nat) {
    && i < |sequences| && InLine(sequences[i], now)
    && forall j :: 0 <= j < |sequences| && InLine(sequences[j], now) ==>
        var a, b := sequences[i].enrollment.nextRun.value, sequences[j].enrollment.nextRun.value;
        a < b || (a == b && i <= j)
  }

  lemma FirstDueIsInLine(sequences: seq<Sequence>, now: Instant)
    ensures FirstDue(sequences, now).Some? ==> FirstInLine(sequences, now, FirstDue(sequences, now).value)
    ensures FirstDue(sequences, now).None? ==> forall i :: 0 <= i < |sequences| ==> !InLine(sequences[i], now)
  {
    var r := FirstDue(sequences, now);
    forall j | 0 <= j < |sequences| ensures InLine(sequences[j], now) <==> Due(sequences[j], now) {}
    if r.Some? {
      assert IsFirstDue(sequences, now, r.value);
    }
  }

  /** An enrollment of the two numbers that a reply can claim; a blank own number matches any. */
  predicate Answerable(q: Sequence, phone: string, from: string, now: Instant) {
    IsActive(q) && IsFree(q, now) && q.enrollment.contact.phone == phone && (from == "" || q.from == from)
  }

  /** All of those are locked for five minutes, and no others. */
  predicate AnswerableLocked(was: seq<Sequence>, after: seq<Sequence>, phone: string, from: string, now: Instant) {
    |after| == |was| && forall i :: 0 <= i < |was| ==>
      after[i] ==
        if Answerable(was[i], phone, from, now) then was[i].(lockedUntil := Some(now + 300 * SECOND)) else was[i]
  }

  lemma ConcernedAreAnswerable(sequences: seq<Sequence>, phone: string, from: string, now: Instant)
    ensures AnswerableLocked(sequences, LockConcerned(sequences, phone, from, now), phone, from, now)
  {}

  function RecordFrom(q: Sequence, id: nat): Record {
    Record(id := id, location := q.location, from := q.from, enrollment := q.enrollment)
  }

  predicate OneSequence(was: seq<Sequence>, now: seq<Sequence>, i: nat) {
    i < |was| && |now| == |was| && forall j :: 0 <= j < |was| && j != i ==> now[j] == was[j]
  }

  predicate SequenceFailed(was: seq<Sequence>, now: seq<Sequence>, i: nat) {
    OneSequence(was, now, i) && now[i] == was[i].(lockedUntil := None,
      enrollment := was[i].enrollment.(state := State.Failed, nextRun := None))
  }

  predicate SequencePostponed(was: seq<Sequence>, now: seq<Sequence>, i: nat, at: Instant) {
    OneSequence(was, now, i) && now[i] == was[i].(lockedUntil := None,
      enrollment := was[i].enrollment.(nextRun := Some(at)))
  }

  /** One crm_jobs row, unless the enrollment has one with that action. */
  ghost predicate CrmGains(db: Database, n: Database, id: nat, action: string, body: string, reply: string) {
    n == db.(crm := n.crm) &&
    n.crm ==
      if exists i :: 0 <= i < |db.crm| && db.crm[i].enrollment == id && db.crm[i].action == action then db.crm
      else db.crm + [CrmJob(enrollment := id, action := action, body := body, reply := reply,
        lease := Row(status := Queued, attempts := 0, availableAt := db.now, lockedUntil := None), batch := db.batches)]
  }

  function Paced(rate: Rate): Rate { if rate.batchSize > 0 && rate.per > 0 then rate else Rate(1, SECOND) }

  /** One outbound_jobs row, unless its location has one with that id. */
  ghost predicate MessageGains(db: Database, n: Database, m: Message, at: Instant) {
    n.jobs ==
      if exists i :: 0 <= i < |db.jobs| && db.jobs[i].message.location == m.location && db.jobs[i].message.id == m.id
      then db.jobs
      else db.jobs + [Job(message := m,
        lease := Row(status := Queued, attempts := 0, availableAt := at, lockedUntil := None), provider := None)]
  }

  /** What one command of a batch does for the enrollment of snapshot r. */
  ghost predicate CommandDone(db: Database, n: Database, r: Record, c: Command, reply: string, wall: Instant) {
    var contact := r.enrollment.contact;
    match c
    case SendSms(body, rate) =>
      var key, pace := r.enrollment.key, Paced(rate);
      var grant :=
        RateLimit.Reserve(
          if key in db.rates then db.rates[key] else RateLimit.Allowance(db.now, pace.batchSize), pace, wall);
      && n == db.(jobs := n.jobs, rates := db.rates[key := grant.left])
      && (r.enrollment.sentCount >= 0 ==>
            MessageGains(db, n,
              Message(location := r.location,
                id := "workflow:" + (Decimal(r.id) + (":" + Decimal(r.enrollment.sentCount))),
                contact := contact.id, to := contact.phone, from := r.from, body := body, enrollment := Some(r.id)),
              grant.at))
    case SuppressContact =>
      && n == db.(jobs := n.jobs, suppressed := db.suppressed + {contact.phone})
      && OthersCancelled(db.jobs, n.jobs, |db.jobs|, contact.phone)
    case CreateTask(body) => CrmGains(db, n, r.id, "create_task", body, reply)
    case CrmAction(action) => CrmGains(db, n, r.id, if action == "" then "crm_action" else action, "", reply)
    case ArchiveConversation => CrmGains(db, n, r.id, "archive_conversation", "", reply)
  }

  lemma RunCommandDoes(db: Database, r: Record, c: Command, reply: string, wall: Instant)
    ensures CommandDone(db, RunCommand(db, r, c, reply, wall), r, c, reply, wall)
  {
    match c
    case SendSms(body, rate) => SendDoes(db, r, body, rate, reply, wall);
    case _ =>
  }

  lemma SendDoes(db: Database, r: Record, body: string, rate: Rate, reply: string, wall: Instant)
    ensures CommandDone(db, RunCommand(db, r, SendSms(body, rate), reply, wall), r, SendSms(body, rate), reply, wall)
  {
    assert Paced(rate) == EffectiveRate(rate);
    assert Taken(db.jobs, r.location, SmsOf(r, body).id) <==>
      exists i :: 0 <= i < |db.jobs| &&
        db.jobs[i].message.location == r.location && db.jobs[i].message.id == SmsOf(r, body).id;
  }

  /** The row of an enrollment as a batch rewrites it. */
  predicate RowApplied(was: Sequence, now: Sequence, r: Record, reply: string) {
    && now == was.(enrollment := now.enrollment, lockedUntil := None, lastReply := now.lastReply)
    && now.lastReply == (if reply == "" then was.lastReply else reply)
    && now.enrollment == Enrollment(key := was.enrollment.key, contact := was.enrollment.contact,
         state := r.enrollment.state, nextRun := r.enrollment.nextRun, variant := r.enrollment.variant,
         sentCount := r.enrollment.sentCount)
  }

  /** The commands of a batch, one after the other. */
  ghost predicate BatchDone(db: Database, n: Database, r: Record, cs: seq<Command>, reply: string, wall: Instant)
    decreases |cs|
  {
    if cs == [] then n == db
    else
      var k := |cs| - 1;
      exists mid :: BatchDone(db, mid, r, cs[..k], reply, wall) && CommandDone(mid, n, r, cs[k], reply, wall)
  }

  lemma {:induction false} RunCommandsDo(db: Database, r: Record, cs: seq<Command>, reply: string, wall: Instant)
    ensures BatchDone(db, RunCommands(db, r, cs, reply, wall), r, cs, reply, wall)
    decreases |cs|
  {
    if cs != [] {
      var k := |cs| - 1;
      RunCommandsDo(db, r, cs[..k], reply, wall);
      RunCommandDoes(RunCommands(db, r, cs[..k], reply, wall), r, cs[k], reply, wall);
    }
  }

  /** A committed batch: the row of the enrollment, and its commands. */
  ghost predicate Committed(db: Database, n: Database, r: Record, cs: seq<Command>, reply: string, wall: Instant) {
    && |n.sequences| == |db.sequences| && r.id < |db.sequences|
    && (forall e :: 0 <= e < |db.sequences| && e != r.id ==> n.sequences[e] == db.sequences[e])
    && RowApplied(db.sequences[r.id], n.sequences[r.id], r, reply)
    && BatchDone(db.(sequences := n.sequences, batches := db.batches + 1), n, r, cs, reply, wall)
  }

  lemma ApplyCommits(db: Database, r: Record, cs: seq<Command>, reply: string, wall: Instant)
    requires Claimable(db, r)
    ensures Committed(db, Apply(db, r, cs, reply, wall), r, cs, reply, wall)
  {
    var updated := db.(
      sequences := db.sequences[r.id := Rewritten(db.sequences[r.id], r, reply)], batches := db.batches + 1);
    RunCommandsDo(updated, r, cs, reply, wall);
    Enrollments.CommandsInsertNewRows(updated, r, cs, reply, wall);
  }

  predicate OnlySequences(db: Database, n: Database) { n == db.(sequences := n.sequences) }

  /** RunWorkflowWorker has taken enrollment i and handled it, the database failing at command number `broken`:
      put off by an hour without a definition that is switched on, failed when the engine refuses it, put off by a
      minute when the batch is lost, and otherwise advanced. */
  ghost predicate SequenceHandled(
    w: Workflows, db: Database, n: Database, i: nat, broken: nat, wall: Instant, bs: Bindings)
    requires i < |db.sequences|
  {
    var q := db.sequences[i];
    var key := q.enrollment.key;
    if key !in w || !w[key].enabled then
      OnlySequences(db, n) && SequencePostponed(db.sequences, n.sequences, i, db.now + 3600 * SECOND)
    else
      var o := Advanced(w[key], q.enrollment, wall, bs);
      if o.result.Err? then OnlySequences(db, n) && SequenceFailed(db.sequences, n.sequences, i)
      else if broken < |o.result.value| then
        OnlySequences(db, n) && SequencePostponed(db.sequences, n.sequences, i, db.now + 60 * SECOND)
      else Committed(db, n, RecordFrom(q, i).(enrollment := o.enrollment), o.result.value, "", wall)
  }

}
