/** The store as it runs (internal/store): tables changed in place, statement by statement, each method proved
    against the table functions that the rest of the model reasons about. */
module Storage {
  import opened Wrappers
  import opened SendWindow
  import opened Catalog
  import opened Engine
  import opened LeasedQueue
  import opened Tables
  import opened Machine
  import Promises

  /** ORDER BY available_at,id LIMIT 1 over the eligible rows. */
  method ScanEligible(rows: seq<Row>, now: Instant) returns (r: Option<nat>)
    ensures r == FirstEligible(rows, now)
  {
    r := None;
    var i := 0;
    while i < |rows|
      invariant 0 <= i <= |rows|
      invariant r == FirstEligible(rows[..i], now)
    {
      assert rows[..i + 1][..i] == rows[..i];
      if Eligible(rows[i], now) && (r == None || !Before(rows, r.value, i)) {
        r := Some(i);
      }
      i := i + 1;
    }
    assert rows[..i] == rows;
  }

  /** ORDER BY next_run_at,id LIMIT 1 over the enrollments that are due. */
  method ScanDue(sequences: seq<Sequence>, now: Instant) returns (r: Option<nat>)
    ensures r == FirstDue(sequences, now)
  {
    r := None;
    var i := 0;
    while i < |sequences|
      invariant 0 <= i <= |sequences|
      invariant r == FirstDue(sequences[..i], now)
    {
      assert sequences[..i + 1][..i] == sequences[..i];
      if Due(sequences[i], now) &&
         (r == None || sequences[i].enrollment.nextRun.value < sequences[r.value].enrollment.nextRun.value) {
        r := Some(i);
      }
      i := i + 1;
    }
    assert sequences[..i] == sequences;
  }

  /** What Claim returns: the job without its contact, and the attempt now being made. */
  datatype ClaimedJob = ClaimedJob(id: nat, job: Message, attempts: nat)

  datatype ClaimedCrm = ClaimedCrm(id: nat, action: string, body: string, reply: string, attempts: nat)

  /** The matching ones of the first i enrollments are locked. */
  predicate LockedUpTo(was: seq<Sequence>, sequences: seq<Sequence>, phone: string, from: string, now: Instant, i: nat) {
    && |sequences| == |was|
    && forall j :: 0 <= j < |was| ==>
        sequences[j] == if j < i && Concerned(was[j], phone, from, now) then Locked(was[j], now) else was[j]
  }

  lemma NextLock(
    was: seq<Sequence>, sequences: seq<Sequence>, phone: string, from: string, now: Instant, i: nat)
    requires i < |was| && LockedUpTo(was, sequences, phone, from, now, i)
    ensures sequences[i] == was[i]
    ensures var next := if Concerned(was[i], phone, from, now) then sequences[i := Locked(was[i], now)] else sequences;
      LockedUpTo(was, next, phone, from, now, i + 1)
    ensures Snapshot(sequences[i := Locked(was[i], now)], i) == Snapshot(was, i)
  {}

  lemma AllLocked(was: seq<Sequence>, sequences: seq<Sequence>, phone: string, from: string, now: Instant)
    requires LockedUpTo(was, sequences, phone, from, now, |was|)
    ensures sequences == LockConcerned(was, phone, from, now)
  {}

  lemma NextRecord(sequences: seq<Sequence>, phone: string, from: string, now: Instant, i: nat)
    requires i < |sequences|
    ensures ConcernedRecords(sequences[..i + 1], phone, from, now) ==
      ConcernedRecords(sequences[..i], phone, from, now)
      + if Concerned(sequences[i], phone, from, now) then [Snapshot(sequences, i)] else []
  {
    assert sequences[..i + 1][..i] == sequences[..i];
  }

  class Store {
    var now: Instant
    var paused: bool
    var jobs: seq<Job>
    var suppressed: set<string>
    var sequences: seq<Sequence>
    var crm: seq<CrmJob>
    var rates: map<string, RateLimit.Allowance>
    var deliveries: map<string, Delivery>
    var batches: nat

    function Db(): Database
      reads this
    {
      Database(now, paused, jobs, suppressed, sequences, crm, rates, deliveries, batches)
    }

    constructor (now: Instant)
      ensures Db() == Boot(now).db
    {
      this.now, paused, jobs, suppressed, sequences := now, true, [], {}, [];
      crm, rates, deliveries, batches := [], map[], map[], 0;
    }

    // ----- outbound_jobs -----

    method Insert(m: Message, availableAt: Instant) returns (inserted: bool)
      modifies `jobs
      ensures Db() == old(Db()).(jobs := InsertMessage(old(jobs), m, availableAt))
      ensures inserted <==> !Taken(old(jobs), m.location, m.id)
      ensures Promises.MessageGains(old(Db()), Db(), m, availableAt)
    {
      var i := 0;
      while i < |jobs|
        invariant 0 <= i <= |jobs|
        invariant forall j :: 0 <= j < i ==> jobs[j].message.location != m.location || jobs[j].message.id != m.id
      {
        if jobs[i].message.location == m.location && jobs[i].message.id == m.id {
          return false;
        }
        i := i + 1;
      }
      jobs := jobs + [Job(m, New(availableAt), None)];
      inserted := true;
    }

    method Enqueue(m: Message) returns (inserted: bool)
      modifies `jobs
      ensures Db() == old(Db()).(jobs := InsertMessage(old(jobs), m.(enrollment := None), now))
      ensures inserted <==> !Taken(old(jobs), m.location, m.id)
      ensures Promises.MessageGains(old(Db()), Db(), m.(enrollment := None), now)
    {
      inserted := Insert(m.(enrollment := None), now);
    }

    /** UPDATE outbound_jobs SET status='cancelled' ... AND status='queued' */
    method Cancel(number: string)
      modifies `jobs
      ensures Db() == CancelQueued(old(Db()), number)
      ensures Promises.OthersCancelled(old(jobs), jobs, |jobs|, number)
    {
      var i := 0;
      while i < |jobs|
        invariant 0 <= i <= |jobs| == |old(jobs)|
        invariant forall j :: 0 <= j < i ==> jobs[j] == Withdrawal(old(jobs), number)[j]
        invariant forall j :: i <= j < |jobs| ==> jobs[j] == old(jobs)[j]
      {
        if jobs[i].message.to == number && jobs[i].lease.status == Queued {
          jobs := jobs[i := jobs[i].(lease := jobs[i].lease.(status := Cancelled))];
        }
        i := i + 1;
      }
      assert jobs == Withdrawal(old(jobs), number);
    }

    /** Two statements without a transaction: the caller may die between them. */
    method Suppress(number: string, dies: bool)
      modifies `suppressed, `jobs
      ensures dies ==> Db() == AddSuppression(old(Db()), number)
      ensures !dies ==> Db() == CancelQueued(AddSuppression(old(Db()), number), number)
      ensures suppressed == old(suppressed) + {number}
      ensures if dies then jobs == old(jobs) else Promises.OthersCancelled(old(jobs), jobs, |jobs|, number)
    {
      suppressed := suppressed + {number};
      if dies {
        return;
      }
      Cancel(number);
    }

    method IsSuppressed(number: string) returns (b: bool)
      ensures b <==> number in suppressed
    {
      b := number in suppressed;
    }

    method Claim() returns (r: Option<ClaimedJob>)
      modifies `jobs
      ensures var next := FirstEligible(Leases(old(jobs)), now);
        if next.None? then r == None && Db() == old(Db())
        else
          && r == Some(ClaimedJob(next.value, old(jobs)[next.value].message.(contact := ""),
                                  old(jobs)[next.value].lease.attempts + 1))
          && Db() == TakeJob(old(Db()), next.value)
      ensures r.Some? ==>
        var id := r.value.id;
        && Promises.Oldest(Leases(old(jobs)), now, id) && r.value.attempts == old(jobs)[id].lease.attempts + 1
        && r.value.job == old(jobs)[id].message.(contact := "")
        && jobs == old(jobs)[id := old(jobs)[id].(lease := Row(status := Running, attempts := r.value.attempts,
             availableAt := old(jobs)[id].lease.availableAt, lockedUntil := Some(now + 120 * SECOND)))]
    {
      Promises.FirstIsOldest(Leases(jobs), now);
      var next := ScanEligible(Leases(jobs), now);
      if next == None {
        return None;
      }
      var i := next.value;
      var lease := jobs[i].lease;
      jobs := jobs[i := jobs[i].(lease := Row(Running, lease.attempts + 1, lease.availableAt, Some(now + LEASE)))];
      r := Some(ClaimedJob(i, jobs[i].message.(contact := ""), lease.attempts + 1));
    }

    /** One transaction over both tables. An id that is not there matches no row, and an event cannot refer to
        it, so nothing changes. */
    method Complete(id: nat, provider: string)
      modifies `jobs, `deliveries
      ensures Db() == if id < |old(jobs)| then CompleteJob(old(Db()), id, provider) else old(Db())
    {
      if id >= |jobs| {
        return;
      }
      jobs := jobs[id := jobs[id].(provider := Some(provider),
                                   lease := jobs[id].lease.(status := Done, lockedUntil := None))];
      var todo := deliveries.Keys;
      while todo != {}
        modifies `deliveries
        invariant todo <= deliveries.Keys == old(deliveries).Keys
        invariant forall e :: e in todo ==> deliveries[e] == old(deliveries)[e]
        invariant forall e :: e in deliveries && e !in todo ==>
          deliveries[e] == Correlate(old(deliveries), id, provider)[e]
        decreases |todo|
      {
        var e :| e in todo;
        if deliveries[e].provider == provider && deliveries[e].job == None {
          deliveries := deliveries[e := deliveries[e].(job := Some(id))];
        }
        todo := todo - {e};
      }
      assert deliveries == Correlate(old(deliveries), id, provider);
      assert jobs == CompleteJob(old(Db()), id, provider).jobs;
    }

    method Retry(id: nat, delay: int)
      modifies `jobs
      ensures Db() == if id < |old(jobs)| then WriteJob(old(Db()), id, Requeue(delay)) else old(Db())
    {
      if id < |jobs| {
        var lease := jobs[id].lease;
        jobs := jobs[id := jobs[id].(lease := Row(Queued, lease.attempts, now + delay, None))];
      }
    }

    method Fail(id: nat)
      modifies `jobs
      ensures Db() == if id < |old(jobs)| then WriteJob(old(Db()), id, GiveUp) else old(Db())
    {
      if id < |jobs| {
        jobs := jobs[id := jobs[id].(lease := jobs[id].lease.(status := Status.Failed, lockedUntil := None))];
      }
    }

    /** The subquery for job_id fails on two matches, and with it the whole statement. */
    method UpdateDelivery(event: string, provider: string, status: string) returns (inserted: bool)
      modifies `deliveries
      ensures Db() == RecordDelivery(old(Db()), event, provider, status)
      ensures inserted <==> event !in old(deliveries) && !Ambiguous(jobs, provider)
      ensures inserted ==>
        && deliveries.Keys == old(deliveries).Keys + {event}
        && (forall e :: e in old(deliveries) ==> deliveries[e] == old(deliveries)[e])
        && deliveries[event].provider == provider && deliveries[event].status == status
        && (deliveries[event].job.Some? ==> Sent(jobs, deliveries[event].job.value, provider))
        && (deliveries[event].job.None? ==> forall i :: 0 <= i < |jobs| ==> !Sent(jobs, i, provider))
    {
      var job: Option<nat> := None;
      var i := 0;
      while i < |jobs|
        invariant 0 <= i <= |jobs|
        invariant job == JobOf(jobs[..i], provider)
        invariant forall j :: 0 <= j < i && Sent(jobs, j, provider) ==> job == Some(j)
      {
        assert jobs[..i + 1][..i] == jobs[..i];
        if jobs[i].provider == Some(provider) {
          if job != None {
            assert Sent(jobs, job.value, provider) && Sent(jobs, i, provider);
            return false;
          }
          job := Some(i);
        }
        i := i + 1;
      }
      assert jobs[..i] == jobs;
      inserted := event !in deliveries;
      if inserted {
        deliveries := deliveries[event := Delivery(provider, status, job)];
      }
    }

    // ----- crm_jobs -----

    method ClaimCRM() returns (r: Option<ClaimedCrm>)
      modifies `crm
      ensures var next := FirstEligible(CrmLeases(old(crm)), now);
        if next.None? then r == None && Db() == old(Db())
        else
          var j := old(crm)[next.value];
          && r == Some(ClaimedCrm(next.value, j.action, j.body, j.reply, j.lease.attempts + 1))
          && Db() == SetCrmLease(old(Db()), next.value, Claimed(j.lease, now))
    {
      var next := ScanEligible(CrmLeases(crm), now);
      if next == None {
        return None;
      }
      var i := next.value;
      var lease := crm[i].lease;
      crm := crm[i := crm[i].(lease := Row(Running, lease.attempts + 1, lease.availableAt, Some(now + LEASE)))];
      r := Some(ClaimedCrm(i, crm[i].action, crm[i].body, crm[i].reply, lease.attempts + 1));
    }

    method CompleteCRM(id: nat)
      modifies `crm
      ensures Db() == if id < |old(crm)|
        then SetCrmLease(old(Db()), id, Written(old(crm)[id].lease, Finish, now))
        else old(Db())
    {
      if id < |crm| {
        crm := crm[id := crm[id].(lease := crm[id].lease.(status := Done, lockedUntil := None))];
      }
    }

    method RetryCRM(id: nat, delay: int)
      modifies `crm
      ensures Db() == if id < |old(crm)|
        then SetCrmLease(old(Db()), id, Written(old(crm)[id].lease, Requeue(delay), now))
        else old(Db())
    {
      if id < |crm| {
        var lease := crm[id].lease;
        crm := crm[id := crm[id].(lease := Row(Queued, lease.attempts, now + delay, None))];
      }
    }

    method FailCRM(id: nat)
      modifies `crm
      ensures Db() == if id < |old(crm)|
        then SetCrmLease(old(Db()), id, Written(old(crm)[id].lease, GiveUp, now))
        else old(Db())
    {
      if id < |crm| {
        crm := crm[id := crm[id].(lease := crm[id].lease.(status := Status.Failed, lockedUntil := None))];
      }
    }

    // ----- workflow_enrollments -----

    method CreateWorkflowEnrollment(external: string, location: string, from: string, e: Enrollment)
      returns (created: bool)
      modifies `sequences
      ensures Db() == Enroll(old(Db()), external, location, from, e)
      ensures created <==> !Enrolled(old(sequences), location, external)
      ensures created ==> sequences == old(sequences) + [Sequence(external := external, location := location,
        from := from, enrollment := e, lockedUntil := None, lastReply := "")]
    {
      var i := 0;
      while i < |sequences|
        invariant 0 <= i <= |sequences|
        invariant forall j :: 0 <= j < i ==> sequences[j].location != location || sequences[j].external != external
      {
        if sequences[i].location == location && sequences[i].external == external {
          return false;
        }
        i := i + 1;
      }
      sequences := sequences + [Sequence(external, location, from, e, None, "")];
      created := true;
    }

    method ClaimDueWorkflow() returns (r: Option<Record>)
      modifies `sequences
      ensures var next := FirstDue(old(sequences), now);
        if next.None? then r == None && Db() == old(Db())
        else r == Some(Snapshot(old(sequences), next.value)) && Db() == LockSequence(old(Db()), next.value)
      ensures r.Some? ==>
        var id := r.value.id;
        && Promises.FirstInLine(old(sequences), now, id)
        && r.value == Promises.RecordFrom(old(sequences)[id], id)
        && sequences == old(sequences)[id := old(sequences)[id].(lockedUntil := Some(now + 300 * SECOND))]
    {
      Promises.FirstDueIsInLine(sequences, now);
      var next := ScanDue(sequences, now);
      if next == None {
        return None;
      }
      sequences := sequences[next.value := sequences[next.value].(lockedUntil := Some(now + SEQUENCE_LEASE))];
      r := Some(Snapshot(sequences, next.value));
    }

    method ClaimWorkflowsForReply(phone: string, from: string) returns (records: seq<Record>)
      modifies `sequences
      ensures records == ConcernedRecords(old(sequences), phone, from, now)
      ensures Db() == old(Db()).(sequences := LockConcerned(old(sequences), phone, from, now))
      ensures Promises.AnswerableLocked(old(sequences), sequences, phone, from, now)
    {
      ghost var was := sequences;
      records := [];
      var i := 0;
      while i < |sequences|
        invariant 0 <= i <= |was| == |sequences|
        invariant records == ConcernedRecords(was[..i], phone, from, now)
        invariant LockedUpTo(was, sequences, phone, from, now, i)
      {
        NextRecord(was, phone, from, now, i);
        NextLock(was, sequences, phone, from, now, i);
        if Concerned(sequences[i], phone, from, now) {
          sequences := sequences[i := sequences[i].(lockedUntil := Some(now + SEQUENCE_LEASE))];
          records := records + [Snapshot(sequences, i)];
        }
        i := i + 1;
      }
      assert was[..i] == was;
      AllLocked(was, sequences, phone, from, now);
      Promises.ConcernedAreAnswerable(was, phone, from, now);
    }

    method FailWorkflow(id: nat)
      modifies `sequences
      ensures Db() == if id < |old(sequences)| then FailSequence(old(Db()), id) else old(Db())
      ensures id < |old(sequences)| ==> Promises.SequenceFailed(old(sequences), sequences, id)
    {
      if id < |sequences| {
        var q := sequences[id];
        sequences := sequences[id :=
          q.(enrollment := q.enrollment.(state := State.Failed, nextRun := None), lockedUntil := None)];
      }
    }

    method RetryWorkflow(id: nat, delay: int)
      modifies `sequences
      ensures Db() == if id < |old(sequences)| then PostponeSequence(old(Db()), id, delay) else old(Db())
      ensures id < |old(sequences)| ==> Promises.SequencePostponed(old(sequences), sequences, id, now + delay)
    {
      if id < |sequences| {
        var q := sequences[id];
        sequences := sequences[id :=
          q.(enrollment := q.enrollment.(nextRun := Some(now + delay)), lockedUntil := None)];
      }
    }

    /** reserveWorkflowRate: `wall` is the program's own clock. */
    method ReserveWorkflowRate(key: string, requested: Rate, wall: Instant) returns (availableAt: Instant)
      modifies `rates
      ensures var r := ReserveRate(old(Db()), key, requested, wall);
        availableAt == r.at && Db() == old(Db()).(rates := old(rates)[key := r.left])
    {
      var rate := requested;
      if rate.batchSize <= 0 || rate.per <= 0 {
        rate := Rate(1, SECOND);
      }
      if key !in rates {
        rates := rates[key := RateLimit.Allowance(now, rate.batchSize)];
      }
      var next, remaining := rates[key].next, rates[key].remaining;
      if next < wall {
        next := wall;
        remaining := rate.batchSize;
      }
      availableAt := next;
      remaining := remaining - 1;
      if remaining <= 0 {
        next := next + rate.per;
        remaining := rate.batchSize;
      }
      rates := rates[key := RateLimit.Allowance(next, remaining)];
    }

    method InsertCrm(id: nat, action: string, body: string, reply: string)
      modifies `crm
      ensures Db() == if HasCrm(old(crm), id, action) then old(Db())
        else old(Db()).(crm := old(crm) + [CrmJob(id, action, body, reply, New(now), batches)])
    {
      var i := 0;
      while i < |crm|
        invariant 0 <= i <= |crm|
        invariant forall j :: 0 <= j < i ==> crm[j].enrollment != id || crm[j].action != action
      {
        if crm[i].enrollment == id && crm[i].action == action {
          return;
        }
        i := i + 1;
      }
      crm := crm + [CrmJob(id, action, body, reply, New(now), batches)];
    }

    method ExecuteCommand(r: Record, c: Command, reply: string, wall: Instant)
      modifies this
      ensures Db() == RunCommand(old(Db()), r, c, reply, wall)
      ensures Promises.CommandDone(old(Db()), Db(), r, c, reply, wall)
    {
      Promises.RunCommandDoes(Db(), r, c, reply, wall);
      match c {
        case SendSms(body, rate) =>
          var at := ReserveWorkflowRate(r.enrollment.key, rate, wall);
          var _ := Insert(SmsOf(r, body), at);
        case SuppressContact =>
          suppressed := suppressed + {r.enrollment.contact.phone};
          Cancel(r.enrollment.contact.phone);
        case CreateTask(body) => InsertCrm(r.id, ActionName(c), body, reply);
        case CrmAction(_) => InsertCrm(r.id, ActionName(c), "", reply);
        case ArchiveConversation => InsertCrm(r.id, ActionName(c), "", reply);
      }
    }

    /** The commands of a batch in order, undone to `before` when the database fails at number `broken`. */
    method RunBatch(before: Database, r: Record, commands: seq<Command>, reply: string, wall: Instant, broken: nat)
      returns (ok: bool)
      modifies this
      ensures ok <==> broken >= |commands|
      ensures Db() == if ok then RunCommands(old(Db()), r, commands, reply, wall) else before
    {
      ghost var updated := Db();
      var i := 0;
      while i < |commands|
        invariant 0 <= i <= |commands| && i <= broken
        invariant Db() == RunCommands(updated, r, commands[..i], reply, wall)
      {
        if i == broken {
          Rollback(before);
          return false;
        }
        assert commands[..i + 1][..i] == commands[..i];
        ExecuteCommand(r, commands[i], reply, wall);
        i := i + 1;
      }
      assert commands[..i] == commands;
      ok := true;
    }

    /** The transaction: guard, rewrite, commands in order. It is refused when the row is not locked, and rolled
        back when the database fails at command number `broken`; either way nothing has changed. */
    method ApplyWorkflowCommands(r: Record, commands: seq<Command>, reply: string, wall: Instant, broken: nat)
      returns (ok: bool)
      modifies this
      ensures ok <==> Claimable(old(Db()), r) && broken >= |commands|
      ensures Db() == if ok then Apply(old(Db()), r, commands, reply, wall) else old(Db())
      ensures ok ==> Promises.Committed(old(Db()), Db(), r, commands, reply, wall)
    {
      if r.id >= |sequences| || sequences[r.id].lockedUntil == None {
        return false;
      }
      var before := Db();
      sequences := sequences[r.id := Rewritten(sequences[r.id], r, reply)];
      batches := batches + 1;
      ok := RunBatch(before, r, commands, reply, wall, broken);
      Promises.ApplyCommits(before, r, commands, reply, wall);
    }

    method Rollback(before: Database)
      modifies this
      ensures Db() == before
    {
      now, paused, jobs, suppressed := before.now, before.paused, before.jobs, before.suppressed;
      sequences, crm, rates := before.sequences, before.crm, before.rates;
      deliveries, batches := before.deliveries, before.batches;
    }
  }

}
