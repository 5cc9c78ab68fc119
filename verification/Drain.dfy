/** The outbound queue drains: a worker left alone with it, sending unpaused and every write landing, brings
    each job to an end, whatever Telnyx answers. */
module Drain {
  import opened Wrappers
  import opened SendWindow
  import opened Numbers
  import opened LeasedQueue
  import opened Tables
  import opened Machine
  import opened Outbox
  import opened Storage
  import opened Iterations
  import opened Workers

  // ----- Sums over the table -----

  function Sum(ns: seq<nat>): nat { if ns == [] then 0 else ns[0] + Sum(ns[1..]) }

  predicate Below(a: seq<nat>, b: seq<nat>) { |a| == |b| && forall i :: 0 <= i < |a| ==> a[i] <= b[i] }

  lemma {:induction false} SumMonotone(a: seq<nat>, b: seq<nat>)
    requires Below(a, b)
    ensures Sum(a) <= Sum(b)
    ensures (exists i :: 0 <= i < |a| && a[i] < b[i]) ==> Sum(a) < Sum(b)
  {
    if a != [] {
      SumMonotone(a[1..], b[1..]);
      if i :| 0 < i < |a| && a[i] < b[i] {
        assert a[1..][i - 1] < b[1..][i - 1];
      }
    }
  }

  /** What a row still has to go through: nothing once ended, otherwise its attempts to the fifth, at least one. */
  function Weight(r: Row): nat { if Terminal(r) then 0 else AtLeastOne(MAX_ATTEMPTS - r.attempts) }

  function Weights(rows: seq<Row>): (ws: seq<nat>)
    ensures |ws| == |rows| && forall i :: 0 <= i < |rows| ==> ws[i] == Weight(rows[i])
  {
    seq(|rows|, i requires 0 <= i < |rows| => Weight(rows[i]))
  }

  function Potential(rows: seq<Row>): nat { Sum(Weights(rows)) }

  /** How long until a row can be claimed. */
  function Wait(r: Row, now: Instant): nat {
    var wake := if r.status == Queued then r.availableAt else if r.lockedUntil.Some? then r.lockedUntil.value + 1 else now;
    if Terminal(r) || wake <= now then 0 else wake - now
  }

  function Waits(rows: seq<Row>, now: Instant): (ws: seq<nat>)
    ensures |ws| == |rows| && forall i :: 0 <= i < |rows| ==> ws[i] == Wait(rows[i], now)
  {
    seq(|rows|, i requires 0 <= i < |rows| => Wait(rows[i], now))
  }

  /** A row being worked on carries its lease. */
  predicate WellLeased(rows: seq<Row>) {
    forall i :: 0 <= i < |rows| && rows[i].status == Running ==> rows[i].lockedUntil.Some?
  }

  predicate AllEnded(rows: seq<Row>) { forall i :: 0 <= i < |rows| ==> Terminal(rows[i]) }

  // ----- Each iteration makes progress -----

  predicate KeepsShape(db: Database, n: Database) {
    |n.jobs| == |db.jobs| && n.paused == db.paused && n.now == db.now
  }

  lemma WrittenRow(db: Database, i: nat, o: Outcome)
    requires i < |db.jobs|
    ensures var n := WriteJob(db, i, o); KeepsShape(db, n) && n.jobs[i].lease == Written(db.jobs[i].lease, o, db.now)
  {}

  lemma CompletedRow(db: Database, i: nat, provider: string)
    requires i < |db.jobs|
    ensures var n := CompleteJob(db, i, provider);
      KeepsShape(db, n) && n.jobs[i].lease == Written(db.jobs[i].lease, Finish, db.now)
  {}

  lemma CancelledRow(db: Database, i: nat, number: string)
    requires i < |db.jobs|
    ensures var n := CancelQueued(AddSuppression(db, number), number);
      KeepsShape(db, n) && n.jobs[i].lease.attempts == db.jobs[i].lease.attempts
  {}

  /** What is written back to the claimed row ends it, or leaves fewer than five attempts behind it. */
  lemma ResolvedRow(db: Database, i: nat, attempts: nat, from: string, response: Response)
    requires i < |db.jobs|
    ensures var n := Resolved(db, i, attempts, Ok(from), response);
      && KeepsShape(db, n)
      && n.jobs[i].lease.attempts == db.jobs[i].lease.attempts
      && (Terminal(n.jobs[i].lease) || (n.jobs[i].lease.status == Queued && attempts < MAX_ATTEMPTS))
  {
    var next, to := AfterSend(attempts, response), db.jobs[i].message.to;
    if next.WriteBack? {
      WrittenRow(db, i, next.outcome);
      CompletedRow(db, i, next.provider);
    } else {
      CancelledRow(db, i, to);
      WrittenRow(CancelQueued(AddSuppression(db, to), to), i, GiveUp);
    }
  }

  /** The claimed row ends, or goes back with one attempt more and fewer than five. */
  lemma WorkedRow(db: Database, i: nat, response: Response)
    requires i < |db.jobs| && !db.paused && Eligible(db.jobs[i].lease, db.now)
    ensures var n := Worked(db, i, response);
      && |n.jobs| == |db.jobs| && !n.paused && n.now == db.now
      && Weight(n.jobs[i].lease) < Weight(db.jobs[i].lease) && n.jobs[i].lease.status != Running
  {
    ResolvedRow(TakeJob(db, i), i, db.jobs[i].lease.attempts + 1, db.jobs[i].message.from, response);
  }

  /** Every row keeps its message; another row than the claimed one changes only by being cancelled. */
  lemma WorkedOther(db: Database, i: nat, response: Response, j: nat)
    requires i < |db.jobs| && !db.paused && j < |db.jobs|
    ensures var n := Worked(db, i, response);
      && |n.jobs| == |db.jobs| && n.jobs[j].message == db.jobs[j].message
      && (j != i ==> n.jobs[j].lease == db.jobs[j].lease || n.jobs[j].lease == Withdrawn(db.jobs[j].lease))
  {}

  lemma WorkedRows(db: Database, i: nat, response: Response)
    requires i < |db.jobs| && !db.paused && Eligible(db.jobs[i].lease, db.now)
    requires WellLeased(Leases(db.jobs))
    ensures var n := Worked(db, i, response);
      && |n.jobs| == |db.jobs| && !n.paused && n.now == db.now && WellLeased(Leases(n.jobs))
      && forall j :: 0 <= j < |db.jobs| ==> n.jobs[j].message == db.jobs[j].message
  {
    var n := Worked(db, i, response);
    WorkedRow(db, i, response);
    forall j | 0 <= j < |db.jobs|
      ensures n.jobs[j].message == db.jobs[j].message
      ensures n.jobs[j].lease.status == Running ==> n.jobs[j].lease.lockedUntil.Some?
    {
      WorkedOther(db, i, response, j);
      assert Leases(db.jobs)[j] == db.jobs[j].lease;
    }
  }

  /** Every iteration that finds a job strictly lowers what remains to be done. */
  lemma WorkLowersPotential(db: Database, i: nat, response: Response)
    requires i < |db.jobs| && !db.paused && Eligible(db.jobs[i].lease, db.now)
    ensures Potential(Leases(Worked(db, i, response).jobs)) < Potential(Leases(db.jobs))
  {
    var n := Worked(db, i, response);
    var a, b := Weights(Leases(n.jobs)), Weights(Leases(db.jobs));
    WorkedRow(db, i, response);
    forall j | 0 <= j < |db.jobs| ensures a[j] <= b[j] {
      if j != i { WorkedOther(db, i, response, j); }
    }
    SumMonotone(a, b);
  }

  /** Every iteration that finds none brings some job closer to its time. */
  lemma SleepShortensWait(rows: seq<Row>, now: Instant, later: Instant)
    requires now < later && WellLeased(rows) && !AllEnded(rows)
    requires forall i :: 0 <= i < |rows| ==> !Eligible(rows[i], now)
    ensures Sum(Waits(rows, later)) < Sum(Waits(rows, now))
  {
    var i :| 0 <= i < |rows| && !Terminal(rows[i]);
    assert Waits(rows, later)[i] < Waits(rows, now)[i];
    SumMonotone(Waits(rows, later), Waits(rows, now));
  }

  /** Still the same messages, unpaused, and every row being sent with its lease. */
  predicate Draining(start: seq<Job>, db: Database) {
    && !db.paused && WellLeased(Leases(db.jobs)) && |db.jobs| == |start|
    && forall j :: 0 <= j < |start| ==> db.jobs[j].message == start[j].message
  }

  lemma WorkKeepsDraining(start: seq<Job>, db: Database, i: nat, response: Response)
    requires Draining(start, db) && i < |db.jobs| && Eligible(db.jobs[i].lease, db.now)
    ensures Draining(start, Worked(db, i, response))
    ensures Potential(Leases(Worked(db, i, response).jobs)) < Potential(Leases(db.jobs))
  {
    WorkedRows(db, i, response);
    WorkLowersPotential(db, i, response);
  }

  /** RunWorker alone with the queue; `nap` is how long it sleeps when it finds nothing. */
  method RunUntilDrained(store: Store, nap: nat) returns (iterations: nat)
    requires nap > 0 && !store.paused && WellLeased(Leases(store.jobs))
    modifies store
    ensures AllEnded(Leases(store.jobs))
    ensures iterations <= Potential(Leases(old(store.jobs)))
    ensures |store.jobs| == |old(store.jobs)|
    ensures forall j :: 0 <= j < |store.jobs| ==> store.jobs[j].message == old(store.jobs)[j].message
  {
    ghost var start := store.jobs;
    iterations := 0;
    while !AllEnded(Leases(store.jobs))
      invariant Draining(start, store.Db())
      invariant iterations + Potential(Leases(store.jobs)) <= Potential(Leases(start))
      decreases Potential(Leases(store.jobs)), Sum(Waits(Leases(store.jobs), store.now))
    {
      var response: Response := *;
      var lookup: Lookup := *;
      ghost var db := store.Db();
      var worked := RunWorkerOnce(store, response, lookup);
      if worked {
        WorkKeepsDraining(start, db, FirstEligible(Leases(db.jobs), db.now).value, response);
        assert store.jobs == store.Db().jobs;
        iterations := iterations + 1;
      } else {
        assert store.jobs == store.Db().jobs && store.now == store.Db().now;
        SleepShortensWait(Leases(store.jobs), store.now, store.now + nap);
        store.now := store.now + nap;
      }
    }
  }

  // ----- The tables a run can reach are of that kind -----

  lemma NextKeepsWellLeased(q: Queue, e: Event)
    requires WellLeased(q.rows)
    ensures WellLeased(Next(q, e).rows)
  {}

  lemma {:induction false} TraceKeepsWellLeased(q: Queue, es: seq<Event>)
    requires WellLeased(q.rows)
    ensures WellLeased(Trace(q, es).rows)
    decreases |es|
  {
    if es != [] {
      NextKeepsWellLeased(q, es[0]);
      TraceKeepsWellLeased(Next(q, es[0]), es[1..]);
    }
  }

  /** So it is of every table of outbound jobs that the system can reach. */
  lemma ReachableIsWellLeased(w: Workflows, now: Instant, actions: seq<Action>)
    ensures WellLeased(Leases(Execution(w, Boot(now), actions).db.jobs))
  {
    RunRefines(w, Boot(now), actions);
    TraceKeepsWellLeased(Outgoing(Boot(now)), RunEvents(w, Boot(now), actions));
  }

  // ----- What a pause costs -----

  function Spent(lease: Row, now: Instant): Row { Row(Queued, lease.attempts + 1, now + SECOND, None) }

  /** In any state of the system with sending paused, an idle worker's iteration spends one attempt of the job it
      finds and puts it off by a second; nothing else of the system changes. */
  lemma PausedIteration(w: Workflows, s: System, p: Pid, i: nat, lookup: Lookup) returns (actions: seq<Action>)
    requires p !in s.senders && p !in s.held && s.db.paused
    requires FirstEligible(Leases(s.db.jobs), s.db.now) == Some(i)
    ensures Execution(w, s, actions) ==
      s.(db := s.db.(jobs := SetLease(s.db.jobs, i, Spent(s.db.jobs[i].lease, s.db.now))))
  {
    actions := IterationIsRun(w, s, p, i, Unreachable, lookup);
    assert Worked(s.db, i, Unreachable).jobs == SetLease(s.db.jobs, i, Spent(s.db.jobs[i].lease, s.db.now));
  }

  /** A new job after k such iterations, a second apart. */
  function PausedAt(now: Instant, m: Message, k: nat): System {
    var later := now + k * SECOND;
    Boot(now).(db := Boot(now).db.(now := later,
      jobs := [Job(m.(enrollment := None), Row(Queued, k, later, None), None)]))
  }

  lemma OnlyJobIsFirst(job: Job, now: Instant)
    requires job.lease.status == Queued && job.lease.availableAt <= now
    ensures FirstEligible(Leases([job]), now) == Some(0)
  {
    assert Leases([job]) == [job.lease];
    assert Leases([job])[..0] == [];
  }

  lemma EnqueuedPaused(w: Workflows, now: Instant, m: Message)
    ensures Execution(w, Boot(now), [Enqueue(m)]) == PausedAt(now, m, 0)
  {
    ExecutionOne(w, Boot(now), Enqueue(m));
    assert [] + [Job(m.(enrollment := None), New(now), None)] == PausedAt(now, m, 0).db.jobs;
  }

  lemma NextPause(w: Workflows, now: Instant, m: Message, k: nat) returns (actions: seq<Action>)
    ensures Execution(w, PausedAt(now, m, k), actions) == PausedAt(now, m, k + 1)
  {
    var s := PausedAt(now, m, k);
    OnlyJobIsFirst(s.db.jobs[0], s.db.now);
    var spent := PausedIteration(w, s, 0, 0, Lookup(Result.Err(()), Result.Err(())));
    var t := Execution(w, s, spent);
    ExecutionSnoc(w, s, spent, Tick(SECOND));
    TickPasses(w, t, SECOND);
    actions := spent + [Tick(SECOND)];
    assert t.db.jobs == [s.db.jobs[0].(lease := Spent(s.db.jobs[0].lease, s.db.now))];
  }

  lemma TickPasses(w: Workflows, s: System, d: nat)
    ensures Step(w, s, Tick(d)) == s.(db := s.db.(now := s.db.now + d))
  {}

  /** For every message and every k: a run from the empty system, paused as it boots, claims the message k times
      and has spent k attempts on it. */
  lemma {:induction false} PausesSpendAttempts(w: Workflows, now: Instant, m: Message, k: nat)
    returns (actions: seq<Action>)
    ensures Execution(w, Boot(now), actions) == PausedAt(now, m, k)
  {
    if k == 0 {
      actions := [Enqueue(m)];
      EnqueuedPaused(w, now, m);
    } else {
      var before := PausesSpendAttempts(w, now, m, k - 1);
      var next := NextPause(w, now, m, k - 1);
      ExecutionConcat(w, Boot(now), before, next);
      actions := before + next;
    }
  }

  /** Resuming, and a first submission that finds Telnyx out of reach. */
  lemma Resumed(w: Workflows, now: Instant, m: Message, k: nat) returns (actions: seq<Action>)
    ensures var t := Execution(w, PausedAt(now, m, k), actions);
      |t.db.jobs| == 1 && t.db.jobs[0].lease.status == (if k < 4 then Queued else Status.Failed)
  {
    var s := PausedAt(now, m, k);
    var t := Step(w, s, SetPaused(false));
    assert t == s.(db := s.db.(paused := false));
    OnlyJobIsFirst(t.db.jobs[0], t.db.now);
    var rest := IterationIsRun(w, t, 0, 0, Unreachable, Lookup(Result.Err(()), Result.Err(())));
    PrependStep(w, s, SetPaused(false), rest);
    actions := [SetPaused(false)] + rest;
    FirstFailure(t.db);
  }

  lemma FirstFailure(db: Database)
    requires |db.jobs| == 1 && !db.paused && db.suppressed == {} && db.jobs[0].lease.status == Queued
    ensures var job := Worked(db, 0, Unreachable).jobs[0];
      job.lease.status == if db.jobs[0].lease.attempts < 4 then Queued else Status.Failed
  {}

  /** After k paused claims the first transient failure is final exactly when k is at least four. */
  lemma PausedJobHasOneChance(w: Workflows, now: Instant, m: Message, k: nat)
    returns (paused: seq<Action>, resumed: seq<Action>)
    ensures Execution(w, Boot(now), paused) == PausedAt(now, m, k)
    ensures var t := Execution(w, Execution(w, Boot(now), paused), resumed);
      |t.db.jobs| == 1 && (t.db.jobs[0].lease.status == Status.Failed <==> k >= 4)
  {
    paused := PausesSpendAttempts(w, now, m, k);
    resumed := Resumed(w, now, m, k);
  }

}
