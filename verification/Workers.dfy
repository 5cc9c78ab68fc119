/** The worker loops as they run: one iteration of each (internal/app/app.go, internal/app/workflows.go), over
    the store, calling the provider for answers that may be anything. */
module Workers {
  import opened Wrappers
  import opened SendWindow
  import opened Numbers
  import opened Template
  import opened Engine
  import opened LeasedQueue
  import opened Tables
  import opened Machine
  import opened Storage

  // ----- RunWorker -----

  /** The rest of the iteration, once the sending number is known or is not to be had. */
  function Resolved(
    db: Database, i: nat, attempts: nat, from: Result<string, ResolveError>, response: Response): Database
    requires i < |db.jobs|
  {
    var to := db.jobs[i].message.to;
    if from.Err? then
      WriteJob(db, i, if from.error == ResolveError.Refused(UnknownSendingNumber) then GiveUp else SHORT_DELAY)
    else match AfterSend(attempts, response)
      case WriteBack(Finish, provider) => CompleteJob(db, i, provider)
      case WriteBack(outcome, _) => WriteJob(db, i, outcome)
      case _ => WriteJob(CancelQueued(AddSuppression(db, to), to), i, GiveUp)
  }

  /** The tables after a worker that holds job i has checked the list and handled it. */
  function Checked(db: Database, i: nat, attempts: nat, response: Response): Database
    requires i < |db.jobs|
  {
    if db.jobs[i].message.to in db.suppressed then WriteJob(db, i, GiveUp)
    else Resolved(db, i, attempts, Ok(db.jobs[i].message.from), response)
  }

  /** The tables after job i has been claimed and handled, given the provider's answer. */
  function Worked(db: Database, i: nat, response: Response): Database
    requires i < |db.jobs|
  {
    var claimed, job := TakeJob(db, i), db.jobs[i];
    if db.paused then WriteJob(claimed, i, SHORT_DELAY)
    else Checked(claimed, i, job.lease.attempts + 1, response)
  }

  // ----- What that comes to, by status, code and columns -----

  lemma Delays()
    ensures forall k :: 0 <= k < 4 ==> Backoff(k + 1) == Promises.DELAYS[k] * SECOND
  {
    assert Power2(0) == 1 && Power2(1) == 2 && Power2(2) == 4 && Power2(3) == 8 && Power2(4) == 16;
    forall k | 0 <= k < 4 ensures Backoff(k + 1) == Promises.DELAYS[k] * SECOND {
      assert k == 0 || k == 1 || k == 2 || k == 3;
    }
  }

  /** A job that is neither paused nor suppressed. */
  lemma AnsweredIsHandled(db: Database, i: nat, response: Response)
    requires i < |db.jobs| && !db.paused && db.jobs[i].message.to !in db.suppressed
    ensures Promises.JobHandled(db, Worked(db, i, response), i, response)
  {
    Delays();
    if response.Accepted? {
      AcceptedIsHandled(db, i, response.provider);
    } else if response.Refused? && response.code == "40300" {
      RefusedIsHandled(db, i, response);
    }
  }

  lemma AcceptedIsHandled(db: Database, i: nat, provider: string)
    requires i < |db.jobs| && !db.paused && db.jobs[i].message.to !in db.suppressed
    ensures Promises.JobHandled(db, Worked(db, i, Accepted(provider)), i, Accepted(provider))
  {
    assert Worked(db, i, Accepted(provider)) == CompleteJob(TakeJob(db, i), i, provider);
  }

  lemma RefusedIsHandled(db: Database, i: nat, response: Response)
    requires i < |db.jobs| && !db.paused && db.jobs[i].message.to !in db.suppressed
    requires response.Refused? && response.code == "40300"
    ensures Promises.JobHandled(db, Worked(db, i, response), i, response)
  {
    var to := db.jobs[i].message.to;
    assert Worked(db, i, response) == WriteJob(CancelQueued(AddSuppression(TakeJob(db, i), to), to), i, GiveUp);
  }

  lemma WorkedIsHandled(db: Database, i: nat, response: Response)
    requires i < |db.jobs|
    ensures Promises.JobHandled(db, Worked(db, i, response), i, response)
  {
    if !db.paused && db.jobs[i].message.to !in db.suppressed {
      AnsweredIsHandled(db, i, response);
    }
  }

  method HandleResolved(
    store: Store, id: nat, to: string, attempts: nat, from: Result<string, ResolveError>, response: Response)
    requires id < |store.jobs| && store.jobs[id].message.to == to
    modifies store
    ensures store.Db() == Resolved(old(store.Db()), id, attempts, from, response)
  {
    if from.Err? {
      if from.error == ResolveError.Refused(UnknownSendingNumber) {
        store.Fail(id);
      } else {
        store.Retry(id, SECOND);
      }
      return;
    }
    if response.Accepted? {
      store.Complete(id, response.provider);
      return;
    }
    if response.Refused? {
      var kind := ClassifyProviderError(response.status, response.code);
      if kind == RetrySuppression {
        store.Suppress(to, false);
        store.Fail(id);
        return;
      } else if kind == RetryPermanent {
        store.Fail(id);
        return;
      }
    }
    if attempts < MAX_ATTEMPTS {
      store.Retry(id, Backoff(attempts));
    } else {
      store.Fail(id);
    }
  }

  lemma FirstIsHandled(db: Database, response: Response)
    ensures var next := FirstEligible(Leases(db.jobs), db.now);
      && (next.Some? <==> exists i :: Promises.Oldest(Leases(db.jobs), db.now, i))
      && (next.Some? ==>
            && Promises.Oldest(Leases(db.jobs), db.now, next.value)
            && Promises.JobHandled(db, Worked(db, next.value, response), next.value, response))
  {
    var next := FirstEligible(Leases(db.jobs), db.now);
    Promises.FirstIsOldest(Leases(db.jobs), db.now);
    if next.Some? {
      WorkedIsHandled(db, next.value, response);
    }
  }

  /** The claim does not return the contact id, so the number is always the job's own. */
  method RunWorkerOnce(store: Store, response: Response, lookup: Lookup) returns (worked: bool)
    modifies store
    ensures var next := FirstEligible(Leases(old(store.jobs)), old(store.now));
      && (worked <==> next.Some?)
      && store.Db() == if next.None? then old(store.Db()) else Worked(old(store.Db()), next.value, response)
    ensures !worked ==> store.Db() == old(store.Db())
    ensures worked <==> exists i :: Promises.Oldest(Leases(old(store.jobs)), old(store.now), i)
    ensures worked ==> exists i ::
      && Promises.Oldest(Leases(old(store.jobs)), old(store.now), i)
      && Promises.JobHandled(old(store.Db()), store.Db(), i, response)
  {
    FirstIsHandled(store.Db(), response);
    var claimed := store.Claim();
    if claimed == None {
      return false;
    }
    worked := true;
    var ClaimedJob(id, job, attempts) := claimed.value;
    if store.paused {
      store.Retry(id, SECOND);
      return;
    }
    var suppressed := store.IsSuppressed(job.to);
    if suppressed {
      store.Fail(id);
      return;
    }
    var from := ResolveSendingNumber(job.contact, job.from, lookup);
    HandleResolved(store, id, job.to, attempts, from, response);
  }

  // ----- RunCRMWorker -----

  /** The tables after CRM job i has been claimed and handled, given whether HighLevel took it. */
  function CrmWorked(db: Database, i: nat, ok: bool): Database
    requires i < |db.crm|
  {
    var lease := Claimed(db.crm[i].lease, db.now);
    SetCrmLease(db, i, Written(lease, AfterExecute(lease.attempts, ok), db.now))
  }

  lemma CrmWorkedIsHandled(db: Database, i: nat, ok: bool)
    requires i < |db.crm|
    ensures Promises.CrmHandled(db, CrmWorked(db, i, ok), i, ok)
  {
    Delays();
  }

  lemma FirstCrmIsHandled(db: Database, ok: bool)
    ensures var next := FirstEligible(CrmLeases(db.crm), db.now);
      && (next.Some? <==> exists i :: Promises.Oldest(CrmLeases(db.crm), db.now, i))
      && (next.Some? ==>
            && Promises.Oldest(CrmLeases(db.crm), db.now, next.value)
            && Promises.CrmHandled(db, CrmWorked(db, next.value, ok), next.value, ok))
  {
    var next := FirstEligible(CrmLeases(db.crm), db.now);
    Promises.FirstIsOldest(CrmLeases(db.crm), db.now);
    if next.Some? {
      CrmWorkedIsHandled(db, next.value, ok);
    }
  }

  method RunCRMWorkerOnce(store: Store, ok: bool) returns (worked: bool)
    modifies store
    ensures var db := old(store.Db());
      var next := FirstEligible(CrmLeases(db.crm), db.now);
      && (worked <==> next.Some?)
      && store.Db() == if next.None? then db else CrmWorked(db, next.value, ok)
    ensures !worked ==> store.Db() == old(store.Db())
    ensures worked <==> exists i :: Promises.Oldest(CrmLeases(old(store.crm)), old(store.now), i)
    ensures worked ==> exists i ::
      && Promises.Oldest(CrmLeases(old(store.crm)), old(store.now), i)
      && Promises.CrmHandled(old(store.Db()), store.Db(), i, ok)
  {
    FirstCrmIsHandled(store.Db(), ok);
    ghost var was := store.crm;
    var claimed := store.ClaimCRM();
    if claimed == None {
      return false;
    }
    worked := true;
    var ClaimedCrm(id, _, _, _, attempts) := claimed.value;
    if ok {
      store.CompleteCRM(id);
    } else if attempts < MAX_ATTEMPTS {
      store.RetryCRM(id, Backoff(attempts));
    } else {
      store.FailCRM(id);
    }
    assert store.crm == was[id := store.crm[id]];
  }

  // ----- RunWorkflowWorker -----

  /** How the transaction of the batch ends when the database fails at command number `broken`. */
  function FateOf(w: Workflows, r: Record, broken: nat, wall: Instant, bs: Bindings): Fate {
    if !Configured(w, r.enrollment.key) then Succeeds
    else
      var result := Advanced(w[r.enrollment.key], r.enrollment, wall, bs).result;
      if result.Ok? && broken < |result.value| then Aborts else Succeeds
  }

  /** One claimed record: the transaction, and the write that follows when it could not be made. */
  function Handled(w: Workflows, db: Database, r: Record, broken: nat, wall: Instant, bs: Bindings): Database {
    var fate := FateOf(w, r, broken, wall, bs);
    var after, next := AdvancerEffect(w, db, Ready(r), fate, wall, bs), AdvancerNext(w, db, Ready(r), fate, wall, bs);
    if next.None? then after else AdvancerEffect(w, after, next.value, Succeeds, wall, bs)
  }

  /** The same by columns. */
  lemma HandledIsPromised(w: Workflows, db: Database, i: nat, broken: nat, wall: Instant, bs: Bindings)
    requires i < |db.sequences|
    ensures Promises.SequenceHandled(
      w, db, Handled(w, LockSequence(db, i), Snapshot(db.sequences, i), broken, wall, bs), i, broken, wall, bs)
  {
    var locked, r := LockSequence(db, i), Snapshot(db.sequences, i);
    if Configured(w, r.enrollment.key) {
      var o := Advanced(w[r.enrollment.key], r.enrollment, wall, bs);
      if o.result.Ok? && broken >= |o.result.value| {
        Promises.ApplyCommits(locked, r.(enrollment := o.enrollment), o.result.value, "", wall);
      }
    }
  }

  /** Some order of the variables accounts for what has become of record r. */
  ghost predicate HandledSomehow(
    w: Workflows, db: Database, n: Database, r: Record, broken: nat, wall: Instant)
  {
    exists bs :: Ranges(bs, r.enrollment.contact.variables) && n == Handled(w, db, r, broken, wall, bs)
  }

  /** The branches after the claim. */
  method HandleRecord(w: Workflows, store: Store, record: Record, wall: Instant, broken: nat)
    requires record.id < |store.sequences|
    modifies store
    ensures HandledSomehow(w, old(store.Db()), store.Db(), record, broken, wall)
  {
    ghost var db := store.Db();
    ghost var bs := SomeOrder(record.enrollment.contact.variables);
    if record.enrollment.key !in w || !w[record.enrollment.key].enabled {
      store.RetryWorkflow(record.id, 60 * MINUTE);
      assert store.Db() == Handled(w, db, record, broken, wall, bs);
      return;
    }
    var definition := w[record.enrollment.key];
    var live := new LiveEnrollment(record.enrollment);
    var commands := Advance(definition, live, wall);
    bs :| Ranges(bs, record.enrollment.contact.variables) &&
      Progress(live.Value(), commands) == Advanced(definition, record.enrollment, wall, bs);
    if commands.Err? {
      store.FailWorkflow(record.id);
      assert store.Db() == Handled(w, db, record, broken, wall, bs);
      return;
    }
    var ok := store.ApplyWorkflowCommands(record.(enrollment := live.Value()), commands.value, "", wall, broken);
    if !ok {
      store.RetryWorkflow(record.id, MINUTE);
    }
    assert store.Db() == Handled(w, db, record, broken, wall, bs);
  }

  ghost predicate PromisedSomehow(w: Workflows, db: Database, n: Database, i: nat, broken: nat, wall: Instant) {
    i < |db.sequences| && exists bs ::
      Ranges(bs, db.sequences[i].enrollment.contact.variables) &&
      Promises.SequenceHandled(w, db, n, i, broken, wall, bs)
  }

  lemma SomehowIsPromised(w: Workflows, db: Database, n: Database, i: nat, broken: nat, wall: Instant)
    requires i < |db.sequences|
    requires HandledSomehow(w, LockSequence(db, i), n, Snapshot(db.sequences, i), broken, wall)
    ensures PromisedSomehow(w, db, n, i, broken, wall)
  {
    var bs :| Ranges(bs, db.sequences[i].enrollment.contact.variables) &&
      n == Handled(w, LockSequence(db, i), Snapshot(db.sequences, i), broken, wall, bs);
    HandledIsPromised(w, db, i, broken, wall, bs);
  }

  method RunWorkflowWorkerOnce(w: Workflows, store: Store, wall: Instant, broken: nat) returns (worked: bool)
    modifies store
    ensures var db := old(store.Db());
      var next := FirstDue(db.sequences, db.now);
      && (worked <==> next.Some?)
      && (next.None? ==> store.Db() == db)
      && (next.Some? ==>
            HandledSomehow(w, LockSequence(db, next.value), store.Db(), Snapshot(db.sequences, next.value), broken, wall))
    ensures worked <==> exists i :: Promises.FirstInLine(old(store.sequences), old(store.now), i)
    ensures worked ==> exists i: nat ::
      && Promises.FirstInLine(old(store.sequences), old(store.now), i)
      && PromisedSomehow(w, old(store.Db()), store.Db(), i, broken, wall)
  {
    ghost var db := store.Db();
    Promises.FirstDueIsInLine(store.sequences, store.now);
    var claimed := store.ClaimDueWorkflow();
    if claimed == None {
      return false;
    }
    worked := true;
    HandleRecord(w, store, claimed.value, wall, broken);
    SomehowIsPromised(w, db, store.Db(), claimed.value.id, broken, wall);
  }

}
