/** Delivery webhooks and completed jobs find each other, whichever is recorded first. */
module Deliveries {
  import opened Wrappers
  import opened SendWindow
  import opened Numbers
  import opened Template
  import opened Engine
  import opened LeasedQueue
  import opened Tables
  import opened Machine
  import opened Frames
  import opened Outbox
  import opened OutboxRuns

  /** The part of the tables that correlation reads and writes. */
  datatype Ledger = Ledger(providers: seq<Option<string>>, deliveries: map<string, Delivery>)

  function Providers(jobs: seq<Job>): (r: seq<Option<string>>)
    ensures |r| == |jobs| && forall i :: 0 <= i < |jobs| ==> r[i] == jobs[i].provider
  {
    seq(|jobs|, i requires 0 <= i < |jobs| => jobs[i].provider)
  }

  function Book(db: Database): Ledger { Ledger(Providers(db.jobs), db.deliveries) }

  // ----- The hypothesis: Telnyx never gives two jobs one message id -----

  /** The job each provider id was given to. */
  type Owner = string -> nat

  predicate AnswersOwned(owner: Owner, s: System, a: Action) {
    a.SenderStep? && Steps(s, a.p) && s.senders[a.p].pc.Submit? && a.response.Accepted? ==>
      owner(a.response.provider) == s.held[a.p].row
  }

  predicate OwnedRun(owner: Owner, w: Workflows, s: System, actions: seq<Action>)
    decreases |actions|
  {
    actions == [] || (AnswersOwned(owner, s, actions[0]) && OwnedRun(owner, w, Step(w, s, actions[0]), actions[1..]))
  }

  // ----- The invariant -----

  ghost predicate Owned(owner: Owner, b: Ledger) {
    && (forall j :: 0 <= j < |b.providers| && b.providers[j].Some? ==> owner(b.providers[j].value) == j)
    && (forall e :: e in b.deliveries && b.deliveries[e].job.Some? ==>
          owner(b.deliveries[e].provider) == b.deliveries[e].job.value)
  }

  /** Every event of a completed job's provider id carries that job. */
  ghost predicate Matched(b: Ledger) {
    forall e, j :: e in b.deliveries && 0 <= j < |b.providers| && b.providers[j] == Some(b.deliveries[e].provider) ==>
      b.deliveries[e].job == Some(j)
  }

  predicate CarriesOwn(owner: Owner, t: Sender, ticket: Ticket) {
    t.pc.WriteBack? && t.pc.outcome == Finish ==> owner(t.pc.provider) == ticket.row
  }

  ghost predicate Correlated(owner: Owner, s: System) {
    && Owned(owner, Book(s.db)) && Matched(Book(s.db))
    && (forall p :: p in s.senders && p in s.held ==> CarriesOwn(owner, s.senders[p], s.held[p]))
  }

  lemma SentIsOwned(owner: Owner, db: Database, i: nat, provider: string)
    requires Owned(owner, Book(db)) && Sent(db.jobs, i, provider)
    ensures owner(provider) == i
  {
    assert Providers(db.jobs)[i] == Some(provider);
  }

  /** With one owner per id the correlating subquery is never ambiguous. */
  lemma NeverAmbiguous(owner: Owner, db: Database, provider: string)
    requires Owned(owner, Book(db))
    ensures !Ambiguous(db.jobs, provider)
  {
    forall i: nat | Sent(db.jobs, i, provider) ensures i == owner(provider) {
      SentIsOwned(owner, db, i, provider);
    }
  }

  // ----- Each statement keeps it -----

  lemma CompleteKeepsCorrelated(owner: Owner, db: Database, i: nat, provider: string)
    requires Owned(owner, Book(db)) && Matched(Book(db)) && i < |db.jobs| && owner(provider) == i
    ensures Owned(owner, Book(CompleteJob(db, i, provider))) && Matched(Book(CompleteJob(db, i, provider)))
  {
    var b, n := Book(db), Book(CompleteJob(db, i, provider));
    assert n.providers == b.providers[i := Some(provider)];
    assert n.deliveries == Correlate(db.deliveries, i, provider);
    forall e, j | e in n.deliveries && 0 <= j < |n.providers| && n.providers[j] == Some(n.deliveries[e].provider)
      ensures n.deliveries[e].job == Some(j)
    {
      assert e in b.deliveries && b.deliveries[e].provider == n.deliveries[e].provider;
      assert owner(n.deliveries[e].provider) == j;
    }
  }

  lemma WebhookKeepsCorrelated(owner: Owner, db: Database, event: string, provider: string, status: string)
    requires Owned(owner, Book(db)) && Matched(Book(db))
    ensures var n := Book(RecordDelivery(db, event, provider, status)); Owned(owner, n) && Matched(n)
  {
    NeverAmbiguous(owner, db, provider);
    var b := Book(db);
    var n := Book(RecordDelivery(db, event, provider, status));
    if event !in db.deliveries {
      var job := JobOf(db.jobs, provider);
      assert n.deliveries == b.deliveries[event := Delivery(provider, status, job)] && n.providers == b.providers;
      assert job.Some? ==> b.providers[job.value] == Some(provider);
      forall j | 0 <= j < |n.providers| && n.providers[j] == Some(provider) ensures job == Some(j) {
        assert Sent(db.jobs, j, provider);
      }
    }
  }

  /** The two writes commute: webhook first or completion first, the tables end the same. */
  lemma OrderDoesNotMatter(owner: Owner, db: Database, i: nat, event: string, provider: string, status: string)
    requires Owned(owner, Book(db)) && i < |db.jobs| && owner(provider) == i
    ensures CompleteJob(RecordDelivery(db, event, provider, status), i, provider) ==
      RecordDelivery(CompleteJob(db, i, provider), event, provider, status)
  {
    NeverAmbiguous(owner, db, provider);
    OnlyJobAfter(owner, db, i, provider);
    if event !in db.deliveries {
      var job := JobOf(db.jobs, provider);
      OnlyJobBefore(owner, db, i, provider);
      assert Correlate(db.deliveries[event := Delivery(provider, status, job)], i, provider) ==
        Correlate(db.deliveries, i, provider)[event := Delivery(provider, status, Some(i))];
    }
  }

  lemma OnlyJobBefore(owner: Owner, db: Database, i: nat, provider: string)
    requires Owned(owner, Book(db)) && owner(provider) == i
    ensures JobOf(db.jobs, provider).Some? ==> JobOf(db.jobs, provider) == Some(i)
  {
    var job := JobOf(db.jobs, provider);
    if job.Some? { SentIsOwned(owner, db, job.value, provider); }
  }

  /** Once it is completed, the job is the only one with its provider id. */
  lemma OnlyJobAfter(owner: Owner, db: Database, i: nat, provider: string)
    requires Owned(owner, Book(db)) && i < |db.jobs| && owner(provider) == i
    ensures var done := CompleteJob(db, i, provider);
      !Ambiguous(done.jobs, provider) && JobOf(done.jobs, provider) == Some(i)
  {
    var done := CompleteJob(db, i, provider);
    assert forall j :: 0 <= j < |done.jobs| && j != i ==> done.jobs[j] == db.jobs[j];
    forall j: nat | Sent(done.jobs, j, provider) ensures j == i {
      if j != i { SentIsOwned(owner, db, j, provider); }
    }
    assert Sent(done.jobs, i, provider);
  }

  // ----- Rows not yet sent may be added -----

  predicate AddsUnsent(b: Ledger, n: Ledger) {
    && n.deliveries == b.deliveries
    && b.providers <= n.providers
    && forall j :: |b.providers| <= j < |n.providers| ==> n.providers[j] == None
  }

  lemma AddingKeepsCorrelated(owner: Owner, b: Ledger, n: Ledger)
    requires Owned(owner, b) && Matched(b) && AddsUnsent(b, n)
    ensures Owned(owner, n) && Matched(n)
  {}

  lemma {:induction false} CommandsAddUnsent(db: Database, r: Record, cs: seq<Command>, reply: string, wall: Instant)
    ensures AddsUnsent(Book(db), Book(RunCommands(db, r, cs, reply, wall)))
    decreases |cs|
  {
    if cs != [] {
      var n := |cs| - 1;
      CommandsAddUnsent(db, r, cs[..n], reply, wall);
      CommandAddsUnsent(RunCommands(db, r, cs[..n], reply, wall), r, cs[n], reply, wall);
    }
  }

  lemma CommandAddsUnsent(db: Database, r: Record, c: Command, reply: string, wall: Instant)
    ensures AddsUnsent(Book(db), Book(RunCommand(db, r, c, reply, wall)))
  {}

  lemma ApplyAddsUnsent(db: Database, r: Record, cs: seq<Command>, reply: string, fate: Fate, wall: Instant)
    ensures AddsUnsent(Book(db), Book(TryApply(db, r, cs, reply, fate, wall)))
  {
    if fate.Lands() && Claimable(db, r) {
      CommandsAddUnsent(
        db.(sequences := db.sequences[r.id := Rewritten(db.sequences[r.id], r, reply)], batches := db.batches + 1),
        r, cs, reply, wall);
    }
  }

  lemma AdvancerAddsUnsent(w: Workflows, db: Database, t: Advancer, fate: Fate, wall: Instant, bs: Bindings)
    ensures AddsUnsent(Book(db), Book(AdvancerEffect(w, db, t, fate, wall, bs)))
  {
    if t.Ready? && Configured(w, t.record.enrollment.key) {
      var a := Advanced(w[t.record.enrollment.key], t.record.enrollment, wall, bs);
      if a.result.Ok? {
        ApplyAddsUnsent(db, t.record.(enrollment := a.enrollment), a.result.value, "", fate, wall);
      }
    }
  }

  lemma ReplierAddsUnsent(w: Workflows, db: Database, t: Replier, fate: Fate, wall: Instant)
    ensures AddsUnsent(Book(db), Book(ReplierEffect(w, db, t, fate, wall)))
  {
    if t.records != [] && t.records[0].enrollment.key in w {
      var x := Replied(w[t.records[0].enrollment.key], t.records[0].enrollment, t.text);
      ApplyAddsUnsent(db, t.records[0].(enrollment := x.enrollment), x.commands, t.text, fate, wall);
    }
  }

  lemma ClaimAddsUnsent(s: System, p: Pid, fate: Fate)
    ensures AddsUnsent(Book(s.db), Book(ClaimJob(s, p, fate).db))
  {}

  lemma EnqueueAddsUnsent(w: Workflows, s: System, m: Message)
    ensures AddsUnsent(Book(s.db), Book(Step(w, s, Enqueue(m)).db))
  {
    StepFrame(w, s, Enqueue(m));
  }

  lemma CancelAddsUnsent(w: Workflows, s: System, p: Pid, lands: bool)
    ensures AddsUnsent(Book(s.db), Book(Step(w, s, EndSuppress(p, lands)).db))
  {
    StepFrame(w, s, EndSuppress(p, lands));
  }

  lemma OthersKeepBook(w: Workflows, s: System, a: Action)
    requires !a.Webhook? && !WritesJobs(a)
    ensures Step(w, s, a).db.jobs == s.db.jobs && Step(w, s, a).db.deliveries == s.db.deliveries
  {
    StepFrame(w, s, a);
    FrameOfJobs(s, Step(w, s, a), a);
  }

  lemma StepAddsUnsent(w: Workflows, s: System, a: Action)
    requires !a.Webhook? && !a.SenderStep?
    ensures AddsUnsent(Book(s.db), Book(Step(w, s, a).db))
  {
    if !WritesJobs(a) {
      OthersKeepBook(w, s, a);
    } else if a.AdvancerStep? || a.ReplierStep? {
      SequenceWorkersAddUnsent(w, s, a);
    } else if a.SenderClaim? {
      ClaimAddsUnsent(s, a.p, a.fate);
    } else if a.Enqueue? {
      EnqueueAddsUnsent(w, s, a.message);
    } else {
      CancelAddsUnsent(w, s, a.p, a.lands);
    }
  }

  lemma SequenceWorkersAddUnsent(w: Workflows, s: System, a: Action)
    requires a.AdvancerStep? || a.ReplierStep?
    ensures AddsUnsent(Book(s.db), Book(Step(w, s, a).db))
  {
    if a.AdvancerStep? {
      AdvancerStepAddsUnsent(w, s, a.p, a.fate, a.wall, a.bs);
    } else {
      ReplierStepAddsUnsent(w, s, a.p, a.fate, a.wall);
    }
  }

  lemma AdvancerStepAddsUnsent(w: Workflows, s: System, p: Pid, fate: Fate, wall: Instant, bs: Bindings)
    ensures AddsUnsent(Book(s.db), Book(Step(w, s, AdvancerStep(p, fate, wall, bs)).db))
  {
    if p in s.advancers { AdvancerAddsUnsent(w, s.db, s.advancers[p], fate, wall, bs); }
  }

  lemma ReplierStepAddsUnsent(w: Workflows, s: System, p: Pid, fate: Fate, wall: Instant)
    ensures AddsUnsent(Book(s.db), Book(Step(w, s, ReplierStep(p, fate, wall)).db))
  {
    if p in s.repliers { ReplierAddsUnsent(w, s.db, s.repliers[p], fate, wall); }
  }

  // ----- Each step keeps it -----

  lemma EffectKeepsCorrelated(owner: Owner, db: Database, t: Sender, ticket: Ticket)
    requires Owned(owner, Book(db)) && Matched(Book(db)) && ticket.row < |db.jobs| && CarriesOwn(owner, t, ticket)
    ensures var n := Book(SenderEffect(db, t, ticket.row)); Owned(owner, n) && Matched(n)
  {
    if t.pc.WriteBack? && t.pc.outcome == Finish {
      CompleteKeepsCorrelated(owner, db, ticket.row, t.pc.provider);
    } else {
      AddingKeepsCorrelated(owner, Book(db), Book(SenderEffect(db, t, ticket.row)));
    }
  }

  lemma SenderKeepsCorrelated(owner: Owner, s: System, p: Pid, fate: Fate, response: Response, lookup: Lookup)
    requires Correlated(owner, s) && Steps(s, p)
    requires s.senders[p].pc.Submit? && response.Accepted? ==> owner(response.provider) == s.held[p].row
    ensures Correlated(owner, StepSender(s, p, fate, response, lookup))
  {
    EffectKeepsCorrelated(owner, s.db, s.senders[p], s.held[p]);
  }

  lemma StepKeepsCorrelated(owner: Owner, w: Workflows, s: System, a: Action)
    requires Correlated(owner, s) && AnswersOwned(owner, s, a)
    ensures Correlated(owner, Step(w, s, a))
  {
    if a.SenderStep? {
      SenderStepKeepsCorrelated(owner, w, s, a);
    } else {
      OthersCarryOwn(owner, w, s, a);
      if a.Webhook? {
        WebhookStepKeepsCorrelated(owner, w, s, a);
      } else {
        StepAddsUnsent(w, s, a);
        AddingKeepsCorrelated(owner, Book(s.db), Book(Step(w, s, a).db));
      }
    }
  }

  lemma SenderStepKeepsCorrelated(owner: Owner, w: Workflows, s: System, a: Action)
    requires Correlated(owner, s) && AnswersOwned(owner, s, a) && a.SenderStep?
    ensures Correlated(owner, Step(w, s, a))
  {
    if Steps(s, a.p) { SenderKeepsCorrelated(owner, s, a.p, a.fate, a.response, a.lookup); }
  }

  lemma WebhookStepKeepsCorrelated(owner: Owner, w: Workflows, s: System, a: Action)
    requires Correlated(owner, s) && a.Webhook?
    ensures Owned(owner, Book(Step(w, s, a).db)) && Matched(Book(Step(w, s, a).db))
  {
    WebhookKeepsCorrelated(owner, s.db, a.event, a.provider, a.status);
  }

  lemma OthersCarryOwn(owner: Owner, w: Workflows, s: System, a: Action)
    requires Correlated(owner, s) && !a.SenderStep?
    ensures var n := Step(w, s, a); forall p :: p in n.senders && p in n.held ==> CarriesOwn(owner, n.senders[p], n.held[p])
  {
    if a.SenderClaim? {
      ClaimCarriesOwn(owner, s, a.p, a.fate);
    } else if a.SenderCrash? {
      StepFrame(w, s, a);
    } else {
      OthersKeepSenders(w, s, a);
    }
  }

  lemma ClaimCarriesOwn(owner: Owner, s: System, p: Pid, fate: Fate)
    requires Correlated(owner, s)
    ensures var n := ClaimJob(s, p, fate);
      forall o :: o in n.senders && o in n.held ==> CarriesOwn(owner, n.senders[o], n.held[o])
  {}

  // ----- Main results -----

  /** In every state that can be reached, with workers of any age, each delivery event whose provider id
      belongs to a completed job has that job's id, and no event has another job's. */
  lemma {:induction false} EventsFindTheirJobs(owner: Owner, w: Workflows, s: System, actions: seq<Action>)
    requires Correlated(owner, s) && OwnedRun(owner, w, s, actions)
    ensures Correlated(owner, Execution(w, s, actions))
    decreases |actions|
  {
    if actions != [] {
      StepKeepsCorrelated(owner, w, s, actions[0]);
      EventsFindTheirJobs(owner, w, Step(w, s, actions[0]), actions[1..]);
    }
  }

  lemma EventsFindTheirJobsFromBoot(
    owner: Owner, w: Workflows, now: Instant, actions: seq<Action>, event: string, j: nat)
    requires OwnedRun(owner, w, Boot(now), actions)
    requires var db := Execution(w, Boot(now), actions).db; event in db.deliveries && j < |db.jobs|
    ensures var db := Execution(w, Boot(now), actions).db;
      && (db.jobs[j].provider == Some(db.deliveries[event].provider) ==> db.deliveries[event].job == Some(j))
      && (db.deliveries[event].job == Some(j) ==> owner(db.deliveries[event].provider) == j)
  {
    EventsFindTheirJobs(owner, w, Boot(now), actions);
    var db := Execution(w, Boot(now), actions).db;
    assert Providers(db.jobs)[j] == db.jobs[j].provider;
  }

  /** An event once recorded keeps its provider id and status, and its job once it has one. */
  predicate Keeps(was: map<string, Delivery>, now: map<string, Delivery>) {
    forall e :: e in was ==>
      && e in now && now[e].provider == was[e].provider && now[e].status == was[e].status
      && (was[e].job.Some? ==> now[e].job == was[e].job)
  }

  lemma {:induction false} EventsAreKept(w: Workflows, s: System, actions: seq<Action>)
    ensures Keeps(s.db.deliveries, Execution(w, s, actions).db.deliveries)
    decreases |actions|
  {
    if actions != [] {
      StepKeepsEvents(w, s, actions[0]);
      EventsAreKept(w, Step(w, s, actions[0]), actions[1..]);
    }
  }

  lemma StepKeepsEvents(w: Workflows, s: System, a: Action)
    ensures Keeps(s.db.deliveries, Step(w, s, a).db.deliveries)
  {
    if a.SenderStep? {
      SenderStepKeepsEvents(w, s, a);
    } else if a.Webhook? {
      WebhookKeepsEvents(w, s, a);
    } else {
      StepAddsUnsent(w, s, a);
    }
  }

  lemma SenderStepKeepsEvents(w: Workflows, s: System, a: Action)
    requires a.SenderStep?
    ensures Keeps(s.db.deliveries, Step(w, s, a).db.deliveries)
  {
    if Steps(s, a.p) { EffectKeepsEvents(s.db, s.senders[a.p], s.held[a.p].row); }
  }

  lemma WebhookKeepsEvents(w: Workflows, s: System, a: Action)
    requires a.Webhook?
    ensures Keeps(s.db.deliveries, Step(w, s, a).db.deliveries)
  {}

  lemma EffectKeepsEvents(db: Database, t: Sender, row: nat)
    requires row < |db.jobs|
    ensures Keeps(db.deliveries, SenderEffect(db, t, row).deliveries)
  {}

  /** A redelivered webhook changes nothing at all. */
  lemma DuplicateChangesNothing(
    w: Workflows, s: System, actions: seq<Action>, event: string, provider: string, status: string)
    requires event in s.db.deliveries
    ensures var n := Execution(w, s, actions); Step(w, n, Webhook(event, provider, status)) == n
  {
    EventsAreKept(w, s, actions);
  }

}
