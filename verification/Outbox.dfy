/** The outbound workers refine the leased queue: what the queue guarantees holds of every run of the system
    in which workers act within their leases. */
module Outbox {
  import opened Wrappers
  import opened SendWindow
  import opened Numbers
  import opened Template
  import opened Engine
  import opened LeasedQueue
  import opened Tables
  import opened Machine
  import opened Frames

  /** outbound_jobs and its workers, as a leased queue. */
  function Outgoing(s: System): Queue { Queue(Leases(s.db.jobs), s.held) }

  function Addressed(jobs: seq<Job>, number: string): set<nat> {
    set i | 0 <= i < |jobs| && jobs[i].message.to == number
  }

  // ----- The queue events of each action -----

  function CommandEvents(db: Database, r: Record, c: Command, wall: Instant): seq<Event> {
    match c
    case SendSms(body, rate) =>
      if Taken(db.jobs, r.location, SmsOf(r, body).id) then []
      else [Event(db.now, Insert(ReserveRate(db, r.enrollment.key, rate, wall).at))]
    case SuppressContact => [Event(db.now, Withdraw(Addressed(db.jobs, r.enrollment.contact.phone)))]
    case _ => []
  }

  function BatchEvents(db: Database, r: Record, cs: seq<Command>, reply: string, wall: Instant): seq<Event>
    decreases |cs|
  {
    if cs == [] then []
    else
      var n := |cs| - 1;
      BatchEvents(db, r, cs[..n], reply, wall) + CommandEvents(RunCommands(db, r, cs[..n], reply, wall), r, cs[n], wall)
  }

  function ApplyEvents(db: Database, r: Record, cs: seq<Command>, reply: string, fate: Fate, wall: Instant): seq<Event> {
    if fate.Lands() && Claimable(db, r) then
      BatchEvents(
        db.(sequences := db.sequences[r.id := Rewritten(db.sequences[r.id], r, reply)], batches := db.batches + 1),
        r, cs, reply, wall)
    else []
  }

  function AdvancerEvents(w: Workflows, db: Database, t: Advancer, fate: Fate, wall: Instant, bs: Bindings): seq<Event> {
    if !t.Ready? || !Configured(w, t.record.enrollment.key) then []
    else
      var a := Advanced(w[t.record.enrollment.key], t.record.enrollment, wall, bs);
      if a.result.Err? then []
      else ApplyEvents(db, t.record.(enrollment := a.enrollment), a.result.value, "", fate, wall)
  }

  function ReplierEvents(w: Workflows, db: Database, t: Replier, fate: Fate, wall: Instant): seq<Event> {
    if t.records == [] || t.records[0].enrollment.key !in w then []
    else
      var x := Replied(w[t.records[0].enrollment.key], t.records[0].enrollment, t.text);
      ApplyEvents(db, t.records[0].(enrollment := x.enrollment), x.commands, t.text, fate, wall)
  }

  function SenderAct(s: System, p: Pid, fate: Fate): Option<Act>
    requires p in s.senders
  {
    match s.senders[p].pc
    case Submit(_) => Some(Perform(p))
    case CancelOthers => if fate.Lands() then Some(Withdraw(Addressed(s.db.jobs, s.senders[p].job.to))) else None
    case WriteBack(outcome, _) => Some(Write(p, outcome, fate.Lands()))
    case _ => None
  }

  predicate Steps(s: System, p: Pid) { p in s.senders && p in s.held && s.held[p].row < |s.db.jobs| }

  function One(now: Instant, act: Option<Act>): seq<Event> { if act.None? then [] else [Event(now, act.value)] }

  function Events(w: Workflows, s: System, a: Action): seq<Event> {
    match a
    case Enqueue(m) => if Taken(s.db.jobs, m.location, m.id) then [] else [Event(s.db.now, Insert(s.db.now))]
    case EndSuppress(p, lands) =>
      if p in s.cancellers && lands then [Event(s.db.now, Withdraw(Addressed(s.db.jobs, s.cancellers[p])))] else []
    case SenderClaim(p, fate) =>
      var i := JobToClaim(s, p, fate);
      if i.None? then [] else [Event(s.db.now, if fate.Seen() then Claim(p, i.value) else ClaimUnseen(i.value))]
    case SenderStep(p, fate, _, _) => if Steps(s, p) then One(s.db.now, SenderAct(s, p, fate)) else []
    case SenderCrash(p) => [Event(s.db.now, Drop(p))]
    case AdvancerStep(p, fate, wall, bs) =>
      if p in s.advancers then AdvancerEvents(w, s.db, s.advancers[p], fate, wall, bs) else []
    case ReplierStep(p, fate, wall) =>
      if p in s.repliers then ReplierEvents(w, s.db, s.repliers[p], fate, wall) else []
    case _ => []
  }

  function RunEvents(w: Workflows, s: System, actions: seq<Action>): seq<Event>
    decreases |actions|
  {
    if actions == [] then [] else Events(w, s, actions[0]) + RunEvents(w, Step(w, s, actions[0]), actions[1..])
  }

  // ----- Refinement -----

  lemma {:induction false} TraceConcat(q: Queue, es: seq<Event>, fs: seq<Event>)
    ensures Trace(q, es + fs) == Trace(Trace(q, es), fs)
    decreases |es|
  {
    if es == [] {
      assert es + fs == fs;
    } else {
      assert (es + fs)[1..] == es[1..] + fs;
      TraceConcat(Next(q, es[0]), es[1..], fs);
    }
  }

  lemma {:induction false} TraceOne(q: Queue, e: Event)
    ensures Trace(q, [e]) == Next(q, e)
  {
    assert [e][1..] == [];
    assert Trace(Next(q, e), []) == Next(q, e);
  }

  lemma WithdrawLeases(jobs: seq<Job>, number: string)
    ensures Leases(Withdrawal(jobs, number)) == WithdrawRows(Leases(jobs), Addressed(jobs, number))
  {}

  lemma LeaseUpdate(jobs: seq<Job>, i: nat, j: Job)
    requires i < |jobs|
    ensures Leases(jobs[i := j]) == Leases(jobs)[i := j.lease]
  {}

  lemma LeaseAppend(jobs: seq<Job>, j: Job)
    ensures Leases(jobs + [j]) == Leases(jobs) + [j.lease]
  {}

  lemma CommandRefines(db: Database, r: Record, c: Command, reply: string, wall: Instant, held: map<Pid, Ticket>)
    ensures Trace(Queue(Leases(db.jobs), held), CommandEvents(db, r, c, wall)) ==
      Queue(Leases(RunCommand(db, r, c, reply, wall).jobs), held)
    ensures RunCommand(db, r, c, reply, wall).now == db.now
  {
    var q, es := Queue(Leases(db.jobs), held), CommandEvents(db, r, c, wall);
    if es != [] {
      TraceOne(q, es[0]);
      match c
      case SendSms(body, rate) =>
        LeaseAppend(db.jobs, Job(SmsOf(r, body), New(ReserveRate(db, r.enrollment.key, rate, wall).at), None));
      case SuppressContact =>
        WithdrawLeases(db.jobs, r.enrollment.contact.phone);
    }
  }

  lemma {:induction false} BatchRefines(
    db: Database, r: Record, cs: seq<Command>, reply: string, wall: Instant, held: map<Pid, Ticket>)
    ensures Trace(Queue(Leases(db.jobs), held), BatchEvents(db, r, cs, reply, wall)) ==
      Queue(Leases(RunCommands(db, r, cs, reply, wall).jobs), held)
    ensures RunCommands(db, r, cs, reply, wall).now == db.now
    decreases |cs|
  {
    if cs != [] {
      var n := |cs| - 1;
      var before := RunCommands(db, r, cs[..n], reply, wall);
      BatchRefines(db, r, cs[..n], reply, wall, held);
      CommandRefines(before, r, cs[n], reply, wall, held);
      TraceConcat(Queue(Leases(db.jobs), held),
        BatchEvents(db, r, cs[..n], reply, wall), CommandEvents(before, r, cs[n], wall));
    }
  }

  /** The transaction is its commands, once the enrollment's own row is rewritten. */
  lemma AppliedJobs(db: Database, r: Record, cs: seq<Command>, reply: string, fate: Fate, wall: Instant)
    ensures var updated := Updated(db, r, reply);
      fate.Lands() && Claimable(db, r) ==>
        && updated.jobs == db.jobs && updated.now == db.now
        && TryApply(db, r, cs, reply, fate, wall) == RunCommands(updated, r, cs, reply, wall)
        && ApplyEvents(db, r, cs, reply, fate, wall) == BatchEvents(updated, r, cs, reply, wall)
  {}

  function Updated(db: Database, r: Record, reply: string): Database {
    if r.id >= |db.sequences| then db
    else db.(sequences := db.sequences[r.id := Rewritten(db.sequences[r.id], r, reply)], batches := db.batches + 1)
  }

  lemma ApplyRefines(
    db: Database, r: Record, cs: seq<Command>, reply: string, fate: Fate, wall: Instant, held: map<Pid, Ticket>)
    ensures Trace(Queue(Leases(db.jobs), held), ApplyEvents(db, r, cs, reply, fate, wall)) ==
      Queue(Leases(TryApply(db, r, cs, reply, fate, wall).jobs), held)
  {
    if fate.Lands() && Claimable(db, r) {
      AppliedJobs(db, r, cs, reply, fate, wall);
      BatchRefines(Updated(db, r, reply), r, cs, reply, wall, held);
    }
  }

  lemma AdvancerRefines(
    w: Workflows, db: Database, t: Advancer, fate: Fate, wall: Instant, bs: Bindings, held: map<Pid, Ticket>)
    ensures Trace(Queue(Leases(db.jobs), held), AdvancerEvents(w, db, t, fate, wall, bs)) ==
      Queue(Leases(AdvancerEffect(w, db, t, fate, wall, bs).jobs), held)
  {
    if t.Ready? && Configured(w, t.record.enrollment.key) {
      var a := Advanced(w[t.record.enrollment.key], t.record.enrollment, wall, bs);
      if a.result.Ok? {
        ApplyRefines(db, t.record.(enrollment := a.enrollment), a.result.value, "", fate, wall, held);
      }
    }
  }

  lemma ReplierRefines(w: Workflows, db: Database, t: Replier, fate: Fate, wall: Instant, held: map<Pid, Ticket>)
    ensures Trace(Queue(Leases(db.jobs), held), ReplierEvents(w, db, t, fate, wall)) ==
      Queue(Leases(ReplierEffect(w, db, t, fate, wall).jobs), held)
  {
    if t.records != [] && t.records[0].enrollment.key in w {
      var x := Replied(w[t.records[0].enrollment.key], t.records[0].enrollment, t.text);
      ApplyRefines(db, t.records[0].(enrollment := x.enrollment), x.commands, t.text, fate, wall, held);
    }
  }

  lemma SenderRefines(w: Workflows, s: System, p: Pid, fate: Fate, response: Response, lookup: Lookup)
    requires Steps(s, p)
    ensures Trace(Outgoing(s), One(s.db.now, SenderAct(s, p, fate))) ==
      Outgoing(StepSender(s, p, fate, response, lookup))
  {
    var act := SenderAct(s, p, fate);
    var n := StepSender(s, p, fate, response, lookup);
    if act.Some? {
      TraceOne(Outgoing(s), Event(s.db.now, act.value));
    }
    match s.senders[p].pc
    case Submit(_) =>
      assert Leases(n.db.jobs) == Leases(s.db.jobs);
    case CancelOthers =>
      WithdrawLeases(s.db.jobs, s.senders[p].job.to);
    case WriteBack(outcome, provider) =>
      var i := s.held[p].row;
      if fate.Lands() {
        assert Leases(n.db.jobs) == Leases(s.db.jobs)[i := Written(s.db.jobs[i].lease, outcome, s.db.now)];
      }
    case _ =>
  }

  lemma ClaimRefines(w: Workflows, s: System, p: Pid, fate: Fate)
    ensures Trace(Outgoing(s), Events(w, s, SenderClaim(p, fate))) == Outgoing(ClaimJob(s, p, fate))
  {
    var i := JobToClaim(s, p, fate);
    if i.Some? {
      TraceOne(Outgoing(s), Events(w, s, SenderClaim(p, fate))[0]);
      LeaseUpdate(s.db.jobs, i.value, s.db.jobs[i.value].(lease := Claimed(s.db.jobs[i.value].lease, s.db.now)));
    }
  }

  lemma EnqueueRefines(w: Workflows, s: System, m: Message)
    ensures Trace(Outgoing(s), Events(w, s, Enqueue(m))) == Outgoing(Step(w, s, Enqueue(m)))
  {
    if !Taken(s.db.jobs, m.location, m.id) {
      TraceOne(Outgoing(s), Event(s.db.now, Insert(s.db.now)));
      LeaseAppend(s.db.jobs, Job(m.(enrollment := None), New(s.db.now), None));
    }
  }

  lemma CancelRefines(w: Workflows, s: System, p: Pid, lands: bool)
    ensures Trace(Outgoing(s), Events(w, s, EndSuppress(p, lands))) == Outgoing(Step(w, s, EndSuppress(p, lands)))
  {
    if p in s.cancellers && lands {
      TraceOne(Outgoing(s), Event(s.db.now, Withdraw(Addressed(s.db.jobs, s.cancellers[p]))));
      WithdrawLeases(s.db.jobs, s.cancellers[p]);
    }
  }

  lemma CrashRefines(w: Workflows, s: System, p: Pid)
    ensures Trace(Outgoing(s), Events(w, s, SenderCrash(p))) == Outgoing(Step(w, s, SenderCrash(p)))
  {
    TraceOne(Outgoing(s), Event(s.db.now, Drop(p)));
    assert p !in s.held ==> s.held - {p} == s.held;
  }

  lemma WorkerStepRefines(w: Workflows, s: System, a: Action)
    requires a.SenderStep? || a.AdvancerStep? || a.ReplierStep?
    ensures Trace(Outgoing(s), Events(w, s, a)) == Outgoing(Step(w, s, a))
  {
    if a.SenderStep? {
      SenderStepRefines(w, s, a.p, a.fate, a.response, a.lookup);
    } else if a.AdvancerStep? {
      AdvancerStepRefines(w, s, a.p, a.fate, a.wall, a.bs);
    } else {
      ReplierStepRefines(w, s, a.p, a.fate, a.wall);
    }
  }

  lemma SenderStepRefines(w: Workflows, s: System, p: Pid, fate: Fate, response: Response, lookup: Lookup)
    ensures var a := SenderStep(p, fate, response, lookup);
      Trace(Outgoing(s), Events(w, s, a)) == Outgoing(Step(w, s, a))
  {
    if Steps(s, p) { SenderRefines(w, s, p, fate, response, lookup); }
  }

  lemma AdvancerStepRefines(w: Workflows, s: System, p: Pid, fate: Fate, wall: Instant, bs: Bindings)
    ensures var a := AdvancerStep(p, fate, wall, bs);
      Trace(Outgoing(s), Events(w, s, a)) == Outgoing(Step(w, s, a))
  {
    if p in s.advancers { AdvancerRefines(w, s.db, s.advancers[p], fate, wall, bs, s.held); }
  }

  lemma ReplierStepRefines(w: Workflows, s: System, p: Pid, fate: Fate, wall: Instant)
    ensures var a := ReplierStep(p, fate, wall);
      Trace(Outgoing(s), Events(w, s, a)) == Outgoing(Step(w, s, a))
  {
    if p in s.repliers { ReplierRefines(w, s.db, s.repliers[p], fate, wall, s.held); }
  }

  /** Every action of the system is a sequence of queue events. */
  lemma StepRefines(w: Workflows, s: System, a: Action)
    ensures Trace(Outgoing(s), Events(w, s, a)) == Outgoing(Step(w, s, a))
  {
    match a
    case Enqueue(m) => EnqueueRefines(w, s, m);
    case EndSuppress(p, lands) => CancelRefines(w, s, p, lands);
    case SenderClaim(p, fate) => ClaimRefines(w, s, p, fate);
    case SenderStep(_, _, _, _) => WorkerStepRefines(w, s, a);
    case SenderCrash(p) => CrashRefines(w, s, p);
    case AdvancerStep(_, _, _, _) => WorkerStepRefines(w, s, a);
    case ReplierStep(_, _, _) => WorkerStepRefines(w, s, a);
    case _ => OthersKeepOutgoing(w, s, a);
  }

  lemma OthersKeepOutgoing(w: Workflows, s: System, a: Action)
    requires !a.Enqueue? && !a.EndSuppress? && !a.SenderClaim? && !a.SenderStep? && !a.SenderCrash?
    requires !a.AdvancerStep? && !a.ReplierStep?
    ensures Outgoing(Step(w, s, a)) == Outgoing(s)
  {
    StepFrame(w, s, a);
    FrameOfSenders(s, Step(w, s, a), a);
    FrameOfJobs(s, Step(w, s, a), a);
  }

  lemma {:induction false} RunRefines(w: Workflows, s: System, actions: seq<Action>)
    ensures Trace(Outgoing(s), RunEvents(w, s, actions)) == Outgoing(Execution(w, s, actions))
    decreases |actions|
  {
    if actions != [] {
      StepRefines(w, s, actions[0]);
      RunRefines(w, Step(w, s, actions[0]), actions[1..]);
      TraceConcat(Outgoing(s), Events(w, s, actions[0]), RunEvents(w, Step(w, s, actions[0]), actions[1..]));
    }
  }

}
