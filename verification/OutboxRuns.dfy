/** The main results about outbound jobs, for runs in which workers submit and write back within their leases. */
module OutboxRuns {
  import opened SendWindow
  import opened Numbers
  import opened Template
  import opened Engine
  import opened LeasedQueue
  import opened Tables
  import opened Machine
  import opened Frames
  import opened Outbox

  // ----- The live-lease hypothesis, on the system's own actions -----

  /** A worker that submits, or whose write-back lands, does so while its lease lives. */
  predicate WithinLease(s: System, a: Action) {
    (&& a.SenderStep? && Steps(s, a.p)
     && (s.senders[a.p].pc.Submit? || (s.senders[a.p].pc.WriteBack? && a.fate.Lands())))
    ==> s.db.now <= s.held[a.p].lease
  }

  predicate LiveRun(w: Workflows, s: System, actions: seq<Action>)
    decreases |actions|
  {
    actions == [] || (WithinLease(s, actions[0]) && LiveRun(w, Step(w, s, actions[0]), actions[1..]))
  }

  // ----- What RunWorker itself keeps -----

  /** It submits once per claim, and puts a submitted job back only below five attempts. */
  predicate Disciplined(t: Sender, ticket: Ticket) {
    match t.pc
    case WriteBack(outcome, _) => outcome.Requeue? && ticket.ran ==> ticket.attempts < MAX_ATTEMPTS
    case RecordSuppression => true
    case CancelOthers => true
    case _ => !ticket.ran
  }

  ghost predicate AllDisciplined(s: System) {
    forall p :: p in s.senders && p in s.held ==> Disciplined(s.senders[p], s.held[p])
  }

  lemma StepKeepsDiscipline(w: Workflows, s: System, a: Action)
    requires AllDisciplined(s)
    ensures AllDisciplined(Step(w, s, a))
  {
    if IsSenders(a) {
      SendersKeepDiscipline(w, s, a);
    } else {
      OthersKeepSenders(w, s, a);
    }
  }

  lemma SendersKeepDiscipline(w: Workflows, s: System, a: Action)
    requires AllDisciplined(s) && IsSenders(a)
    ensures AllDisciplined(Step(w, s, a))
  {
    if a.SenderClaim? {
      ClaimKeepsDiscipline(s, a.p, a.fate);
    } else if a.SenderStep? && Steps(s, a.p) {
      SenderKeepsDiscipline(s, a.p, a.fate, a.response, a.lookup);
    }
  }

  lemma ClaimKeepsDiscipline(s: System, p: Pid, fate: Fate)
    requires AllDisciplined(s)
    ensures AllDisciplined(ClaimJob(s, p, fate))
  {}

  lemma OthersKeepSenders(w: Workflows, s: System, a: Action)
    requires !IsSenders(a)
    ensures Step(w, s, a).senders == s.senders && Step(w, s, a).held == s.held
  {
    StepFrame(w, s, a);
    FrameOfSenders(s, Step(w, s, a), a);
  }

  lemma SenderKeepsDiscipline(s: System, p: Pid, fate: Fate, response: Response, lookup: Lookup)
    requires AllDisciplined(s) && Steps(s, p)
    ensures AllDisciplined(StepSender(s, p, fate, response, lookup))
  {
    var t, ticket := s.senders[p], s.held[p];
    assert Disciplined(t, ticket);
    var next := SenderNext(s, t, ticket.attempts, fate, response, lookup);
    if next.Some? {
      assert Disciplined(t.(pc := next.value), if t.pc.Submit? then ticket.(ran := true) else ticket);
    }
  }

  // ----- The queue events of a live run are proper -----

  predicate AllAt(es: seq<Event>, at: Instant) { forall i :: 0 <= i < |es| ==> es[i].at == at }

  predicate Harmless(es: seq<Event>) { forall i :: 0 <= i < |es| ==> es[i].act.Insert? || es[i].act.Withdraw? }

  lemma {:induction false} HarmlessIsProper(q: Queue, at: Instant, es: seq<Event>, i: nat)
    requires AllAt(es, at) && Harmless(es)
    ensures ProperTrace(q, at, es) && Runs(q, es, i) == 0
    decreases |es|
  {
    if es != [] {
      HarmlessIsProper(Next(q, es[0]), at, es[1..], i);
    }
  }

  lemma {:induction false} BatchIsHarmless(db: Database, r: Record, cs: seq<Command>, reply: string, wall: Instant)
    ensures AllAt(BatchEvents(db, r, cs, reply, wall), db.now) && Harmless(BatchEvents(db, r, cs, reply, wall))
    decreases |cs|
  {
    if cs != [] {
      var n := |cs| - 1;
      BatchIsHarmless(db, r, cs[..n], reply, wall);
      BatchRefines(db, r, cs[..n], reply, wall, map[]);
    }
  }

  lemma {:induction false} ProperConcat(q: Queue, at: Instant, es: seq<Event>, later: Instant, fs: seq<Event>)
    requires AllAt(es, at) && at <= later
    requires ProperTrace(q, at, es) && ProperTrace(Trace(q, es), later, fs)
    ensures ProperTrace(q, at, es + fs)
    decreases |es|
  {
    if es == [] {
      assert es + fs == fs;
    } else {
      assert (es + fs)[1..] == es[1..] + fs;
      ProperConcat(Next(q, es[0]), at, es[1..], later, fs);
    }
  }

  lemma {:induction false} RunsConcat(q: Queue, es: seq<Event>, fs: seq<Event>, i: nat)
    ensures Runs(q, es + fs, i) == Runs(q, es, i) + Runs(Trace(q, es), fs, i)
    decreases |es|
  {
    if es == [] {
      assert es + fs == fs;
    } else {
      assert (es + fs)[1..] == es[1..] + fs;
      RunsConcat(Next(q, es[0]), es[1..], fs, i);
    }
  }

  /** Action a submits job i to the provider. */
  predicate SubmitsJob(s: System, a: Action, i: nat) {
    a.SenderStep? && Steps(s, a.p) && s.senders[a.p].pc.Submit? && s.held[a.p].row == i
  }

  lemma AdvancerIsHarmless(w: Workflows, db: Database, t: Advancer, fate: Fate, wall: Instant, bs: Bindings)
    ensures AllAt(AdvancerEvents(w, db, t, fate, wall, bs), db.now) && Harmless(AdvancerEvents(w, db, t, fate, wall, bs))
  {
    if t.Ready? && Configured(w, t.record.enrollment.key) {
      var a := Advanced(w[t.record.enrollment.key], t.record.enrollment, wall, bs);
      if a.result.Ok? {
        ApplyIsHarmless(db, t.record.(enrollment := a.enrollment), a.result.value, "", fate, wall);
      }
    }
  }

  lemma ReplierIsHarmless(w: Workflows, db: Database, t: Replier, fate: Fate, wall: Instant)
    ensures AllAt(ReplierEvents(w, db, t, fate, wall), db.now) && Harmless(ReplierEvents(w, db, t, fate, wall))
  {
    if t.records != [] && t.records[0].enrollment.key in w {
      var x := Replied(w[t.records[0].enrollment.key], t.records[0].enrollment, t.text);
      ApplyIsHarmless(db, t.records[0].(enrollment := x.enrollment), x.commands, t.text, fate, wall);
    }
  }

  lemma ApplyIsHarmless(db: Database, r: Record, cs: seq<Command>, reply: string, fate: Fate, wall: Instant)
    ensures AllAt(ApplyEvents(db, r, cs, reply, fate, wall), db.now) && Harmless(ApplyEvents(db, r, cs, reply, fate, wall))
  {
    if fate.Lands() && Claimable(db, r) {
      BatchIsHarmless(
        db.(sequences := db.sequences[r.id := Rewritten(db.sequences[r.id], r, reply)], batches := db.batches + 1),
        r, cs, reply, wall);
    }
  }

  /** One action: its events are proper, at the current time, and call the provider exactly when it submits. */
  lemma StepIsProper(w: Workflows, s: System, a: Action, i: nat)
    requires AllDisciplined(s) && WithinLease(s, a)
    ensures AllAt(Events(w, s, a), s.db.now) && ProperTrace(Outgoing(s), s.db.now, Events(w, s, a))
    ensures Runs(Outgoing(s), Events(w, s, a), i) == Bit(SubmitsJob(s, a, i))
  {
    var q, es := Outgoing(s), Events(w, s, a);
    if a.AdvancerStep? && a.p in s.advancers {
      AdvancerIsHarmless(w, s.db, s.advancers[a.p], a.fate, a.wall, a.bs);
      HarmlessIsProper(q, s.db.now, es, i);
    } else if a.ReplierStep? && a.p in s.repliers {
      ReplierIsHarmless(w, s.db, s.repliers[a.p], a.fate, a.wall);
      HarmlessIsProper(q, s.db.now, es, i);
    } else if a.SenderStep? && Steps(s, a.p) {
      assert Disciplined(s.senders[a.p], s.held[a.p]);
      OneIsProper(q, s.db.now, es, i);
    } else {
      OneIsProper(q, s.db.now, es, i);
    }
  }

  lemma OneIsProper(q: Queue, at: Instant, es: seq<Event>, i: nat)
    requires |es| <= 1 && AllAt(es, at) && (es != [] ==> Proper(q, es[0]))
    ensures ProperTrace(q, at, es)
    ensures Runs(q, es, i) == if es == [] then 0 else Bit(IsRun(q, es[0], i))
  {
    if es != [] {
      assert es[1..] == [];
      assert Runs(Next(q, es[0]), [], i) == 0;
    }
  }

  lemma TimeMovesOn(w: Workflows, s: System, a: Action)
    ensures s.db.now <= Step(w, s, a).db.now
  {
    if a.AdvancerStep? {
      AdvancerStepKeepsTime(w, s, a.p, a.fate, a.wall, a.bs);
    } else if a.ReplierStep? {
      ReplierStepKeepsTime(w, s, a.p, a.fate, a.wall);
    } else {
      StepFrame(w, s, a);
      FrameOfTime(s, Step(w, s, a), a);
    }
  }

  lemma AdvancerStepKeepsTime(w: Workflows, s: System, p: Pid, fate: Fate, wall: Instant, bs: Bindings)
    ensures Step(w, s, AdvancerStep(p, fate, wall, bs)).db.now == s.db.now
  {
    if p in s.advancers { AdvancerKeepsTime(w, s.db, s.advancers[p], fate, wall, bs); }
  }

  lemma ReplierStepKeepsTime(w: Workflows, s: System, p: Pid, fate: Fate, wall: Instant)
    ensures Step(w, s, ReplierStep(p, fate, wall)).db.now == s.db.now
  {
    if p in s.repliers { ReplierKeepsTime(w, s.db, s.repliers[p], fate, wall); }
  }

  lemma ApplyKeepsTime(db: Database, r: Record, cs: seq<Command>, reply: string, fate: Fate, wall: Instant)
    ensures TryApply(db, r, cs, reply, fate, wall).now == db.now
  {
    if fate.Lands() && Claimable(db, r) {
      BatchRefines(
        db.(sequences := db.sequences[r.id := Rewritten(db.sequences[r.id], r, reply)], batches := db.batches + 1),
        r, cs, reply, wall, map[]);
    }
  }

  lemma AdvancerKeepsTime(w: Workflows, db: Database, t: Advancer, fate: Fate, wall: Instant, bs: Bindings)
    ensures AdvancerEffect(w, db, t, fate, wall, bs).now == db.now
  {
    if t.Ready? && Configured(w, t.record.enrollment.key) {
      var a := Advanced(w[t.record.enrollment.key], t.record.enrollment, wall, bs);
      if a.result.Ok? {
        ApplyKeepsTime(db, t.record.(enrollment := a.enrollment), a.result.value, "", fate, wall);
      }
    }
  }

  lemma ReplierKeepsTime(w: Workflows, db: Database, t: Replier, fate: Fate, wall: Instant)
    ensures ReplierEffect(w, db, t, fate, wall).now == db.now
  {
    if t.records != [] && t.records[0].enrollment.key in w {
      var x := Replied(w[t.records[0].enrollment.key], t.records[0].enrollment, t.text);
      ApplyKeepsTime(db, t.records[0].(enrollment := x.enrollment), x.commands, t.text, fate, wall);
    }
  }

  /** Submissions of job i over a run. */
  function Submissions(w: Workflows, s: System, actions: seq<Action>, i: nat): nat
    decreases |actions|
  {
    if actions == [] then 0 else
      Bit(SubmitsJob(s, actions[0], i)) + Submissions(w, Step(w, s, actions[0]), actions[1..], i)
  }

  lemma {:induction false} RunIsProper(w: Workflows, s: System, actions: seq<Action>, i: nat)
    requires AllDisciplined(s) && LiveRun(w, s, actions)
    ensures ProperTrace(Outgoing(s), s.db.now, RunEvents(w, s, actions))
    ensures Runs(Outgoing(s), RunEvents(w, s, actions), i) == Submissions(w, s, actions, i)
    decreases |actions|
  {
    if actions != [] {
      var a, next := actions[0], Step(w, s, actions[0]);
      StepIsProper(w, s, a, i);
      StepRefines(w, s, a);
      StepKeepsDiscipline(w, s, a);
      TimeMovesOn(w, s, a);
      RunIsProper(w, next, actions[1..], i);
      ProperConcat(Outgoing(s), s.db.now, Events(w, s, a), next.db.now, RunEvents(w, next, actions[1..]));
      RunsConcat(Outgoing(s), Events(w, s, a), RunEvents(w, next, actions[1..]), i);
    }
  }

  // ----- Main results -----

  /** A state in which every live lease is the recorded one; the empty system is one. */
  ghost predicate Settled(s: System) { AllDisciplined(s) && Sound(Outgoing(s), s.db.now) }

  lemma BootIsSettled(now: Instant)
    ensures Settled(Boot(now))
  {}

  lemma {:induction false} RunKeepsSettled(w: Workflows, s: System, actions: seq<Action>)
    requires Settled(s) && LiveRun(w, s, actions)
    ensures Settled(Execution(w, s, actions))
    decreases |actions|
  {
    if actions != [] {
      var a, next := actions[0], Step(w, s, actions[0]);
      StepIsProper(w, s, a, 0);
      StepRefines(w, s, a);
      StepKeepsDiscipline(w, s, a);
      TimeMovesOn(w, s, a);
      TraceKeepsSound(Outgoing(s), s.db.now, Events(w, s, a), next.db.now);
      RunKeepsSettled(w, next, actions[1..]);
    }
  }

  lemma {:induction false} TraceKeepsSound(q: Queue, now: Instant, es: seq<Event>, later: Instant)
    requires Sound(q, now) && ProperTrace(q, now, es) && AllAt(es, now) && now <= later
    ensures Sound(Trace(q, es), later)
    decreases |es|
  {
    if es != [] {
      NextKeepsSound(q, now, es[0]);
      TraceKeepsSound(Next(q, es[0]), now, es[1..], later);
    } else {
      SoundLater(q, now, later);
    }
  }

  lemma SoundLater(q: Queue, now: Instant, later: Instant)
    requires Sound(q, now) && now <= later
    ensures Sound(q, later)
  {
    assert forall p :: p in q.held ==> Agrees(q, q.held[p], now) ==> Agrees(q, q.held[p], later);
  }

  /** No two workers hold a job at once. */
  lemma OneHolderPerJob(w: Workflows, now: Instant, actions: seq<Action>, p: Pid, o: Pid, i: nat)
    requires LiveRun(w, Boot(now), actions)
    requires var s := Execution(w, Boot(now), actions);
      Holds(Outgoing(s), p, i, s.db.now) && Holds(Outgoing(s), o, i, s.db.now)
    ensures p == o
  {
    BootIsSettled(now);
    RunKeepsSettled(w, Boot(now), actions);
    var s := Execution(w, Boot(now), actions);
    HoldersExclude(Outgoing(s), s.db.now, p, o, i);
  }

  /** Over a whole run from the empty system, a job is completed or failed by a worker at most once; it is
      submitted at most five times plus the submissions whose outcome was lost or is still owed. */
  lemma SubmissionsAreBounded(w: Workflows, now: Instant, actions: seq<Action>, i: nat)
    requires LiveRun(w, Boot(now), actions)
    ensures var q, es := Outgoing(Boot(now)), RunEvents(w, Boot(now), actions);
      && Endings(q, es, i) <= 1
      && Submissions(w, Boot(now), actions, i) <=
          MAX_ATTEMPTS + Lost(q, es, i) + |Owing(Outgoing(Execution(w, Boot(now), actions)), i)|
  {
    var s := Boot(now);
    BootIsSettled(now);
    RunIsProper(w, s, actions, i);
    RunRefines(w, s, actions);
    LeasedQueue.EndsAtMostOnce(Outgoing(s), now, RunEvents(w, s, actions), i);
    CallsAreBounded(Outgoing(s), now, RunEvents(w, s, actions), i);
  }

}
