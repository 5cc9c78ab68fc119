/** Opt-out safety: what suppression guarantees in every run, with every worker free to race, stall or die. */
module OptOut {
  import opened SendWindow
  import opened Numbers
  import opened Template
  import opened Engine
  import opened LeasedQueue
  import opened Tables
  import opened Machine
  import opened Frames

  /** Action a submits a message to number n. */
  predicate Submits(s: System, a: Action, n: string) {
    && a.SenderStep?
    && a.p in s.senders && a.p in s.held && s.held[a.p].row < |s.db.jobs|
    && s.senders[a.p].pc.Submit?
    && s.senders[a.p].job.to == n
  }

  /** Worker p has read "not suppressed" for n and has not submitted yet. */
  predicate PastCheck(s: System, p: Pid, n: string) {
    p in s.senders && s.senders[p].job.to == n && (s.senders[p].pc.ResolveNumber? || s.senders[p].pc.Submit?)
  }

  function Exposed(s: System, n: string): set<Pid> { set p | p in s.senders && PastCheck(s, p, n) }

  function SendsTo(w: Workflows, s: System, actions: seq<Action>, n: string): nat
    decreases |actions|
  {
    if actions == [] then 0 else Bit(Submits(s, actions[0], n)) + SendsTo(w, Step(w, s, actions[0]), actions[1..], n)
  }

  function SendsBy(w: Workflows, s: System, actions: seq<Action>, n: string, p: Pid): nat
    decreases |actions|
  {
    if actions == [] then 0 else
      Bit(Submits(s, actions[0], n) && actions[0].p == p) + SendsBy(w, Step(w, s, actions[0]), actions[1..], n, p)
  }

  // ----- Suppression is for good -----

  lemma CommandKeepsSuppressed(db: Database, r: Record, c: Command, reply: string, wall: Instant)
    ensures db.suppressed <= RunCommand(db, r, c, reply, wall).suppressed
    ensures c == SuppressContact ==> r.enrollment.contact.phone in RunCommand(db, r, c, reply, wall).suppressed
  {}

  lemma {:induction false} CommandsKeepSuppressed(db: Database, r: Record, cs: seq<Command>, reply: string, wall: Instant)
    ensures db.suppressed <= RunCommands(db, r, cs, reply, wall).suppressed
    ensures SuppressContact in cs ==> r.enrollment.contact.phone in RunCommands(db, r, cs, reply, wall).suppressed
    decreases |cs|
  {
    if cs != [] {
      var n := |cs| - 1;
      CommandsKeepSuppressed(db, r, cs[..n], reply, wall);
      CommandKeepsSuppressed(RunCommands(db, r, cs[..n], reply, wall), r, cs[n], reply, wall);
    }
  }

  lemma StepKeepsSuppressed(w: Workflows, s: System, a: Action)
    ensures s.db.suppressed <= Step(w, s, a).db.suppressed
  {
    if a.AdvancerStep? {
      AdvancerStepKeepsSuppressed(w, s, a.p, a.fate, a.wall, a.bs);
    } else if a.ReplierStep? {
      ReplierStepKeepsSuppressed(w, s, a.p, a.fate, a.wall);
    } else {
      StepFrame(w, s, a);
      FrameOfTime(s, Step(w, s, a), a);
    }
  }

  lemma AdvancerStepKeepsSuppressed(w: Workflows, s: System, p: Pid, fate: Fate, wall: Instant, bs: Bindings)
    ensures s.db.suppressed <= Step(w, s, AdvancerStep(p, fate, wall, bs)).db.suppressed
  {
    if p in s.advancers { AdvancerKeepsSuppressed(w, s.db, s.advancers[p], fate, wall, bs); }
  }

  lemma ReplierStepKeepsSuppressed(w: Workflows, s: System, p: Pid, fate: Fate, wall: Instant)
    ensures s.db.suppressed <= Step(w, s, ReplierStep(p, fate, wall)).db.suppressed
  {
    if p in s.repliers { ReplierKeepsSuppressed(w, s.db, s.repliers[p], fate, wall); }
  }

  lemma AdvancerKeepsSuppressed(w: Workflows, db: Database, t: Advancer, fate: Fate, wall: Instant, bs: Bindings)
    ensures db.suppressed <= AdvancerEffect(w, db, t, fate, wall, bs).suppressed
  {
    if t.Ready? && Configured(w, t.record.enrollment.key) {
      var x := Advanced(w[t.record.enrollment.key], t.record.enrollment, wall, bs);
      if x.result.Ok? {
        ApplyKeepsSuppressed(db, t.record.(enrollment := x.enrollment), x.result.value, "", fate, wall);
      }
    }
  }

  lemma ReplierKeepsSuppressed(w: Workflows, db: Database, t: Replier, fate: Fate, wall: Instant)
    ensures db.suppressed <= ReplierEffect(w, db, t, fate, wall).suppressed
  {
    if t.records != [] && t.records[0].enrollment.key in w {
      var r := t.records[0];
      var x := Replied(w[r.enrollment.key], r.enrollment, t.text);
      ApplyKeepsSuppressed(db, r.(enrollment := x.enrollment), x.commands, t.text, fate, wall);
    }
  }

  lemma ApplyKeepsSuppressed(db: Database, r: Record, cs: seq<Command>, reply: string, fate: Fate, wall: Instant)
    ensures db.suppressed <= TryApply(db, r, cs, reply, fate, wall).suppressed
    ensures fate.Lands() && Claimable(db, r) && SuppressContact in cs ==>
      r.enrollment.contact.phone in TryApply(db, r, cs, reply, fate, wall).suppressed
  {
    if fate.Lands() && Claimable(db, r) {
      var updated := db.(
        sequences := db.sequences[r.id := Rewritten(db.sequences[r.id], r, reply)], batches := db.batches + 1);
      CommandsKeepSuppressed(updated, r, cs, reply, wall);
    }
  }

  /** A number once suppressed stays suppressed. */
  lemma {:induction false} SuppressionIsForever(w: Workflows, s: System, actions: seq<Action>)
    ensures s.db.suppressed <= Execution(w, s, actions).db.suppressed
    decreases |actions|
  {
    if actions != [] {
      StepKeepsSuppressed(w, s, actions[0]);
      SuppressionIsForever(w, Step(w, s, actions[0]), actions[1..]);
    }
  }

  // ----- Who can still send -----

  /** Only a check that finds the number unsuppressed lets a worker past. */
  lemma EntryNeedsUnsuppressed(w: Workflows, s: System, a: Action, p: Pid, n: string)
    requires !PastCheck(s, p, n) && PastCheck(Step(w, s, a), p, n)
    ensures a.SenderStep? && a.p == p && n !in s.db.suppressed
  {
    if a.SenderStep? && a.p != p {
      SenderLeavesOthers(w, s, a, p);
    }
  }

  lemma SenderLeavesOthers(w: Workflows, s: System, a: Action, p: Pid)
    requires a.SenderStep? && a.p != p
    ensures p in Step(w, s, a).senders <==> p in s.senders
    ensures p in s.senders ==> Step(w, s, a).senders[p] == s.senders[p]
  {}

  /** After a submission the worker is no longer past its check. */
  lemma SubmitLeaves(w: Workflows, s: System, a: Action, n: string)
    requires Submits(s, a, n)
    ensures PastCheck(s, a.p, n) && !PastCheck(Step(w, s, a), a.p, n)
  {}

  lemma ExposedShrinks(w: Workflows, s: System, a: Action, n: string)
    requires n in s.db.suppressed
    ensures Exposed(Step(w, s, a), n) <= Exposed(s, n)
    ensures Bit(Submits(s, a, n)) + |Exposed(Step(w, s, a), n)| <= |Exposed(s, n)|
  {
    var after, before := Exposed(Step(w, s, a), n), Exposed(s, n);
    forall p | p in after ensures p in before {
      if !PastCheck(s, p, n) {
        EntryNeedsUnsuppressed(w, s, a, p, n);
      }
    }
    Subset(after, before);
    if Submits(s, a, n) {
      SubmitLeaves(w, s, a, n);
      Subset(after + {a.p}, before);
    }
  }

  lemma {:induction false} Subset(a: set<Pid>, b: set<Pid>)
    requires a <= b
    ensures |a| <= |b|
  {
    assert b == a + (b - a);
  }

  /** Once n is suppressed, all messages to n ever submitted again, by all workers together, are at most one
      for each worker that was past its check at that moment. In particular none, if no worker was: this
      needs neither the cancellation of queued jobs nor any lease. */
  lemma {:induction false} SendsAfterSuppression(w: Workflows, s: System, actions: seq<Action>, n: string)
    requires n in s.db.suppressed
    ensures SendsTo(w, s, actions, n) <= |Exposed(s, n)|
    decreases |actions|
  {
    if actions != [] {
      StepKeepsSuppressed(w, s, actions[0]);
      ExposedShrinks(w, s, actions[0], n);
      SendsAfterSuppression(w, Step(w, s, actions[0]), actions[1..], n);
    }
  }

  /** And no single worker ever submits more than one of them. */
  lemma {:induction false} EachWorkerSendsAtMostOnce(w: Workflows, s: System, actions: seq<Action>, n: string, p: Pid)
    requires n in s.db.suppressed
    ensures SendsBy(w, s, actions, n, p) <= Bit(PastCheck(s, p, n))
    decreases |actions|
  {
    if actions != [] {
      var a, next := actions[0], Step(w, s, actions[0]);
      StepKeepsSuppressed(w, s, a);
      EachWorkerSendsAtMostOnce(w, next, actions[1..], n, p);
      if Submits(s, a, n) && a.p == p {
        SubmitLeaves(w, s, a, n);
      } else if !PastCheck(s, p, n) && PastCheck(next, p, n) {
        EntryNeedsUnsuppressed(w, s, a, p, n);
      }
    }
  }

  /** A STOP reply handled by the workflow suppresses its sender in the same transaction. */
  lemma StopReplySuppresses(w: Workflows, s: System, p: Pid, fate: Fate, wall: Instant)
    requires p in s.repliers && s.repliers[p].records != [] && IsOptOut(s.repliers[p].text)
    requires var r := s.repliers[p].records[0];
      r.enrollment.key in w && !Stopped(r.enrollment) && fate.Lands() && Claimable(s.db, r)
    ensures s.repliers[p].records[0].enrollment.contact.phone in Step(w, s, ReplierStep(p, fate, wall)).db.suppressed
  {
    var r, text := s.repliers[p].records[0], s.repliers[p].text;
    var x := Replied(w[r.enrollment.key], r.enrollment, text);
    assert x.commands == [SuppressContact];
    ApplyKeepsSuppressed(s.db, r.(enrollment := x.enrollment), x.commands, text, fate, wall);
  }

}
