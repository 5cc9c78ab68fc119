/** The idempotency key a job is submitted under: location id, a colon, message id. */
module Idempotency {
  import opened Wrappers
  import opened SendWindow
  import opened Numbers
  import opened Template
  import opened Engine
  import opened LeasedQueue
  import opened Tables
  import opened Machine
  import opened Frames
  import opened Enrollments
  import opened Outbox
  import opened OutboxRuns

  function Key(m: Message): string { m.location + ":" + m.id }

  // ----- Rows keep their message, and the UNIQUE key holds -----

  predicate Distinct(mail: seq<Message>) {
    forall i, j :: 0 <= i < j < |mail| ==> mail[i].location != mail[j].location || mail[i].id != mail[j].id
  }

  /** Messages are never rewritten, and what is inserted respects the key. */
  predicate Grows(was: seq<Message>, now: seq<Message>) { was <= now && (Distinct(was) ==> Distinct(now)) }

  lemma InsertGrows(jobs: seq<Job>, m: Message, at: Instant)
    ensures Grows(Mail(jobs), Mail(InsertMessage(jobs, m, at)))
  {}

  lemma {:induction false} CommandsGrow(db: Database, r: Record, cs: seq<Command>, reply: string, wall: Instant)
    ensures Grows(Mail(db.jobs), Mail(RunCommands(db, r, cs, reply, wall).jobs))
    decreases |cs|
  {
    if cs != [] {
      var n := |cs| - 1;
      var before := RunCommands(db, r, cs[..n], reply, wall);
      CommandsGrow(db, r, cs[..n], reply, wall);
      match cs[n]
      case SendSms(body, rate) =>
        InsertGrows(before.jobs, SmsOf(r, body), ReserveRate(before, r.enrollment.key, rate, wall).at);
      case _ =>
        assert Mail(RunCommand(before, r, cs[n], reply, wall).jobs) == Mail(before.jobs);
    }
  }

  lemma ApplyGrows(db: Database, r: Record, cs: seq<Command>, reply: string, fate: Fate, wall: Instant)
    ensures Grows(Mail(db.jobs), Mail(TryApply(db, r, cs, reply, fate, wall).jobs))
  {
    if fate.Lands() && Claimable(db, r) {
      CommandsGrow(
        db.(sequences := db.sequences[r.id := Rewritten(db.sequences[r.id], r, reply)], batches := db.batches + 1),
        r, cs, reply, wall);
    }
  }

  lemma AdvancerGrows(w: Workflows, db: Database, t: Advancer, fate: Fate, wall: Instant, bs: Bindings)
    ensures Grows(Mail(db.jobs), Mail(AdvancerEffect(w, db, t, fate, wall, bs).jobs))
  {
    if t.Ready? && Configured(w, t.record.enrollment.key) {
      var a := Advanced(w[t.record.enrollment.key], t.record.enrollment, wall, bs);
      if a.result.Ok? {
        ApplyGrows(db, t.record.(enrollment := a.enrollment), a.result.value, "", fate, wall);
      }
    }
  }

  lemma ReplierGrows(w: Workflows, db: Database, t: Replier, fate: Fate, wall: Instant)
    ensures Grows(Mail(db.jobs), Mail(ReplierEffect(w, db, t, fate, wall).jobs))
  {
    if t.records != [] && t.records[0].enrollment.key in w {
      var x := Replied(w[t.records[0].enrollment.key], t.records[0].enrollment, t.text);
      ApplyGrows(db, t.records[0].(enrollment := x.enrollment), x.commands, t.text, fate, wall);
    }
  }

  lemma StepGrows(w: Workflows, s: System, a: Action)
    ensures Grows(Mail(s.db.jobs), Mail(Step(w, s, a).db.jobs))
  {
    if a.AdvancerStep? || a.ReplierStep? {
      SequenceWorkersGrow(w, s, a);
    } else if !TouchesSequences(a) {
      OthersAreInvisible(w, s, a);
    } else {
      OthersGrow(w, s, a);
    }
  }

  lemma SequenceWorkersGrow(w: Workflows, s: System, a: Action)
    requires a.AdvancerStep? || a.ReplierStep?
    ensures Grows(Mail(s.db.jobs), Mail(Step(w, s, a).db.jobs))
  {
    if a.AdvancerStep? {
      AdvancerStepGrows(w, s, a.p, a.fate, a.wall, a.bs);
    } else {
      ReplierStepGrows(w, s, a.p, a.fate, a.wall);
    }
  }

  lemma AdvancerStepGrows(w: Workflows, s: System, p: Pid, fate: Fate, wall: Instant, bs: Bindings)
    ensures Grows(Mail(s.db.jobs), Mail(Step(w, s, AdvancerStep(p, fate, wall, bs)).db.jobs))
  {
    if p in s.advancers { AdvancerGrows(w, s.db, s.advancers[p], fate, wall, bs); }
  }

  lemma ReplierStepGrows(w: Workflows, s: System, p: Pid, fate: Fate, wall: Instant)
    ensures Grows(Mail(s.db.jobs), Mail(Step(w, s, ReplierStep(p, fate, wall)).db.jobs))
  {
    if p in s.repliers { ReplierGrows(w, s.db, s.repliers[p], fate, wall); }
  }

  lemma EnqueueGrows(w: Workflows, s: System, m: Message)
    ensures Grows(Mail(s.db.jobs), Mail(Step(w, s, Enqueue(m)).db.jobs))
  {
    InsertGrows(s.db.jobs, m.(enrollment := None), s.db.now);
  }

  lemma OthersGrow(w: Workflows, s: System, a: Action)
    requires TouchesSequences(a) && !a.AdvancerStep? && !a.ReplierStep?
    ensures Grows(Mail(s.db.jobs), Mail(Step(w, s, a).db.jobs))
  {
    if a.Enqueue? {
      EnqueueGrows(w, s, a.message);
    } else {
      OthersKeepJobs(w, s, a);
    }
  }

  lemma OthersKeepJobs(w: Workflows, s: System, a: Action)
    requires TouchesSequences(a) && !a.AdvancerStep? && !a.ReplierStep? && !a.Enqueue?
    ensures Step(w, s, a).db.jobs == s.db.jobs
  {
    StepFrame(w, s, a);
    FrameOfJobs(s, Step(w, s, a), a);
  }

  // ----- Workers submit the row they claimed -----

  predicate FaithfulTo(mail: seq<Message>, t: Sender, ticket: Ticket) {
    && ticket.row < |mail| && t.job == mail[ticket.row].(contact := "")
    && (t.pc.Submit? ==> t.pc.from == mail[ticket.row].from)
  }

  ghost predicate Faithful(s: System) {
    forall p :: p in s.senders && p in s.held ==> FaithfulTo(Mail(s.db.jobs), s.senders[p], s.held[p])
  }

  lemma StepKeepsFaithful(w: Workflows, s: System, a: Action)
    requires Faithful(s)
    ensures Faithful(Step(w, s, a))
  {
    if IsSenders(a) {
      SendersKeepFaithful(w, s, a);
    } else {
      var n := Step(w, s, a);
      StepGrows(w, s, a);
      OthersKeepSenders(w, s, a);
      GrowthKeepsFaithful(s, n);
    }
  }

  lemma GrowthKeepsFaithful(s: System, n: System)
    requires Faithful(s) && n.senders == s.senders && n.held == s.held && Mail(s.db.jobs) <= Mail(n.db.jobs)
    ensures Faithful(n)
  {}

  lemma SendersKeepFaithful(w: Workflows, s: System, a: Action)
    requires Faithful(s) && IsSenders(a)
    ensures Faithful(Step(w, s, a))
  {
    if a.SenderClaim? {
      ClaimKeepsFaithful(s, a.p, a.fate);
    } else if a.SenderStep? && Steps(s, a.p) {
      SenderKeepsFaithful(s, a.p, a.fate, a.response, a.lookup);
    }
  }

  lemma ClaimKeepsFaithful(s: System, p: Pid, fate: Fate)
    requires Faithful(s)
    ensures Faithful(ClaimJob(s, p, fate))
  {
    ClaimingIsInvisible(s, p, fate);
  }

  lemma SenderKeepsFaithful(s: System, p: Pid, fate: Fate, response: Response, lookup: Lookup)
    requires Faithful(s) && Steps(s, p)
    ensures Faithful(StepSender(s, p, fate, response, lookup))
  {
    SendingIsInvisible(s, p, fate, response, lookup);
    assert FaithfulTo(Mail(s.db.jobs), s.senders[p], s.held[p]);
  }

  // ----- Main results -----

  lemma {:induction false} RunKeepsFaithful(w: Workflows, s: System, actions: seq<Action>)
    requires Faithful(s)
    ensures Faithful(Execution(w, s, actions))
    decreases |actions|
  {
    if actions != [] {
      StepKeepsFaithful(w, s, actions[0]);
      RunKeepsFaithful(w, Step(w, s, actions[0]), actions[1..]);
    }
  }

  /** In every run, what a worker is about to submit is its row's text, from its row's number, to its row's number. */
  lemma SubmitsItsRow(w: Workflows, now: Instant, actions: seq<Action>, p: Pid)
    requires var s := Execution(w, Boot(now), actions); p in s.senders && p in s.held && s.senders[p].pc.Submit?
    ensures var s := Execution(w, Boot(now), actions);
      var t, i := s.senders[p], s.held[p].row;
      && i < |s.db.jobs|
      && t.job.to == s.db.jobs[i].message.to && t.pc.from == s.db.jobs[i].message.from
      && t.job.body == s.db.jobs[i].message.body
      && Key(t.job) == s.db.jobs[i].message.location + ":" + s.db.jobs[i].message.id
  {
    RunKeepsFaithful(w, Boot(now), actions);
    var s := Execution(w, Boot(now), actions);
    assert FaithfulTo(Mail(s.db.jobs), s.senders[p], s.held[p]);
  }

  /** The keys under which job i is submitted, in order. */
  function KeysUsed(w: Workflows, s: System, actions: seq<Action>, i: nat): seq<string>
    decreases |actions|
  {
    if actions == [] then []
    else
      (if SubmitsJob(s, actions[0], i) then [Key(s.senders[actions[0].p].job)] else [])
      + KeysUsed(w, Step(w, s, actions[0]), actions[1..], i)
  }

  lemma {:induction false} JobKeepsItsKey(w: Workflows, s: System, actions: seq<Action>, i: nat)
    requires Faithful(s)
    ensures Mail(s.db.jobs) <= Mail(Execution(w, s, actions).db.jobs)
    ensures forall k :: k in KeysUsed(w, s, actions, i) ==>
      i < |Execution(w, s, actions).db.jobs| && k == Key(Execution(w, s, actions).db.jobs[i].message)
    decreases |actions|
  {
    if actions != [] {
      var a, next := actions[0], Step(w, s, actions[0]);
      StepGrows(w, s, a);
      StepKeepsFaithful(w, s, a);
      JobKeepsItsKey(w, next, actions[1..], i);
      if SubmitsJob(s, a, i) {
        assert FaithfulTo(Mail(s.db.jobs), s.senders[a.p], s.held[a.p]);
        assert Mail(Execution(w, next, actions[1..]).db.jobs)[i] == Mail(s.db.jobs)[i];
      }
    }
  }

  lemma {:induction false} RunKeepsDistinct(w: Workflows, s: System, actions: seq<Action>)
    requires Distinct(Mail(s.db.jobs))
    ensures Distinct(Mail(Execution(w, s, actions).db.jobs))
    decreases |actions|
  {
    if actions != [] {
      StepGrows(w, s, actions[0]);
      RunKeepsDistinct(w, Step(w, s, actions[0]), actions[1..]);
    }
  }

  /** Location k is location l followed by a colon and more. */
  predicate Extends(l: string, k: string) { l + ":" <= k }

  predicate Nested(l: string, k: string) { Extends(l, k) || Extends(k, l) }

  /** Two rows of the table can share a key exactly when one location extends the other. */
  lemma CollisionsExactly(l: string, k: string)
    requires l != k
    ensures (exists x: string, y: string {:trigger l + ":" + x, k + ":" + y} :: l + ":" + x == k + ":" + y) <==>
      Nested(l, k)
  {
    if Extends(l, k) {
      var x := k[|l| + 1..] + ":" + "";
      assert l + ":" + x == k + ":" + "";
    } else if Extends(k, l) {
      var y := l[|k| + 1..] + ":" + "";
      assert l + ":" + "" == k + ":" + y;
    } else {
      forall x: string, y: string ensures l + ":" + x != k + ":" + y {
        if l + ":" + x == k + ":" + y {
          CollisionNeedsExtension(l, x, k, y);
        }
      }
    }
  }

  lemma CollisionNeedsExtension(l: string, x: string, k: string, y: string)
    requires l + ":" + x == k + ":" + y
    ensures l == k || Nested(l, k)
  {
    var a := l + ":" + x;
    assert l + ":" <= a && k + ":" <= a;
    if |l| < |k| {
      assert l + ":" == a[..|l| + 1] == k[..|l| + 1];
    } else if |k| < |l| {
      assert k + ":" == a[..|k| + 1] == l[..|k| + 1];
    } else {
      assert l == a[..|l|] == k;
    }
  }

  /** Such a collision is reachable: two clients' messages, one key. */
  lemma CollisionIsReachable(w: Workflows)
    ensures exists actions: seq<Action> {:trigger Execution(w, Boot(0), actions)} ::
      var jobs := Execution(w, Boot(0), actions).db.jobs;
      |jobs| == 2 && jobs[0].message.location != jobs[1].message.location &&
      Key(jobs[0].message) == Key(jobs[1].message)
  {
    var m := Message("a", "b:c", "", "+13125551212", "+13125550000", "hi", None);
    var o := Message("a:b", "c", "", "+13125551212", "+13125550000", "hi", None);
    var s0, one := Boot(0), [Enqueue(o)];
    var s1 := Step(w, s0, Enqueue(m));
    assert s1.db.jobs == [Job(m, New(0), None)];
    var s2 := Step(w, s1, Enqueue(o));
    assert "a" != "a:b" by { assert |"a"| != |"a:b"|; }
    assert s2.db.jobs == [Job(m, New(0), None), Job(o, New(0), None)];
    var actions := [Enqueue(m), Enqueue(o)];
    assert actions[1..] == one && one[1..] == [];
    assert Execution(w, s1, one) == Execution(w, s2, []) == s2;
    assert Execution(w, s0, actions) == s2;
    assert Key(m) == "a:b:c" == Key(o);
  }

  /** In every run, with workers of any age: all submissions of one job carry one key, that of its row; and
      jobs whose locations do not extend each other are submitted under different keys. */
  lemma OneKeyPerJob(w: Workflows, now: Instant, actions: seq<Action>, i: nat, j: nat, k: string, l: string)
    requires k in KeysUsed(w, Boot(now), actions, i) && l in KeysUsed(w, Boot(now), actions, j)
    ensures var jobs := Execution(w, Boot(now), actions).db.jobs;
      && i < |jobs| && j < |jobs|
      && k == Key(jobs[i].message) && l == Key(jobs[j].message)
      && (i == j ==> k == l)
      && (k == l ==> i == j || Nested(jobs[i].message.location, jobs[j].message.location))
  {
    var s := Boot(now);
    JobKeepsItsKey(w, s, actions, i);
    JobKeepsItsKey(w, s, actions, j);
    RunKeepsDistinct(w, s, actions);
    var m, o := Execution(w, s, actions).db.jobs[i].message, Execution(w, s, actions).db.jobs[j].message;
    if m.location == o.location {
      var p := m.location + ":";
      assert (p + m.id)[|p|..] == m.id && (p + o.id)[|p|..] == o.id;
    } else if k == l {
      CollisionNeedsExtension(m.location, m.id, o.location, o.id);
    }
  }

}
