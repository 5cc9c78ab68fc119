/** How far docs/COMPLIANCE.md's "immediately before every call" is from the code: exactly the workers past their
    check can still send, and a run from the empty system gets one there. */
module OptOutRace {
  import opened Wrappers
  import opened Numbers
  import opened LeasedQueue
  import opened Tables
  import opened Machine
  import opened Frames
  import opened Enrollments
  import opened Outbox
  import opened OutboxRuns
  import opened Idempotency
  import opened OptOut

  // ----- Every sender has its ticket -----

  ghost predicate Staffed(s: System) { forall p :: p in s.senders ==> Steps(s, p) }

  lemma StepKeepsStaffed(w: Workflows, s: System, a: Action)
    requires Staffed(s)
    ensures Staffed(Step(w, s, a))
  {
    if IsSenders(a) {
      SendersKeepStaffed(w, s, a);
    } else {
      var n := Step(w, s, a);
      StepGrows(w, s, a);
      OthersKeepSenders(w, s, a);
      GrowthKeepsStaffed(s, n);
    }
  }

  lemma GrowthKeepsStaffed(s: System, n: System)
    requires Staffed(s) && n.senders == s.senders && n.held == s.held && Mail(s.db.jobs) <= Mail(n.db.jobs)
    ensures Staffed(n)
  {
    assert |Mail(s.db.jobs)| <= |Mail(n.db.jobs)|;
  }

  lemma SendersKeepStaffed(w: Workflows, s: System, a: Action)
    requires Staffed(s) && IsSenders(a)
    ensures Staffed(Step(w, s, a))
  {
    if a.SenderClaim? {
      ClaimKeepsStaffed(s, a.p, a.fate);
    } else if a.SenderStep? && Steps(s, a.p) {
      SenderKeepsStaffed(s, a.p, a.fate, a.response, a.lookup);
    }
  }

  lemma ClaimKeepsStaffed(s: System, p: Pid, fate: Fate)
    requires Staffed(s)
    ensures Staffed(ClaimJob(s, p, fate))
  {
    ClaimingIsInvisible(s, p, fate);
    assert |Mail(ClaimJob(s, p, fate).db.jobs)| == |Mail(s.db.jobs)|;
  }

  lemma SenderKeepsStaffed(s: System, p: Pid, fate: Fate, response: Response, lookup: Lookup)
    requires Staffed(s) && Steps(s, p)
    ensures Staffed(StepSender(s, p, fate, response, lookup))
  {
    SendingIsInvisible(s, p, fate, response, lookup);
    assert |Mail(StepSender(s, p, fate, response, lookup).db.jobs)| == |Mail(s.db.jobs)|;
  }

  lemma {:induction false} RunKeepsStaffed(w: Workflows, s: System, actions: seq<Action>)
    requires Staffed(s)
    ensures Staffed(Execution(w, s, actions))
    decreases |actions|
  {
    if actions != [] {
      StepKeepsStaffed(w, s, actions[0]);
      RunKeepsStaffed(w, Step(w, s, actions[0]), actions[1..]);
    }
  }

  // ----- Each exposed worker can still send -----

  /** Resolution that finds nothing to prefer, and Telnyx out of reach: one step of the worker. */
  function GoOn(p: Pid): Action { SenderStep(p, Succeeds, Unreachable, Lookup(Ok(""), Result.Err(()))) }

  lemma ResolveLeadsToSubmit(w: Workflows, s: System, p: Pid)
    requires Steps(s, p) && s.senders[p].pc.ResolveNumber?
    ensures Step(w, s, GoOn(p)) == s.(senders := s.senders[p := s.senders[p].(pc := Submit(s.senders[p].job.from))])
  {}

  /** The submission itself, after which the worker has only its job to put back. */
  lemma SubmitSends(w: Workflows, s: System, p: Pid, n: string)
    requires Steps(s, p) && s.senders[p].pc.Submit? && s.senders[p].job.to == n
    ensures SendsTo(w, s, [GoOn(p)], n) == 1
    ensures var t := Step(w, s, GoOn(p));
      t.db == s.db && Exposed(t, n) == Exposed(s, n) - {p} && (Staffed(s) ==> Staffed(t))
  {
    assert [GoOn(p)][1..] == [] && SendsTo(w, Step(w, s, GoOn(p)), [], n) == 0;
    Submitted(w, s, p, n);
  }

  lemma Submitted(w: Workflows, s: System, p: Pid, n: string)
    requires Steps(s, p) && s.senders[p].pc.Submit? && s.senders[p].job.to == n
    ensures var t := Step(w, s, GoOn(p));
      t.db == s.db && Exposed(t, n) == Exposed(s, n) - {p} && (Staffed(s) ==> Staffed(t))
  {}

  lemma {:induction false} SendsConcat(w: Workflows, s: System, first: seq<Action>, second: seq<Action>, n: string)
    ensures SendsTo(w, s, first + second, n) == SendsTo(w, s, first, n) + SendsTo(w, Execution(w, s, first), second, n)
    decreases |first|
  {
    if first == [] {
      assert first + second == second;
    } else {
      assert (first + second)[1..] == first[1..] + second;
      SendsConcat(w, Step(w, s, first[0]), first[1..], second, n);
    }
  }

  lemma OneSends(w: Workflows, s: System, p: Pid, n: string) returns (actions: seq<Action>)
    requires Staffed(s) && p in Exposed(s, n)
    ensures SendsTo(w, s, actions, n) == 1
    ensures var t := Execution(w, s, actions); t.db == s.db && Exposed(t, n) == Exposed(s, n) - {p} && Staffed(t)
  {
    if s.senders[p].pc.Submit? {
      actions := [GoOn(p)];
      SubmitSends(w, s, p, n);
      ExecutionOne(w, s, GoOn(p));
    } else {
      var ready := Step(w, s, GoOn(p));
      ResolveLeadsToSubmit(w, s, p);
      assert Exposed(ready, n) == Exposed(s, n);
      SubmitSends(w, ready, p, n);
      ResolveSendsNothing(w, s, p, n);
      SendsConcat(w, s, [GoOn(p)], [GoOn(p)], n);
      ExecutionConcat(w, s, [GoOn(p)], [GoOn(p)]);
      ExecutionOne(w, s, GoOn(p));
      ExecutionOne(w, ready, GoOn(p));
      actions := [GoOn(p)] + [GoOn(p)];
    }
  }

  lemma ResolveSendsNothing(w: Workflows, s: System, p: Pid, n: string)
    requires Steps(s, p) && s.senders[p].pc.ResolveNumber?
    ensures SendsTo(w, s, [GoOn(p)], n) == 0
  {
    assert [GoOn(p)][1..] == [] && SendsTo(w, Step(w, s, GoOn(p)), [], n) == 0;
  }

  /** All of them can: the bound of SendsAfterSuppression is reached. */
  lemma {:induction false} AllExposedCanSend(w: Workflows, s: System, n: string) returns (actions: seq<Action>)
    requires Staffed(s)
    ensures SendsTo(w, s, actions, n) == |Exposed(s, n)|
    decreases |Exposed(s, n)|
  {
    if Exposed(s, n) == {} {
      actions := [];
    } else {
      var p :| p in Exposed(s, n);
      var first := OneSends(w, s, p, n);
      var second := AllExposedCanSend(w, Execution(w, s, first), n);
      SendsConcat(w, s, first, second, n);
      actions := first + second;
    }
  }

  /** A suppressed number is safe in every run to come exactly when no worker is past its check for it. */
  lemma SafeExactlyWhenNoneExposed(w: Workflows, s: System, n: string)
    requires n in s.db.suppressed && Staffed(s)
    ensures (forall actions :: SendsTo(w, s, actions, n) == 0) <==> Exposed(s, n) == {}
  {
    if Exposed(s, n) == {} {
      forall actions ensures SendsTo(w, s, actions, n) == 0 {
        SendsAfterSuppression(w, s, actions, n);
      }
    } else {
      var actions := AllExposedCanSend(w, s, n);
      assert |Exposed(s, n)| > 0;
      assert SendsTo(w, s, actions, n) != 0;
    }
  }

  // ----- The race from the empty system -----

  /** The one job of the run, claimed by worker 0 and carried to program counter pc. */
  function Racing(m: Message, pc: SenderPc): System {
    var lease := Claimed(New(0), 0);
    System(Boot(0).db.(paused := false, jobs := [Job(m.(enrollment := None), lease, None)]),
      map[0 := Ticket(0, LEASE, 1, false)],
      map[0 := Sender(pc, m.(enrollment := None, contact := ""))],
      map[], map[], map[], map[], map[])
  }

  function Waiting(m: Message): System {
    Boot(0).(db := Boot(0).db.(paused := false, jobs := [Job(m.(enrollment := None), New(0), None)]))
  }

  lemma EnqueuedFromBoot(w: Workflows, m: Message)
    ensures Execution(w, Boot(0), [SetPaused(false), Enqueue(m)]) == Waiting(m)
  {
    var unpaused := Step(w, Boot(0), SetPaused(false));
    assert unpaused == Boot(0).(db := Boot(0).db.(paused := false));
    EnqueueOnEmpty(w, unpaused, m);
    ExecutionConcat(w, Boot(0), [SetPaused(false)], [Enqueue(m)]);
    ExecutionOne(w, Boot(0), SetPaused(false));
    ExecutionOne(w, unpaused, Enqueue(m));
    assert [SetPaused(false)] + [Enqueue(m)] == [SetPaused(false), Enqueue(m)];
  }

  lemma EnqueueOnEmpty(w: Workflows, s: System, m: Message)
    requires s.db.jobs == []
    ensures Step(w, s, Enqueue(m)) == s.(db := s.db.(jobs := [Job(m.(enrollment := None), New(s.db.now), None)]))
  {}

  lemma ClaimWaiting(w: Workflows, m: Message)
    ensures Step(w, Waiting(m), SenderClaim(0, Succeeds)) == Racing(m, CheckPause)
  {
    var rows := Leases(Waiting(m).db.jobs);
    assert rows == [New(0)] && Eligible(rows[0], 0);
    assert FirstEligible(rows, 0) == Some(0);
  }

  lemma PassPause(w: Workflows, m: Message)
    ensures Step(w, Racing(m, CheckPause), GoOn(0)) == Racing(m, CheckSuppression)
  {}

  lemma PassCheck(w: Workflows, m: Message)
    ensures Step(w, Racing(m, CheckSuppression), GoOn(0)) == Racing(m, ResolveNumber)
  {}

  lemma SuppressLast(w: Workflows, m: Message)
    ensures var s := Step(w, Racing(m, ResolveNumber), BeginSuppress(1, m.to));
      m.to in s.db.suppressed && Exposed(s, m.to) == {0}
  {
    var s := Step(w, Racing(m, ResolveNumber), BeginSuppress(1, m.to));
    assert s.senders == Racing(m, ResolveNumber).senders;
  }

  function Approach(m: Message): seq<Action> {
    [SetPaused(false), Enqueue(m)] + [SenderClaim(0, Succeeds)] + [GoOn(0)] + [GoOn(0)] + [BeginSuppress(1, m.to)]
  }

  lemma ApproachReaches(w: Workflows, m: Message)
    ensures Execution(w, Boot(0), Approach(m)) == Step(w, Racing(m, ResolveNumber), BeginSuppress(1, m.to))
  {
    var two := [SetPaused(false), Enqueue(m)];
    EnqueuedFromBoot(w, m);
    ClaimWaiting(w, m);
    ExecutionSnoc(w, Boot(0), two, SenderClaim(0, Succeeds));
    PassPause(w, m);
    ExecutionSnoc(w, Boot(0), two + [SenderClaim(0, Succeeds)], GoOn(0));
    PassCheck(w, m);
    ExecutionSnoc(w, Boot(0), two + [SenderClaim(0, Succeeds)] + [GoOn(0)], GoOn(0));
    ExecutionSnoc(w, Boot(0), two + [SenderClaim(0, Succeeds)] + [GoOn(0)] + [GoOn(0)], BeginSuppress(1, m.to));
  }

  /** From the empty system, for every message: a run suppresses its number and then submits it once. */
  lemma OneSendCanFollow(w: Workflows, m: Message) returns (before: seq<Action>, after: seq<Action>)
    ensures var s := Execution(w, Boot(0), before);
      m.to in s.db.suppressed && SendsTo(w, s, after, m.to) == 1
  {
    before := Approach(m);
    ApproachReaches(w, m);
    SuppressLast(w, m);
    RunKeepsStaffed(w, Boot(0), before);
    after := AllExposedCanSend(w, Execution(w, Boot(0), before), m.to);
  }

}
