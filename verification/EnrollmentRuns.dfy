/** The main results about enrollments, over every run from an empty database and any interleaving. */
module EnrollmentRuns {
  import opened Wrappers
  import opened SendWindow
  import opened Template
  import opened Engine
  import opened LeasedQueue
  import opened Tables
  import opened Machine
  import opened Enrollments

  // ----- Terminal enrollments -----

  lemma BootIsLocking(w: Workflows, now: Instant)
    ensures Locking(w, Look(Boot(now)))
  {}

  /** An enrollment that has left pending and awaiting_reply never returns, and never gains another
      outbound or CRM row. */
  lemma {:induction false} TerminalIsForever(w: Workflows, s: System, actions: seq<Action>)
    requires WellKeyed(w) && Locking(w, Look(s))
    ensures Locking(w, Look(Execution(w, s, actions))) && Frozen(Look(s), Look(Execution(w, s, actions)))
    decreases |actions|
  {
    if actions != [] {
      StepKeepsLocking(w, s, actions[0]);
      TerminalIsForever(w, Step(w, s, actions[0]), actions[1..]);
    }
  }

  /** The enrollment a step commits a batch for, with the state the batch leaves it in. */
  function Committed(w: Workflows, s: System, a: Action): Option<(nat, Enrollment)> {
    match a
    case AdvancerStep(p, fate, wall, bs) =>
      if p !in s.advancers || !s.advancers[p].Ready? then None
      else
        var r := s.advancers[p].record;
        if !Configured(w, r.enrollment.key) || !fate.Lands() || !Claimable(s.db, r) then None
        else
          var x := Advanced(w[r.enrollment.key], r.enrollment, wall, bs);
          if x.result.Err? then None else Some((r.id, x.enrollment))
    case ReplierStep(p, fate, wall) =>
      if p !in s.repliers || s.repliers[p].records == [] then None
      else
        var r := s.repliers[p].records[0];
        if r.enrollment.key !in w || !fate.Lands() || !Claimable(s.db, r) then None
        else Some((r.id, Replied(w[r.enrollment.key], r.enrollment, s.repliers[p].text).enrollment))
    case _ => None
  }

  /** A reply or a final advance is committed for enrollment e. */
  predicate Ends(w: Workflows, s: System, a: Action, e: nat) {
    var c := Committed(w, s, a);
    c.Some? && c.value.0 == e && Stopped(c.value.1)
  }

  function TerminalBatches(w: Workflows, s: System, actions: seq<Action>, e: nat): nat
    decreases |actions|
  {
    if actions == [] then 0 else
      Bit(Ends(w, s, actions[0], e)) + TerminalBatches(w, Step(w, s, actions[0]), actions[1..], e)
  }

  /** Committing ends an enrollment that was active. */
  lemma EndingTakesEffect(w: Workflows, s: System, a: Action, e: nat)
    requires Locking(w, Look(s)) && Ends(w, s, a, e)
    ensures e < |s.db.sequences| && Active(s.db.sequences[e])
    ensures e < |Step(w, s, a).db.sequences| && !Active(Step(w, s, a).db.sequences[e])
  {
    var v := Look(s);
    match a
    case AdvancerStep(p, fate, wall, bs) =>
      var r := s.advancers[p].record;
      assert Known(v, r) && LockOk(w, v, r.id);
      var x := Advanced(w[r.enrollment.key], r.enrollment, wall, bs);
      AdvanceIsBatch(w[r.enrollment.key], r.enrollment, wall, bs);
      var _ := ApplyInView(w, s, r, x.enrollment, x.result.value, "", fate, wall);
    case ReplierStep(p, fate, wall) =>
      var r, text := s.repliers[p].records[0], s.repliers[p].text;
      assert Known(v, r) && LockOk(w, v, r.id);
      var x := Replied(w[r.enrollment.key], r.enrollment, text);
      ReplyIsBatch(w[r.enrollment.key], r.enrollment, text);
      var _ := ApplyInView(w, s, r, x.enrollment, x.commands, text, fate, wall);
  }

  predicate StillOpen(s: System, e: nat) { e < |s.db.sequences| ==> Active(s.db.sequences[e]) }

  /** At most one terminal batch is ever committed for an enrollment, whatever replies are redelivered and
      whatever leases expire; and its CRM rows, two at most, all come from one transaction. */
  lemma {:induction false} EndsAtMostOnce(w: Workflows, s: System, actions: seq<Action>, e: nat)
    requires WellKeyed(w) && Locking(w, Look(s))
    ensures TerminalBatches(w, s, actions, e) <= Bit(StillOpen(s, e))
    ensures var rows := CrmOf(Keys(Execution(w, s, actions).db.crm), e);
      |rows| <= 2 && (|rows| == 2 ==> rows[0].batch == rows[1].batch)
    decreases |actions|
  {
    if actions == [] {
      if e < |s.db.sequences| {
        assert LockOk(w, Look(s), e);
      } else {
        CrmOfFresh(Keys(s.db.crm), e);
      }
    } else {
      var a, next := actions[0], Step(w, s, actions[0]);
      StepKeepsLocking(w, s, a);
      EndsAtMostOnce(w, next, actions[1..], e);
      if Ends(w, s, a, e) {
        EndingTakesEffect(w, s, a, e);
      }
    }
  }

  // ----- What a committed advance inserts -----

  /** What the committed advance of a snapshot inserts: its next message, exactly when that message's id is not
      taken, by a row of the enrollment or by anyone else's. Either way the message is counted. */
  lemma InsertedExactlyWhenFree(w: Workflows, s: System, p: Pid, fate: Fate, wall: Instant, bs: Bindings)
    requires Locking(w, Look(s)) && p in s.advancers && s.advancers[p].Ready?
    requires var r := s.advancers[p].record;
      && Configured(w, r.enrollment.key) && fate.Lands() && Claimable(s.db, r)
      && IsSend(Advanced(w[r.enrollment.key], r.enrollment, wall, bs).result)
    ensures var r, n := s.advancers[p].record, StepAdvancer(w, s, p, fate, wall, bs);
      var a := Advanced(w[r.enrollment.key], r.enrollment, wall, bs);
      var free := !Taken(s.db.jobs, r.location, SequenceMessageId(r.id, Natural(r.enrollment.sentCount + 1)));
      && (Mail(n.db.jobs) == Mail(s.db.jobs) + [SmsOf(r.(enrollment := a.enrollment), a.result.value[0].body)] <==> free)
      && (Mail(n.db.jobs) == Mail(s.db.jobs) <==> !free)
      && r.id < |n.db.sequences| && n.db.sequences[r.id].enrollment.sentCount == r.enrollment.sentCount + 1
  {
    var r := s.advancers[p].record;
    assert Known(Look(s), r) && LockOk(w, Look(s), r.id);
    var a := Advanced(w[r.enrollment.key], r.enrollment, wall, bs);
    AdvanceEffect(w[r.enrollment.key], r.enrollment, wall, bs);
    AdvanceIsBatch(w[r.enrollment.key], r.enrollment, wall, bs);
    var _ := ApplyInView(w, s, r, a.enrollment, a.result.value, "", fate, wall);
    assert Mail(s.db.jobs) + [] == Mail(s.db.jobs);
    assert |Mail(s.db.jobs) + [SmsOf(r.(enrollment := a.enrollment), a.result.value[0].body)]| > |Mail(s.db.jobs)|;
  }

}
