/** The condition of Spacing is exact: whatever hastens a message lets some run insert the next one too early. */
module Haste {
  import opened Wrappers
  import opened SendWindow
  import opened Catalog
  import opened Template
  import opened Engine
  import opened LeasedQueue
  import opened Tables
  import opened Machine
  import opened Enrollments
  import opened Numbering
  import opened Spacing

  // ----- Workers and claims -----

  lemma {:induction false} FreshPid(ps: set<Pid>) returns (q: Pid)
    ensures forall p :: p in ps ==> p < q
  {
    if ps == {} {
      q := 0;
    } else {
      var p :| p in ps;
      var r := FreshPid(ps - {p});
      q := if p < r then r else p + 1;
      forall o | o in ps ensures o < q {
        assert o == p || o in ps - {p};
      }
    }
  }

  function DueRows(s: System): set<nat> {
    set i | 0 <= i < |s.db.sequences| && Due(s.db.sequences[i], s.db.now)
  }

  predicate OnlyClaims(actions: seq<Action>) { forall i :: 0 <= i < |actions| ==> actions[i].AdvancerClaim? }

  /** Worker q holds a fresh snapshot of e, whose row is locked for it; nothing was sent meanwhile. */
  ghost predicate Taking(s: System, t: System, e: nat, q: Pid) {
    && e < |s.db.sequences| && q in t.advancers && t.advancers[q] == Ready(Snapshot(s.db.sequences, e))
    && Claimable(t.db, Snapshot(s.db.sequences, e)) && LocksOnly(Look(s), Look(t))
  }

  lemma OneClaim(w: Workflows, s: System, q: Pid, i: nat)
    requires FirstDue(s.db.sequences, s.db.now) == Some(i) && q !in s.advancers
    ensures var t := Step(w, s, AdvancerClaim(q, Succeeds));
      && t.db == LockSequence(s.db, i) && Taking(s, t, i, q) && DueRows(t) == DueRows(s) - {i}
  {
    ClaimLocksOnly(s, q, Succeeds);
    var t := Step(w, s, AdvancerClaim(q, Succeeds));
    assert SequenceToClaim(s, q, Succeeds) == Some(i);
    assert SEQUENCE_LEASE > 0;
    assert forall j :: 0 <= j < |s.db.sequences| && j != i ==> t.db.sequences[j] == s.db.sequences[j];
  }

  /** Any due enrollment is claimed sooner or later: those due before it are locked one by one. */
  lemma {:induction false} ClaimUntilTaken(w: Workflows, s: System, e: nat) returns (claims: seq<Action>, q: Pid)
    requires e < |s.db.sequences| && Due(s.db.sequences[e], s.db.now)
    ensures OnlyClaims(claims) && Taking(s, Execution(w, s, claims), e, q)
    decreases |DueRows(s)|
  {
    q := FreshPid(s.advancers.Keys);
    var i := FirstDue(s.db.sequences, s.db.now).value;
    var first := AdvancerClaim(q, Succeeds);
    var next := Step(w, s, first);
    OneClaim(w, s, q, i);
    ExecutionOne(w, s, first);
    if i == e {
      claims := [first];
    } else {
      assert i in DueRows(s);
      var more;
      more, q := ClaimUntilTaken(w, next, e);
      claims := [first] + more;
      ExecutionConcat(w, s, [first], more);
      assert Snapshot(next.db.sequences, e) == Snapshot(s.db.sequences, e);
    }
  }

  // ----- What sends nothing changes nothing here -----

  predicate Silent(actions: seq<Action>) { forall i :: 0 <= i < |actions| ==> !actions[i].AdvancerStep? }

  lemma SilentStep(w: Workflows, s: System, actions: seq<Action>, e: nat, last: Option<Instant>)
    requires actions != [] && !actions[0].AdvancerStep?
    ensures Undisturbed(w, s, actions, e, last) <==> Undisturbed(w, Step(w, s, actions[0]), actions[1..], e, last)
    ensures Apart(w, s, actions, e, last) <==> Apart(w, Step(w, s, actions[0]), actions[1..], e, last)
  {}

  lemma {:induction false} SilentPrefix(
    w: Workflows, s: System, quiet: seq<Action>, a: Action, e: nat, last: Option<Instant>)
    requires Silent(quiet)
    ensures Undisturbed(w, s, quiet + [a], e, last) <==> Undisturbed(w, Execution(w, s, quiet), [a], e, last)
    ensures Apart(w, s, quiet + [a], e, last) <==> Apart(w, Execution(w, s, quiet), [a], e, last)
    decreases |quiet|
  {
    if quiet == [] {
      assert quiet + [a] == [a];
    } else {
      assert (quiet + [a])[1..] == quiet[1..] + [a] && (quiet + [a])[0] == quiet[0];
      SilentPrefix(w, Step(w, s, quiet[0]), quiet[1..], a, e, last);
      SilentStep(w, s, quiet + [a], e, last);
    }
  }

  // ----- The message that comes too early -----

  /** A worker with a fresh snapshot commits it. */
  lemma FreshCommitInserts(w: Workflows, t: System, q: Pid, e: nat, at: Instant, bs: Bindings)
    requires q in t.advancers && t.advancers[q].Ready? && t.advancers[q].record.id == e
    requires e < |t.db.sequences| && Counting(w, Look(t), e, t.db.sequences[e].location)
    requires var r := t.advancers[q].record;
      && Known(Look(t), r) && KnownKey(w, r.enrollment) && Claimable(t.db, r) && Configured(w, r.enrollment.key)
      && SendsAt(w[r.enrollment.key], r.enrollment, at, bs) && r.enrollment.sentCount == Rows(t, e)
    ensures Inserts(w, t, AdvancerStep(q, Succeeds, at, bs), e)
  {
    var r := t.advancers[q].record;
    var a := Advanced(w[r.enrollment.key], r.enrollment, at, bs);
    AdvanceEffect(w[r.enrollment.key], r.enrollment, at, bs);
    TakenIndices(w, t, e, Rows(t, e) + 1);
    FreeIsInserted(w, t, r, at, bs);
    StepIsEffect(w, t, AdvancerStep(q, Succeeds, at, bs));
    IdsAppend(Mail(t.db.jobs), SmsOf(r.(enrollment := a.enrollment), a.result.value[0].body), e);
  }

  lemma StepIsEffect(w: Workflows, s: System, a: Action)
    requires a.AdvancerStep? && a.p in s.advancers
    ensures Step(w, s, a).db == AdvancerEffect(w, s.db, s.advancers[a.p], a.fate, a.wall, a.bs)
  {}

  lemma FreeIsInserted(w: Workflows, t: System, r: Record, at: Instant, bs: Bindings)
    requires Known(Look(t), r) && KnownKey(w, r.enrollment) && Claimable(t.db, r) && Configured(w, r.enrollment.key)
    requires SendsAt(w[r.enrollment.key], r.enrollment, at, bs) && r.enrollment.sentCount >= 0
    requires !Taken(t.db.jobs, r.location, SequenceMessageId(r.id, r.enrollment.sentCount + 1))
    ensures var a := Advanced(w[r.enrollment.key], r.enrollment, at, bs);
      Mail(AdvancerEffect(w, t.db, Ready(r), Succeeds, at, bs).jobs) ==
        Mail(t.db.jobs) + [SmsOf(r.(enrollment := a.enrollment), a.result.value[0].body)]
  {
    var a := Advanced(w[r.enrollment.key], r.enrollment, at, bs);
    AdvanceEffect(w[r.enrollment.key], r.enrollment, at, bs);
    AdvanceIsBatch(w[r.enrollment.key], r.enrollment, at, bs);
    var _ := ApplyInView(w, t, r, a.enrollment, a.result.value, "", Succeeds, at);
  }

  lemma OneStepTooEarly(w: Workflows, t: System, q: Pid, e: nat, at: Instant, bs: Bindings, last: Instant)
    requires q in t.advancers && t.advancers[q].Ready? && t.advancers[q].record.id == e
    requires InOrder(t, AdvancerStep(q, Succeeds, at, bs)) && t.advancers[q].record.enrollment.sentCount == Rows(t, e)
    requires Inserts(w, t, AdvancerStep(q, Succeeds, at, bs), e) && EarlyFor(w, t, e, last, at)
    ensures var a := AdvancerStep(q, Succeeds, at, bs);
      Undisturbed(w, t, [a], e, Some(last)) && !Apart(w, t, [a], e, Some(last))
  {
    var a := AdvancerStep(q, Succeeds, at, bs);
    assert [a][1..] == [];
    assert Undisturbed(w, Step(w, t, a), [], e, Some(at));
  }

  /** A free row that counts all its messages and may send too early. */
  ghost predicate Poised(w: Workflows, s: System, e: nat, last: Instant) {
    && e < |s.db.sequences| && Goes(s.db.sequences[e].enrollment) && s.db.sequences[e].lockedUntil.None?
    && s.db.sequences[e].enrollment.sentCount == Rows(s, e) && MaySendEarly(w, s.db.sequences[e].enrollment, last)
  }

  ghost predicate Fair(
    w: Workflows, s: System, actions: seq<Action>, e: nat, location: string, last: Option<Instant>)
  {
    Undisturbed(w, s, actions, e, last) && Clear(Look(Execution(w, s, actions)), e, location)
  }

  /** Time passes until the run is due, and it is claimed. */
  lemma PoisedIsTaken(w: Workflows, s: System, e: nat) returns (quiet: seq<Action>, q: Pid)
    requires e < |s.db.sequences| && Goes(s.db.sequences[e].enrollment) && s.db.sequences[e].lockedUntil.None?
    requires s.db.sequences[e].enrollment.nextRun.Some?
    ensures Silent(quiet) && Taking(s, Execution(w, s, quiet), e, q)
  {
    var next := s.db.sequences[e].enrollment.nextRun.value;
    var d: nat := if s.db.now < next then next - s.db.now else 0;
    var due := TimePasses(w, s, d, e);
    var claims;
    claims, q := ClaimUntilTaken(w, due, e);
    quiet := [Machine.Tick(d)] + claims;
    ExecutionConcat(w, s, [Machine.Tick(d)], claims);
    ExecutionOne(w, s, Machine.Tick(d));
    TakenSince(s, due, Execution(w, s, quiet), e, q);
  }

  lemma TimePasses(w: Workflows, s: System, d: nat, e: nat) returns (due: System)
    requires e < |s.db.sequences| && Goes(s.db.sequences[e].enrollment) && s.db.sequences[e].lockedUntil.None?
    requires s.db.sequences[e].enrollment.nextRun.Some? && s.db.sequences[e].enrollment.nextRun.value <= s.db.now + d
    ensures due == Step(w, s, Machine.Tick(d)) && Look(due) == Look(s) && Due(due.db.sequences[e], due.db.now)
  {
    due := s.(db := s.db.(now := s.db.now + d));
  }

  lemma TakenSince(s: System, due: System, t: System, e: nat, q: Pid)
    requires Look(due) == Look(s) && Taking(due, t, e, q)
    ensures Taking(s, t, e, q)
  {}

  /** Then it is sent by a clock that is too early. */
  lemma PoisedSendsEarly(w: Workflows, s: System, e: nat, location: string, last: Instant)
    returns (actions: seq<Action>)
    requires WellKeyed(w) && Locking(w, Look(s)) && Counting(w, Look(s), e, location) && Poised(w, s, e, last)
    ensures Fair(w, s, actions, e, location, Some(last)) && !Apart(w, s, actions, e, Some(last))
  {
    var x := s.db.sequences[e].enrollment;
    var at, bs :| Ranges(bs, x.contact.variables) && TooEarly(w[x.key], last, at) && SendsAt(w[x.key], x, at, bs);
    assert LockOk(w, Look(s), e);
    AdvanceEffect(w[x.key], x, at, bs);
    var quiet, q := PoisedIsTaken(w, s, e);
    var t, a := Execution(w, s, quiet), AdvancerStep(q, Succeeds, at, bs);
    TakenStandsClear(w, s, quiet, t, e, location);
    TakenSendsEarly(w, s, t, q, e, location, at, bs, last);
    SilentPrefix(w, s, quiet, a, e, Some(last));
    ExecutionSnoc(w, s, quiet, a);
    actions := quiet + [a];
  }

  lemma TakenSendsEarly(
    w: Workflows, s: System, t: System, q: Pid, e: nat, location: string, at: Instant, bs: Bindings, last: Instant)
    requires Taking(s, t, e, q) && Locking(w, Look(t)) && Counting(w, Look(t), e, location)
    requires var x := s.db.sequences[e].enrollment;
      && Configured(w, x.key) && Ranges(bs, x.contact.variables) && TooEarly(w[x.key], last, at)
      && SendsAt(w[x.key], x, at, bs) && x.sentCount == Rows(s, e)
    ensures var a := AdvancerStep(q, Succeeds, at, bs);
      && Undisturbed(w, t, [a], e, Some(last)) && !Apart(w, t, [a], e, Some(last))
      && Clear(Look(Step(w, t, a)), e, location)
  {
    var r := t.advancers[q].record;
    assert Known(Look(t), r) && LockOk(w, Look(t), e);
    FreshCommitInserts(w, t, q, e, at, bs);
    OneStepTooEarly(w, t, q, e, at, bs, last);
    CommitStaysClear(w, t, AdvancerStep(q, Succeeds, at, bs), e, location);
  }

  lemma TakenStandsClear(w: Workflows, s: System, quiet: seq<Action>, t: System, e: nat, location: string)
    requires WellKeyed(w) && Locking(w, Look(s)) && Counting(w, Look(s), e, location)
    requires t == Execution(w, s, quiet) && LocksOnly(Look(s), Look(t))
    ensures Locking(w, Look(t)) && Counting(w, Look(t), e, location)
  {
    assert Clear(Look(t), e, location);
    EnrollmentRuns.TerminalIsForever(w, s, quiet);
    RunKeepsCounting(w, s, quiet, e, location);
  }

  /** Workers insert no client rows. */
  lemma CommitStaysClear(w: Workflows, t: System, a: Action, e: nat, location: string)
    requires Locking(w, Look(t)) && Counting(w, Look(t), e, location) && a.AdvancerStep?
    ensures Clear(Look(Step(w, t, a)), e, location)
  {
    WorkersKeepCounting(w, t, a, e, location);
  }

  // ----- What hastens leaves the row poised -----

  lemma PutForwardIsPoised(w: Workflows, s: System, a: Action, e: nat, last: Instant)
    requires PutsForward(w, s, a, e, last)
    ensures Poised(w, Step(w, s, a), e, last) && !Inserts(w, s, a, e)
  {
    var n := Step(w, s, a);
    assert n.db == PostponeSequence(s.db, e, s.advancers[a.p].delay);
  }

  /** The index is taken: the batch only rewrites the row. */
  lemma TakenIsOnlyCounted(w: Workflows, s: System, r: Record, fate: Fate, wall: Instant, bs: Bindings)
    requires Known(Look(s), r) && KnownKey(w, r.enrollment) && fate.Lands() && Claimable(s.db, r)
    requires Configured(w, r.enrollment.key) && SendsAt(w[r.enrollment.key], r.enrollment, wall, bs)
    requires 0 <= r.enrollment.sentCount
    requires Taken(s.db.jobs, r.location, SequenceMessageId(r.id, r.enrollment.sentCount + 1))
    ensures var n := AdvancerEffect(w, s.db, Ready(r), fate, wall, bs);
      && Mail(n.jobs) == Mail(s.db.jobs) && |n.sequences| == |s.db.sequences|
      && n.sequences[r.id].lockedUntil.None?
      && n.sequences[r.id].enrollment == Advanced(w[r.enrollment.key], r.enrollment, wall, bs).enrollment
  {
    var x := Advanced(w[r.enrollment.key], r.enrollment, wall, bs);
    AdvanceEffect(w[r.enrollment.key], r.enrollment, wall, bs);
    AdvanceIsBatch(w[r.enrollment.key], r.enrollment, wall, bs);
    var _ := ApplyInView(w, s, r, x.enrollment, x.result.value, "", fate, wall);
    AppliedRow(s.db.sequences[r.id], r, x.enrollment, "");
    assert Mail(s.db.jobs) + [] == Mail(s.db.jobs);
  }

  lemma SentAgainIsPoised(w: Workflows, s: System, a: Action, e: nat, location: string, last: Instant)
    requires Locking(w, Look(s)) && Counting(w, Look(s), e, location) && SendsAgain(w, s, a, e, last)
    ensures Poised(w, Step(w, s, a), e, last) && !Inserts(w, s, a, e)
  {
    var r := s.advancers[a.p].record;
    assert Known(Look(s), r) && Counted(Look(s), r) && LockOk(w, Look(s), e);
    AdvanceEffect(w[r.enrollment.key], r.enrollment, a.wall, a.bs);
    TakenIndices(w, s, e, Rows(s, e));
    TakenIsOnlyCounted(w, s, r, a.fate, a.wall, a.bs);
    StepIsEffect(w, s, a);
  }

  // ----- What "may send early" comes to -----

  ghost predicate Renders(d: Definition, x: Enrollment) {
    0 <= x.variant < |d.messages| &&
    exists bs :: Ranges(bs, x.contact.variables) && RenderIn(d.messages[x.variant], bs).Ok?
  }

  /** The run is due, and the contact's window open, at some instant that is too early. */
  ghost predicate OpensEarly(d: Definition, x: Enrollment, last: Instant) {
    x.nextRun.Some? &&
    exists t :: x.nextRun.value <= t && TooEarly(d, last, t) && OnDuty(d.window, t, x.contact.zone)
  }

  lemma MayExactly(w: Workflows, x: Enrollment, last: Instant)
    requires WellKeyed(w) && KnownKey(w, x)
    ensures var d := w[x.key];
      MaySendEarly(w, x, last) <==>
        && d.enabled && !Stopped(x) && d.kind != ManualFollowUp && x.sentCount < d.maxOccurrences
        && !x.contact.zone.Unloadable? && OpensEarly(d, x, last) && Renders(d, x)
  {
    var d := w[x.key];
    forall t, bs | SendsAt(d, x, t, bs) ensures SendsExactly(d, x, t, bs) {
      SendsUnfolded(d, x, t, bs);
    }
    forall t, bs | SendsExactly(d, x, t, bs) ensures SendsAt(d, x, t, bs) {
      SendsUnfolded(d, x, t, bs);
    }
    if d.enabled && OpensEarly(d, x, last) && Renders(d, x) {
      var t :| x.nextRun.value <= t && TooEarly(d, last, t) && OnDuty(d.window, t, x.contact.zone);
      var bs :| Ranges(bs, x.contact.variables) && RenderIn(d.messages[x.variant], bs).Ok?;
      SendsUnfolded(d, x, t, bs);
    }
  }

  predicate SendsExactly(d: Definition, x: Enrollment, t: Instant, bs: Bindings) {
    && !Stopped(x) && d.kind != ManualFollowUp && x.sentCount < d.maxOccurrences && !x.contact.zone.Unloadable?
    && x.nextRun.Some? && x.nextRun.value <= t && OnDuty(d.window, t, x.contact.zone)
    && 0 <= x.variant < |d.messages| && RenderIn(d.messages[x.variant], bs).Ok?
  }

  lemma SendsUnfolded(d: Definition, x: Enrollment, t: Instant, bs: Bindings)
    requires x.key == d.key
    ensures SendsAt(d, x, t, bs) <==> SendsExactly(d, x, t, bs)
  {}

  // ----- Main result -----

  /** After any run in which nothing has hastened e, and for any next action: all runs that go on from there without
      haste keep the messages of e apart exactly when that action does not hasten it. */
  lemma HasteExactly(w: Workflows, now: Instant, before: seq<Action>, a: Action, e: nat, location: string)
    requires WellKeyed(w) && Undisturbed(w, Boot(now), before, e, None)
    requires InOrder(Execution(w, Boot(now), before), a)
    requires Clear(Look(Step(w, Execution(w, Boot(now), before), a)), e, location)
    ensures var s, last := Execution(w, Boot(now), before), LastOf(w, Boot(now), before, e, None);
      var n, later := Step(w, s, a), Last(w, s, a, e, last);
      (forall rest :: Fair(w, n, rest, e, location, later) ==> Apart(w, n, rest, e, later)) <==>
      !Hastens(w, s, a, e, last)
  {
    var s, last := Execution(w, Boot(now), before), LastOf(w, Boot(now), before, e, None);
    var n, later := Step(w, s, a), Last(w, s, a, e, last);
    BeforeHaste(w, now, before, a, e, location);
    if Hastens(w, s, a, e, last) {
      var rest := HasteGoesWrong(w, s, a, e, location, last.value);
      assert Fair(w, n, rest, e, location, later);
    } else {
      StepKeepsRested(w, s, a, e, location, last);
      forall rest | Fair(w, n, rest, e, location, later) ensures Apart(w, n, rest, e, later) {
        RunKeepsApart(w, n, rest, e, location, later);
      }
    }
  }

  lemma HasteGoesWrong(w: Workflows, s: System, a: Action, e: nat, location: string, last: Instant)
    returns (rest: seq<Action>)
    requires WellKeyed(w) && Locking(w, Look(s)) && Counting(w, Look(s), e, location)
    requires Locking(w, Look(Step(w, s, a))) && Counting(w, Look(Step(w, s, a)), e, location)
    requires Hastens(w, s, a, e, Some(last))
    ensures Last(w, s, a, e, Some(last)) == Some(last)
    ensures Fair(w, Step(w, s, a), rest, e, location, Some(last)) && !Apart(w, Step(w, s, a), rest, e, Some(last))
  {
    if PutsForward(w, s, a, e, last) {
      PutForwardIsPoised(w, s, a, e, last);
    } else {
      SentAgainIsPoised(w, s, a, e, location, last);
    }
    rest := PoisedSendsEarly(w, Step(w, s, a), e, location, last);
  }

  lemma BeforeHaste(w: Workflows, now: Instant, before: seq<Action>, a: Action, e: nat, location: string)
    requires WellKeyed(w) && Undisturbed(w, Boot(now), before, e, None)
    requires Clear(Look(Step(w, Execution(w, Boot(now), before), a)), e, location)
    ensures var s := Execution(w, Boot(now), before);
      && Locking(w, Look(s)) && Counting(w, Look(s), e, location)
      && Rested(w, Look(s), e, LastOf(w, Boot(now), before, e, None))
      && Locking(w, Look(Step(w, s, a))) && Counting(w, Look(Step(w, s, a)), e, location)
  {
    var s := Execution(w, Boot(now), before);
    EnrollmentRuns.BootIsLocking(w, now);
    EnrollmentRuns.TerminalIsForever(w, Boot(now), before);
    BootIsCounting(w, now, e, location);
    ExecutionOne(w, s, a);
    ClearAllAlong(w, s, [a], e, location);
    RunKeepsCounting(w, Boot(now), before, e, location);
    RunKeepsApart(w, Boot(now), before, e, location, None);
    StepKeepsLocking(w, s, a);
    StepKeepsCounting(w, s, a, e, location);
  }

}
