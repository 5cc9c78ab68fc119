/** Runs from the empty system in which a reply is handled in full and its enrollment goes on. */
module MissedReplies {
  import opened Wrappers
  import opened SendWindow
  import opened Engine
  import opened LeasedQueue
  import opened Tables
  import opened Machine
  import opened Enrollments
  import opened Spacing
  import opened ReplySafety
  import opened Scenarios
  import opened Inbound

  const HEAR := HearReply(1, "+13125551212", "+13125550000", "ok", Succeeds)

  const ANSWER := ReplierStep(1, Succeeds, MINUTE)

  const ADVANCE := AdvancerStep(0, Succeeds, MINUTE, [])

  // ----- The enrollment is locked when the reply is heard -----

  lemma NothingToHear(gap: nat)
    ensures Step(Flows(gap), FirstClaimed([]), HEAR) == FirstClaimed([]).(repliers := map[1 := Replier([], "ok")])
  {
    var s := FirstClaimed([]);
    assert !Concerned(s.db.sequences[0], HEAR.phone, HEAR.to, s.db.now);
    assert LockConcerned(s.db.sequences, HEAR.phone, HEAR.to, s.db.now) == s.db.sequences;
    assert ConcernedRecords(s.db.sequences, HEAR.phone, HEAR.to, s.db.now) == [];
  }

  lemma NothingToAnswer(gap: nat)
    ensures Step(Flows(gap), FirstClaimed([]).(repliers := map[1 := Replier([], "ok")]), ANSWER) == FirstClaimed([])
  {
    assert map[1 := Replier([], "ok")] - {1} == map[];
  }

  lemma Claimed(gap: nat)
    ensures Execution(Flows(gap), Boot(0), Opening([])) == FirstClaimed([])
  {
    assert Scenarios.Before([]) == Boot(0);
    OpeningClaims(gap, [], []);
  }

  lemma FirstMessageGoesOut(gap: nat)
    ensures var n := Step(Flows(gap), FirstClaimed([]), ADVANCE);
      Rows(FirstClaimed([]), 0) == 0 && Rows(n, 0) == 1 && ActiveAt(Look(n), 0)
  {
    FirstAdvance(gap, [], Succeeds);
    FirstRowInserted();
    TwoRows(0);
  }

  /** While worker 0 is about to send message 1, the contact's reply is heard and handled without a trace, and then
      the message goes out to an enrollment that is still active. */
  lemma ReplyMissesLocked(gap: nat)
    ensures Execution(Flows(gap), Boot(0), Opening([]) + [HEAR] + [ANSWER]) == FirstClaimed([])
    ensures var n := Execution(Flows(gap), Boot(0), Opening([]) + [HEAR] + [ANSWER] + [ADVANCE]);
      Rows(n, 0) == 1 && ActiveAt(Look(n), 0)
  {
    Claimed(gap);
    NothingToHear(gap);
    StepOn(gap, Opening([]), FirstClaimed([]), HEAR, FirstClaimed([]).(repliers := map[1 := Replier([], "ok")]));
    NothingToAnswer(gap);
    StepOn(gap, Opening([]) + [HEAR], FirstClaimed([]).(repliers := map[1 := Replier([], "ok")]), ANSWER,
      FirstClaimed([]));
    FirstMessageGoesOut(gap);
    ExecutionSnoc(Flows(gap), Boot(0), Opening([]) + [HEAR] + [ANSWER], ADVANCE);
  }

  // ----- The enrollment is free, and a worker whose lease has expired comes back to it -----

  /** The lease of worker 0 has just expired. */
  function Stalled(): System {
    Stage(MINUTE + SEQUENCE_LEASE + 1, [], Person(Pending, Some(MINUTE), 0), Some(MINUTE + SEQUENCE_LEASE), map[], 0,
      map[0 := Ready(RecordOf(Person(Pending, Some(MINUTE), 0)))])
  }

  /** The reply holds the row. */
  function Answering(): System {
    var now := MINUTE + SEQUENCE_LEASE + 1;
    Stage(now, [], Person(Pending, Some(MINUTE), 0), Some(now + SEQUENCE_LEASE), map[], 0,
      map[0 := Ready(RecordOf(Person(Pending, Some(MINUTE), 0)))]).(
        repliers := map[1 := Replier([RecordOf(Person(Pending, Some(MINUTE), 0))], "ok")])
  }

  lemma LeaseExpires(gap: nat)
    ensures Execution(Flows(gap), Boot(0), Opening([]) + [Machine.Tick(SEQUENCE_LEASE + 1)]) == Stalled()
  {
    Claimed(gap);
    Waiting(gap, FirstClaimed([]), SEQUENCE_LEASE + 1);
    StepOn(gap, Opening([]), FirstClaimed([]), Machine.Tick(SEQUENCE_LEASE + 1), Stalled());
  }

  lemma ReplyTakesIt(gap: nat)
    ensures Step(Flows(gap), Stalled(), HEAR) == Answering() && Free(Stalled(), 0)
  {
    OneIsHeard(Stalled().db);
    HeardState(Flows(gap), Stalled(), 1, HEAR.phone, HEAR.to, HEAR.text);
  }

  /** A table of one concerned row: hearing the reply locks it, and its record is the whole answer. */
  lemma OneIsHeard(db: Database)
    requires |db.sequences| == 1 && Concerned(db.sequences[0], HEAR.phone, HEAR.to, db.now)
    ensures LockConcerned(db.sequences, HEAR.phone, HEAR.to, db.now) == [Locked(db.sequences[0], db.now)]
    ensures ConcernedRecords(db.sequences, HEAR.phone, HEAR.to, db.now) == [Snapshot(db.sequences, 0)]
  {
    OneConcerned(db.sequences, db.now);
  }

  lemma OneConcerned(sequences: seq<Sequence>, now: Instant)
    requires |sequences| == 1 && Concerned(sequences[0], HEAR.phone, HEAR.to, now)
    ensures ConcernedRecords(sequences, HEAR.phone, HEAR.to, now) == [Snapshot(sequences, 0)]
  {
    assert sequences[..0] == [] && ConcernedRecords(sequences[..0], HEAR.phone, HEAR.to, now) == [];
  }

  /** The stale worker's batch lands under the reply's lock and clears it. */
  lemma StaleBatchLands(gap: nat)
    ensures var n := Step(Flows(gap), Answering(), ADVANCE);
      && Rows(n, 0) == 1 && ActiveAt(Look(n), 0) && n.db.sequences[0].lockedUntil.None?
      && n.repliers == Answering().repliers
  {
    var w, r := Flows(gap), RecordOf(Person(Pending, Some(MINUTE), 0));
    var db := Answering().db;
    Scenarios.Sending(gap, MINUTE, r.enrollment);
    var x := Advanced(w["k"], r.enrollment, MINUTE, []);
    assert Claimable(db, r) && !Taken([], r.location, SequenceMessageId(0, 1));
    var _ := ApplyInView(w, Answering(), r, x.enrollment, x.result.value, "", Succeeds, MINUTE);
    StaleEffect(gap, x);
    IdsAppend([], SmsOf(r.(enrollment := x.enrollment), "hi"), 0);
    assert Mail(db.jobs) == [];
  }

  lemma StaleEffect(gap: nat, x: Progress)
    requires x == Advanced(FollowUp(gap), Person(Pending, Some(MINUTE), 0), MINUTE, []) && x.result.Ok?
    ensures var r := RecordOf(Person(Pending, Some(MINUTE), 0));
      Step(Flows(gap), Answering(), ADVANCE) ==
        Answering().(
          db := TryApply(Answering().db, r.(enrollment := x.enrollment), x.result.value, "", Succeeds, MINUTE),
          advancers := map[])
  {
    BatchLands(Flows(gap), Answering(), 0, MINUTE);
    assert map[0 := Ready(RecordOf(Person(Pending, Some(MINUTE), 0)))] - {0} == map[];
  }

  lemma BatchLands(w: Workflows, s: System, p: Pid, wall: Instant)
    requires p in s.advancers && s.advancers[p].Ready?
    requires var r := s.advancers[p].record;
      Configured(w, r.enrollment.key) && Claimable(s.db, r) &&
      Advanced(w[r.enrollment.key], r.enrollment, wall, []).result.Ok?
    ensures var r := s.advancers[p].record;
      var x := Advanced(w[r.enrollment.key], r.enrollment, wall, []);
      Step(w, s, AdvancerStep(p, Succeeds, wall, [])) ==
        s.(db := TryApply(s.db, r.(enrollment := x.enrollment), x.result.value, "", Succeeds, wall),
           advancers := s.advancers - {p})
  {}

  /** The reply's own batch is then refused, and it gives up. */
  lemma ReplyIsRefused(gap: nat)
    ensures var n := Step(Flows(gap), Answering(), ADVANCE);
      Step(Flows(gap), n, ANSWER) == n.(repliers := map[])
  {
    StaleBatchLands(gap);
    var n := Step(Flows(gap), Answering(), ADVANCE);
    Refused(Flows(gap), n, 1);
    assert n.repliers - {1} == map[];
  }

  lemma Refused(w: Workflows, s: System, p: Pid)
    requires Handling(s, p) && s.repliers[p].records[0].enrollment.key in w
    requires !Claimable(s.db, s.repliers[p].records[0])
    ensures Step(w, s, ReplierStep(p, Succeeds, MINUTE)) == s.(repliers := s.repliers - {p})
  {}

  /** A worker whose lease has expired comes back between the hearing of a reply and its handling: message 1 goes out,
      the reply is refused well within its own lease, and the enrollment is still active. */
  lemma ReplyRefusedAfterStale(gap: nat)
    ensures var s := Execution(Flows(gap), Boot(0), Opening([]) + [Machine.Tick(SEQUENCE_LEASE + 1)]);
      var h := Step(Flows(gap), s, HEAR);
      && Free(s, 0) && h.repliers[1].records != []
      && Answers(Flows(gap), h, [ADVANCE] + [ANSWER], 1, s.db.now + SEQUENCE_LEASE)
      && var n := Execution(Flows(gap), h, [ADVANCE] + [ANSWER]);
         1 !in n.repliers && Rows(n, 0) == 1 && ActiveAt(Look(n), 0)
  {
    LeaseExpires(gap);
    ReplyTakesIt(gap);
    StaleBatchLands(gap);
    ReplyIsRefused(gap);
    RefusedInTime(gap);
  }

  lemma RefusedInTime(gap: nat)
    ensures var n := Step(Flows(gap), Answering(), ADVANCE);
      && Answers(Flows(gap), Answering(), [ADVANCE] + [ANSWER], 1, MINUTE + SEQUENCE_LEASE + 1 + SEQUENCE_LEASE)
      && Execution(Flows(gap), Answering(), [ADVANCE] + [ANSWER]) == n.(repliers := map[])
  {
    var w, until := Flows(gap), MINUTE + SEQUENCE_LEASE + 1 + SEQUENCE_LEASE;
    var n := Step(w, Answering(), ADVANCE);
    ReplyIsRefused(gap);
    TimeMovesOn(w, Answering(), ADVANCE);
    ExecutionConcat(w, Answering(), [ADVANCE], [ANSWER]);
    ExecutionOne(w, Answering(), ADVANCE);
    ExecutionOne(w, n, ANSWER);
    assert ([ADVANCE] + [ANSWER])[1..] == [ANSWER];
    assert !Handling(n.(repliers := map[]), 1);
    assert Answers(w, n, [ANSWER], 1, until);
  }

  // ----- The skipped reply is never handled again -----

  const LETTER := Letter("+13125551212", "+13125550000", "ok")

  lemma DoOn(gap: nat, deeds: seq<Deed>, j: Bridge, d: Deed, n: Bridge)
    requires Doing(Flows(gap), Inbound.Empty(0), deeds) == j && Do(Flows(gap), j, d) == n
    ensures Doing(Flows(gap), Inbound.Empty(0), deeds + [d]) == n
  {
    assert (deeds + [d])[..|deeds|] == deeds;
  }

  function Elsewheres(): seq<Deed> {
    [] + [Elsewhere(ENROLL)] + [Elsewhere(Machine.Tick(MINUTE))] + [Elsewhere(AdvancerClaim(0, Succeeds))]
  }

  /** The system at `sys`, the inbound table untouched. */
  function Quiet(sys: System): Bridge { Inbound.Empty(0).(sys := sys) }

  lemma ElsewhereIs(gap: nat, sys: System, a: Action, next: System)
    requires !OfReplies(a) && Step(Flows(gap), sys, a) == next
    ensures Do(Flows(gap), Quiet(sys), Elsewhere(a)) == Quiet(next)
  {}

  lemma ElsewhereEnrolls(gap: nat)
    ensures Doing(Flows(gap), Inbound.Empty(0), [] + [Elsewhere(ENROLL)]) == Quiet(Scenarios.Enrolled([], 0))
  {
    Enrolling(gap, []);
    assert Scenarios.Before([]) == Boot(0) && Inbound.Empty(0) == Quiet(Boot(0));
    ElsewhereIs(gap, Boot(0), ENROLL, Scenarios.Enrolled([], 0));
    DoOn(gap, [], Inbound.Empty(0), Elsewhere(ENROLL), Quiet(Scenarios.Enrolled([], 0)));
  }

  lemma ElsewhereClaims(gap: nat)
    ensures Doing(Flows(gap), Inbound.Empty(0), Elsewheres()) == Quiet(FirstClaimed([]))
  {
    var tick, claim := Machine.Tick(MINUTE), AdvancerClaim(0, Succeeds);
    ElsewhereEnrolls(gap);
    Waiting(gap, Scenarios.Enrolled([], 0), MINUTE);
    ElsewhereIs(gap, Scenarios.Enrolled([], 0), tick, Scenarios.Enrolled([], MINUTE));
    DoOn(gap, [] + [Elsewhere(ENROLL)], Quiet(Scenarios.Enrolled([], 0)), Elsewhere(tick),
      Quiet(Scenarios.Enrolled([], MINUTE)));
    Claiming(gap, MINUTE, [], Person(Pending, Some(MINUTE), 0), map[], 0);
    ElsewhereIs(gap, Scenarios.Enrolled([], MINUTE), claim, FirstClaimed([]));
    DoOn(gap, [] + [Elsewhere(ENROLL)] + [Elsewhere(tick)], Quiet(Scenarios.Enrolled([], MINUTE)), Elsewhere(claim),
      Quiet(FirstClaimed([])));
  }

  /** The handler of the one inbound row, at a stage of its visit. */
  function Visiting(sys: System, v: Visit): Bridge {
    Bridge(
      Inbox.State([Inbox.Received("e", MINUTE)], map[1 := Inbox.Worker(0, MINUTE + LEASE, 0, false, true)]),
      [LETTER], sys, map[1 := v])
  }

  /** The row is processed. */
  function Processed(sys: System): Bridge {
    Bridge(Inbox.State([Inbox.Settled(Inbox.Received("e", MINUTE))], map[]), [LETTER], sys, map[])
  }

  lemma LetterArrives(gap: nat)
    ensures Do(Flows(gap), Quiet(FirstClaimed([])), Arrives(1, "e", LETTER, true)) == Visiting(FirstClaimed([]), Calling)
  {
    assert [] + [Inbox.Received("e", MINUTE)] == [Inbox.Received("e", MINUTE)];
    assert [] + [LETTER] == [LETTER];
  }

  lemma LetterIsHeard(gap: nat)
    ensures Do(Flows(gap), Visiting(FirstClaimed([]), Calling), Hears(1, Succeeds)) ==
      Visiting(FirstClaimed([]).(repliers := map[1 := Replier([], "ok")]), Replying([]))
  {
    var j := Visiting(FirstClaimed([]), Calling);
    assert "k" in Flows(gap);
    NothingToHear(gap);
    NobodyFree();
    HearingIs(Flows(gap), j, 1);
    assert map[1 := Calling][1 := Replying([])] == map[1 := Replying([])];
  }

  lemma NobodyFree()
    ensures var j := Visiting(FirstClaimed([]), Calling); HearAction(j, 1, Succeeds) == HEAR && Claims(j, 1) == []
  {
    assert !Concerned(FirstClaimed([]).db.sequences[0], HEAR.phone, HEAR.to, MINUTE);
  }

  lemma HearingIs(w: Workflows, j: Bridge, p: Pid)
    requires w != map[] && AtWork(j, p) && j.visits[p].Calling?
    ensures Do(w, j, Hears(p, Succeeds)) ==
      Bridge(j.inbox, j.letters, Step(w, j.sys, HearAction(j, p, Succeeds)), j.visits[p := Replying(Claims(j, p))])
  {}

  lemma LetterIsAnswered(gap: nat)
    ensures Do(Flows(gap), Visiting(FirstClaimed([]).(repliers := map[1 := Replier([], "ok")]), Replying([])),
        Handles(1, Succeeds, MINUTE)) ==
      Visiting(FirstClaimed([]), Answered([]))
  {
    NothingToAnswer(gap);
    assert map[1 := Replying([])][1 := Answered([])] == map[1 := Answered([])];
  }

  lemma LetterIsMarked(gap: nat)
    ensures Do(Flows(gap), Visiting(FirstClaimed([]), Answered([])), Marks(1, true, Succeeds)) ==
      Processed(FirstClaimed([]))
  {
    var s := Visiting(FirstClaimed([]), Answered([])).inbox;
    assert s.rows[0 := Inbox.Settled(s.rows[0])] == [Inbox.Settled(Inbox.Received("e", MINUTE))];
    assert s.workers - {1} == map[] && map[1 := Answered([])] - {1} == map[];
  }

  function Skipping(): seq<Deed> {
    Elsewheres() + [Arrives(1, "e", LETTER, true)] + [Hears(1, Succeeds)] + [Handles(1, Succeeds, MINUTE)]
    + [Marks(1, true, Succeeds)] + [Elsewhere(ADVANCE)]
  }

  lemma SkippingMarks(gap: nat)
    ensures Doing(Flows(gap), Inbound.Empty(0), Skipping()[..|Skipping()| - 1]) == Processed(FirstClaimed([]))
  {
    var heard := FirstClaimed([]).(repliers := map[1 := Replier([], "ok")]);
    var deeds := Elsewheres();
    ElsewhereClaims(gap);
    LetterArrives(gap);
    DoOn(gap, deeds, Quiet(FirstClaimed([])), Arrives(1, "e", LETTER, true), Visiting(FirstClaimed([]), Calling));
    deeds := deeds + [Arrives(1, "e", LETTER, true)];
    LetterIsHeard(gap);
    DoOn(gap, deeds, Visiting(FirstClaimed([]), Calling), Hears(1, Succeeds), Visiting(heard, Replying([])));
    deeds := deeds + [Hears(1, Succeeds)];
    LetterIsAnswered(gap);
    DoOn(gap, deeds, Visiting(heard, Replying([])), Handles(1, Succeeds, MINUTE),
      Visiting(FirstClaimed([]), Answered([])));
    deeds := deeds + [Handles(1, Succeeds, MINUTE)];
    LetterIsMarked(gap);
    DoOn(gap, deeds, Visiting(FirstClaimed([]), Answered([])), Marks(1, true, Succeeds), Processed(FirstClaimed([])));
    deeds := deeds + [Marks(1, true, Succeeds)];
    assert Skipping()[..|Skipping()| - 1] == deeds;
  }

  /** The reply is heard, found to concern nobody who is free, forwarded and marked processed; then message 1 goes out,
      and the enrollment waits on for a reply that has been dealt with for good. */
  lemma SkippedForGood(gap: nat)
    ensures var j := Doing(Flows(gap), Inbound.Empty(0), Skipping());
      j.inbox.rows == [Inbox.Settled(Inbox.Received("e", MINUTE))] && Rows(j.sys, 0) == 1 && ActiveAt(Look(j.sys), 0)
  {
    SkippingMarks(gap);
    FirstMessageGoesOut(gap);
    assert Skipping() == Skipping()[..|Skipping()| - 1] + [Elsewhere(ADVANCE)];
    DoOn(gap, Skipping()[..|Skipping()| - 1], Processed(FirstClaimed([])), Elsewhere(ADVANCE),
      Processed(Step(Flows(gap), FirstClaimed([]), ADVANCE)));
  }

}
