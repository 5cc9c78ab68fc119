/** Runs from the empty system that end where one would not expect, for a follow-up of two messages. */
module Scenarios {
  import opened Wrappers
  import opened Strings
  import opened SendWindow
  import opened Catalog
  import opened Template
  import opened Engine
  import opened LeasedQueue
  import opened Tables
  import opened Machine
  import opened Enrollments
  import opened Spacing

  /** A follow-up of two messages, `gap` apart; without a repeat interval when that is zero. */
  function FollowUp(gap: nat): Definition {
    Definition("k", "follow-up", Published, true, RecurringSms, MINUTE, gap, 2, ["hi"], Rate(1, SECOND),
      Window(0, 1440), false, "", "")
  }

  function Flows(gap: nat): Workflows { map["k" := FollowUp(gap)] }

  function NextAfter(gap: nat, now: Instant): Option<Instant> { if gap > 0 then Some(now + gap) else None }

  type Rates = map<string, RateLimit.Allowance>

  const PERSON := Contact("c", "+13125551212", Unset, Some(0), "form", map[])

  /** The one enrollment of these runs. */
  function Person(state: State, nextRun: Option<Instant>, sent: int): Enrollment {
    Enrollment("k", PERSON, state, nextRun, 0, sent)
  }

  /** A system with that enrollment, the given outbound rows, and at most worker 0 on it. */
  function Stage(
    now: Instant, jobs: seq<Job>, e: Enrollment, lock: Option<Instant>, rates: Rates,
    batches: nat, advancers: map<Pid, Advancer>): System
  {
    System(
      Database(now, true, jobs, {}, [Sequence("x", "loc", "+13125550000", e, lock, "")], [], rates, map[], batches),
      map[], map[], map[], map[], advancers, map[], map[])
  }

  function Before(jobs: seq<Job>): System { Boot(0).(db := Boot(0).db.(jobs := jobs)) }

  function RecordOf(e: Enrollment): Record { Record(0, "loc", "+13125550000", e) }

  const ENROLL := EnrollContact("x", "loc", "+13125550000", "k", PERSON, 0, 0)

  lemma Enrolling(gap: nat, jobs: seq<Job>)
    ensures Step(Flows(gap), Before(jobs), ENROLL) ==
      Stage(0, jobs, Person(Pending, Some(MINUTE), 0), None, map[], 0, map[])
  {
    assert TrimSpace("form") == "form" by {
      TrimForm();
    }
    assert Engine.Start(FollowUp(gap), PERSON, 0, 0) == Ok(Person(Pending, Some(MINUTE), 0));
  }

  lemma TrimForm()
    ensures TrimSpace("form") == "form"
  {}

  lemma Waiting(gap: nat, s: System, d: nat)
    ensures Step(Flows(gap), s, Machine.Tick(d)) == s.(db := s.db.(now := s.db.now + d))
  {}

  /** The enrollment is due and free: worker 0 claims it. */
  lemma Claiming(gap: nat, now: Instant, jobs: seq<Job>, e: Enrollment, rates: Rates, batches: nat)
    requires (e.state == Pending || e.state == AwaitingReply) && e.nextRun.Some? && e.nextRun.value <= now
    ensures Step(Flows(gap), Stage(now, jobs, e, None, rates, batches, map[]), AdvancerClaim(0, Succeeds)) ==
      Stage(now, jobs, e, Some(now + SEQUENCE_LEASE), rates, batches, map[0 := Ready(RecordOf(e))])
  {
    var s := Stage(now, jobs, e, None, rates, batches, map[]);
    assert Tables.Due(s.db.sequences[0], now);
    assert FirstDue(s.db.sequences, now) == Some(0);
    assert s.db.sequences[0 := Locked(s.db.sequences[0], now)] == [Locked(s.db.sequences[0], now)];
  }

  /** Any instant is inside the window of the whole day. */
  lemma AlwaysOpen(gap: nat, now: Instant)
    ensures NextAllowed(FollowUp(gap).window, now, 0) == Slot(now, true)
  {}

  lemma RenderHi()
    ensures RenderIn("hi", []) == Ok("hi")
  {
    IndexPassesInert("hi", "");
    assert "hi" + "" == "hi" && Index("", "{{").None?;
  }

  lemma Sending(gap: nat, now: Instant, e: Enrollment)
    requires e == Person(e.state, Some(now), e.sentCount) && (e.state == Pending || e.state == AwaitingReply)
    requires e.sentCount < 2
    ensures Advanced(FollowUp(gap), e, now, []) ==
      Progress(Person(AwaitingReply, NextAfter(gap, now), e.sentCount + 1), Ok([SendSms("hi", Rate(1, SECOND))]))
  {
    AlwaysOpen(gap, now);
    RenderHi();
  }

  function RowFor(count: nat): Message {
    Message("loc", SequenceMessageId(0, count), "c", "+13125551212", "+13125550000", "hi", Some(0))
  }

  function RatesAfter(now: Instant, rates: Rates): RateLimit.Reservation {
    RateLimit.Reserve(if "k" in rates then rates["k"] else RateLimit.Allowance(now, 1), Rate(1, SECOND), now)
  }

  /** The batch of one send, committed. */
  lemma Committing(gap: nat, now: Instant, jobs: seq<Job>, e: Enrollment, rates: Rates, batches: nat)
    requires e == Person(e.state, Some(now), e.sentCount) && 0 <= e.sentCount
    ensures var s := Stage(now, jobs, e, Some(now + SEQUENCE_LEASE), rates, batches, map[0 := Ready(RecordOf(e))]);
      var after := Person(AwaitingReply, NextAfter(gap, now), e.sentCount + 1);
      Apply(s.db, RecordOf(after), [SendSms("hi", Rate(1, SECOND))], "", now) ==
        Stage(now, InsertMessage(jobs, RowFor(e.sentCount + 1), RatesAfter(now, rates).at), after, None,
          rates["k" := RatesAfter(now, rates).left], batches + 1, map[]).db
  {
    var s := Stage(now, jobs, e, Some(now + SEQUENCE_LEASE), rates, batches, map[0 := Ready(RecordOf(e))]);
    var after := Person(AwaitingReply, NextAfter(gap, now), e.sentCount + 1);
    var cs := [SendSms("hi", Rate(1, SECOND))];
    var updated := s.db.(
      sequences := s.db.sequences[0 := Rewritten(s.db.sequences[0], RecordOf(after), "")], batches := batches + 1);
    assert updated.sequences == [Sequence("x", "loc", "+13125550000", after, None, "")];
    assert cs[..0] == [];
    assert RunCommands(updated, RecordOf(after), cs, "", now) == RunCommand(updated, RecordOf(after), cs[0], "", now);
  }

  function Batched(gap: nat, now: Instant, jobs: seq<Job>, e: Enrollment, rates: Rates, batches: nat,
    advancers: map<Pid, Advancer>): System
    requires e.sentCount >= 0
  {
    Stage(now, InsertMessage(jobs, RowFor(e.sentCount + 1), RatesAfter(now, rates).at),
      Person(AwaitingReply, NextAfter(gap, now), e.sentCount + 1), None, rates["k" := RatesAfter(now, rates).left],
      batches + 1, advancers)
  }

  /** Worker 0 advances what it has just claimed; the answer to its commit may be lost. */
  lemma Advancing(
    gap: nat, now: Instant, jobs: seq<Job>, e: Enrollment, rates: Rates, batches: nat, fate: Fate)
    requires e == Person(e.state, Some(now), e.sentCount) && (e.state == Pending || e.state == AwaitingReply)
    requires 0 <= e.sentCount < 2 && fate.Lands()
    ensures Step(Flows(gap),
        Stage(now, jobs, e, Some(now + SEQUENCE_LEASE), rates, batches, map[0 := Ready(RecordOf(e))]),
        AdvancerStep(0, fate, now, [])) ==
      Batched(gap, now, jobs, e, rates, batches, if fate.Seen() then map[] else map[0 := Postponing(0, MINUTE)])
  {
    var s := Stage(now, jobs, e, Some(now + SEQUENCE_LEASE), rates, batches, map[0 := Ready(RecordOf(e))]);
    AdvancerAdvances(gap, now, jobs, e, rates, batches, fate);
    StepIsAdvancer(gap, s, fate, now);
  }

  lemma StepIsAdvancer(gap: nat, s: System, fate: Fate, wall: Instant)
    requires 0 in s.advancers
    ensures Step(Flows(gap), s, AdvancerStep(0, fate, wall, [])) == StepAdvancer(Flows(gap), s, 0, fate, wall, [])
  {}

  lemma AdvancerAdvances(
    gap: nat, now: Instant, jobs: seq<Job>, e: Enrollment, rates: Rates, batches: nat, fate: Fate)
    requires e == Person(e.state, Some(now), e.sentCount) && (e.state == Pending || e.state == AwaitingReply)
    requires 0 <= e.sentCount < 2 && fate.Lands()
    ensures StepAdvancer(Flows(gap),
        Stage(now, jobs, e, Some(now + SEQUENCE_LEASE), rates, batches, map[0 := Ready(RecordOf(e))]),
        0, fate, now, []) ==
      Batched(gap, now, jobs, e, rates, batches, if fate.Seen() then map[] else map[0 := Postponing(0, MINUTE)])
  {
    var s := Stage(now, jobs, e, Some(now + SEQUENCE_LEASE), rates, batches, map[0 := Ready(RecordOf(e))]);
    Effect(gap, now, jobs, e, rates, batches, fate);
    assert s.advancers - {0} == map[] && s.advancers[0 := Postponing(0, MINUTE)] == map[0 := Postponing(0, MINUTE)];
  }

  /** What it writes, and where it goes next. */
  lemma Effect(
    gap: nat, now: Instant, jobs: seq<Job>, e: Enrollment, rates: Rates, batches: nat, fate: Fate)
    requires e == Person(e.state, Some(now), e.sentCount) && (e.state == Pending || e.state == AwaitingReply)
    requires 0 <= e.sentCount < 2 && fate.Lands()
    ensures var db := Stage(now, jobs, e, Some(now + SEQUENCE_LEASE), rates, batches, map[0 := Ready(RecordOf(e))]).db;
      && AdvancerEffect(Flows(gap), db, Ready(RecordOf(e)), fate, now, []) ==
          Batched(gap, now, jobs, e, rates, batches, map[]).db
      && AdvancerNext(Flows(gap), db, Ready(RecordOf(e)), fate, now, []) ==
          (if fate.Seen() then None else Some(Postponing(0, MINUTE)))
  {
    var db := Stage(now, jobs, e, Some(now + SEQUENCE_LEASE), rates, batches, map[0 := Ready(RecordOf(e))]).db;
    Sending(gap, now, e);
    Committing(gap, now, jobs, e, rates, batches);
    assert Claimable(db, RecordOf(e));
  }

  /** RetryWorkflow by the worker whose answer was lost. */
  lemma Postponed(gap: nat, now: Instant, jobs: seq<Job>, e: Enrollment, rates: Rates, batches: nat)
    ensures Step(Flows(gap), Stage(now, jobs, e, None, rates, batches, map[0 := Postponing(0, MINUTE)]),
        AdvancerStep(0, Succeeds, now, [])) ==
      Stage(now, jobs, e.(nextRun := Some(now + MINUTE)), None, rates, batches, map[])
  {
    var s := Stage(now, jobs, e, None, rates, batches, map[0 := Postponing(0, MINUTE)]);
    assert PostponeSequence(s.db, 0, MINUTE).sequences ==
      [Sequence("x", "loc", "+13125550000", e.(nextRun := Some(now + MINUTE)), None, "")];
    assert s.advancers - {0} == map[];
  }

  // ----- A client's id in the place of a sequence's -----

  const SQUATTER := Message("loc", "workflow:0:1", "other", "+13125551213", "+13125550000", "mine", None)

  lemma SquatterHasTheId()
    ensures SequenceMessageId(0, 1) == "workflow:0:1"
  {
    assert Decimal(0) == "0" && Decimal(1) == "1";
  }

  function SquatterRow(): Job { Job(SQUATTER, New(0), None) }

  lemma SquatterComesFirst(gap: nat)
    ensures Step(Flows(gap), Boot(0), Enqueue(SQUATTER)) == Before([SquatterRow()])
  {
    assert !Taken([], SQUATTER.location, SQUATTER.id);
    assert [] + [SquatterRow()] == [SquatterRow()];
  }

  // ----- The common beginning -----

  lemma StepOn(gap: nat, actions: seq<Action>, s: System, a: Action, t: System)
    requires Execution(Flows(gap), Boot(0), actions) == s && Step(Flows(gap), s, a) == t
    ensures Execution(Flows(gap), Boot(0), actions + [a]) == t
  {
    ExecutionSnoc(Flows(gap), Boot(0), actions, a);
  }

  function Enrolled(jobs: seq<Job>, now: Instant): System {
    Stage(now, jobs, Person(Pending, Some(MINUTE), 0), None, map[], 0, map[])
  }

  function FirstClaimed(jobs: seq<Job>): System {
    Stage(MINUTE, jobs, Person(Pending, Some(MINUTE), 0), Some(MINUTE + SEQUENCE_LEASE), map[], 0,
      map[0 := Ready(RecordOf(Person(Pending, Some(MINUTE), 0)))])
  }

  function Opening(first: seq<Action>): seq<Action> {
    first + [ENROLL] + [Machine.Tick(MINUTE)] + [AdvancerClaim(0, Succeeds)]
  }

  /** The enrollment, a minute, and its first claim. */
  lemma OpeningClaims(gap: nat, first: seq<Action>, jobs: seq<Job>)
    requires Execution(Flows(gap), Boot(0), first) == Before(jobs)
    ensures Execution(Flows(gap), Boot(0), Opening(first)) == FirstClaimed(jobs)
  {
    Enrolling(gap, jobs);
    StepOn(gap, first, Before(jobs), ENROLL, Enrolled(jobs, 0));
    Waiting(gap, Enrolled(jobs, 0), MINUTE);
    StepOn(gap, first + [ENROLL], Enrolled(jobs, 0), Machine.Tick(MINUTE), Enrolled(jobs, MINUTE));
    Claiming(gap, MINUTE, jobs, Person(Pending, Some(MINUTE), 0), map[], 0);
    StepOn(gap, first + [ENROLL] + [Machine.Tick(MINUTE)], Enrolled(jobs, MINUTE), AdvancerClaim(0, Succeeds),
      FirstClaimed(jobs));
  }

  /** The first advance of the enrollment. */
  lemma FirstAdvance(gap: nat, jobs: seq<Job>, fate: Fate)
    requires fate.Lands()
    ensures Step(Flows(gap), FirstClaimed(jobs), AdvancerStep(0, fate, MINUTE, [])) ==
      Stage(MINUTE, InsertMessage(jobs, RowFor(1), RatesAfter(MINUTE, map[]).at),
        Person(AwaitingReply, NextAfter(gap, MINUTE), 1), None, map["k" := RatesAfter(MINUTE, map[]).left], 1,
        if fate.Seen() then map[] else map[0 := Postponing(0, MINUTE)])
  {
    Advancing(gap, MINUTE, jobs, Person(Pending, Some(MINUTE), 0), map[], 0, fate);
    FirstBatch(gap, jobs, if fate.Seen() then map[] else map[0 := Postponing(0, MINUTE)]);
  }

  lemma FirstBatch(gap: nat, jobs: seq<Job>, advancers: map<Pid, Advancer>)
    ensures Batched(gap, MINUTE, jobs, Person(Pending, Some(MINUTE), 0), map[], 0, advancers) ==
      Stage(MINUTE, InsertMessage(jobs, RowFor(1), RatesAfter(MINUTE, map[]).at),
        Person(AwaitingReply, NextAfter(gap, MINUTE), 1), None, map["k" := RatesAfter(MINUTE, map[]).left], 1,
        advancers)
  {
    assert map[]["k" := RatesAfter(MINUTE, map[]).left] == map["k" := RatesAfter(MINUTE, map[]).left];
  }

  // ----- A client's id in the place of a sequence's: the run -----

  function Squatting(): seq<Action> { Opening([Enqueue(SQUATTER)]) + [AdvancerStep(0, Succeeds, MINUTE, [])] }

  function Squatted(gap: nat): System {
    Stage(MINUTE, [SquatterRow()], Person(AwaitingReply, NextAfter(gap, MINUTE), 1), None,
      map["k" := RatesAfter(MINUTE, map[]).left], 1, map[])
  }

  lemma SquatterStays()
    ensures InsertMessage([SquatterRow()], RowFor(1), RatesAfter(MINUTE, map[]).at) == [SquatterRow()]
  {
    SquatterHasTheId();
    assert [SquatterRow()][0].message.location == "loc" && [SquatterRow()][0].message.id == RowFor(1).id;
  }

  lemma SquattedAdvance(gap: nat)
    ensures Step(Flows(gap), FirstClaimed([SquatterRow()]), AdvancerStep(0, Succeeds, MINUTE, [])) == Squatted(gap)
  {
    FirstAdvance(gap, [SquatterRow()], Succeeds);
    SquatterStays();
  }

  /** From the empty system: a client enqueues a message of its own under the id "workflow:0:1"; the enrollment
      that comes after it counts its first message, and no row of it is ever inserted. */
  lemma SquattedMessageIsLost(gap: nat)
    ensures Execution(Flows(gap), Boot(0), Squatting()) == Squatted(gap)
    ensures Squatted(gap).db.sequences[0].enrollment.sentCount == 1 && Rows(Squatted(gap), 0) == 0
  {
    SquatterComesFirst(gap);
    ExecutionOne(Flows(gap), Boot(0), Enqueue(SQUATTER));
    OpeningClaims(gap, [Enqueue(SQUATTER)], [SquatterRow()]);
    SquattedAdvance(gap);
    StepOn(gap, Opening([Enqueue(SQUATTER)]), FirstClaimed([SquatterRow()]), AdvancerStep(0, Succeeds, MINUTE, []),
      Squatted(gap));
    IdsFresh(Mail([SquatterRow()]), 0);
  }

  // ----- A lost answer brings the next message forward -----

  function Sent(): Job { Job(RowFor(1), New(RatesAfter(MINUTE, map[]).at), None) }

  lemma FirstRowInserted()
    ensures InsertMessage([], RowFor(1), RatesAfter(MINUTE, map[]).at) == [Sent()]
  {
    assert [] + [Sent()] == [Sent()];
  }

  /** One message is on its way; the next run is as given. */
  function AfterFirst(advancers: map<Pid, Advancer>, next: Option<Instant>, now: Instant): System {
    Stage(now, [Sent()], Person(AwaitingReply, next, 1), None, map["k" := RatesAfter(MINUTE, map[]).left], 1, advancers)
  }

  function FirstDay(): seq<Action> { Opening([]) + [AdvancerStep(0, CommitsUnseen, MINUTE, [])] }

  lemma FirstMessage(gap: nat)
    ensures Execution(Flows(gap), Boot(0), FirstDay()) ==
      AfterFirst(map[0 := Postponing(0, MINUTE)], NextAfter(gap, MINUTE), MINUTE)
  {
    assert Before([]) == Boot(0);
    OpeningClaims(gap, [], []);
    FirstAdvance(gap, [], CommitsUnseen);
    FirstRowInserted();
    StepOn(gap, Opening([]), FirstClaimed([]), AdvancerStep(0, CommitsUnseen, MINUTE, []),
      AfterFirst(map[0 := Postponing(0, MINUTE)], NextAfter(gap, MINUTE), MINUTE));
  }

  /** The worker postpones what it thinks it has not sent, and a minute later the next message is claimed. */
  function Second(): seq<Action> {
    PutOff() + [Machine.Tick(MINUTE)] + [AdvancerClaim(0, Succeeds)]
  }

  function SecondReady(): System {
    var e := Person(AwaitingReply, Some(2 * MINUTE), 1);
    Stage(2 * MINUTE, [Sent()], e, Some(2 * MINUTE + SEQUENCE_LEASE), map["k" := RatesAfter(MINUTE, map[]).left], 1,
      map[0 := Ready(RecordOf(e))])
  }

  function PutOff(): seq<Action> { FirstDay() + [AdvancerStep(0, Succeeds, MINUTE, [])] }

  lemma FirstPostponed(gap: nat)
    ensures Execution(Flows(gap), Boot(0), PutOff()) == AfterFirst(map[], Some(2 * MINUTE), MINUTE)
  {
    FirstMessage(gap);
    Postponed(gap, MINUTE, [Sent()], Person(AwaitingReply, NextAfter(gap, MINUTE), 1),
      map["k" := RatesAfter(MINUTE, map[]).left], 1);
    StepOn(gap, FirstDay(), AfterFirst(map[0 := Postponing(0, MINUTE)], NextAfter(gap, MINUTE), MINUTE),
      AdvancerStep(0, Succeeds, MINUTE, []), AfterFirst(map[], Some(2 * MINUTE), MINUTE));
  }

  lemma MinuteLater(gap: nat)
    ensures Execution(Flows(gap), Boot(0), PutOff() + [Machine.Tick(MINUTE)]) ==
      AfterFirst(map[], Some(2 * MINUTE), 2 * MINUTE)
  {
    FirstPostponed(gap);
    Waiting(gap, AfterFirst(map[], Some(2 * MINUTE), MINUTE), MINUTE);
    StepOn(gap, PutOff(), AfterFirst(map[], Some(2 * MINUTE), MINUTE), Machine.Tick(MINUTE),
      AfterFirst(map[], Some(2 * MINUTE), 2 * MINUTE));
  }

  lemma SecondClaimed(gap: nat)
    ensures Execution(Flows(gap), Boot(0), Second()) == SecondReady()
  {
    MinuteLater(gap);
    Claiming(gap, 2 * MINUTE, [Sent()], Person(AwaitingReply, Some(2 * MINUTE), 1),
      map["k" := RatesAfter(MINUTE, map[]).left], 1);
    StepOn(gap, PutOff() + [Machine.Tick(MINUTE)], AfterFirst(map[], Some(2 * MINUTE), 2 * MINUTE),
      AdvancerClaim(0, Succeeds), SecondReady());
  }

  lemma SecondRowInserted(at: Instant)
    ensures InsertMessage([Sent()], RowFor(2), at) == [Sent()] + [Job(RowFor(2), New(at), None)]
  {
    if RowFor(1).id == RowFor(2).id {
      SequenceIdInjective(0, 1, 0, 2);
    }
  }

  lemma TwoRows(at: Instant)
    ensures |Ids(Mail([Sent()]), 0)| == 1
    ensures |Ids(Mail([Sent()] + [Job(RowFor(2), New(at), None)]), 0)| == 2
  {
    assert Mail([Sent()]) == [] + [RowFor(1)];
    assert Mail([Sent()] + [Job(RowFor(2), New(at), None)]) == [RowFor(1)] + [RowFor(2)];
    IdsAppend([], RowFor(1), 0);
    IdsAppend([RowFor(1)], RowFor(2), 0);
  }

  /** A run from the empty system in which worker 0 inserts message 1 at one minute and message 2 at two: too early
      for every repeat interval above a minute, and for a follow-up that has none and should send once. */
  lemma NextMessageComesEarly(gap: nat)
    requires gap == 0 || MINUTE < gap
    ensures var s := Execution(Flows(gap), Boot(0), Opening([]));
      Rows(s, 0) == 0 && Rows(Step(Flows(gap), s, AdvancerStep(0, CommitsUnseen, MINUTE, [])), 0) == 1
    ensures Execution(Flows(gap), Boot(0), Second()) == SecondReady()
    ensures EarlyFor(Flows(gap), SecondReady(), 0, MINUTE, 2 * MINUTE)
    ensures Rows(SecondReady(), 0) == 1
    ensures Rows(Step(Flows(gap), SecondReady(), AdvancerStep(0, Succeeds, 2 * MINUTE, [])), 0) == 2
  {
    var rates, e := map["k" := RatesAfter(MINUTE, map[]).left], Person(AwaitingReply, Some(2 * MINUTE), 1);
    var at := RatesAfter(2 * MINUTE, rates).at;
    assert Before([]) == Boot(0);
    OpeningClaims(gap, [], []);
    FirstAdvance(gap, [], CommitsUnseen);
    FirstRowInserted();
    SecondClaimed(gap);
    Advancing(gap, 2 * MINUTE, [Sent()], e, rates, 1, Succeeds);
    SecondRowInserted(at);
    TwoRows(at);
  }

}
