/** How far apart the messages of one enrollment are, across workers that stall, race and lose answers. */
module Spacing {
  import opened Wrappers
  import opened SendWindow
  import opened Catalog
  import opened Template
  import opened Engine
  import opened LeasedQueue
  import opened Tables
  import opened Machine
  import opened Frames
  import opened Enrollments
  import opened Numbering

  // ----- When a message is too early -----

  function Rows(s: System, e: nat): nat { |Ids(Mail(s.db.jobs), e)| }

  /** Action a inserts an outbound row of enrollment e. */
  predicate Inserts(w: Workflows, s: System, a: Action, e: nat) {
    a.AdvancerStep? && Rows(s, e) < Rows(Step(w, s, a), e)
  }

  /** When the last row of e was inserted, by the clock of the worker that did. */
  function Last(w: Workflows, s: System, a: Action, e: nat, last: Option<Instant>): Option<Instant> {
    if Inserts(w, s, a, e) then Some(a.wall) else last
  }

  function LastOf(w: Workflows, s: System, actions: seq<Action>, e: nat, last: Option<Instant>): Option<Instant>
    decreases |actions|
  {
    if actions == [] then last else LastOf(w, Step(w, s, actions[0]), actions[1..], e, Last(w, s, actions[0], e, last))
  }

  /** After a message at `last`, another at t is too early: before the repeat interval is over, and at any time if
      the definition has none. */
  predicate TooEarly(d: Definition, last: Instant, t: Instant) { d.repeatEvery <= 0 || t < last + d.repeatEvery }

  predicate EarlyFor(w: Workflows, s: System, e: nat, last: Instant, t: Instant) {
    e < |s.db.sequences| && s.db.sequences[e].enrollment.key in w &&
    TooEarly(w[s.db.sequences[e].enrollment.key], last, t)
  }

  /** No message of e comes too early after the one before. */
  predicate Apart(w: Workflows, s: System, actions: seq<Action>, e: nat, last: Option<Instant>)
    decreases |actions|
  {
    actions == [] ||
    ((Inserts(w, s, actions[0], e) && last.Some? ==> !EarlyFor(w, s, e, last.value, actions[0].wall)) &&
     Apart(w, Step(w, s, actions[0]), actions[1..], e, Last(w, s, actions[0], e, last)))
  }

  // ----- What hastens a message -----

  predicate SendsAt(d: Definition, x: Enrollment, t: Instant, bs: Bindings) { IsSend(Advanced(d, x, t, bs).result) }

  /** Some clock reading that is too early makes the engine send: the definition is switched on, the run is due, the
      window open, the cap not reached, and the template renders. */
  ghost predicate MaySendEarly(w: Workflows, x: Enrollment, last: Instant) {
    Configured(w, x.key) &&
    exists t, bs :: Ranges(bs, x.contact.variables) && TooEarly(w[x.key], last, t) && SendsAt(w[x.key], x, t, bs)
  }

  predicate Goes(x: Enrollment) { x.state == Pending || x.state == AwaitingReply }

  /** RetryWorkflow lands on e, after an answer is lost or a batch refused. */
  predicate Postpones(s: System, a: Action, e: nat) {
    a.AdvancerStep? && a.fate.Lands() && a.p in s.advancers && s.advancers[a.p].Postponing? && s.advancers[a.p].id == e
  }

  /** It overwrites the next run of an active row that counts all its messages with a time that is too early. */
  ghost predicate PutsForward(w: Workflows, s: System, a: Action, e: nat, last: Instant) {
    Postpones(s, a, e) && e < |s.db.sequences| &&
    var x := s.db.sequences[e].enrollment;
    Goes(x) && x.sentCount == Rows(s, e) &&
    MaySendEarly(w, x.(nextRun := Some(s.db.now + s.advancers[a.p].delay)), last)
  }

  /** A stale worker commits the last message again, with a clock that lags behind it. */
  ghost predicate SendsAgain(w: Workflows, s: System, a: Action, e: nat, last: Instant) {
    && a.AdvancerStep? && a.fate.Lands() && a.p in s.advancers && s.advancers[a.p].Ready?
    && var r := s.advancers[a.p].record;
    && r.id == e && Claimable(s.db, r) && Configured(w, r.enrollment.key)
    && SendsAt(w[r.enrollment.key], r.enrollment, a.wall, a.bs)
    && r.enrollment.sentCount + 1 == Rows(s, e)
    && MaySendEarly(w, Advanced(w[r.enrollment.key], r.enrollment, a.wall, a.bs).enrollment, last)
  }

  ghost predicate Hastens(w: Workflows, s: System, a: Action, e: nat, last: Option<Instant>) {
    last.Some? && (PutsForward(w, s, a, e, last.value) || SendsAgain(w, s, a, e, last.value))
  }

  /** The engine is given an order of the contact's variables. */
  ghost predicate InOrder(s: System, a: Action) {
    a.AdvancerStep? && a.p in s.advancers && s.advancers[a.p].Ready? ==>
      Ranges(a.bs, s.advancers[a.p].record.enrollment.contact.variables)
  }

  ghost predicate Undisturbed(w: Workflows, s: System, actions: seq<Action>, e: nat, last: Option<Instant>)
    decreases |actions|
  {
    actions == [] ||
    (!Hastens(w, s, actions[0], e, last) && InOrder(s, actions[0]) &&
     Undisturbed(w, Step(w, s, actions[0]), actions[1..], e, Last(w, s, actions[0], e, last)))
  }

  // ----- The invariant: whoever counts all messages cannot send too early -----

  ghost predicate Waits(w: Workflows, x: Enrollment, m: nat, last: Instant) {
    Goes(x) && x.sentCount == m ==> !MaySendEarly(w, x, last)
  }

  ghost predicate SnapshotsWait(w: Workflows, v: View, e: nat, m: nat, last: Instant) {
    && (forall p :: p in v.advancers && v.advancers[p].Ready? && v.advancers[p].record.id == e ==>
          Waits(w, v.advancers[p].record.enrollment, m, last))
    && (forall p, i :: p in v.repliers && 0 <= i < |v.repliers[p].records| && v.repliers[p].records[i].id == e ==>
          Waits(w, v.repliers[p].records[i].enrollment, m, last))
  }

  ghost predicate Rested(w: Workflows, v: View, e: nat, last: Option<Instant>) {
    match last
    case None => Ids(v.mail, e) == []
    case Some(t) =>
      && e < |v.sequences|
      && Waits(w, v.sequences[e].enrollment, |Ids(v.mail, e)|, t)
      && SnapshotsWait(w, v, e, |Ids(v.mail, e)|, t)
  }

  lemma ForgetKeepsWaiting(w: Workflows, v: View, n: View, e: nat, m: nat, last: Instant)
    requires SnapshotsWait(w, v, e, m, last) && Forgets(v, n)
    ensures SnapshotsWait(w, n, e, m, last)
  {
    forall p, i | p in n.repliers && 0 <= i < |n.repliers[p].records| && n.repliers[p].records[i].id == e
      ensures Waits(w, n.repliers[p].records[i].enrollment, m, last)
    {
      var was, now := v.repliers[p].records, n.repliers[p].records;
      assert Remains(was, now);
      var k := if now == was then i else i + 1;
      assert now[i] == was[k];
    }
  }

  /** No row of e is inserted, and workers only forget. */
  lemma QuietKeepsRested(w: Workflows, v: View, n: View, e: nat, last: Option<Instant>)
    requires Rested(w, v, e, last) && Forgets(v, n) && Ids(n.mail, e) == Ids(v.mail, e)
    requires last.Some? ==> e < |n.sequences| && Waits(w, n.sequences[e].enrollment, |Ids(v.mail, e)|, last.value)
    ensures Rested(w, n, e, last)
  {
    if last.Some? {
      ForgetKeepsWaiting(w, v, n, e, |Ids(v.mail, e)|, last.value);
    }
  }

  /** A new row was inserted for e at `wall`: nobody else counts it yet. */
  lemma InsertRests(w: Workflows, v: View, n: View, e: nat, wall: Instant)
    requires Forgets(v, n) && SnapshotsCounted(v, e) && e < |n.sequences|
    requires |Ids(n.mail, e)| == |Ids(v.mail, e)| + 1
    requires Waits(w, n.sequences[e].enrollment, |Ids(n.mail, e)|, wall)
    ensures Rested(w, n, e, Some(wall))
  {
    var m := |Ids(n.mail, e)|;
    assert SnapshotsWait(w, v, e, m, wall) by {
      forall p | p in v.advancers && v.advancers[p].Ready? && v.advancers[p].record.id == e
        ensures Waits(w, v.advancers[p].record.enrollment, m, wall)
      {
        assert Counted(v, v.advancers[p].record);
      }
      forall p, i | p in v.repliers && 0 <= i < |v.repliers[p].records| && v.repliers[p].records[i].id == e
        ensures Waits(w, v.repliers[p].records[i].enrollment, m, wall)
      {
        assert Counted(v, v.repliers[p].records[i]);
      }
    }
    ForgetKeepsWaiting(w, v, n, e, m, wall);
  }

  // ----- One call of the engine -----

  /** A call that does not send leaves nothing that could be sent earlier than before. */
  lemma DeferralSendsNoSooner(d: Definition, x: Enrollment, wall: Instant, bs: Bindings, t: Instant, cs: Bindings)
    requires d.Valid() && x.key == d.key && Advanced(d, x, wall, bs).result.Ok? && !SendsAt(d, x, wall, bs)
    requires SendsAt(d, Advanced(d, x, wall, bs).enrollment, t, cs)
    ensures SendsAt(d, x, t, cs)
  {
    AdvanceEffect(d, x, wall, bs);
    AdvanceEffect(d, Advanced(d, x, wall, bs).enrollment, t, cs);
  }

  lemma DeferralWaits(w: Workflows, x: Enrollment, wall: Instant, bs: Bindings, m: nat, last: Instant)
    requires KnownKey(w, x) && w[x.key].key == x.key && Goes(x) && Waits(w, x, m, last)
    requires Advanced(w[x.key], x, wall, bs).result.Ok? && !SendsAt(w[x.key], x, wall, bs)
    ensures Waits(w, Advanced(w[x.key], x, wall, bs).enrollment, m, last)
  {
    var d := w[x.key];
    var y := Advanced(d, x, wall, bs).enrollment;
    AdvanceEffect(d, x, wall, bs);
    if Goes(y) && y.sentCount == m && MaySendEarly(w, y, last) {
      var t, cs :| Ranges(cs, y.contact.variables) && TooEarly(d, last, t) && SendsAt(d, y, t, cs);
      DeferralSendsNoSooner(d, x, wall, bs, t, cs);
    }
  }

  /** After a send, the next is not due until the interval is over, or not at all. */
  lemma SentWaits(w: Workflows, x: Enrollment, wall: Instant, bs: Bindings, m: nat)
    requires KnownKey(w, x) && SendsAt(w[x.key], x, wall, bs)
    ensures Waits(w, Advanced(w[x.key], x, wall, bs).enrollment, m, wall)
  {
    var d := w[x.key];
    var y := Advanced(d, x, wall, bs).enrollment;
    AdvanceEffect(d, x, wall, bs);
    forall t, cs | SendsAt(d, y, t, cs) ensures !TooEarly(d, wall, t) {
      AdvanceEffect(d, y, t, cs);
    }
  }

  // ----- One batch of an advancer -----

  /** The row as the batch leaves it is the engine's enrollment. */
  lemma AppliedRow(q: Sequence, r: Record, y: Enrollment, reply: string)
    requires q.enrollment.key == y.key && q.enrollment.contact == y.contact
    ensures Rewritten(q, r.(enrollment := y), reply).enrollment == y
  {}

  /** What the batch of snapshot r does to e, which it may insert a row for. */
  ghost predicate Stepped(w: Workflows, v: View, n: View, e: nat, wall: Instant, last: Option<Instant>) {
    var grew := |Ids(v.mail, e)| < |Ids(n.mail, e)|;
    && |Ids(n.mail, e)| == |Ids(v.mail, e)| + Bit(grew)
    && (grew ==> e < |v.sequences|)
    && (grew && last.Some? ==>
          v.sequences[e].enrollment.key in w && !TooEarly(w[v.sequences[e].enrollment.key], last.value, wall))
    && Rested(w, n, e, if grew then Some(wall) else last)
  }

  /** A batch that sends, and inserts its row. */
  lemma InsertedSteps(
    w: Workflows, s: System, n: View, r: Record, wall: Instant, bs: Bindings, m: Message, last: Option<Instant>)
    requires var v, e, x := Look(s), r.id, r.enrollment;
      && Known(v, r) && KnownKey(w, x) && Configured(w, x.key) && SendsAt(w[x.key], x, wall, bs)
      && Ranges(bs, x.contact.variables)
      && Rested(w, v, e, last) && SnapshotsCounted(v, e) && Forgets(v, n)
      && (last.Some? ==> Waits(w, x, |Ids(v.mail, e)|, last.value))
      && x.sentCount == |Ids(v.mail, e)|
      && e < |n.sequences| && n.sequences[e].enrollment == Advanced(w[x.key], x, wall, bs).enrollment
      && n.mail == v.mail + [m] && m.enrollment == Some(e)
    ensures Stepped(w, Look(s), n, r.id, wall, last)
  {
    var v, e, x := Look(s), r.id, r.enrollment;
    IdsAppend(v.mail, m, e);
    SentWaits(w, x, wall, bs, |Ids(n.mail, e)|);
    InsertRests(w, v, n, e, wall);
  }

  /** A batch that leaves the rows of e as they are. */
  lemma QuietSteps(w: Workflows, v: View, n: View, e: nat, wall: Instant, last: Option<Instant>)
    requires Rested(w, v, e, last) && Forgets(v, n) && Ids(n.mail, e) == Ids(v.mail, e)
    requires last.Some? ==> e < |n.sequences| && Waits(w, n.sequences[e].enrollment, |Ids(v.mail, e)|, last.value)
    ensures Stepped(w, v, n, e, wall, last)
  {
    QuietKeepsRested(w, v, n, e, last);
  }

  /** A worker applies what the engine says to snapshot r of e. */
  lemma OwnBatchSteps(
    w: Workflows, s: System, n: View, r: Record, fate: Fate, wall: Instant, bs: Bindings, last: Option<Instant>)
    requires WellKeyed(w) && Known(Look(s), r) && Counted(Look(s), r) && KnownKey(w, r.enrollment)
    requires Counting(w, Look(s), r.id, s.db.sequences[r.id].location)
    requires Configured(w, r.enrollment.key) && Advanced(w[r.enrollment.key], r.enrollment, wall, bs).result.Ok?
    requires Ranges(bs, r.enrollment.contact.variables) && fate.Lands() && Claimable(s.db, r)
    requires Rested(w, Look(s), r.id, last)
    requires last.Some? ==> Waits(w, r.enrollment, Rows(s, r.id), last.value)
    requires last.Some? && SendsAt(w[r.enrollment.key], r.enrollment, wall, bs) &&
             r.enrollment.sentCount + 1 == Rows(s, r.id) ==>
      !MaySendEarly(w, Advanced(w[r.enrollment.key], r.enrollment, wall, bs).enrollment, last.value)
    requires var after := AdvancerEffect(w, s.db, Ready(r), fate, wall, bs);
      n.sequences == after.sequences && n.mail == Mail(after.jobs) && Forgets(Look(s), n)
    ensures Stepped(w, Look(s), n, r.id, wall, last)
  {
    var v, e, x := Look(s), r.id, r.enrollment;
    var a := Advanced(w[x.key], x, wall, bs);
    AdvanceIsBatch(w[x.key], x, wall, bs);
    AdvanceEffect(w[x.key], x, wall, bs);
    var _ := ApplyInView(w, s, r, a.enrollment, a.result.value, "", fate, wall);
    AppliedRow(s.db.sequences[e], r, a.enrollment, "");
    NextIndexOnly(w, s, r, a.enrollment, a.result.value);
    var mail := MailOf(w, s, r, a.enrollment, a.result.value);
    if mail != [] {
      InsertedSteps(w, s, n, r, wall, bs, mail[0], last);
    } else {
      assert n.mail == v.mail;
      if last.Some? && !SendsAt(w[x.key], x, wall, bs) {
        DeferralWaits(w, x, wall, bs, Rows(s, e), last.value);
      }
      QuietSteps(w, v, n, e, wall, last);
    }
  }

  /** A batch of another enrollment. */
  lemma OtherBatchSteps(
    w: Workflows, s: System, n: View, r: Record, fate: Fate, wall: Instant, bs: Bindings, e: nat, last: Option<Instant>)
    requires Known(Look(s), r) && KnownKey(w, r.enrollment) && r.id != e
    requires Configured(w, r.enrollment.key) && Advanced(w[r.enrollment.key], r.enrollment, wall, bs).result.Ok?
    requires fate.Lands() && Claimable(s.db, r) && Rested(w, Look(s), e, last)
    requires var after := AdvancerEffect(w, s.db, Ready(r), fate, wall, bs);
      n.sequences == after.sequences && n.mail == Mail(after.jobs) && Forgets(Look(s), n)
    ensures Stepped(w, Look(s), n, e, wall, last)
  {
    var v, x := Look(s), r.enrollment;
    var a := Advanced(w[x.key], x, wall, bs);
    AdvanceIsBatch(w[x.key], x, wall, bs);
    var _ := ApplyInView(w, s, r, a.enrollment, a.result.value, "", fate, wall);
    var mail := MailOf(w, s, r, a.enrollment, a.result.value);
    IdsGrow(v.mail, mail, r.id, e);
    QuietSteps(w, v, n, e, wall, last);
  }

  lemma ReadySteps(
    w: Workflows, s: System, n: View, r: Record, fate: Fate, wall: Instant, bs: Bindings, e: nat, location: string,
    last: Option<Instant>)
    requires WellKeyed(w) && Known(Look(s), r) && KnownKey(w, r.enrollment) && Ranges(bs, r.enrollment.contact.variables)
    requires Counting(w, Look(s), e, location) && Rested(w, Look(s), e, last)
    requires r.id == e ==> Counted(Look(s), r) && (last.Some? ==> Waits(w, r.enrollment, Rows(s, e), last.value))
    requires last.Some? && r.id == e && fate.Lands() && Claimable(s.db, r) && Configured(w, r.enrollment.key) &&
             SendsAt(w[r.enrollment.key], r.enrollment, wall, bs) && r.enrollment.sentCount + 1 == Rows(s, e) ==>
      !MaySendEarly(w, Advanced(w[r.enrollment.key], r.enrollment, wall, bs).enrollment, last.value)
    requires var after := AdvancerEffect(w, s.db, Ready(r), fate, wall, bs);
      n.sequences == after.sequences && n.mail == Mail(after.jobs) && Forgets(Look(s), n)
    ensures Stepped(w, Look(s), n, e, wall, last)
  {
    if Configured(w, r.enrollment.key) && Advanced(w[r.enrollment.key], r.enrollment, wall, bs).result.Ok? &&
       fate.Lands() && Claimable(s.db, r) {
      if r.id == e {
        OwnBatchSteps(w, s, n, r, fate, wall, bs, last);
      } else {
        OtherBatchSteps(w, s, n, r, fate, wall, bs, e, last);
      }
    } else {
      QuietSteps(w, Look(s), n, e, wall, last);
    }
  }

  // ----- Each step -----

  lemma AdvancerSteps(
    w: Workflows, s: System, p: Pid, fate: Fate, wall: Instant, bs: Bindings, e: nat, location: string,
    last: Option<Instant>)
    requires WellKeyed(w) && Locking(w, Look(s)) && Counting(w, Look(s), e, location) && Rested(w, Look(s), e, last)
    requires p in s.advancers && InOrder(s, AdvancerStep(p, fate, wall, bs))
    requires !Hastens(w, s, AdvancerStep(p, fate, wall, bs), e, last)
    ensures Stepped(w, Look(s), Look(StepAdvancer(w, s, p, fate, wall, bs)), e, wall, last)
  {
    var v, n := Look(s), Look(StepAdvancer(w, s, p, fate, wall, bs));
    AdvancerForgets(w, s, p, fate, wall, bs);
    match s.advancers[p]
    case Ready(r) =>
      assert Known(v, r) && LockOk(w, v, r.id);
      ReadySteps(w, s, n, r, fate, wall, bs, e, location, last);
    case _ =>
      WriteBackSteps(w, s, p, fate, wall, bs, e, last);
      QuietSteps(w, v, n, e, wall, last);
  }

  /** RetryWorkflow or FailWorkflow. */
  lemma WriteBackSteps(
    w: Workflows, s: System, p: Pid, fate: Fate, wall: Instant, bs: Bindings, e: nat, last: Option<Instant>)
    requires p in s.advancers && !s.advancers[p].Ready? && Rested(w, Look(s), e, last)
    requires !Hastens(w, s, AdvancerStep(p, fate, wall, bs), e, last)
    ensures var n := StepAdvancer(w, s, p, fate, wall, bs).db;
      && n.jobs == s.db.jobs && |n.sequences| == |s.db.sequences|
      && (last.Some? ==> e < |n.sequences| && Waits(w, n.sequences[e].enrollment, Rows(s, e), last.value))
  {
    var n := StepAdvancer(w, s, p, fate, wall, bs).db;
    if last.Some? && s.advancers[p].id == e && fate.Lands() && s.advancers[p].Postponing? {
      assert n.sequences[e].enrollment ==
        s.db.sequences[e].enrollment.(nextRun := Some(s.db.now + s.advancers[p].delay));
    }
  }

  lemma ReplierKeepsRested(w: Workflows, s: System, p: Pid, fate: Fate, wall: Instant, e: nat, last: Option<Instant>)
    requires Locking(w, Look(s)) && Rested(w, Look(s), e, last) && p in s.repliers
    ensures var n := Look(StepReplier(w, s, p, fate, wall));
      Rested(w, n, e, last) && Ids(n.mail, e) == Ids(Mail(s.db.jobs), e)
  {
    var v, n := Look(s), Look(StepReplier(w, s, p, fate, wall));
    var Replier(records, text) := s.repliers[p];
    ReplierForgets(w, s, p, fate, wall);
    if records != [] {
      assert Known(v, records[0]) && LockOk(w, v, records[0].id);
      AnswerIsQuiet(w, s, records[0], text, fate, wall, e);
    }
    QuietKeepsRested(w, v, n, e, last);
  }

  /** A reply sends nothing, and leaves a row stopped or as it was. */
  lemma AnswerIsQuiet(w: Workflows, s: System, r: Record, text: string, fate: Fate, wall: Instant, e: nat)
    requires Known(Look(s), r) && KnownKey(w, r.enrollment)
    ensures var x := Replied(w[r.enrollment.key], r.enrollment, text);
      var n := TryApply(s.db, r.(enrollment := x.enrollment), x.commands, text, fate, wall);
      && Mail(n.jobs) == Mail(s.db.jobs) && |n.sequences| == |s.db.sequences|
      && (e < |n.sequences| ==> n.sequences[e] == s.db.sequences[e] || !Goes(n.sequences[e].enrollment))
  {
    var x := Replied(w[r.enrollment.key], r.enrollment, text);
    ReplyIsBatch(w[r.enrollment.key], r.enrollment, text);
    if fate.Lands() && Claimable(s.db, r) {
      var _ := ApplyInView(w, s, r, x.enrollment, x.commands, text, fate, wall);
      assert Mail(s.db.jobs) + [] == Mail(s.db.jobs);
    }
  }

  /** Rows are only locked, and snapshots are the old ones or fresh ones of the rows. */
  lemma RelockKeepsRested(w: Workflows, v: View, n: View, e: nat, last: Option<Instant>)
    requires Rested(w, v, e, last) && LocksOnly(v, n) && Refreshed(v, n)
    ensures Rested(w, n, e, last)
  {
    if last.Some? {
      forall p, i | p in n.repliers && 0 <= i < |n.repliers[p].records| && n.repliers[p].records[i].id == e
        ensures Waits(w, n.repliers[p].records[i].enrollment, |Ids(v.mail, e)|, last.value)
      {
        assert Fresh(v, n.repliers[p].records[i]) || (p in v.repliers && n.repliers[p] == v.repliers[p]);
      }
    }
  }

  lemma ClaimKeepsRested(w: Workflows, s: System, p: Pid, fate: Fate, e: nat, last: Option<Instant>)
    requires Rested(w, Look(s), e, last)
    ensures Rested(w, Look(ClaimSequence(s, p, fate)), e, last)
    ensures Mail(ClaimSequence(s, p, fate).db.jobs) == Mail(s.db.jobs)
  {
    ClaimRefreshes(s, p, fate);
    ClaimLocksOnly(s, p, fate);
    RelockKeepsRested(w, Look(s), Look(ClaimSequence(s, p, fate)), e, last);
  }

  lemma HearKeepsRested(
    w: Workflows, s: System, p: Pid, phone: string, to: string, text: string, fate: Fate, e: nat, last: Option<Instant>)
    requires Rested(w, Look(s), e, last)
    ensures Rested(w, Look(ClaimForReply(s, p, phone, to, text, fate)), e, last)
    ensures Mail(ClaimForReply(s, p, phone, to, text, fate).db.jobs) == Mail(s.db.jobs)
  {
    HearRefreshes(s, p, phone, to, text, fate);
    HearLocksOnly(s, p, phone, to, text, fate);
    RelockKeepsRested(w, Look(s), Look(ClaimForReply(s, p, phone, to, text, fate)), e, last);
  }

  /** The step keeps e rested and inserts no row of it. */
  ghost predicate Rests(w: Workflows, s: System, n: System, e: nat, last: Option<Instant>) {
    Rested(w, Look(n), e, last) && Rows(n, e) == Rows(s, e)
  }

  lemma EnrollRests(w: Workflows, s: System, a: Action, e: nat, last: Option<Instant>)
    requires Rested(w, Look(s), e, last) && a.EnrollContact?
    ensures Rests(w, s, Step(w, s, a), e, last)
  {
    SwitchFrame(w, s, a);
    EnrollKeepsRow(w, s, a, e);
    QuietKeepsRested(w, Look(s), Look(Step(w, s, a)), e, last);
  }

  lemma EnrollKeepsRow(w: Workflows, s: System, a: Action, e: nat)
    requires a.EnrollContact?
    ensures var n := Step(w, s, a);
      e < |s.db.sequences| ==> e < |n.db.sequences| && n.db.sequences[e] == s.db.sequences[e]
  {}

  lemma EnqueueRests(w: Workflows, s: System, m: Message, e: nat, last: Option<Instant>)
    requires Rested(w, Look(s), e, last)
    ensures Rests(w, s, Step(w, s, Enqueue(m)), e, last)
  {
    EnqueueKeepsIds(w, s, m, e);
    QuietKeepsRested(w, Look(s), Look(Step(w, s, Enqueue(m))), e, last);
  }

  lemma EnqueueKeepsIds(w: Workflows, s: System, m: Message, e: nat)
    ensures var n := Step(w, s, Enqueue(m));
      && Ids(Mail(n.db.jobs), e) == Ids(Mail(s.db.jobs), e) && n.db.sequences == s.db.sequences
      && n.advancers == s.advancers && n.repliers == s.repliers
  {
    var v, n := Look(s), Look(Step(w, s, Enqueue(m)));
    if n.mail != v.mail {
      assert n.mail == v.mail + [m.(enrollment := None)];
      IdsAppend(v.mail, m.(enrollment := None), e);
    }
  }

  lemma CrashRests(w: Workflows, s: System, a: Action, e: nat, last: Option<Instant>)
    requires Rested(w, Look(s), e, last) && (a.AdvancerCrash? || a.ReplierCrash?)
    ensures Rests(w, s, Step(w, s, a), e, last)
  {
    QuietKeepsRested(w, Look(s), Look(Step(w, s, a)), e, last);
  }

  lemma RepliersRest(w: Workflows, s: System, a: Action, e: nat, last: Option<Instant>)
    requires Locking(w, Look(s)) && Rested(w, Look(s), e, last) && (a.HearReply? || a.ReplierStep?)
    ensures Rests(w, s, Step(w, s, a), e, last)
  {
    if a.HearReply? {
      HearKeepsRested(w, s, a.p, a.phone, a.to, a.text, a.fate, e, last);
    } else if a.p in s.repliers {
      ReplierKeepsRested(w, s, a.p, a.fate, a.wall, e, last);
    }
  }

  lemma OthersRest(w: Workflows, s: System, a: Action, e: nat, last: Option<Instant>)
    requires Locking(w, Look(s)) && Rested(w, Look(s), e, last) && !a.AdvancerStep?
    ensures Rests(w, s, Step(w, s, a), e, last)
  {
    if !TouchesSequences(a) {
      OthersAreInvisible(w, s, a);
    } else if a.AdvancerClaim? {
      ClaimKeepsRested(w, s, a.p, a.fate, e, last);
    } else if a.HearReply? || a.ReplierStep? {
      RepliersRest(w, s, a, e, last);
    } else if a.Enqueue? {
      EnqueueRests(w, s, a.message, e, last);
    } else if a.EnrollContact? {
      EnrollRests(w, s, a, e, last);
    } else {
      CrashRests(w, s, a, e, last);
    }
  }

  /** One step: it keeps the invariant, and a message it inserts is one, and not too early. */
  lemma StepKeepsRested(w: Workflows, s: System, a: Action, e: nat, location: string, last: Option<Instant>)
    requires WellKeyed(w) && Locking(w, Look(s)) && Counting(w, Look(s), e, location) && Rested(w, Look(s), e, last)
    requires !Hastens(w, s, a, e, last) && InOrder(s, a)
    ensures Rows(Step(w, s, a), e) == Rows(s, e) + Bit(Inserts(w, s, a, e))
    ensures Inserts(w, s, a, e) ==>
      e < |s.db.sequences| && (last.Some? ==> !EarlyFor(w, s, e, last.value, a.wall))
    ensures Rested(w, Look(Step(w, s, a)), e, Last(w, s, a, e, last))
  {
    if a.AdvancerStep? {
      if a.p in s.advancers {
        AdvancerSteps(w, s, a.p, a.fate, a.wall, a.bs, e, location, last);
      }
    } else {
      OthersRest(w, s, a, e, last);
    }
  }

  // ----- Main results -----

  lemma {:induction false} RunKeepsApart(
    w: Workflows, s: System, actions: seq<Action>, e: nat, location: string, last: Option<Instant>)
    requires WellKeyed(w) && Clear(Look(Execution(w, s, actions)), e, location)
    requires Locking(w, Look(s)) && Counting(w, Look(s), e, location) && Rested(w, Look(s), e, last)
    requires Undisturbed(w, s, actions, e, last)
    ensures Apart(w, s, actions, e, last)
    ensures Rested(w, Look(Execution(w, s, actions)), e, LastOf(w, s, actions, e, last))
    decreases |actions|
  {
    if actions != [] {
      var a, next := actions[0], Step(w, s, actions[0]);
      ClearAllAlong(w, next, actions[1..], e, location);
      StepKeepsLocking(w, s, a);
      StepKeepsCounting(w, s, a, e, location);
      StepKeepsRested(w, s, a, e, location, last);
      RunKeepsApart(w, next, actions[1..], e, location, Last(w, s, a, e, last));
    }
  }

  /** In every run in which nothing hastens an enrollment, its messages are inserted at least the repeat interval
      apart, with any number of stale workers. */
  lemma MessagesAreApart(w: Workflows, now: Instant, actions: seq<Action>, e: nat, location: string)
    requires WellKeyed(w) && Clear(Look(Execution(w, Boot(now), actions)), e, location)
    requires Undisturbed(w, Boot(now), actions, e, None)
    ensures Apart(w, Boot(now), actions, e, None)
  {
    EnrollmentRuns.BootIsLocking(w, now);
    BootIsCounting(w, now, e, location);
    RunKeepsApart(w, Boot(now), actions, e, location, None);
  }

  lemma {:induction false} NeverAnother(
    w: Workflows, s: System, actions: seq<Action>, e: nat, location: string, last: Option<Instant>)
    requires WellKeyed(w) && Clear(Look(Execution(w, s, actions)), e, location)
    requires Locking(w, Look(s)) && Counting(w, Look(s), e, location) && Rested(w, Look(s), e, last)
    requires Undisturbed(w, s, actions, e, last) && Rows(s, e) <= Bit(last.Some?)
    requires var n := Execution(w, s, actions);
      e < |n.db.sequences| && n.db.sequences[e].enrollment.key in w &&
      w[n.db.sequences[e].enrollment.key].repeatEvery <= 0
    ensures Rows(Execution(w, s, actions), e) <= 1
    decreases |actions|
  {
    if actions != [] {
      var a, next := actions[0], Step(w, s, actions[0]);
      ClearAllAlong(w, next, actions[1..], e, location);
      StepKeepsLocking(w, s, a);
      StepKeepsCounting(w, s, a, e, location);
      StepKeepsRested(w, s, a, e, location, last);
      RunKeepsColumns(w, s, actions);
      if Inserts(w, s, a, e) {
        assert SameContact(s.db.sequences[e], Execution(w, s, actions).db.sequences[e]);
      }
      NeverAnother(w, next, actions[1..], e, location, Last(w, s, a, e, last));
    }
  }

  lemma {:induction false} RunKeepsColumns(w: Workflows, s: System, actions: seq<Action>)
    ensures ColumnsStay(s.db.sequences, Execution(w, s, actions).db.sequences)
    decreases |actions|
  {
    if actions != [] {
      StepKeepsColumns(w, s, actions[0]);
      RunKeepsColumns(w, Step(w, s, actions[0]), actions[1..]);
    }
  }

  /** Without a repeat interval, an enrollment that nothing hastens gets one message at most. */
  lemma SingleMessage(w: Workflows, now: Instant, actions: seq<Action>, e: nat)
    requires WellKeyed(w) && e < |Execution(w, Boot(now), actions).db.sequences|
    requires var n := Execution(w, Boot(now), actions);
      && Unsquatted(Mail(n.db.jobs), e, n.db.sequences[e].location)
      && n.db.sequences[e].enrollment.key in w && w[n.db.sequences[e].enrollment.key].repeatEvery <= 0
    requires Undisturbed(w, Boot(now), actions, e, None)
    ensures Rows(Execution(w, Boot(now), actions), e) <= 1
  {
    var n := Execution(w, Boot(now), actions);
    var location := n.db.sequences[e].location;
    EnrollmentRuns.BootIsLocking(w, now);
    BootIsCounting(w, now, e, location);
    NeverAnother(w, Boot(now), actions, e, location, None);
  }

}
