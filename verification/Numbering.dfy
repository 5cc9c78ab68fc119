/** The outbound rows of one enrollment are numbered: which indices exist, and what the UNIQUE key stops. */
module Numbering {
  import opened Wrappers
  import opened SendWindow
  import opened Template
  import opened Engine
  import opened LeasedQueue
  import opened Tables
  import opened Machine
  import opened Frames
  import opened Enrollments
  import EnrollmentRuns
  import Idempotency

  // ----- What clients may not do -----

  /** No client has enqueued, under this location, an id that is an index of enrollment e. The UNIQUE key is on
      both columns, so the same id under another location is harmless. */
  ghost predicate Unsquatted(mail: seq<Message>, e: nat, location: string) {
    forall i, k :: 0 <= i < |mail| && mail[i].enrollment.None? && mail[i].location == location ==>
      mail[i].id != SequenceMessageId(e, k)
  }

  /** And the location is that of e, once it is enrolled. */
  ghost predicate Clear(v: View, e: nat, location: string) {
    Unsquatted(v.mail, e, location) && (e < |v.sequences| ==> v.sequences[e].location == location)
  }

  // ----- The invariant -----

  function Cap(w: Workflows, key: string): int { if key in w then w[key].maxOccurrences else 0 }

  /** A row of an enrollment carries one of its ids and its location. */
  ghost predicate Owns(v: View, m: Message) {
    match m.enrollment
    case None => true
    case Some(f) =>
      f < |v.sequences| && m.location == v.sequences[f].location && exists k :: m.id == SequenceMessageId(f, k)
  }

  ghost predicate Owned(v: View) { forall i :: 0 <= i < |v.mail| ==> Owns(v, v.mail[i]) }

  predicate CountOk(w: Workflows, v: View, e: nat)
    requires e < |v.sequences|
  {
    var ids := Ids(v.mail, e);
    && ids == Numbered(e, |ids|)
    && (ids != [] ==> |ids| <= Cap(w, v.sequences[e].enrollment.key))
    && 0 <= v.sequences[e].enrollment.sentCount <= |ids|
  }

  predicate Counted(v: View, r: Record) { 0 <= r.enrollment.sentCount <= |Ids(v.mail, r.id)| }

  /** No snapshot of e counts more messages than there are rows. */
  ghost predicate SnapshotsCounted(v: View, e: nat) {
    && (forall p :: p in v.advancers && v.advancers[p].Ready? && v.advancers[p].record.id == e ==>
          Counted(v, v.advancers[p].record))
    && (forall p, i :: p in v.repliers && 0 <= i < |v.repliers[p].records| && v.repliers[p].records[i].id == e ==>
          Counted(v, v.repliers[p].records[i]))
  }

  ghost predicate Counting(w: Workflows, v: View, e: nat, location: string) {
    Owned(v) && Clear(v, e, location) && (e < |v.sequences| ==> CountOk(w, v, e)) && SnapshotsCounted(v, e)
  }

  lemma BootIsCounting(w: Workflows, now: Instant, e: nat, location: string)
    ensures Counting(w, Look(Boot(now)), e, location)
  {}

  /** The UNIQUE key stops exactly the indices already present. */
  lemma TakenIndices(w: Workflows, s: System, e: nat, k: nat)
    requires e < |s.db.sequences| && Counting(w, Look(s), e, s.db.sequences[e].location)
    ensures Taken(s.db.jobs, s.db.sequences[e].location, SequenceMessageId(e, k)) <==>
      1 <= k <= |Ids(Mail(s.db.jobs), e)|
  {
    var mail, id, location := Mail(s.db.jobs), SequenceMessageId(e, k), s.db.sequences[e].location;
    if 1 <= k <= |Ids(mail, e)| {
      assert Ids(mail, e)[k - 1] == id;
      var i := IdsSource(mail, e, id);
      assert Owns(Look(s), mail[i]);
      assert s.db.jobs[i].message.location == location;
    }
    if Taken(s.db.jobs, location, id) {
      var i :| 0 <= i < |mail| && mail[i].location == location && mail[i].id == id;
      TakenIsOwn(Look(s), e, k, i);
      IdsMember(mail, e, i);
      var l :| 0 <= l < |Ids(mail, e)| && Ids(mail, e)[l] == id;
      SequenceIdInjective(e, k, e, l + 1);
    }
  }

  lemma TakenIsOwn(v: View, e: nat, k: nat, i: nat)
    requires Owned(v) && e < |v.sequences| && Clear(v, e, v.sequences[e].location) && i < |v.mail|
    requires v.mail[i].location == v.sequences[e].location && v.mail[i].id == SequenceMessageId(e, k)
    ensures v.mail[i].enrollment == Some(e)
  {
    assert Owns(v, v.mail[i]);
    if v.mail[i].enrollment.Some? {
      var f := v.mail[i].enrollment.value;
      var l :| v.mail[i].id == SequenceMessageId(f, l);
      SequenceIdInjective(e, k, f, l);
    }
  }

  // ----- Changes of the view -----

  lemma ForgetKeepsCounted(v: View, n: View, e: nat)
    requires SnapshotsCounted(v, e) && Forgets(v, n) && |Ids(v.mail, e)| <= |Ids(n.mail, e)|
    ensures SnapshotsCounted(n, e)
  {
    forall p, i | p in n.repliers && 0 <= i < |n.repliers[p].records| && n.repliers[p].records[i].id == e
      ensures Counted(n, n.repliers[p].records[i])
    {
      var was, now := v.repliers[p].records, n.repliers[p].records;
      assert Remains(was, now);
      var k := if now == was then i else i + 1;
      assert now[i] == was[k] && Counted(v, was[k]);
    }
  }

  lemma IdsGrow(was: seq<Message>, more: seq<Message>, e: nat, f: nat)
    requires |more| <= 1 && (|more| == 1 ==> more[0].enrollment == Some(e))
    ensures Ids(was + more, f) == Ids(was, f) + if f == e && |more| == 1 then [more[0].id] else []
  {
    if |more| == 1 {
      assert more == [more[0]];
      IdsAppend(was, more[0], f);
    } else {
      assert was + more == was;
    }
  }

  /** Rows of enrollments keep their owners while columns stay. */
  lemma OwnedGrows(v: View, n: View, mail: seq<Message>)
    requires Owned(v) && n.mail == v.mail + mail && |v.sequences| <= |n.sequences|
    requires forall f :: 0 <= f < |v.sequences| ==> n.sequences[f].location == v.sequences[f].location
    requires forall i :: 0 <= i < |mail| ==> Owns(n, mail[i])
    ensures Owned(n)
  {
    forall i | 0 <= i < |n.mail| ensures Owns(n, n.mail[i]) {
      if i < |v.mail| {
        assert Owns(v, v.mail[i]);
      }
    }
  }

  /** Row f is rewritten, and its next index may be inserted. */
  lemma RewriteKeepsCounting(
    w: Workflows, v: View, n: View, f: nat, mail: seq<Message>, e: nat, location: string)
    requires Counting(w, v, e, location) && Forgets(v, n)
    requires f < |v.sequences| == |n.sequences| && n.sequences == v.sequences[f := n.sequences[f]]
    requires SameColumns(v.sequences[f], n.sequences[f]) && n.mail == v.mail + mail
    requires |mail| <= 1 && (|mail| == 1 ==> mail[0].enrollment == Some(f) && Owns(v, mail[0]))
    requires f == e ==>
      && (|mail| == 1 ==>
          && mail[0].id == SequenceMessageId(e, |Ids(v.mail, e)| + 1)
          && |Ids(v.mail, e)| + 1 <= Cap(w, v.sequences[e].enrollment.key))
      && 0 <= n.sequences[e].enrollment.sentCount <= |Ids(v.mail, e)| + |mail|
    ensures Counting(w, n, e, location)
  {
    OwnedGrows(v, n, mail);
    IdsGrow(v.mail, mail, f, e);
    ForgetKeepsCounted(v, n, e);
  }

  lemma SameKeepsCounting(w: Workflows, v: View, n: View, e: nat, location: string)
    requires Counting(w, v, e, location) && Forgets(v, n)
    requires n.sequences == v.sequences && n.mail == v.mail
    ensures Counting(w, n, e, location)
  {
    assert v.mail + [] == v.mail;
    OwnedGrows(v, n, []);
    ForgetKeepsCounted(v, n, e);
  }

  lemma WriteKeepsCounting(w: Workflows, v: View, n: View, f: nat, e: nat, location: string)
    requires Counting(w, v, e, location) && Forgets(v, n)
    requires f < |v.sequences| == |n.sequences| && n.sequences == v.sequences[f := n.sequences[f]]
    requires SameColumns(v.sequences[f], n.sequences[f]) && n.mail == v.mail
    requires n.sequences[f].enrollment.sentCount == v.sequences[f].enrollment.sentCount
    ensures Counting(w, n, e, location)
  {
    assert v.mail + [] == v.mail;
    RewriteKeepsCounting(w, v, n, f, [], e, location);
  }

  // ----- Each step -----

  /** The row that one attempt to apply a batch inserts. */
  function MailOf(w: Workflows, s: System, r: Record, now: Enrollment, cs: seq<Command>): seq<Message>
    requires r.enrollment.key in w
  {
    if Sending(w[r.enrollment.key], r.enrollment, now, cs) &&
       !Taken(s.db.jobs, r.location, SequenceMessageId(r.id, Natural(now.sentCount)))
    then [SmsOf(r.(enrollment := now), cs[0].body)] else []
  }

  /** For e itself that row is the next one: a snapshot of any age sends at most one past the rows that exist. */
  lemma NextIndexOnly(w: Workflows, s: System, r: Record, now: Enrollment, cs: seq<Command>)
    requires Known(Look(s), r) && Counted(Look(s), r) && KnownKey(w, r.enrollment)
    requires Counting(w, Look(s), r.id, s.db.sequences[r.id].location)
    requires Batch(w[r.enrollment.key], r.enrollment, now, cs)
    ensures var m, mail := |Ids(Mail(s.db.jobs), r.id)|, MailOf(w, s, r, now, cs);
      && (|mail| == 1 ==>
            now.sentCount == m + 1 <= Cap(w, r.enrollment.key) && mail[0].id == SequenceMessageId(r.id, m + 1))
      && 0 <= now.sentCount <= m + |mail|
  {
    TakenIndices(w, s, r.id, Natural(now.sentCount));
  }

  /** Applying a batch from a snapshot of any age. */
  lemma ApplyKeepsCounting(
    w: Workflows, s: System, n: View, r: Record, now: Enrollment, cs: seq<Command>, reply: string, fate: Fate,
    wall: Instant, e: nat, location: string)
    requires Counting(w, Look(s), e, location) && Known(Look(s), r) && (r.id == e ==> Counted(Look(s), r))
    requires KnownKey(w, r.enrollment) && Batch(w[r.enrollment.key], r.enrollment, now, cs)
    requires var after := TryApply(s.db, r.(enrollment := now), cs, reply, fate, wall);
      n.sequences == after.sequences && n.mail == Mail(after.jobs) && Forgets(Look(s), n)
    ensures Counting(w, n, e, location)
  {
    var v := Look(s);
    if fate.Lands() && Claimable(s.db, r) {
      var _ := ApplyInView(w, s, r, now, cs, reply, fate, wall);
      var mail := MailOf(w, s, r, now, cs);
      assert n.mail == v.mail + mail;
      if r.id == e {
        NextIndexOnly(w, s, r, now, cs);
      }
      RewriteKeepsCounting(w, v, n, r.id, mail, e, location);
    } else {
      SameKeepsCounting(w, v, n, e, location);
    }
  }

  lemma AdvancerForgets(w: Workflows, s: System, p: Pid, fate: Fate, wall: Instant, bs: Bindings)
    requires p in s.advancers
    ensures Forgets(Look(s), Look(StepAdvancer(w, s, p, fate, wall, bs)))
  {}

  lemma ReplierForgets(w: Workflows, s: System, p: Pid, fate: Fate, wall: Instant)
    requires p in s.repliers
    ensures Forgets(Look(s), Look(StepReplier(w, s, p, fate, wall)))
  {}

  lemma AdvancerKeepsCounting(
    w: Workflows, s: System, p: Pid, fate: Fate, wall: Instant, bs: Bindings, e: nat, location: string)
    requires Locking(w, Look(s)) && Counting(w, Look(s), e, location) && p in s.advancers
    ensures Counting(w, Look(StepAdvancer(w, s, p, fate, wall, bs)), e, location)
  {
    var v, n := Look(s), Look(StepAdvancer(w, s, p, fate, wall, bs));
    AdvancerForgets(w, s, p, fate, wall, bs);
    match s.advancers[p]
    case Ready(r) =>
      assert Known(v, r) && LockOk(w, v, r.id);
      if Configured(w, r.enrollment.key) && Advanced(w[r.enrollment.key], r.enrollment, wall, bs).result.Ok? {
        var a := Advanced(w[r.enrollment.key], r.enrollment, wall, bs);
        AdvanceIsBatch(w[r.enrollment.key], r.enrollment, wall, bs);
        ApplyKeepsCounting(w, s, n, r, a.enrollment, a.result.value, "", fate, wall, e, location);
      } else {
        SameKeepsCounting(w, v, n, e, location);
      }
    case Postponing(id, delay) =>
      if fate.Lands() && id < |s.db.sequences| {
        WriteKeepsCounting(w, v, n, id, e, location);
      } else {
        SameKeepsCounting(w, v, n, e, location);
      }
    case Failing(id) =>
      if fate.Lands() && id < |s.db.sequences| {
        WriteKeepsCounting(w, v, n, id, e, location);
      } else {
        SameKeepsCounting(w, v, n, e, location);
      }
  }

  lemma ReplierKeepsCounting(w: Workflows, s: System, p: Pid, fate: Fate, wall: Instant, e: nat, location: string)
    requires Locking(w, Look(s)) && Counting(w, Look(s), e, location) && p in s.repliers
    ensures Counting(w, Look(StepReplier(w, s, p, fate, wall)), e, location)
  {
    var v, n := Look(s), Look(StepReplier(w, s, p, fate, wall));
    var Replier(records, text) := s.repliers[p];
    ReplierForgets(w, s, p, fate, wall);
    if records == [] {
      SameKeepsCounting(w, v, n, e, location);
    } else {
      var r := records[0];
      assert Known(v, r) && LockOk(w, v, r.id);
      var x := Replied(w[r.enrollment.key], r.enrollment, text);
      ReplyIsBatch(w[r.enrollment.key], r.enrollment, text);
      ApplyKeepsCounting(w, s, n, r, x.enrollment, x.commands, text, fate, wall, e, location);
    }
  }

  /** Rows are only locked, and snapshots are the old ones or fresh ones of the rows. */
  lemma RelockKeepsCounting(w: Workflows, v: View, n: View, e: nat, location: string)
    requires Counting(w, v, e, location) && LocksOnly(v, n) && Refreshed(v, n)
    ensures Counting(w, n, e, location)
  {
    assert v.mail + [] == v.mail;
    OwnedGrows(v, n, []);
    forall p, i | p in n.repliers && 0 <= i < |n.repliers[p].records| && n.repliers[p].records[i].id == e
      ensures Counted(n, n.repliers[p].records[i])
    {
      assert Fresh(v, n.repliers[p].records[i]) || Counted(v, n.repliers[p].records[i]);
    }
  }

  predicate Fresh(v: View, r: Record) { r.id < |v.sequences| && r == Snapshot(v.sequences, r.id) }

  ghost predicate LocksOnly(v: View, n: View) {
    n.mail == v.mail && |n.sequences| == |v.sequences| &&
    forall f :: 0 <= f < |v.sequences| ==>
      n.sequences[f].location == v.sequences[f].location && n.sequences[f].enrollment == v.sequences[f].enrollment
  }

  /** Each worker has what it had, or fresh snapshots. */
  ghost predicate Refreshed(v: View, n: View) {
    && (forall p :: p in n.advancers && n.advancers[p].Ready? ==>
          (p in v.advancers && n.advancers[p] == v.advancers[p]) || Fresh(v, n.advancers[p].record))
    && (forall p :: p in n.repliers ==>
          (p in v.repliers && n.repliers[p] == v.repliers[p]) ||
          forall i :: 0 <= i < |n.repliers[p].records| ==> Fresh(v, n.repliers[p].records[i]))
  }

  lemma ClaimRefreshes(s: System, p: Pid, fate: Fate)
    ensures Refreshed(Look(s), Look(ClaimSequence(s, p, fate)))
  {}

  lemma ClaimLocksOnly(s: System, p: Pid, fate: Fate)
    ensures LocksOnly(Look(s), Look(ClaimSequence(s, p, fate)))
  {
    var next := SequenceToClaim(s, p, fate);
    if next.Some? {
      assert ClaimSequence(s, p, fate).db == LockSequence(s.db, next.value);
    }
  }

  lemma HearRefreshes(s: System, p: Pid, phone: string, to: string, text: string, fate: Fate)
    ensures Refreshed(Look(s), Look(ClaimForReply(s, p, phone, to, text, fate)))
  {
    var t := Replier(ConcernedRecords(s.db.sequences, phone, to, s.db.now), text);
    ConcernedAreFresh(Look(s), phone, to, s.db.now);
    OneIsRefreshed(Look(s), Look(ClaimForReply(s, p, phone, to, text, fate)), p, t);
  }

  lemma ConcernedAreFresh(v: View, phone: string, to: string, now: Instant)
    ensures forall r :: r in ConcernedRecords(v.sequences, phone, to, now) ==> Fresh(v, r)
  {}

  lemma OneIsRefreshed(v: View, n: View, p: Pid, t: Replier)
    requires n.advancers == v.advancers && (n.repliers == v.repliers || n.repliers == v.repliers[p := t])
    requires forall r :: r in t.records ==> Fresh(v, r)
    ensures Refreshed(v, n)
  {}

  lemma HearLocksOnly(s: System, p: Pid, phone: string, to: string, text: string, fate: Fate)
    ensures LocksOnly(Look(s), Look(ClaimForReply(s, p, phone, to, text, fate)))
  {
    var n := ClaimForReply(s, p, phone, to, text, fate);
    assert n == s || n.db == s.db.(sequences := LockConcerned(s.db.sequences, phone, to, s.db.now));
  }

  lemma ClaimKeepsCounting(w: Workflows, s: System, p: Pid, fate: Fate, e: nat, location: string)
    requires Counting(w, Look(s), e, location)
    ensures Counting(w, Look(ClaimSequence(s, p, fate)), e, location)
  {
    ClaimRefreshes(s, p, fate);
    ClaimLocksOnly(s, p, fate);
    RelockKeepsCounting(w, Look(s), Look(ClaimSequence(s, p, fate)), e, location);
  }

  lemma HearKeepsCounting(
    w: Workflows, s: System, p: Pid, phone: string, to: string, text: string, fate: Fate, e: nat, location: string)
    requires Counting(w, Look(s), e, location)
    ensures Counting(w, Look(ClaimForReply(s, p, phone, to, text, fate)), e, location)
  {
    HearRefreshes(s, p, phone, to, text, fate);
    HearLocksOnly(s, p, phone, to, text, fate);
    RelockKeepsCounting(w, Look(s), Look(ClaimForReply(s, p, phone, to, text, fate)), e, location);
  }

  lemma ClaimsKeepCounting(w: Workflows, s: System, a: Action, e: nat, location: string)
    requires Counting(w, Look(s), e, location) && (a.AdvancerClaim? || a.HearReply?)
    ensures Counting(w, Look(Step(w, s, a)), e, location)
  {
    if a.AdvancerClaim? {
      ClaimKeepsCounting(w, s, a.p, a.fate, e, location);
    } else {
      HearKeepsCounting(w, s, a.p, a.phone, a.to, a.text, a.fate, e, location);
    }
  }

  lemma EnrollKeepsCounting(w: Workflows, s: System, a: Action, e: nat, location: string)
    requires Counting(w, Look(s), e, location) && a.EnrollContact? && Locking(w, Look(s))
    requires Clear(Look(Step(w, s, a)), e, location)
    ensures Counting(w, Look(Step(w, s, a)), e, location)
  {
    var v, n := Look(s), Look(Step(w, s, a));
    if n != v {
      AppendKeepsCounting(w, v, n, e, location);
    }
  }

  lemma AppendKeepsCounting(w: Workflows, v: View, n: View, e: nat, location: string)
    requires Counting(w, v, e, location) && Clear(n, e, location)
    requires |n.sequences| == |v.sequences| + 1 && n == v.(sequences := v.sequences + [n.sequences[|v.sequences|]])
    requires n.sequences[|v.sequences|].enrollment.sentCount == 0
    ensures Counting(w, n, e, location)
  {
    assert v.mail + [] == v.mail;
    OwnedGrows(v, n, []);
    if e == |v.sequences| {
      forall i | 0 <= i < |v.mail| ensures v.mail[i].enrollment != Some(e) {
        assert Owns(v, v.mail[i]);
      }
      IdsFresh(v.mail, e);
    }
  }

  lemma EnqueueKeepsCounting(w: Workflows, s: System, m: Message, e: nat, location: string)
    requires Counting(w, Look(s), e, location) && Clear(Look(Step(w, s, Enqueue(m))), e, location)
    ensures Counting(w, Look(Step(w, s, Enqueue(m))), e, location)
  {
    var v, n := Look(s), Look(Step(w, s, Enqueue(m)));
    var row := m.(enrollment := None);
    if !Taken(s.db.jobs, row.location, row.id) {
      assert n.mail == v.mail + [row];
      OwnedGrows(v, n, [row]);
      IdsAppend(v.mail, row, e);
      ForgetKeepsCounted(v, n, e);
    }
  }

  lemma CrashKeepsCounting(w: Workflows, s: System, a: Action, e: nat, location: string)
    requires Counting(w, Look(s), e, location) && (a.AdvancerCrash? || a.ReplierCrash?)
    ensures Counting(w, Look(Step(w, s, a)), e, location)
  {
    SameKeepsCounting(w, Look(s), Look(Step(w, s, a)), e, location);
  }

  lemma WorkersKeepCounting(w: Workflows, s: System, a: Action, e: nat, location: string)
    requires Locking(w, Look(s)) && Counting(w, Look(s), e, location) && (a.AdvancerStep? || a.ReplierStep?)
    ensures Counting(w, Look(Step(w, s, a)), e, location)
  {
    if a.AdvancerStep? {
      if a.p in s.advancers { AdvancerKeepsCounting(w, s, a.p, a.fate, a.wall, a.bs, e, location); }
    } else {
      if a.p in s.repliers { ReplierKeepsCounting(w, s, a.p, a.fate, a.wall, e, location); }
    }
  }

  lemma StepKeepsCounting(w: Workflows, s: System, a: Action, e: nat, location: string)
    requires Locking(w, Look(s)) && Counting(w, Look(s), e, location) && Clear(Look(Step(w, s, a)), e, location)
    ensures Counting(w, Look(Step(w, s, a)), e, location)
  {
    if !TouchesSequences(a) {
      OthersAreInvisible(w, s, a);
    } else if a.AdvancerClaim? || a.HearReply? {
      ClaimsKeepCounting(w, s, a, e, location);
    } else if a.AdvancerStep? || a.ReplierStep? {
      WorkersKeepCounting(w, s, a, e, location);
    } else if a.Enqueue? {
      EnqueueKeepsCounting(w, s, a.message, e, location);
    } else if a.EnrollContact? {
      EnrollKeepsCounting(w, s, a, e, location);
    } else {
      CrashKeepsCounting(w, s, a, e, location);
    }
  }

  // ----- What is clear at the end was clear all along -----

  lemma EffectKeepsColumns(w: Workflows, s: System, a: Action)
    requires a.AdvancerStep? || a.ReplierStep?
    ensures ColumnsStay(s.db.sequences, Step(w, s, a).db.sequences)
  {
    if a.AdvancerStep? && a.p in s.advancers {
      AdvancerKeepsColumns(w, s.db, s.advancers[a.p], a.fate, a.wall, a.bs);
    } else if a.ReplierStep? && a.p in s.repliers {
      ReplierKeepsColumns(w, s.db, s.repliers[a.p], a.fate, a.wall);
    }
  }

  ghost predicate ColumnsStay(was: seq<Sequence>, now: seq<Sequence>) {
    |was| <= |now| && forall f :: 0 <= f < |was| ==> SameContact(was[f], now[f])
  }

  lemma ApplyKeepsColumns(db: Database, r: Record, cs: seq<Command>, reply: string, fate: Fate, wall: Instant)
    ensures ColumnsStay(db.sequences, TryApply(db, r, cs, reply, fate, wall).sequences)
  {
    if fate.Lands() && Claimable(db, r) {
      CommandsInsertNewRows(
        db.(sequences := db.sequences[r.id := Rewritten(db.sequences[r.id], r, reply)], batches := db.batches + 1),
        r, cs, reply, wall);
    }
  }

  lemma AdvancerKeepsColumns(w: Workflows, db: Database, t: Advancer, fate: Fate, wall: Instant, bs: Bindings)
    ensures ColumnsStay(db.sequences, AdvancerEffect(w, db, t, fate, wall, bs).sequences)
  {
    if t.Ready? && Configured(w, t.record.enrollment.key) {
      var x := Advanced(w[t.record.enrollment.key], t.record.enrollment, wall, bs);
      if x.result.Ok? {
        ApplyKeepsColumns(db, t.record.(enrollment := x.enrollment), x.result.value, "", fate, wall);
      }
    }
  }

  lemma ReplierKeepsColumns(w: Workflows, db: Database, t: Replier, fate: Fate, wall: Instant)
    ensures ColumnsStay(db.sequences, ReplierEffect(w, db, t, fate, wall).sequences)
  {
    if t.records != [] && t.records[0].enrollment.key in w {
      var r := t.records[0];
      var x := Replied(w[r.enrollment.key], r.enrollment, t.text);
      ApplyKeepsColumns(db, r.(enrollment := x.enrollment), x.commands, t.text, fate, wall);
    }
  }

  lemma LocksKeepColumns(w: Workflows, s: System, a: Action)
    requires a.AdvancerClaim? || a.HearReply? || a.EnrollContact?
    ensures ColumnsStay(s.db.sequences, Step(w, s, a).db.sequences)
  {}

  lemma StepKeepsColumns(w: Workflows, s: System, a: Action)
    ensures ColumnsStay(s.db.sequences, Step(w, s, a).db.sequences)
  {
    if !TouchesSequences(a) {
      OthersAreInvisible(w, s, a);
    } else if a.AdvancerStep? || a.ReplierStep? {
      EffectKeepsColumns(w, s, a);
    } else if a.AdvancerClaim? || a.HearReply? || a.EnrollContact? {
      LocksKeepColumns(w, s, a);
    } else {
      StepFrame(w, s, a);
    }
  }

  lemma {:induction false} ClearAllAlong(w: Workflows, s: System, actions: seq<Action>, e: nat, location: string)
    requires Clear(Look(Execution(w, s, actions)), e, location)
    ensures Clear(Look(s), e, location)
    decreases |actions|
  {
    if actions != [] {
      var next := Step(w, s, actions[0]);
      ClearAllAlong(w, next, actions[1..], e, location);
      StepKeepsColumns(w, s, actions[0]);
      Idempotency.StepGrows(w, s, actions[0]);
      PrefixIsClear(Look(s), Look(next), e, location);
    }
  }

  lemma PrefixIsClear(v: View, n: View, e: nat, location: string)
    requires Clear(n, e, location) && v.mail <= n.mail && ColumnsStay(v.sequences, n.sequences)
    ensures Clear(v, e, location)
  {
    forall i, k | 0 <= i < |v.mail| && v.mail[i].enrollment.None? && v.mail[i].location == location
      ensures v.mail[i].id != SequenceMessageId(e, k)
    {
      assert n.mail[i] == v.mail[i];
    }
  }

  lemma {:induction false} RunKeepsCounting(w: Workflows, s: System, actions: seq<Action>, e: nat, location: string)
    requires WellKeyed(w) && Locking(w, Look(s)) && Counting(w, Look(s), e, location)
    requires Clear(Look(Execution(w, s, actions)), e, location)
    ensures Counting(w, Look(Execution(w, s, actions)), e, location)
    decreases |actions|
  {
    if actions != [] {
      var next := Step(w, s, actions[0]);
      StepKeepsLocking(w, s, actions[0]);
      ClearAllAlong(w, next, actions[1..], e, location);
      StepKeepsCounting(w, s, actions[0], e, location);
      RunKeepsCounting(w, next, actions[1..], e, location);
    }
  }

  // ----- Main result -----

  /** In every run at whose end no client row has the location of enrollment e and an id of the form workflow:e:k,
      the outbound rows of e are exactly indices 1 to m, in that order and each once, for some m within the
      definition's cap; and no row or live snapshot counts more messages than there are rows. */
  lemma OutboundRowsAreNumbered(w: Workflows, now: Instant, actions: seq<Action>, e: nat)
    requires WellKeyed(w) && e < |Execution(w, Boot(now), actions).db.sequences|
    requires var s := Execution(w, Boot(now), actions);
      Unsquatted(Mail(s.db.jobs), e, s.db.sequences[e].location)
    ensures var s := Execution(w, Boot(now), actions);
      var ids := Ids(Mail(s.db.jobs), e);
      && ids == Numbered(e, |ids|)
      && (forall i, j :: 0 <= i < j < |ids| ==> ids[i] != ids[j])
      && (ids != [] ==> |ids| <= Cap(w, s.db.sequences[e].enrollment.key))
      && s.db.sequences[e].enrollment.sentCount <= |ids|
      && (forall p :: p in s.advancers && s.advancers[p].Ready? && s.advancers[p].record.id == e ==>
            s.advancers[p].record.enrollment.sentCount <= |ids|)
      && (forall p, i :: p in s.repliers && 0 <= i < |s.repliers[p].records| && s.repliers[p].records[i].id == e ==>
            s.repliers[p].records[i].enrollment.sentCount <= |ids|)
  {
    var s := Execution(w, Boot(now), actions);
    var location := s.db.sequences[e].location;
    EnrollmentRuns.BootIsLocking(w, now);
    BootIsCounting(w, now, e, location);
    RunKeepsCounting(w, Boot(now), actions, e, location);
    NumberedOnce(e, Ids(Mail(s.db.jobs), e));
    CountsAreBounded(Look(s), e);
  }

  lemma NumberedOnce(e: nat, ids: seq<string>)
    requires ids == Numbered(e, |ids|)
    ensures forall i, j :: 0 <= i < j < |ids| ==> ids[i] != ids[j]
  {
    forall i, j | 0 <= i < j < |ids| ensures ids[i] != ids[j] {
      if ids[i] == ids[j] {
        SequenceIdInjective(e, i + 1, e, j + 1);
      }
    }
  }

  lemma CountsAreBounded(v: View, e: nat)
    requires SnapshotsCounted(v, e)
    ensures forall p :: p in v.advancers && v.advancers[p].Ready? && v.advancers[p].record.id == e ==>
      v.advancers[p].record.enrollment.sentCount <= |Ids(v.mail, e)|
    ensures forall p, i :: p in v.repliers && 0 <= i < |v.repliers[p].records| && v.repliers[p].records[i].id == e ==>
      v.repliers[p].records[i].enrollment.sentCount <= |Ids(v.mail, e)|
  {
    forall p, i | p in v.repliers && 0 <= i < |v.repliers[p].records| && v.repliers[p].records[i].id == e
      ensures v.repliers[p].records[i].enrollment.sentCount <= |Ids(v.mail, e)|
    {
      assert Counted(v, v.repliers[p].records[i]);
    }
  }

}
