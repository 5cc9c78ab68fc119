/** Enrollment safety: what the guard `locked_until IS NOT NULL` and the UNIQUE keys still ensure when any
    number of workers apply stale snapshots after their leases have passed. */
module Enrollments {
  import opened Wrappers
  import opened Strings
  import opened SendWindow
  import opened Numbers
  import opened Catalog
  import opened Template
  import opened Engine
  import opened LeasedQueue
  import opened Tables
  import opened Machine
  import opened Frames

  // ----- The part of the system these properties look at -----

  datatype CrmKey = CrmKey(enrollment: nat, action: string, batch: nat)

  datatype View = View(
    sequences: seq<Sequence>,
    mail: seq<Message>,
    crm: seq<CrmKey>,
    advancers: map<Pid, Advancer>,
    repliers: map<Pid, Replier>)

  function Mail(jobs: seq<Job>): (r: seq<Message>)
    ensures |r| == |jobs| && forall i :: 0 <= i < |jobs| ==> r[i] == jobs[i].message
  {
    seq(|jobs|, i requires 0 <= i < |jobs| => jobs[i].message)
  }

  function Keys(crm: seq<CrmJob>): (r: seq<CrmKey>)
    ensures |r| == |crm|
    ensures forall i :: 0 <= i < |crm| ==> r[i] == CrmKey(crm[i].enrollment, crm[i].action, crm[i].batch)
  {
    seq(|crm|, i requires 0 <= i < |crm| => CrmKey(crm[i].enrollment, crm[i].action, crm[i].batch))
  }

  function Look(s: System): View { View(s.db.sequences, Mail(s.db.jobs), Keys(s.db.crm), s.advancers, s.repliers) }

  predicate TouchesSequences(a: Action) {
    a.Enqueue? || a.EnrollContact? || a.AdvancerClaim? || a.AdvancerStep? || a.AdvancerCrash? ||
    a.HearReply? || a.ReplierStep? || a.ReplierCrash?
  }

  /** Senders, CRM workers, suppressions and webhooks change none of it. */
  lemma OthersAreInvisible(w: Workflows, s: System, a: Action)
    requires !TouchesSequences(a)
    ensures Look(Step(w, s, a)) == Look(s)
  {
    if IsSenders(a) {
      SendersAreInvisible(w, s, a);
    } else if IsCrm(a) {
      CrmWorkersAreInvisible(w, s, a);
    } else if a.EndSuppress? {
      CancellingIsInvisible(w, s, a.p, a.lands);
    } else {
      SameTablesSameLook(w, s, a);
    }
  }

  lemma SendersAreInvisible(w: Workflows, s: System, a: Action)
    requires IsSenders(a)
    ensures Look(Step(w, s, a)) == Look(s)
  {
    if a.SenderClaim? {
      ClaimingIsInvisible(s, a.p, a.fate);
    } else if a.SenderStep? && a.p in s.senders && a.p in s.held && s.held[a.p].row < |s.db.jobs| {
      SendingIsInvisible(s, a.p, a.fate, a.response, a.lookup);
    }
  }

  lemma CrmWorkersAreInvisible(w: Workflows, s: System, a: Action)
    requires IsCrm(a)
    ensures Look(Step(w, s, a)) == Look(s)
  {
    if a.CrmClaim? {
      CrmClaimingIsInvisible(s, a.p, a.fate);
    } else if a.CrmStep? && a.p in s.crmPcs && a.p in s.crmHeld && s.crmHeld[a.p].row < |s.db.crm| {
      CrmIsInvisible(s, a.p, a.fate, a.ok);
    }
  }

  lemma ClaimingIsInvisible(s: System, p: Pid, fate: Fate)
    ensures Look(ClaimJob(s, p, fate)) == Look(s)
  {
    assert Mail(ClaimJob(s, p, fate).db.jobs) == Mail(s.db.jobs);
  }

  lemma SendingIsInvisible(s: System, p: Pid, fate: Fate, response: Response, lookup: Lookup)
    requires p in s.senders && p in s.held && s.held[p].row < |s.db.jobs|
    ensures Look(StepSender(s, p, fate, response, lookup)) == Look(s)
  {
    EffectKeepsTables(s.db, s.senders[p], s.held[p].row);
  }

  lemma EffectKeepsTables(db: Database, t: Sender, row: nat)
    requires row < |db.jobs|
    ensures var n := SenderEffect(db, t, row);
      Mail(n.jobs) == Mail(db.jobs) && n.sequences == db.sequences && n.crm == db.crm
  {}

  lemma CrmClaimingIsInvisible(s: System, p: Pid, fate: Fate)
    ensures Look(ClaimCrm(s, p, fate)) == Look(s)
  {
    assert Keys(ClaimCrm(s, p, fate).db.crm) == Keys(s.db.crm);
  }

  lemma CrmIsInvisible(s: System, p: Pid, fate: Fate, ok: bool)
    requires p in s.crmPcs && p in s.crmHeld && s.crmHeld[p].row < |s.db.crm|
    ensures Look(StepCrm(s, p, fate, ok)) == Look(s)
  {
    if s.crmPcs[p].CrmWriteBack? {
      var i := s.crmHeld[p].row;
      LeaseKeepsKeys(s.db, i, Written(s.db.crm[i].lease, s.crmPcs[p].outcome, s.db.now));
    }
  }

  lemma LeaseKeepsKeys(db: Database, i: nat, lease: Row)
    requires i < |db.crm|
    ensures Keys(SetCrmLease(db, i, lease).crm) == Keys(db.crm)
  {}

  lemma CancellingIsInvisible(w: Workflows, s: System, p: Pid, lands: bool)
    ensures Look(Step(w, s, EndSuppress(p, lands))) == Look(s)
  {
    StepFrame(w, s, EndSuppress(p, lands));
    assert Mail(Step(w, s, EndSuppress(p, lands)).db.jobs) == Mail(s.db.jobs);
  }

  lemma SameTablesSameLook(w: Workflows, s: System, a: Action)
    requires !TouchesSequences(a) && !IsSenders(a) && !IsCrm(a) && !a.EndSuppress?
    ensures Look(Step(w, s, a)) == Look(s)
  {
    StepFrame(w, s, a);
    FrameOfLook(s, Step(w, s, a), a);
  }

  lemma FrameOfLook(s: System, n: System, a: Action)
    requires Frame(s, n, a) && !TouchesSequences(a) && !IsSenders(a) && !IsCrm(a) && !a.EndSuppress?
    ensures Look(n) == Look(s)
  {}

  // ----- Rows of one enrollment -----

  /** The ids of the enrollment's outbound rows, oldest first. */
  function Ids(mail: seq<Message>, e: nat): seq<string> {
    if mail == [] then [] else
      var n := |mail| - 1;
      Ids(mail[..n], e) + if mail[n].enrollment == Some(e) then [mail[n].id] else []
  }

  /** Indices 1 to m. */
  function Numbered(e: nat, m: nat): (r: seq<string>)
    ensures |r| == m && forall k :: 0 <= k < m ==> r[k] == SequenceMessageId(e, k + 1)
  {
    if m == 0 then [] else Numbered(e, m - 1) + [SequenceMessageId(e, m)]
  }

  function CrmOf(crm: seq<CrmKey>, e: nat): seq<CrmKey> {
    if crm == [] then [] else
      var n := |crm| - 1;
      CrmOf(crm[..n], e) + if crm[n].enrollment == e then [crm[n]] else []
  }

  lemma IdsAppend(mail: seq<Message>, m: Message, e: nat)
    ensures Ids(mail + [m], e) == Ids(mail, e) + if m.enrollment == Some(e) then [m.id] else []
  {
    assert (mail + [m])[..|mail|] == mail;
  }

  lemma {:induction false} CrmOfAppend(crm: seq<CrmKey>, more: seq<CrmKey>, e: nat)
    ensures CrmOf(crm + more, e) == CrmOf(crm, e) + CrmOf(more, e)
    decreases |more|
  {
    if more == [] {
      assert crm + more == crm;
    } else {
      var n := |more| - 1;
      assert (crm + more)[..|crm| + n] == crm + more[..n];
      CrmOfAppend(crm, more[..n], e);
    }
  }

  lemma {:induction false} CrmOfOne(more: seq<CrmKey>, e: nat, o: nat)
    requires forall i :: 0 <= i < |more| ==> more[i].enrollment == o
    ensures CrmOf(more, e) == if e == o then more else []
    decreases |more|
  {
    if more != [] {
      var n := |more| - 1;
      CrmOfOne(more[..n], e, o);
      assert more == more[..n] + [more[n]];
    }
  }

  lemma {:induction false} CrmOfFresh(crm: seq<CrmKey>, e: nat)
    requires forall i :: 0 <= i < |crm| ==> crm[i].enrollment != e
    ensures CrmOf(crm, e) == []
  {
    if crm != [] {
      CrmOfFresh(crm[..|crm| - 1], e);
    }
  }

  lemma {:induction false} IdsFresh(mail: seq<Message>, e: nat)
    requires forall i :: 0 <= i < |mail| ==> mail[i].enrollment != Some(e)
    ensures Ids(mail, e) == []
  {
    if mail != [] {
      IdsFresh(mail[..|mail| - 1], e);
    }
  }

  lemma {:induction false} IdsMember(mail: seq<Message>, e: nat, i: nat)
    requires i < |mail| && mail[i].enrollment == Some(e)
    ensures mail[i].id in Ids(mail, e)
  {
    if i < |mail| - 1 {
      assert mail[..|mail| - 1][i] == mail[i];
      IdsMember(mail[..|mail| - 1], e, i);
    }
  }

  lemma {:induction false} IdsSource(mail: seq<Message>, e: nat, id: string) returns (i: nat)
    requires id in Ids(mail, e)
    ensures i < |mail| && mail[i].enrollment == Some(e) && mail[i].id == id
  {
    var n := |mail| - 1;
    if mail[n].enrollment == Some(e) && mail[n].id == id {
      i := n;
    } else {
      i := IdsSource(mail[..n], e, id);
    }
  }

  lemma SequenceIdInjective(e: nat, k: nat, f: nat, l: nat)
    requires SequenceMessageId(e, k) == SequenceMessageId(f, l)
    ensures e == f && k == l
  {
    var p := "workflow:";
    var x, y := Decimal(e) + (":" + Decimal(k)), Decimal(f) + (":" + Decimal(l));
    assert (p + x)[|p|..] == x && (p + y)[|p|..] == y;
    assert forall i :: 0 <= i < |Decimal(e)| ==> IsDigit(Decimal(e)[i]);
    assert forall i :: 0 <= i < |Decimal(f)| ==> IsDigit(Decimal(f)[i]);
    ColonSplit(Decimal(e), Decimal(k), Decimal(f), Decimal(l));
    DecimalInjective(e, f);
    DecimalInjective(k, l);
  }

  // ----- The engine's batches -----

  /** Definitions are filed under their own keys. */
  predicate WellKeyed(w: Workflows) { forall k :: k in w ==> w[k].key == k }

  /** A worker's batch either sends one message and waits on, or ends the enrollment, or does nothing. */
  predicate Batch(d: Definition, was: Enrollment, now: Enrollment, cs: seq<Command>) {
    now.key == was.key && now.variant == was.variant && (Sending(d, was, now, cs) || Ending(was, now, cs))
  }

  predicate Sending(d: Definition, was: Enrollment, now: Enrollment, cs: seq<Command>) {
    |cs| == 1 && cs[0].SendSms? && now.sentCount == was.sentCount + 1 <= d.maxOccurrences && now.state == AwaitingReply
  }

  predicate Ending(was: Enrollment, now: Enrollment, cs: seq<Command>) {
    |cs| <= 2 && (forall i :: 0 <= i < |cs| ==> !cs[i].SendSms?) && now.sentCount == was.sentCount &&
    (cs != [] ==> Stopped(now))
  }

  lemma AdvanceIsBatch(d: Definition, e: Enrollment, wall: Instant, bs: Bindings)
    requires d.Valid() && Advanced(d, e, wall, bs).result.Ok?
    ensures Batch(d, e, Advanced(d, e, wall, bs).enrollment, Advanced(d, e, wall, bs).result.value)
  {
    AdvanceEffect(d, e, wall, bs);
  }

  lemma ReplyIsBatch(d: Definition, e: Enrollment, text: string)
    ensures Batch(d, e, Replied(d, e, text).enrollment, Replied(d, e, text).commands)
  {}

  // ----- One transaction -----

  /** The crm_jobs rows of a transaction: its own batch, its own enrollment. */
  predicate FromBatch(more: seq<CrmKey>, e: nat, batch: nat) {
    forall i :: 0 <= i < |more| ==> more[i].enrollment == e && more[i].batch == batch
  }

  function NewCrm(db: Database, r: Record, c: Command): seq<CrmKey> {
    if c.SendSms? || c.SuppressContact? || HasCrm(db.crm, r.id, ActionName(c)) then []
    else [CrmKey(r.id, ActionName(c), db.batches)]
  }

  lemma CommandInsertsCrm(db: Database, r: Record, c: Command, reply: string, wall: Instant)
    ensures Keys(RunCommand(db, r, c, reply, wall).crm) == Keys(db.crm) + NewCrm(db, r, c)
    ensures RunCommand(db, r, c, reply, wall).sequences == db.sequences
    ensures RunCommand(db, r, c, reply, wall).batches == db.batches
  {}

  /** The rows a list of commands inserts in crm_jobs. */
  function NewRows(db: Database, r: Record, cs: seq<Command>, reply: string, wall: Instant): seq<CrmKey>
    decreases |cs|
  {
    if cs == [] then []
    else
      var n := |cs| - 1;
      NewRows(db, r, cs[..n], reply, wall) + NewCrm(RunCommands(db, r, cs[..n], reply, wall), r, cs[n])
  }

  lemma {:induction false} CommandsInsertNewRows(db: Database, r: Record, cs: seq<Command>, reply: string, wall: Instant)
    ensures Keys(RunCommands(db, r, cs, reply, wall).crm) == Keys(db.crm) + NewRows(db, r, cs, reply, wall)
    ensures RunCommands(db, r, cs, reply, wall).sequences == db.sequences
    ensures RunCommands(db, r, cs, reply, wall).batches == db.batches
    decreases |cs|
  {
    if cs == [] {
      assert Keys(db.crm) + [] == Keys(db.crm);
    } else {
      var n := |cs| - 1;
      CommandsInsertNewRows(db, r, cs[..n], reply, wall);
      CommandInsertsCrm(RunCommands(db, r, cs[..n], reply, wall), r, cs[n], reply, wall);
    }
  }

  /** At most one per command, all of them the batch's own, and none for a send. */
  lemma {:induction false} NewRowsAreOwn(db: Database, r: Record, cs: seq<Command>, reply: string, wall: Instant)
    ensures |NewRows(db, r, cs, reply, wall)| <= |cs|
    ensures FromBatch(NewRows(db, r, cs, reply, wall), r.id, db.batches)
    ensures (forall i :: 0 <= i < |cs| ==> cs[i].SendSms?) ==> NewRows(db, r, cs, reply, wall) == []
    decreases |cs|
  {
    if cs != [] {
      NewRowsAreOwn(db, r, cs[..|cs| - 1], reply, wall);
      CommandsInsertNewRows(db, r, cs[..|cs| - 1], reply, wall);
    }
  }

  /** Without a send no outbound row is inserted. */
  lemma {:induction false} CommandsKeepMail(db: Database, r: Record, cs: seq<Command>, reply: string, wall: Instant)
    requires forall i :: 0 <= i < |cs| ==> !cs[i].SendSms?
    ensures Mail(RunCommands(db, r, cs, reply, wall).jobs) == Mail(db.jobs)
    decreases |cs|
  {
    if cs != [] {
      var n := |cs| - 1;
      CommandsKeepMail(db, r, cs[..n], reply, wall);
      var before := RunCommands(db, r, cs[..n], reply, wall);
      assert Mail(RunCommand(before, r, cs[n], reply, wall).jobs) == Mail(before.jobs);
    }
  }

  /** A sending batch inserts its message unless the id is taken. */
  lemma SendInserts(db: Database, r: Record, body: string, rate: Rate, reply: string, wall: Instant)
    ensures Mail(RunCommands(db, r, [SendSms(body, rate)], reply, wall).jobs) ==
      Mail(db.jobs) + if Taken(db.jobs, r.location, SmsOf(r, body).id) then [] else [SmsOf(r, body)]
  {
    var cs := [SendSms(body, rate)];
    assert cs[..0] == [];
    assert RunCommands(db, r, cs, reply, wall) == RunCommand(db, r, cs[0], reply, wall);
    if Taken(db.jobs, r.location, SmsOf(r, body).id) {
      assert Mail(db.jobs) + [] == Mail(db.jobs);
    }
  }

  // ----- First invariant: terminal enrollments are unlocked, active ones own no CRM row -----

  predicate KnownKey(w: Workflows, e: Enrollment) { e.key in w && w[e.key].Valid() }

  predicate LockOk(w: Workflows, v: View, e: nat)
    requires e < |v.sequences|
  {
    var q, rows := v.sequences[e], CrmOf(v.crm, e);
    && KnownKey(w, q.enrollment) && q.enrollment.sentCount >= 0
    && (!Active(q) ==> q.lockedUntil.None?)
    && (Active(q) ==> rows == [])
    && |rows| <= 2
    && (|rows| == 2 ==> rows[0].batch == rows[1].batch)
  }

  /** The columns no statement writes. */
  predicate SameContact(was: Sequence, now: Sequence) {
    && now.location == was.location && now.from == was.from
    && now.enrollment.key == was.enrollment.key
    && now.enrollment.contact == was.enrollment.contact
  }

  /** The columns that never change; the variant is only ever rewritten as it was. */
  predicate SameColumns(was: Sequence, now: Sequence) {
    SameContact(was, now) && now.enrollment.variant == was.enrollment.variant
  }

  /** A snapshot of an enrollment that exists, taken while it was active. */
  predicate Known(v: View, r: Record) {
    && r.id < |v.sequences|
    && r.location == v.sequences[r.id].location && r.from == v.sequences[r.id].from
    && r.enrollment.key == v.sequences[r.id].enrollment.key
    && r.enrollment.contact == v.sequences[r.id].enrollment.contact
    && r.enrollment.variant == v.sequences[r.id].enrollment.variant
    && (r.enrollment.state == Pending || r.enrollment.state == AwaitingReply) && r.enrollment.sentCount >= 0
  }

  ghost predicate KnownAll(v: View) {
    && (forall p :: p in v.advancers && v.advancers[p].Ready? ==> Known(v, v.advancers[p].record))
    && (forall p, i :: p in v.repliers && 0 <= i < |v.repliers[p].records| ==> Known(v, v.repliers[p].records[i]))
  }

  ghost predicate Locking(w: Workflows, v: View) {
    && (forall e :: 0 <= e < |v.sequences| ==> LockOk(w, v, e))
    && (forall i :: 0 <= i < |v.crm| ==> v.crm[i].enrollment < |v.sequences|)
    && KnownAll(v)
  }

  /** What one attempt to apply a batch does to the view. */
  lemma ApplyInView(
    w: Workflows, s: System, r: Record, now: Enrollment, cs: seq<Command>, reply: string, fate: Fate, wall: Instant)
    returns (more: seq<CrmKey>)
    requires Known(Look(s), r) && KnownKey(w, r.enrollment) && Batch(w[r.enrollment.key], r.enrollment, now, cs)
    requires fate.Lands() && Claimable(s.db, r)
    ensures var after, applied := TryApply(s.db, r.(enrollment := now), cs, reply, fate, wall), r.(enrollment := now);
      && after.sequences == s.db.sequences[r.id := Rewritten(s.db.sequences[r.id], applied, reply)]
      && Keys(after.crm) == Keys(s.db.crm) + more
      && |more| <= |cs| && FromBatch(more, r.id, s.db.batches + 1)
      && (!Stopped(now) ==> more == [])
      && Mail(after.jobs) == Mail(s.db.jobs) +
          if Sending(w[r.enrollment.key], r.enrollment, now, cs) &&
             !Taken(s.db.jobs, r.location, SequenceMessageId(r.id, Natural(now.sentCount)))
          then [SmsOf(applied, cs[0].body)] else []
  {
    var applied := r.(enrollment := now);
    var updated := s.db.(
      sequences := s.db.sequences[r.id := Rewritten(s.db.sequences[r.id], applied, reply)],
      batches := s.db.batches + 1);
    more := NewRows(updated, applied, cs, reply, wall);
    CommandsInsertNewRows(updated, applied, cs, reply, wall);
    NewRowsAreOwn(updated, applied, cs, reply, wall);
    if Sending(w[r.enrollment.key], r.enrollment, now, cs) {
      assert cs == [SendSms(cs[0].body, cs[0].rate)];
      SendInserts(updated, applied, cs[0].body, cs[0].rate, reply, wall);
    } else {
      CommandsKeepMail(updated, applied, cs, reply, wall);
      assert Mail(s.db.jobs) + [] == Mail(s.db.jobs);
    }
  }

  // ----- Every step keeps it, and leaves terminal enrollments alone -----

  /** A terminal enrollment stays terminal and gains no row in either table. */
  ghost predicate Frozen(v: View, n: View) {
    |v.sequences| <= |n.sequences| &&
    forall e :: 0 <= e < |v.sequences| && !Active(v.sequences[e]) ==>
      !Active(n.sequences[e]) && Ids(n.mail, e) == Ids(v.mail, e) && CrmOf(n.crm, e) == CrmOf(v.crm, e)
  }

  /** One row is rewritten, with crm rows and messages of its own, and workers may forget records. */
  ghost predicate Rewrites(v: View, n: View, e: nat, mail: seq<Message>, more: seq<CrmKey>, batch: nat) {
    && e < |v.sequences| == |n.sequences|
    && n.sequences == v.sequences[e := n.sequences[e]]
    && SameColumns(v.sequences[e], n.sequences[e])
    && n.mail == v.mail + mail
    && n.crm == v.crm + more
    && |more| <= 2 && FromBatch(more, e, batch)
    && (forall i :: 0 <= i < |mail| ==> mail[i].enrollment == Some(e)) && |mail| <= 1
    && Forgets(v, n)
  }

  ghost predicate Forgets(v: View, n: View) {
    && (forall p :: p in n.advancers && n.advancers[p].Ready? ==> p in v.advancers && v.advancers[p] == n.advancers[p])
    && (forall p :: p in n.repliers ==> p in v.repliers && Remains(v.repliers[p].records, n.repliers[p].records))
  }

  predicate Remains(was: seq<Record>, now: seq<Record>) { now == was || (was != [] && now == was[1..]) }

  lemma RewriteKeepsLocking(w: Workflows, v: View, n: View, e: nat, mail: seq<Message>, more: seq<CrmKey>, batch: nat)
    requires Locking(w, v) && Rewrites(v, n, e, mail, more, batch)
    requires var q, q' := v.sequences[e], n.sequences[e];
      && (!Active(q') ==> q'.lockedUntil.None?) && q'.enrollment.sentCount >= 0
      && (!Active(q) ==> !Active(q') && mail == [] && more == [])
      && (more != [] ==> !Active(q'))
    ensures Locking(w, n) && Frozen(v, n)
  {
    forall f | 0 <= f < |v.sequences| ensures LockOk(w, n, f) {
      assert LockOk(w, v, f);
      CrmOfAppend(v.crm, more, f);
      CrmOfOne(more, f, e);
    }
    forall f | 0 <= f < |v.sequences| && !Active(v.sequences[f])
      ensures Ids(n.mail, f) == Ids(v.mail, f) && CrmOf(n.crm, f) == CrmOf(v.crm, f)
    {
      CrmOfAppend(v.crm, more, f);
      CrmOfOne(more, f, e);
      if mail != [] {
        assert mail == [mail[0]] && mail[0].enrollment == Some(e);
        IdsAppend(v.mail, mail[0], f);
      } else {
        assert n.mail == v.mail;
      }
    }
    ForgetKeepsKnown(v, n);
    assert forall i :: 0 <= i < |n.crm| ==> n.crm[i].enrollment < |n.sequences|;
  }

  lemma ForgetKeepsKnown(v: View, n: View)
    requires KnownAll(v) && Forgets(v, n) && |v.sequences| <= |n.sequences|
    requires forall e :: 0 <= e < |v.sequences| ==> SameColumns(v.sequences[e], n.sequences[e])
    ensures KnownAll(n)
  {
    forall p, i | p in n.repliers && 0 <= i < |n.repliers[p].records|
      ensures Known(n, n.repliers[p].records[i])
    {
      var was, now := v.repliers[p].records, n.repliers[p].records;
      assert Remains(was, now);
      var k := if now == was then i else i + 1;
      assert now[i] == was[k] && Known(v, was[k]);
    }
  }

  /** Applying a batch, at a row that must be locked and is therefore active. */
  lemma ApplyKeepsLocking(
    w: Workflows, s: System, n: View, r: Record, now: Enrollment, cs: seq<Command>, reply: string, fate: Fate,
    wall: Instant)
    requires Locking(w, Look(s)) && Known(Look(s), r)
    requires KnownKey(w, r.enrollment) && Batch(w[r.enrollment.key], r.enrollment, now, cs)
    requires var after := TryApply(s.db, r.(enrollment := now), cs, reply, fate, wall);
      n.sequences == after.sequences && n.mail == Mail(after.jobs) && n.crm == Keys(after.crm) && Forgets(Look(s), n)
    ensures Locking(w, n) && Frozen(Look(s), n)
    ensures fate.Lands() && Claimable(s.db, r) ==> Active(s.db.sequences[r.id])
  {
    var v := Look(s);
    if fate.Lands() && Claimable(s.db, r) {
      var more := ApplyInView(w, s, r, now, cs, reply, fate, wall);
      var applied := r.(enrollment := now);
      assert LockOk(w, v, r.id);
      var mail := if Sending(w[r.enrollment.key], r.enrollment, now, cs) &&
                     !Taken(s.db.jobs, r.location, SequenceMessageId(r.id, Natural(now.sentCount)))
                  then [SmsOf(applied, cs[0].body)] else [];
      RewriteKeepsLocking(w, v, n, r.id, mail, more, s.db.batches + 1);
    } else {
      ForgetKeepsKnown(v, n);
      assert forall f :: 0 <= f < |v.sequences| ==> LockOk(w, v, f) ==> LockOk(w, n, f);
    }
  }

  lemma UnchangedKeepsLocking(w: Workflows, v: View, n: View)
    requires Locking(w, v) && Forgets(v, n)
    requires n.sequences == v.sequences && n.mail == v.mail && n.crm == v.crm
    ensures Locking(w, n) && Frozen(v, n)
  {
    ForgetKeepsKnown(v, n);
    assert forall f :: 0 <= f < |v.sequences| ==> LockOk(w, v, f) ==> LockOk(w, n, f);
  }

  /** FailWorkflow and RetryWorkflow, by id alone. */
  lemma WriteKeepsLocking(w: Workflows, v: View, n: View, e: nat)
    requires Locking(w, v) && Forgets(v, n) && e < |v.sequences| == |n.sequences|
    requires n.mail == v.mail && n.crm == v.crm && n.sequences == v.sequences[e := n.sequences[e]]
    requires var q, q' := v.sequences[e], n.sequences[e];
      && SameColumns(q, q') && q'.enrollment.sentCount == q.enrollment.sentCount
      && q'.lockedUntil.None? && (!Active(q) ==> !Active(q'))
    ensures Locking(w, n) && Frozen(v, n)
  {
    assert v.mail + [] == v.mail && v.crm + [] == v.crm;
    assert LockOk(w, v, e);
    RewriteKeepsLocking(w, v, n, e, [], [], 0);
  }

  lemma AdvancerKeepsLocking(w: Workflows, s: System, p: Pid, fate: Fate, wall: Instant, bs: Bindings)
    requires Locking(w, Look(s)) && p in s.advancers
    ensures Locking(w, Look(StepAdvancer(w, s, p, fate, wall, bs)))
    ensures Frozen(Look(s), Look(StepAdvancer(w, s, p, fate, wall, bs)))
  {
    var v, n := Look(s), Look(StepAdvancer(w, s, p, fate, wall, bs));
    assert Forgets(v, n);
    match s.advancers[p]
    case Ready(r) =>
      assert Known(v, r) && LockOk(w, v, r.id);
      if Configured(w, r.enrollment.key) && Advanced(w[r.enrollment.key], r.enrollment, wall, bs).result.Ok? {
        var a := Advanced(w[r.enrollment.key], r.enrollment, wall, bs);
        AdvanceIsBatch(w[r.enrollment.key], r.enrollment, wall, bs);
        ApplyKeepsLocking(w, s, n, r, a.enrollment, a.result.value, "", fate, wall);
      } else {
        UnchangedKeepsLocking(w, v, n);
      }
    case Postponing(id, delay) =>
      if fate.Lands() && id < |s.db.sequences| {
        WriteKeepsLocking(w, v, n, id);
      } else {
        UnchangedKeepsLocking(w, v, n);
      }
    case Failing(id) =>
      if fate.Lands() && id < |s.db.sequences| {
        WriteKeepsLocking(w, v, n, id);
      } else {
        UnchangedKeepsLocking(w, v, n);
      }
  }

  lemma ReplierKeepsLocking(w: Workflows, s: System, p: Pid, fate: Fate, wall: Instant)
    requires Locking(w, Look(s)) && p in s.repliers
    ensures Locking(w, Look(StepReplier(w, s, p, fate, wall)))
    ensures Frozen(Look(s), Look(StepReplier(w, s, p, fate, wall)))
  {
    var v, n := Look(s), Look(StepReplier(w, s, p, fate, wall));
    var Replier(records, text) := s.repliers[p];
    assert Forgets(v, n);
    if records == [] {
      UnchangedKeepsLocking(w, v, n);
    } else {
      var r := records[0];
      assert Known(v, r) && LockOk(w, v, r.id);
      var x := Replied(w[r.enrollment.key], r.enrollment, text);
      ReplyIsBatch(w[r.enrollment.key], r.enrollment, text);
      ApplyKeepsLocking(w, s, n, r, x.enrollment, x.commands, text, fate, wall);
    }
  }

  lemma ClaimKeepsLocking(w: Workflows, s: System, p: Pid, fate: Fate)
    requires Locking(w, Look(s))
    ensures Locking(w, Look(ClaimSequence(s, p, fate))) && Frozen(Look(s), Look(ClaimSequence(s, p, fate)))
  {
    var v, n := Look(s), Look(ClaimSequence(s, p, fate));
    var next := SequenceToClaim(s, p, fate);
    if next.Some? {
      var locked := n.(advancers := v.advancers);
      assert v.mail + [] == v.mail && v.crm + [] == v.crm;
      assert LockOk(w, v, next.value);
      RewriteKeepsLocking(w, v, locked, next.value, [], [], 0);
      forall o | o in n.advancers && n.advancers[o].Ready? ensures Known(n, n.advancers[o].record) {
        if o in v.advancers && n.advancers[o] == v.advancers[o] {
          assert Known(locked, v.advancers[o].record);
        }
      }
      SameRowsLocking(w, locked, n);
    }
  }

  lemma SameRowsLocking(w: Workflows, v: View, n: View)
    requires Locking(w, v) && KnownAll(n)
    requires n.sequences == v.sequences && n.mail == v.mail && n.crm == v.crm
    ensures Locking(w, n)
  {
    assert forall f :: 0 <= f < |v.sequences| ==> LockOk(w, v, f) ==> LockOk(w, n, f);
  }

  lemma HearKeepsLocking(w: Workflows, s: System, p: Pid, phone: string, to: string, text: string, fate: Fate)
    requires Locking(w, Look(s))
    ensures Locking(w, Look(ClaimForReply(s, p, phone, to, text, fate)))
    ensures Frozen(Look(s), Look(ClaimForReply(s, p, phone, to, text, fate)))
  {
    var v, n := Look(s), Look(ClaimForReply(s, p, phone, to, text, fate));
    if n != v {
      forall e | 0 <= e < |v.sequences| ensures LockOk(w, n, e) {
        assert LockOk(w, v, e);
      }
      forall o, i | o in n.repliers && 0 <= i < |n.repliers[o].records| ensures Known(n, n.repliers[o].records[i]) {
        if o in v.repliers && n.repliers[o] == v.repliers[o] {
          assert Known(v, v.repliers[o].records[i]);
        } else {
          assert LockOk(w, v, n.repliers[o].records[i].id);
        }
      }
      forall o | o in n.advancers && n.advancers[o].Ready? ensures Known(n, n.advancers[o].record) {
        assert Known(v, v.advancers[o].record);
      }
    }
  }

  lemma EnrollKeepsLocking(w: Workflows, s: System, a: Action)
    requires WellKeyed(w) && Locking(w, Look(s)) && a.EnrollContact?
    ensures Locking(w, Look(Step(w, s, a))) && Frozen(Look(s), Look(Step(w, s, a)))
  {
    var v, n := Look(s), Look(Step(w, s, a));
    if n != v {
      AppendKeepsLocking(w, v, n);
    }
  }

  lemma AppendKeepsLocking(w: Workflows, v: View, n: View)
    requires Locking(w, v)
    requires |n.sequences| == |v.sequences| + 1 && n == v.(sequences := v.sequences + [n.sequences[|v.sequences|]])
    requires var q := n.sequences[|v.sequences|]; KnownKey(w, q.enrollment) && q.enrollment.sentCount >= 0 && Active(q) && q.lockedUntil.None?
    ensures Locking(w, n) && Frozen(v, n)
  {
    var e := |v.sequences|;
    CrmOfFresh(v.crm, e);
    forall f | 0 <= f < |n.sequences| ensures LockOk(w, n, f) {
      assert f < e ==> LockOk(w, v, f);
    }
    ForgetKeepsKnown(v, n);
  }

  lemma EnqueueKeepsLocking(w: Workflows, s: System, a: Action)
    requires Locking(w, Look(s)) && a.Enqueue?
    ensures Locking(w, Look(Step(w, s, a))) && Frozen(Look(s), Look(Step(w, s, a)))
  {
    var v, n := Look(s), Look(Step(w, s, a));
    var m := a.message.(enrollment := None);
    if !Taken(s.db.jobs, m.location, m.id) {
      assert n.mail == v.mail + [m];
      forall e | 0 <= e < |v.sequences| ensures Ids(n.mail, e) == Ids(v.mail, e) && LockOk(w, n, e) {
        IdsAppend(v.mail, m, e);
        assert LockOk(w, v, e);
      }
      ForgetKeepsKnown(v, n);
    }
  }

  lemma CrashKeepsLocking(w: Workflows, s: System, a: Action)
    requires Locking(w, Look(s)) && (a.AdvancerCrash? || a.ReplierCrash?)
    ensures Locking(w, Look(Step(w, s, a))) && Frozen(Look(s), Look(Step(w, s, a)))
  {
    UnchangedKeepsLocking(w, Look(s), Look(Step(w, s, a)));
  }

  /** Claims, by a due worker or for a reply. */
  lemma ClaimsKeepLocking(w: Workflows, s: System, a: Action)
    requires Locking(w, Look(s)) && (a.AdvancerClaim? || a.HearReply?)
    ensures Locking(w, Look(Step(w, s, a))) && Frozen(Look(s), Look(Step(w, s, a)))
  {
    if a.AdvancerClaim? {
      ClaimKeepsLocking(w, s, a.p, a.fate);
    } else {
      HearKeepsLocking(w, s, a.p, a.phone, a.to, a.text, a.fate);
    }
  }

  lemma AdvancerStepKeepsLocking(w: Workflows, s: System, p: Pid, fate: Fate, wall: Instant, bs: Bindings)
    requires Locking(w, Look(s))
    ensures var n := Step(w, s, AdvancerStep(p, fate, wall, bs)); Locking(w, Look(n)) && Frozen(Look(s), Look(n))
  {
    if p in s.advancers { AdvancerKeepsLocking(w, s, p, fate, wall, bs); }
  }

  lemma ReplierStepKeepsLocking(w: Workflows, s: System, p: Pid, fate: Fate, wall: Instant)
    requires Locking(w, Look(s))
    ensures var n := Step(w, s, ReplierStep(p, fate, wall)); Locking(w, Look(n)) && Frozen(Look(s), Look(n))
  {
    if p in s.repliers { ReplierKeepsLocking(w, s, p, fate, wall); }
  }

  lemma StepKeepsLocking(w: Workflows, s: System, a: Action)
    requires WellKeyed(w) && Locking(w, Look(s))
    ensures Locking(w, Look(Step(w, s, a))) && Frozen(Look(s), Look(Step(w, s, a)))
  {
    if !TouchesSequences(a) {
      OthersAreInvisible(w, s, a);
    } else if a.AdvancerClaim? || a.HearReply? {
      ClaimsKeepLocking(w, s, a);
    } else if a.AdvancerStep? {
      AdvancerStepKeepsLocking(w, s, a.p, a.fate, a.wall, a.bs);
    } else if a.ReplierStep? {
      ReplierStepKeepsLocking(w, s, a.p, a.fate, a.wall);
    } else if a.Enqueue? {
      EnqueueKeepsLocking(w, s, a);
    } else if a.EnrollContact? {
      EnrollKeepsLocking(w, s, a);
    } else {
      CrashKeepsLocking(w, s, a);
    }
  }

}
