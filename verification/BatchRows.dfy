/** Which rows a committed advance or a committed reply inserts, column by column: the text that is sent and the work
    that is handed to the CRM. */
module BatchRows {
  import opened Wrappers
  import opened Strings
  import opened SendWindow
  import opened Catalog
  import opened Template
  import opened Engine
  import opened Sentiments
  import opened LeasedQueue
  import opened Tables
  import opened Machine
  import opened Enrollments
  import Promises

  // ----- An active enrollment has no CRM row -----

  lemma {:induction false} CrmMember(crm: seq<CrmKey>, e: nat, i: nat)
    requires i < |crm| && crm[i].enrollment == e
    ensures CrmOf(crm, e) != []
  {
    var n := |crm| - 1;
    if i < n {
      assert crm[..n][i] == crm[i];
      CrmMember(crm[..n], e, i);
    }
  }

  predicate NoCrm(crm: seq<CrmJob>, e: nat) { forall i :: 0 <= i < |crm| ==> crm[i].enrollment != e }

  lemma ActiveHasNoCrm(w: Workflows, s: System, e: nat)
    requires Locking(w, Look(s)) && e < |s.db.sequences| && Active(s.db.sequences[e])
    ensures NoCrm(s.db.crm, e)
  {
    assert LockOk(w, Look(s), e);
    forall i | 0 <= i < |s.db.crm| ensures s.db.crm[i].enrollment != e {
      if s.db.crm[i].enrollment == e {
        CrmMember(Keys(s.db.crm), e, i);
      }
    }
  }

  // ----- Batches of at most two commands -----

  /** A crm_jobs row as it is inserted. */
  function NewCrmJob(db: Database, id: nat, action: string, body: string, reply: string): CrmJob {
    CrmJob(enrollment := id, action := action, body := body, reply := reply,
      lease := Row(status := Queued, attempts := 0, availableAt := db.now, lockedUntil := None), batch := db.batches + 1)
  }

  function Started(db: Database, r: Record, reply: string): Database
    requires r.id < |db.sequences|
  {
    db.(sequences := db.sequences[r.id := Rewritten(db.sequences[r.id], r, reply)], batches := db.batches + 1)
  }

  lemma BatchOfNone(db: Database, r: Record, reply: string, wall: Instant)
    requires Claimable(db, r)
    ensures Apply(db, r, [], reply, wall) == Started(db, r, reply)
  {}

  lemma BatchOfOne(db: Database, r: Record, c: Command, reply: string, wall: Instant)
    requires Claimable(db, r)
    ensures Apply(db, r, [c], reply, wall) == RunCommand(Started(db, r, reply), r, c, reply, wall)
  {
    assert [c][..0] == [];
    assert RunCommands(Started(db, r, reply), r, [c][..0], reply, wall) == Started(db, r, reply);
  }

  lemma BatchOfTwo(db: Database, r: Record, c: Command, d: Command, reply: string, wall: Instant)
    requires Claimable(db, r)
    ensures Apply(db, r, [c, d], reply, wall) ==
      RunCommand(RunCommand(Started(db, r, reply), r, c, reply, wall), r, d, reply, wall)
  {
    BatchOfOne(db, r, c, reply, wall);
    assert [c, d][..1] == [c];
  }

  /** The action and the body a command has for the CRM. */
  predicate Asks(c: Command, action: string, body: string) {
    match c
    case CreateTask(text) => action == "create_task" && body == text
    case CrmAction(name) => action == (if name == "" then "crm_action" else name) && body == ""
    case ArchiveConversation => action == "archive_conversation" && body == ""
    case _ => false
  }

  /** One CRM command gives one row. */
  lemma FirstCrm(db: Database, r: Record, c: Command, reply: string, wall: Instant, action: string, body: string)
    requires Claimable(db, r) && NoCrm(db.crm, r.id)
    requires Asks(c, action, body)
    ensures var n := RunCommand(Started(db, r, reply), r, c, reply, wall);
      n == Started(db, r, reply).(crm := db.crm + [NewCrmJob(db, r.id, action, body, reply)])
  {
    Promises.RunCommandDoes(Started(db, r, reply), r, c, reply, wall);
  }

  /** And a second one with another action another. */
  lemma SecondCrm(db: Database, r: Record, c: Command, reply: string, wall: Instant, first: CrmJob, action: string)
    requires Claimable(db, r) && NoCrm(db.crm, r.id) && first.enrollment == r.id
    requires Asks(c, action, "")
    ensures var mid := Started(db, r, reply).(crm := db.crm + [first]);
      RunCommand(mid, r, c, reply, wall) ==
        mid.(crm := db.crm + [first] +
          if action == first.action then [] else [NewCrmJob(db, r.id, action, "", reply)])
  {
    var mid := Started(db, r, reply).(crm := db.crm + [first]);
    Promises.RunCommandDoes(mid, r, c, reply, wall);
    assert mid.crm[|db.crm|] == first;
    assert db.crm + [first] + [] == db.crm + [first];
  }

  // ----- A manual follow-up -----

  /** The task, and the definition's action. */
  function ManualRows(db: Database, d: Definition, id: nat): seq<CrmJob> {
    var action := if d.crmAction == "" then "crm_action" else d.crmAction;
    [NewCrmJob(db, id, "create_task", d.taskBody, "")] +
    if action == "create_task" then [] else [NewCrmJob(db, id, action, "", "")]
  }

  lemma ManualBatch(db: Database, r: Record, d: Definition, wall: Instant)
    requires Claimable(db, r) && NoCrm(db.crm, r.id)
    ensures Apply(db, r, [CreateTask(d.taskBody), CrmAction(d.crmAction)], "", wall) ==
      Started(db, r, "").(crm := db.crm + ManualRows(db, d, r.id))
  {
    var first := NewCrmJob(db, r.id, "create_task", d.taskBody, "");
    var action := if d.crmAction == "" then "crm_action" else d.crmAction;
    BatchOfTwo(db, r, CreateTask(d.taskBody), CrmAction(d.crmAction), "", wall);
    FirstCrm(db, r, CreateTask(d.taskBody), "", wall, "create_task", d.taskBody);
    SecondCrm(db, r, CrmAction(d.crmAction), "", wall, first, action);
    assert db.crm + ManualRows(db, d, r.id) ==
      db.crm + [first] + if action == first.action then [] else [NewCrmJob(db, r.id, action, "", "")];
  }

  /** A worker with a snapshot, whose transaction commits. */
  predicate Commits(w: Workflows, s: System, p: Pid, fate: Fate) {
    && p in s.advancers && s.advancers[p].Ready? && fate.Lands() && Claimable(s.db, s.advancers[p].record)
    && Configured(w, s.advancers[p].record.enrollment.key)
  }

  lemma CommitterIsKnown(w: Workflows, s: System, p: Pid, fate: Fate)
    requires WellKeyed(w) && Locking(w, Look(s)) && Commits(w, s, p, fate)
    ensures var r := s.advancers[p].record;
      && Known(Look(s), r) && KnownKey(w, r.enrollment) && w[r.enrollment.key].key == r.enrollment.key
      && Active(s.db.sequences[r.id]) && NoCrm(s.db.crm, r.id)
  {
    var r := s.advancers[p].record;
    assert Known(Look(s), r) && LockOk(w, Look(s), r.id);
    ActiveHasNoCrm(w, s, r.id);
  }

  lemma AdvancerCommits(w: Workflows, s: System, p: Pid, fate: Fate, wall: Instant, bs: Bindings)
    requires Commits(w, s, p, fate)
    ensures var r := s.advancers[p].record;
      var a := Advanced(w[r.enrollment.key], r.enrollment, wall, bs);
      StepAdvancer(w, s, p, fate, wall, bs).db ==
        if a.result.Err? then s.db else Apply(s.db, r.(enrollment := a.enrollment), a.result.value, "", wall)
  {}

  /** What an advance hands to the CRM: for a manual follow-up that is due its task with the definition's text and its
      action, both without a reply; otherwise nothing. */
  lemma AdvanceGains(w: Workflows, s: System, p: Pid, fate: Fate, wall: Instant, bs: Bindings)
    requires WellKeyed(w) && Locking(w, Look(s)) && Commits(w, s, p, fate)
    ensures var r, n := s.advancers[p].record, StepAdvancer(w, s, p, fate, wall, bs).db;
      var d := w[r.enrollment.key];
      && n.suppressed == s.db.suppressed
      && n.crm == s.db.crm +
          if d.kind == ManualFollowUp && r.enrollment.nextRun.Some? && r.enrollment.nextRun.value <= wall
          then ManualRows(s.db, d, r.id) else []
  {
    var r := s.advancers[p].record;
    var d := w[r.enrollment.key];
    var a := Advanced(d, r.enrollment, wall, bs);
    CommitterIsKnown(w, s, p, fate);
    AdvancerCommits(w, s, p, fate, wall, bs);
    AdvanceEnds(d, r.enrollment, wall, bs);
    AdvanceEffect(d, r.enrollment, wall, bs);
    assert s.db.crm + [] == s.db.crm;
    if IsDue(d, r.enrollment, wall) && d.kind == ManualFollowUp {
      ManualBatch(s.db, r.(enrollment := a.enrollment), d, wall);
    } else if a.result.Ok? {
      if a.result.value == [] {
        BatchOfNone(s.db, r.(enrollment := a.enrollment), "", wall);
      } else {
        SendKeepsCrm(s.db, r.(enrollment := a.enrollment), a.result.value[0], wall);
      }
    }
  }

  lemma SendKeepsCrm(db: Database, r: Record, c: Command, wall: Instant)
    requires Claimable(db, r) && c.SendSms?
    ensures Apply(db, r, [c], "", wall).crm == db.crm && Apply(db, r, [c], "", wall).suppressed == db.suppressed
  {
    BatchOfOne(db, r, c, "", wall);
  }

  // ----- A reply -----

  /** The worker of a reply with a record, whose transaction commits. */
  predicate Answers(w: Workflows, s: System, p: Pid, fate: Fate) {
    && p in s.repliers && s.repliers[p].records != [] && fate.Lands() && Claimable(s.db, s.repliers[p].records[0])
    && s.repliers[p].records[0].enrollment.key in w
  }

  /** The rows of a reply, each with the text that was heard and no body. */
  ghost function ReplyRows(db: Database, d: Definition, id: nat, text: string): seq<CrmJob> {
    if SaysStop(text) then []
    else if d.archiveNegative && SaysNo(text) then
      [NewCrmJob(db, id, "not_interested", "", text), NewCrmJob(db, id, "archive_conversation", "", text)]
    else if d.crmAction == "" then []
    else [NewCrmJob(db, id, d.crmAction, "", text)]
  }

  lemma ReplierAnswers(w: Workflows, s: System, p: Pid, fate: Fate, wall: Instant)
    requires Answers(w, s, p, fate)
    ensures var r, text := s.repliers[p].records[0], s.repliers[p].text;
      var x := Replied(w[r.enrollment.key], r.enrollment, text);
      StepReplier(w, s, p, fate, wall).db == Apply(s.db, r.(enrollment := x.enrollment), x.commands, text, wall)
  {}

  lemma AnswererIsKnown(w: Workflows, s: System, p: Pid, fate: Fate)
    requires Locking(w, Look(s)) && Answers(w, s, p, fate)
    ensures var r := s.repliers[p].records[0];
      Known(Look(s), r) && Active(s.db.sequences[r.id]) && NoCrm(s.db.crm, r.id)
  {
    var r := s.repliers[p].records[0];
    assert Known(Look(s), r) && LockOk(w, Look(s), r.id);
    ActiveHasNoCrm(w, s, r.id);
  }

  /** What a reply does besides ending its enrollment: a stop suppresses the contact; a refusal or the definition's own
      action goes to the CRM with the text that was heard. */
  lemma ReplyGains(w: Workflows, s: System, p: Pid, fate: Fate, wall: Instant)
    requires Locking(w, Look(s)) && Answers(w, s, p, fate)
    ensures var r, text, n := s.repliers[p].records[0], s.repliers[p].text, StepReplier(w, s, p, fate, wall).db;
      && n.crm == s.db.crm + ReplyRows(s.db, w[r.enrollment.key], r.id, text)
      && n.suppressed ==
          if SaysStop(text) then s.db.suppressed + {s.db.sequences[r.id].enrollment.contact.phone} else s.db.suppressed
  {
    var r, text := s.repliers[p].records[0], s.repliers[p].text;
    var d := w[r.enrollment.key];
    var x := Replied(d, r.enrollment, text);
    var after := r.(enrollment := x.enrollment);
    AnswererIsKnown(w, s, p, fate);
    ReplierAnswers(w, s, p, fate, wall);
    ReplyIsByWords(d, r.enrollment, text);
    assert s.db.crm + [] == s.db.crm;
    if SaysStop(text) {
      BatchOfOne(s.db, after, SuppressContact, text, wall);
    } else if d.archiveNegative && SaysNo(text) {
      RefusalBatch(s.db, after, text, wall);
    } else if d.crmAction != "" {
      BatchOfOne(s.db, after, CrmAction(d.crmAction), text, wall);
      FirstCrm(s.db, after, CrmAction(d.crmAction), text, wall, d.crmAction, "");
    } else {
      BatchOfNone(s.db, after, text, wall);
    }
  }

  lemma RefusalBatch(db: Database, r: Record, text: string, wall: Instant)
    requires Claimable(db, r) && NoCrm(db.crm, r.id)
    ensures Apply(db, r, [CrmAction("not_interested"), ArchiveConversation], text, wall) ==
      Started(db, r, text).(crm := db.crm +
        [NewCrmJob(db, r.id, "not_interested", "", text), NewCrmJob(db, r.id, "archive_conversation", "", text)])
  {
    var first, second :=
      NewCrmJob(db, r.id, "not_interested", "", text), NewCrmJob(db, r.id, "archive_conversation", "", text);
    BatchOfTwo(db, r, CrmAction("not_interested"), ArchiveConversation, text, wall);
    FirstCrm(db, r, CrmAction("not_interested"), text, wall, "not_interested", "");
    SecondCrm(db, r, ArchiveConversation, text, wall, first, "archive_conversation");
    assert "not_interested"[0] != "archive_conversation"[0];
    assert db.crm + [first] + [second] == db.crm + [first, second];
  }

  // ----- A message -----

  /** The row of a message, for an enrollment that has sent `count` before. */
  function NewMessage(q: Sequence, id: nat, count: nat, body: string, at: Instant): Job {
    Job(
      message := Message(location := q.location, id := "workflow:" + (Decimal(id) + (":" + Decimal(count + 1))),
        contact := q.enrollment.contact.id, to := q.enrollment.contact.phone, from := q.from, body := body,
        enrollment := Some(id)),
      lease := Row(status := Queued, attempts := 0, availableAt := at, lockedUntil := None),
      provider := None)
  }

  /** The instant the reserver grants for one more message of the definition. */
  function Granted(db: Database, d: Definition, wall: Instant): Instant {
    var pace := if d.rate.batchSize > 0 && d.rate.per > 0 then d.rate else Rate(1, SECOND);
    RateLimit.Reserve(
      if d.key in db.rates then db.rates[d.key] else RateLimit.Allowance(db.now, pace.batchSize), pace, wall).at
  }

  lemma SendBatch(db: Database, r: Record, q: Sequence, body: string, rate: Rate, d: Definition, wall: Instant, count: nat)
    requires Claimable(db, r) && r.enrollment.sentCount == count + 1 && r.enrollment.key == d.key
    requires q.location == r.location && q.from == r.from && q.enrollment.contact == r.enrollment.contact
    requires rate == if d.rate.batchSize > 0 && d.rate.per > 0 then d.rate else Rate(1, SECOND)
    ensures var n := Apply(db, r, [SendSms(body, rate)], "", wall);
      n.jobs == db.jobs || n.jobs == db.jobs + [NewMessage(q, r.id, count, body, Granted(db, d, wall))]
  {
    BatchOfOne(db, r, SendSms(body, rate), "", wall);
    Promises.RunCommandDoes(Started(db, r, ""), r, SendSms(body, rate), "", wall);
  }

  lemma OnlyCommitsInsert(w: Workflows, s: System, p: Pid, fate: Fate, wall: Instant, bs: Bindings)
    requires p in s.advancers && StepAdvancer(w, s, p, fate, wall, bs).db.jobs != s.db.jobs
    ensures Commits(w, s, p, fate)
  {}

  /** Every row an advance inserts: to the contact, from the enrollment's number, under the next index, at the instant
      granted, with the text of the enrollment's variant rendered in the order in which its variables were visited. */
  lemma InsertedMessage(w: Workflows, s: System, p: Pid, fate: Fate, wall: Instant, bs: Bindings)
    requires WellKeyed(w) && Locking(w, Look(s)) && p in s.advancers
    requires StepAdvancer(w, s, p, fate, wall, bs).db.jobs != s.db.jobs
    ensures Commits(w, s, p, fate)
    ensures var r, n := s.advancers[p].record, StepAdvancer(w, s, p, fate, wall, bs).db;
      var q, d := s.db.sequences[r.id], w[r.enrollment.key];
      && 0 <= q.enrollment.variant < |d.messages| && r.enrollment.sentCount >= 0
      && exists body ::
          && RenderIn(d.messages[q.enrollment.variant], bs) == Ok(body)
          && n.jobs == s.db.jobs + [NewMessage(q, r.id, r.enrollment.sentCount, body, Granted(s.db, d, wall))]
  {
    OnlyCommitsInsert(w, s, p, fate, wall, bs);
    var r := s.advancers[p].record;
    var d := w[r.enrollment.key];
    var a := Advanced(d, r.enrollment, wall, bs);
    CommitterIsKnown(w, s, p, fate);
    AdvancerCommits(w, s, p, fate, wall, bs);
    AdvanceEffect(d, r.enrollment, wall, bs);
    var after := r.(enrollment := a.enrollment);
    if IsSend(a.result) {
      var c := a.result.value[0];
      assert a.result.value == [SendSms(c.body, c.rate)];
      SendBatch(s.db, after, s.db.sequences[r.id], c.body, c.rate, d, wall, r.enrollment.sentCount);
    } else {
      if a.result.value == [] {
        BatchOfNone(s.db, after, "", wall);
      } else {
        ManualBatch(s.db, after, d, wall);
      }
      assert false;
    }
  }

  /** So, for templates and variables of the kind for which rendering has one meaning, the text that is sent is the
      simultaneous substitution of the contact's variables in the variant's message. */
  lemma InsertedText(w: Workflows, s: System, p: Pid, fate: Fate, wall: Instant, bs: Bindings, ps: seq<Piece>)
    requires WellKeyed(w) && Locking(w, Look(s)) && Commits(w, s, p, fate)
    requires StepAdvancer(w, s, p, fate, wall, bs).db.jobs != s.db.jobs
    requires var q := s.db.sequences[s.advancers[p].record.id];
      var variables, messages := q.enrollment.contact.variables, w[q.enrollment.key].messages;
      && Ranges(bs, variables) && WellFormed(ps) && SafeKeys(variables.Keys) && Suitable(variables)
      && (0 <= q.enrollment.variant < |messages| ==> messages[q.enrollment.variant] == Flatten(ps))
    ensures var q, n := s.db.sequences[s.advancers[p].record.id], StepAdvancer(w, s, p, fate, wall, bs).db;
      |n.jobs| == |s.db.jobs| + 1 &&
      Simultaneous(ps, q.enrollment.contact.variables) == Ok(n.jobs[|s.db.jobs|].message.body)
  {
    CommitterIsKnown(w, s, p, fate);
    InsertedMessage(w, s, p, fate, wall, bs);
    RenderIsSimultaneous(ps, s.db.sequences[s.advancers[p].record.id].enrollment.contact.variables, bs);
  }

}
