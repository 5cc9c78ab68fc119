/** applyWorkflowReply as it runs (internal/app/workflows.go): the reply of one contact, when no other worker
    interferes. Interference is the subject of ReplySafety and ReplyRace. */
module Replies {
  import opened Wrappers
  import opened SendWindow
  import opened Numbers
  import opened Engine
  import opened Tables
  import opened Machine
  import opened Storage

  /** The row of a concerned enrollment once the reply has been handled for it. */
  function Answered(w: Workflows, q: Sequence, text: string): Sequence {
    if q.enrollment.key !in w then
      q.(enrollment := q.enrollment.(state := State.Failed, nextRun := None), lockedUntil := None)
    else
      q.(enrollment := Replied(w[q.enrollment.key], q.enrollment, text).enrollment,
         lastReply := if text == "" then q.lastReply else text,
         lockedUntil := None)
  }

  /** Every reply ends the sequence, one way or another. */
  lemma AnsweredIsTerminal(w: Workflows, q: Sequence, text: string)
    requires Active(q)
    ensures var n := Answered(w, q, text);
      && !Active(n) && n.lockedUntil == None && n.enrollment.nextRun == None
      && n.enrollment.sentCount == q.enrollment.sentCount
      && (n.enrollment.state == Suppressed <==> q.enrollment.key in w && IsOptOut(text))
  {}

  lemma CommandKeepsSequences(db: Database, r: Record, c: Command, reply: string, wall: Instant)
    ensures var n := RunCommand(db, r, c, reply, wall);
      n.sequences == db.sequences && n.now == db.now && db.suppressed <= n.suppressed
    ensures c == SuppressContact ==> r.enrollment.contact.phone in RunCommand(db, r, c, reply, wall).suppressed
  {}

  lemma {:induction false} CommandsKeepSequences(db: Database, r: Record, cs: seq<Command>, reply: string, wall: Instant)
    ensures var n := RunCommands(db, r, cs, reply, wall);
      n.sequences == db.sequences && n.now == db.now && db.suppressed <= n.suppressed
    ensures SuppressContact in cs ==> r.enrollment.contact.phone in RunCommands(db, r, cs, reply, wall).suppressed
    decreases |cs|
  {
    if cs != [] {
      var n := |cs| - 1;
      CommandsKeepSequences(db, r, cs[..n], reply, wall);
      CommandKeepsSequences(RunCommands(db, r, cs[..n], reply, wall), r, cs[n], reply, wall);
    }
  }

  /** The machine's step for one record. */
  function AnswerEffect(w: Workflows, db: Database, r: Record, text: string, wall: Instant): Database {
    ReplierEffect(w, db, Replier([r], text), Succeeds, wall)
  }

  /** The tables after the first `done` records. */
  function AfterAnswers(
    w: Workflows, db: Database, records: seq<Record>, text: string, wall: Instant, done: nat): Database
    requires done <= |records|
  {
    if done == 0 then db
    else AnswerEffect(w, AfterAnswers(w, db, records, text, wall, done - 1), records[done - 1], text, wall)
  }

  /** Handles record r of a locked row; `ok` unless the database fails. */
  method AnswerOne(w: Workflows, store: Store, r: Record, text: string, wall: Instant) returns (ok: bool)
    requires r.id < |store.sequences| && store.sequences[r.id].lockedUntil.Some?
    requires r.enrollment == store.sequences[r.id].enrollment
    modifies store
    ensures store.now == old(store.now) && old(store.suppressed) <= store.suppressed
    ensures store.sequences ==
      if ok then old(store.sequences)[r.id := Answered(w, old(store.sequences)[r.id], text)] else old(store.sequences)
    ensures ok && IsOptOut(text) && r.enrollment.key in w && !Stopped(r.enrollment) ==>
      r.enrollment.contact.phone in store.suppressed
    ensures store.Db() == if ok then AnswerEffect(w, old(store.Db()), r, text, wall) else old(store.Db())
  {
    if r.enrollment.key !in w {
      var fails: bool := *;
      if fails {
        return false;
      }
      store.FailWorkflow(r.id);
      return true;
    }
    var live := new LiveEnrollment(r.enrollment);
    var commands := Reply(w[r.enrollment.key], live, text);
    var after := r.(enrollment := live.Value());
    var broken: nat := *;
    ghost var db := store.Db();
    ok := store.ApplyWorkflowCommands(after, commands, text, wall, broken);
    if ok {
      AppliedIsAnswered(w, db, r, text, wall);
    }
  }

  /** The committed batch of a reply, at its locked row. */
  lemma AppliedIsAnswered(w: Workflows, db: Database, r: Record, text: string, wall: Instant)
    requires Claimable(db, r) && r.enrollment == db.sequences[r.id].enrollment && r.enrollment.key in w
    ensures var x := Replied(w[r.enrollment.key], r.enrollment, text);
      var n := Apply(db, r.(enrollment := x.enrollment), x.commands, text, wall);
      && n == AnswerEffect(w, db, r, text, wall)
      && n.now == db.now && db.suppressed <= n.suppressed
      && n.sequences == db.sequences[r.id := Answered(w, db.sequences[r.id], text)]
      && (IsOptOut(text) && !Stopped(r.enrollment) ==> r.enrollment.contact.phone in n.suppressed)
  {
    var x := Replied(w[r.enrollment.key], r.enrollment, text);
    var after := r.(enrollment := x.enrollment);
    CommandsKeepSequences(
      db.(sequences := db.sequences[r.id := Rewritten(db.sequences[r.id], after, text)], batches := db.batches + 1),
      after, x.commands, text, wall);
  }

  /** The table once the concerned enrollments below `bound` have been handled and the others only locked. */
  ghost predicate HalfAnswered(
    w: Workflows, was: seq<Sequence>, now: seq<Sequence>, phone: string, from: string, text: string, at: Instant,
    bound: nat)
  {
    && |now| == |was|
    && forall i :: 0 <= i < |was| ==>
        now[i] ==
          if !Concerned(was[i], phone, from, at) then was[i]
          else if i < bound then Answered(w, was[i], text)
          else Locked(was[i], at)
  }

  /** If any handled enrollment heard STOP, the number is suppressed. */
  ghost predicate OptOutHeard(
    w: Workflows, was: seq<Sequence>, phone: string, from: string, text: string, at: Instant, bound: nat,
    suppressed: set<string>)
  {
    IsOptOut(text) ==>
      forall i :: 0 <= i < |was| && i < bound && Concerned(was[i], phone, from, at) && was[i].enrollment.key in w ==>
        phone in suppressed
  }

  function Bound(was: seq<Sequence>, records: seq<Record>, k: nat): nat {
    if k < |records| then records[k].id else |was|
  }

  /** Records are handed out in the order of their rows, and none is left out. */
  lemma NoneBetween(was: seq<Sequence>, records: seq<Record>, phone: string, from: string, at: Instant, k: nat, i: nat)
    requires records == ConcernedRecords(was, phone, from, at)
    requires i < |was| && Concerned(was[i], phone, from, at)
    requires k <= |records| && i < Bound(was, records, k)
    ensures k > 0 && i <= records[k - 1].id
  {
    var j :| 0 <= j < |records| && records[j] == Snapshot(was, i);
    assert records[j].id == i;
    assert j < k;
    assert j == k - 1 || records[j].id < records[k - 1].id;
  }

  /** The rows up to the next bound that are concerned are those handled and this one. */
  lemma BoundMoves(was: seq<Sequence>, records: seq<Record>, k: nat, phone: string, from: string, at: Instant)
    requires records == ConcernedRecords(was, phone, from, at) && k < |records|
    ensures records[k].id < |was| && Bound(was, records, k) == records[k].id < Bound(was, records, k + 1)
    ensures forall i :: 0 <= i < |was| && Concerned(was[i], phone, from, at) && i < Bound(was, records, k + 1) ==>
      i <= records[k].id
  {
    forall i | 0 <= i < |was| && Concerned(was[i], phone, from, at) && i < Bound(was, records, k + 1)
      ensures i <= records[k].id
    {
      NoneBetween(was, records, phone, from, at, k + 1, i);
    }
  }

  lemma HalfStep(
    w: Workflows, was: seq<Sequence>, now: seq<Sequence>, records: seq<Record>, k: nat,
    phone: string, from: string, text: string, at: Instant)
    requires records == ConcernedRecords(was, phone, from, at) && k < |records|
    requires HalfAnswered(w, was, now, phone, from, text, at, Bound(was, records, k))
    ensures var id := records[k].id; id < |now| && now[id] == Locked(was[id], at)
    ensures var id := records[k].id;
      HalfAnswered(w, was, now[id := Answered(w, now[id], text)], phone, from, text, at, Bound(was, records, k + 1))
  {
    var id, next := records[k].id, Bound(was, records, k + 1);
    BoundMoves(was, records, k, phone, from, at);
    assert now[id] == Locked(was[id], at) && Answered(w, now[id], text) == Answered(w, was[id], text);
    HalfMoves(w, was, now, phone, from, text, at, id, next);
  }

  lemma HalfMoves(
    w: Workflows, was: seq<Sequence>, now: seq<Sequence>, phone: string, from: string, text: string, at: Instant,
    id: nat, next: nat)
    requires HalfAnswered(w, was, now, phone, from, text, at, id)
    requires id < |was| && id < next && Concerned(was[id], phone, from, at)
    requires forall i :: 0 <= i < |was| && Concerned(was[i], phone, from, at) && i < next ==> i <= id
    ensures HalfAnswered(w, was, now[id := Answered(w, was[id], text)], phone, from, text, at, next)
  {}

  lemma OptOutStep(
    w: Workflows, was: seq<Sequence>, records: seq<Record>, k: nat,
    phone: string, from: string, text: string, at: Instant, before: set<string>, after: set<string>)
    requires records == ConcernedRecords(was, phone, from, at) && k < |records| && before <= after
    requires OptOutHeard(w, was, phone, from, text, at, Bound(was, records, k), before)
    requires IsOptOut(text) && records[k].enrollment.key in w ==> phone in after
    ensures OptOutHeard(w, was, phone, from, text, at, Bound(was, records, k + 1), after)
  {
    BoundMoves(was, records, k, phone, from, at);
  }

  /** Where the loop stands after k records. */
  ghost predicate Standing(
    w: Workflows, was: seq<Sequence>, store: Store, phone: string, from: string, text: string, at: Instant, bound: nat)
    reads store
  {
    && store.now == at
    && HalfAnswered(w, was, store.sequences, phone, from, text, at, bound)
    && OptOutHeard(w, was, phone, from, text, at, bound, store.suppressed)
  }

  method AnswerNext(
    w: Workflows, store: Store, ghost was: seq<Sequence>, records: seq<Record>, k: nat,
    phone: string, from: string, text: string, wall: Instant, ghost at: Instant) returns (ok: bool)
    requires records == ConcernedRecords(was, phone, from, at) && k < |records|
    requires Standing(w, was, store, phone, from, text, at, Bound(was, records, k))
    modifies store
    ensures Standing(w, was, store, phone, from, text, at, Bound(was, records, if ok then k + 1 else k))
    ensures store.Db() == if ok then AnswerEffect(w, old(store.Db()), records[k], text, wall) else old(store.Db())
  {
    ghost var suppressed := store.suppressed;
    HalfStep(w, was, store.sequences, records, k, phone, from, text, at);
    ok := AnswerOne(w, store, records[k], text, wall);
    if ok {
      OptOutStep(w, was, records, k, phone, from, text, at, suppressed, store.suppressed);
    }
  }

  lemma OneMoreAnswer(w: Workflows, db: Database, records: seq<Record>, text: string, wall: Instant, k: nat)
    requires k < |records|
    ensures AfterAnswers(w, db, records, text, wall, k + 1) ==
      AnswerEffect(w, AfterAnswers(w, db, records, text, wall, k), records[k], text, wall)
  {}

  /** The loop over the claimed records. */
  method AnswerAll(
    w: Workflows, store: Store, ghost was: seq<Sequence>, records: seq<Record>,
    phone: string, from: string, text: string, wall: Instant, ghost at: Instant) returns (ok: bool, ghost done: nat)
    requires records == ConcernedRecords(was, phone, from, at)
    requires Standing(w, was, store, phone, from, text, at, Bound(was, records, 0))
    modifies store
    ensures done <= |records| && (ok <==> done == |records|)
    ensures Standing(w, was, store, phone, from, text, at, Bound(was, records, done))
    ensures store.Db() == AfterAnswers(w, old(store.Db()), records, text, wall, done)
  {
    ghost var start := store.Db();
    var k := 0;
    while k < |records|
      invariant 0 <= k <= |records|
      invariant Standing(w, was, store, phone, from, text, at, Bound(was, records, k))
      invariant store.Db() == AfterAnswers(w, start, records, text, wall, k)
    {
      var answered := AnswerNext(w, store, was, records, k, phone, from, text, wall, at);
      if !answered {
        return false, k;
      }
      OneMoreAnswer(w, start, records, text, wall, k);
      k := k + 1;
    }
    return true, k;
  }

  /** Every concerned enrollment locked. */
  function Concerning(db: Database, phone: string, from: string): Database {
    db.(sequences := LockConcerned(db.sequences, phone, from, db.now))
  }

  /** An uninterrupted reply ends exactly the enrollments of the two numbers that are active and not locked by
      another worker, and touches no other; if it is cut short, what it has not handled is left locked. */
  method ApplyWorkflowReply(w: Workflows, store: Store, phone: string, from: string, text: string, wall: Instant)
    returns (ok: bool, ghost bound: nat, ghost done: nat)
    modifies store
    ensures ok ==> bound == |old(store.sequences)|
    ensures HalfAnswered(w, old(store.sequences), store.sequences, phone, from, text, old(store.now), bound)
    ensures OptOutHeard(w, old(store.sequences), phone, from, text, old(store.now), bound, store.suppressed)
    ensures done <= |ConcernedRecords(old(store.sequences), phone, from, old(store.now))|
    ensures ok <==> done == |ConcernedRecords(old(store.sequences), phone, from, old(store.now))|
    ensures store.Db() == AfterAnswers(w, Concerning(old(store.Db()), phone, from),
      ConcernedRecords(old(store.sequences), phone, from, old(store.now)), text, wall, done)
  {
    ghost var was, at := store.sequences, store.now;
    var records := store.ClaimWorkflowsForReply(phone, from);
    NothingYet(w, was, records, phone, from, text, at, store.suppressed);
    ok, done := AnswerAll(w, store, was, records, phone, from, text, wall, at);
    bound := Bound(was, records, done);
  }

  lemma NothingYet(
    w: Workflows, was: seq<Sequence>, records: seq<Record>, phone: string, from: string, text: string, at: Instant,
    suppressed: set<string>)
    requires records == ConcernedRecords(was, phone, from, at)
    ensures HalfAnswered(w, was, LockConcerned(was, phone, from, at), phone, from, text, at, Bound(was, records, 0))
    ensures OptOutHeard(w, was, phone, from, text, at, Bound(was, records, 0), suppressed)
  {
    forall i | 0 <= i < |was| && Concerned(was[i], phone, from, at) ensures i >= Bound(was, records, 0) {
      if i < Bound(was, records, 0) {
        NoneBetween(was, records, phone, from, at, 0, i);
      }
    }
  }

}
