/** processInbound (internal/app/app.go): the inbound table and the system together. A worker at an inbound row makes
    its calls, hears and answers the reply, forwards it, and marks the row; the row is then never looked at again. */
module Inbound {
  import opened SendWindow
  import opened LeasedQueue
  import opened Tables
  import opened Machine
  import opened Enrollments
  import opened ReplySafety
  import Inbox

  // ----- The two together -----

  datatype Letter = Letter(from: string, to: string, text: string)

  /** A worker between its claim and its mark; `claimed` is what the reply has locked. */
  datatype Visit = Calling | Replying(claimed: seq<Record>) | Answered(claimed: seq<Record>)

  datatype Bridge = Bridge(inbox: Inbox.State, letters: seq<Letter>, sys: System, visits: map<Pid, Visit>)

  function Empty(now: Instant): Bridge { Bridge(Inbox.State([], map[]), [], Boot(now), map[]) }

  datatype Deed =
    | Arrives(p: Pid, event: string, letter: Letter, seen: bool)
    | Takes(p: Pid, row: nat, seen: bool)
    | CallFails(p: Pid)                            // reading the suppression, or telling HighLevel of it
    | Hears(p: Pid, fate: Fate)
    | Handles(p: Pid, fate: Fate, wall: Instant)
    | Marks(p: Pid, ok: bool, fate: Fate)          // forwards, and when that is ok marks the row
    | Settles(p: Pid, lands: bool)                 // retry or fail
    | Dies(p: Pid)
    | Elsewhere(a: Action)

  function Noted(j: Bridge, act: Inbox.Act): Inbox.State { Inbox.Next(j.inbox, Inbox.Event(j.sys.db.now, act)) }

  predicate May(j: Bridge, act: Inbox.Act) { Inbox.Enabled(j.inbox, Inbox.Event(j.sys.db.now, act)) }

  /** processInbound returns an error. */
  function Failed(j: Bridge, p: Pid, sys: System): Bridge {
    Bridge(Noted(j, Inbox.Process(p, false, Succeeds)), j.letters, sys, j.visits - {p})
  }

  predicate AtWork(j: Bridge, p: Pid) { p in j.visits && p in j.inbox.workers && j.inbox.workers[p].row < |j.letters| }

  function LetterOf(j: Bridge, p: Pid): Letter
    requires AtWork(j, p)
  {
    j.letters[j.inbox.workers[p].row]
  }

  function HearAction(j: Bridge, p: Pid, fate: Fate): Action
    requires AtWork(j, p)
  {
    HearReply(p, LetterOf(j, p).from, LetterOf(j, p).to, LetterOf(j, p).text, fate)
  }

  /** The enrollments the reply can claim: those it is meant for that nobody has locked. */
  function Claims(j: Bridge, p: Pid): seq<Record>
    requires AtWork(j, p)
  {
    ConcernedRecords(j.sys.db.sequences, LetterOf(j, p).from, LetterOf(j, p).to, j.sys.db.now)
  }

  function Do(w: Workflows, j: Bridge, d: Deed): Bridge {
    match d
    case Arrives(p, event, letter, seen) =>
      if !May(j, Inbox.Receive(p, event, seen)) then j
      else Bridge(Noted(j, Inbox.Receive(p, event, seen)), j.letters + [letter], j.sys,
        if seen then j.visits[p := Calling] else j.visits)
    case Takes(p, i, seen) =>
      if !May(j, Inbox.Claim(p, i, seen)) then j
      else Bridge(Noted(j, Inbox.Claim(p, i, seen)), j.letters, j.sys,
        if seen then j.visits[p := Calling] else j.visits)
    case CallFails(p) => if AtWork(j, p) && j.visits[p].Calling? then Failed(j, p, j.sys) else j
    case Hears(p, fate) => if AtWork(j, p) && j.visits[p].Calling? then DoHear(w, j, p, fate) else j
    case Handles(p, fate, wall) =>
      if AtWork(j, p) && j.visits[p].Replying? && p in j.sys.repliers then DoHandle(w, j, p, fate, wall) else j
    case Marks(p, ok, fate) =>
      if AtWork(j, p) && j.visits[p].Answered?
      then Bridge(Noted(j, Inbox.Process(p, ok, fate)), j.letters, j.sys, j.visits - {p}) else j
    case Settles(p, lands) => if p in j.visits then j else j.(inbox := Noted(j, Inbox.Settle(p, lands)))
    case Dies(p) =>
      Bridge(Noted(j, Inbox.Crash(p)), j.letters, Step(w, j.sys, ReplierCrash(p)), j.visits - {p})
    case Elsewhere(a) => if OfReplies(a) then j else j.(sys := Step(w, j.sys, a))
  }

  /** Replies are heard and handled by workers at inbound rows only. */
  predicate OfReplies(a: Action) { a.HearReply? || a.ReplierStep? || a.ReplierCrash? }

  function DoHear(w: Workflows, j: Bridge, p: Pid, fate: Fate): Bridge
    requires AtWork(j, p)
  {
    if w == map[] then j.(visits := j.visits[p := Answered([])])
    else
      var sys := Step(w, j.sys, HearAction(j, p, fate));
      if fate.Seen() then Bridge(j.inbox, j.letters, sys, j.visits[p := Replying(Claims(j, p))])
      else Failed(j, p, sys)
  }

  function DoHandle(w: Workflows, j: Bridge, p: Pid, fate: Fate, wall: Instant): Bridge
    requires AtWork(j, p) && j.visits[p].Replying? && p in j.sys.repliers
  {
    var sys := Step(w, j.sys, ReplierStep(p, fate, wall));
    if p in sys.repliers then j.(sys := sys)
    else if j.sys.repliers[p].records == [] then j.(sys := sys, visits := j.visits[p := Answered(j.visits[p].claimed)])
    else Failed(j, p, sys)
  }

  function Doing(w: Workflows, j: Bridge, deeds: seq<Deed>): Bridge
    decreases |deeds|
  {
    if deeds == [] then j else
      var n := |deeds| - 1;
      Do(w, Doing(w, j, deeds[..n]), deeds[n])
  }

  // ----- Its two halves are runs of the two machines -----

  /** The action a deed makes the system do, and the event it is for the inbound table. */
  ghost predicate Moves(w: Workflows, j: Bridge, n: Bridge) {
    && (n.sys == j.sys || exists a :: n.sys == Step(w, j.sys, a))
    && (n.inbox == j.inbox || exists e :: n.inbox == Inbox.Next(j.inbox, e))
  }

  lemma DeedMoves(w: Workflows, j: Bridge, d: Deed)
    ensures Moves(w, j, Do(w, j, d))
  {}

  lemma {:induction false} RunIsBoth(w: Workflows, now: Instant, deeds: seq<Deed>)
    returns (actions: seq<Action>, events: seq<Inbox.Event>)
    ensures Doing(w, Empty(now), deeds).sys == Execution(w, Boot(now), actions)
    ensures Doing(w, Empty(now), deeds).inbox == Inbox.Trace(Inbox.State([], map[]), events)
    decreases |deeds|
  {
    if deeds == [] {
      actions, events := [], [];
    } else {
      var k := |deeds| - 1;
      var j := Doing(w, Empty(now), deeds[..k]);
      var n := Do(w, j, deeds[k]);
      actions, events := RunIsBoth(w, now, deeds[..k]);
      DeedMoves(w, j, deeds[k]);
      if n.sys != j.sys {
        var a :| n.sys == Step(w, j.sys, a);
        ExecutionSnoc(w, Boot(now), actions, a);
        actions := actions + [a];
      }
      if n.inbox != j.inbox {
        var e :| n.inbox == Inbox.Next(j.inbox, e);
        Inbox.TraceConcat(Inbox.State([], map[]), events, [e]);
        assert [e][1..] == [] && Inbox.Trace(j.inbox, [e]) == Inbox.Trace(n.inbox, []);
        events := events + [e];
      }
    }
  }

  // ----- The invariant -----

  predicate Over(s: System, e: nat) { e < |s.db.sequences| && !Active(s.db.sequences[e]) }

  /** The enrollments of the first k records are over. */
  ghost predicate OverUpTo(s: System, records: seq<Record>, k: nat) {
    k <= |records| && forall i :: 0 <= i < k ==> Over(s, records[i].id)
  }

  ghost predicate OnWay(s: System, p: Pid, v: Visit) {
    match v
    case Calling => p !in s.repliers
    case Replying(claimed) =>
      p in s.repliers && exists k :: 0 <= k <= |claimed| && Remaining(s, p, claimed, k) && OverUpTo(s, claimed, k)
    case Answered(claimed) => p !in s.repliers && OverUpTo(s, claimed, |claimed|)
  }

  predicate Remaining(s: System, p: Pid, claimed: seq<Record>, k: nat) {
    p in s.repliers && k <= |claimed| && s.repliers[p].records == claimed[k..]
  }

  ghost predicate Seated(j: Bridge) {
    && |j.letters| == |j.inbox.rows|
    && (forall p :: p in j.visits ==>
          p in j.inbox.workers && j.inbox.workers[p].processing && j.inbox.workers[p].row < |j.inbox.rows|)
    && (forall p :: p in j.sys.repliers ==> p in j.visits)
  }

  ghost predicate Bridged(w: Workflows, j: Bridge) {
    && Seated(j) && Locking(w, Look(j.sys))
    && (forall p :: p in j.visits ==> OnWay(j.sys, p, j.visits[p]))
  }

  lemma EmptyIsBridged(w: Workflows, now: Instant)
    ensures Bridged(w, Empty(now))
  {}

  // ----- What a step of the system does to a visit that is not its own -----

  lemma WayStays(w: Workflows, s: System, n: System, q: Pid, v: Visit)
    requires Frozen(Look(s), Look(n)) && OnWay(s, q, v)
    requires q in s.repliers <==> q in n.repliers
    requires q in s.repliers ==> n.repliers[q] == s.repliers[q]
    ensures OnWay(n, q, v)
  {
    OverStays(s, n);
    if v.Replying? {
      var k :| 0 <= k <= |v.claimed| && Remaining(s, q, v.claimed, k) && OverUpTo(s, v.claimed, k);
      assert Remaining(n, q, v.claimed, k) && OverUpTo(n, v.claimed, k);
    }
  }

  lemma OverStays(s: System, n: System)
    requires Frozen(Look(s), Look(n))
    ensures forall e: nat :: Over(s, e) ==> Over(n, e)
  {}

  lemma OthersKeepRepliers(w: Workflows, s: System, a: Action)
    requires !OfReplies(a)
    ensures Step(w, s, a).repliers == s.repliers
  {
    Frames.StepFrame(w, s, a);
    FrameOfRepliers(s, Step(w, s, a), a);
  }

  lemma ReplyTouchesOwn(w: Workflows, s: System, a: Action, q: Pid)
    requires OfReplies(a) && q != a.p
    ensures SameReplier(s, Step(w, s, a), q)
  {
    if a.HearReply? {
      HearingTouchesOwn(s, a.p, a.phone, a.to, a.text, a.fate, q);
    } else if a.ReplierStep? && a.p in s.repliers {
      HandlingTouchesOwn(w, s, a.p, a.fate, a.wall, q);
    }
  }

  predicate SameReplier(s: System, n: System, q: Pid) {
    (q in s.repliers <==> q in n.repliers) && (q in s.repliers ==> n.repliers[q] == s.repliers[q])
  }

  lemma HearingTouchesOwn(s: System, p: Pid, phone: string, to: string, text: string, fate: Fate, q: Pid)
    requires q != p
    ensures SameReplier(s, ClaimForReply(s, p, phone, to, text, fate), q)
  {}

  lemma HandlingTouchesOwn(w: Workflows, s: System, p: Pid, fate: Fate, wall: Instant, q: Pid)
    requires q != p && p in s.repliers
    ensures SameReplier(s, StepReplier(w, s, p, fate, wall), q)
  {}

  /** All visits but that of p go on as before. */
  lemma OtherVisitsGoOn(w: Workflows, j: Bridge, a: Action, q: Pid)
    requires WellKeyed(w) && Bridged(w, j) && q in j.visits && (OfReplies(a) ==> q != a.p)
    ensures OnWay(Step(w, j.sys, a), q, j.visits[q])
  {
    StepKeepsLocking(w, j.sys, a);
    if OfReplies(a) {
      ReplyTouchesOwn(w, j.sys, a, q);
    } else {
      OthersKeepRepliers(w, j.sys, a);
    }
    WayStays(w, j.sys, Step(w, j.sys, a), q, j.visits[q]);
  }

  // ----- Each deed keeps it -----

  /** An inbox event of p's leaves all other workers and their rows. */
  lemma OthersStaySeated(s: Inbox.State, e: Inbox.Event, q: Pid)
    requires q in s.workers && q != e.act.p
    ensures var n := Inbox.Next(s, e); q in n.workers && n.workers[q] == s.workers[q] && |s.rows| <= |n.rows|
  {}

  /** A new visit begins. */
  lemma ArrivalKeepsBridged(w: Workflows, j: Bridge, p: Pid, event: string, letter: Letter, seen: bool)
    requires Bridged(w, j)
    ensures Bridged(w, Do(w, j, Arrives(p, event, letter, seen)))
  {
    if May(j, Inbox.Receive(p, event, seen)) {
      forall q | q in j.visits ensures q != p {}
    }
  }

  lemma TakingKeepsBridged(w: Workflows, j: Bridge, p: Pid, i: nat, seen: bool)
    requires Bridged(w, j)
    ensures Bridged(w, Do(w, j, Takes(p, i, seen)))
  {
    if May(j, Inbox.Claim(p, i, seen)) {
      forall q | q in j.visits ensures q != p {}
    }
  }

  /** A visit ends, with p's replier gone. */
  lemma LeavingKeepsBridged(w: Workflows, j: Bridge, n: Bridge, p: Pid, act: Inbox.Act)
    requires Bridged(w, j) && Locking(w, Look(n.sys)) && act.p == p && (act.Process? || act.Crash?)
    requires n == Bridge(Noted(j, act), j.letters, n.sys, j.visits - {p})
    requires forall q :: q in n.sys.repliers ==> q in j.visits && q != p
    requires forall q :: q in j.visits && q != p ==> OnWay(n.sys, q, j.visits[q])
    ensures Bridged(w, n)
  {
    forall q | q in n.visits
      ensures q in n.inbox.workers && n.inbox.workers[q].processing && n.inbox.workers[q].row < |n.inbox.rows|
    {
      OthersStaySeated(j.inbox, Inbox.Event(j.sys.db.now, act), q);
    }
  }

  /** The system moves while all visits stay. */
  lemma MovingKeepsBridged(w: Workflows, j: Bridge, n: Bridge)
    requires Bridged(w, j) && Locking(w, Look(n.sys)) && n.inbox == j.inbox && n.letters == j.letters
    requires n.visits.Keys == j.visits.Keys
    requires forall q :: q in n.sys.repliers ==> q in j.visits
    requires forall q :: q in n.visits ==> OnWay(n.sys, q, n.visits[q])
    ensures Bridged(w, n)
  {
    assert forall q :: q in n.visits <==> q in j.visits;
  }

  lemma FailingKeepsBridged(w: Workflows, j: Bridge, p: Pid, a: Action)
    requires WellKeyed(w) && Bridged(w, j) && AtWork(j, p) && OfReplies(a) && a.p == p
    requires p !in Step(w, j.sys, a).repliers
    ensures Bridged(w, Failed(j, p, Step(w, j.sys, a)))
  {
    var sys := Step(w, j.sys, a);
    StepKeepsLocking(w, j.sys, a);
    forall q | q in j.visits && q != p ensures OnWay(sys, q, j.visits[q]) {
      OtherVisitsGoOn(w, j, a, q);
    }
    forall q | q in sys.repliers ensures q in j.visits && q != p {
      ReplyTouchesOwn(w, j.sys, a, q);
    }
    LeavingKeepsBridged(w, j, Failed(j, p, sys), p, Inbox.Process(p, false, Succeeds));
  }

  lemma HearingKeepsBridged(w: Workflows, j: Bridge, p: Pid, fate: Fate)
    requires WellKeyed(w) && Bridged(w, j) && AtWork(j, p) && j.visits[p].Calling?
    ensures Bridged(w, DoHear(w, j, p, fate))
  {
    assert OnWay(j.sys, p, j.visits[p]);
    if w == map[] {
      MovingKeepsBridged(w, j, DoHear(w, j, p, fate));
    } else {
      var a := HearAction(j, p, fate);
      var n := DoHear(w, j, p, fate);
      HeardBy(w, j, p, fate);
      if fate.Seen() {
        StepKeepsLocking(w, j.sys, a);
        forall q | q in n.visits ensures OnWay(n.sys, q, n.visits[q]) {
          if q != p {
            OtherVisitsGoOn(w, j, a, q);
          }
        }
        MovingKeepsBridged(w, j, n);
      } else {
        FailingKeepsBridged(w, j, p, a);
      }
    }
  }

  lemma HeardBy(w: Workflows, j: Bridge, p: Pid, fate: Fate)
    requires AtWork(j, p) && p !in j.sys.repliers
    ensures var n := Step(w, j.sys, HearAction(j, p, fate));
      && (p in n.repliers <==> fate.Seen())
      && (fate.Seen() ==> n.repliers[p].records == Claims(j, p) && OnWay(n, p, Replying(Claims(j, p))))
      && (forall q :: q in n.repliers && q != p ==> q in j.sys.repliers)
  {
    var n := Step(w, j.sys, HearAction(j, p, fate));
    if fate.Seen() {
      assert Claims(j, p)[0..] == Claims(j, p);
      assert Remaining(n, p, Claims(j, p), 0) && OverUpTo(n, Claims(j, p), 0);
    }
  }

  /** One record is handled: its enrollment is over, or the reply gives up. */
  lemma HandlingGoesOn(w: Workflows, j: Bridge, p: Pid, fate: Fate, wall: Instant)
    requires WellKeyed(w) && Bridged(w, j) && AtWork(j, p) && j.visits[p].Replying? && p in j.sys.repliers
    ensures var n, c := Step(w, j.sys, ReplierStep(p, fate, wall)), j.visits[p].claimed;
      && (p in n.repliers ==> OnWay(n, p, j.visits[p]))
      && (p !in n.repliers && j.sys.repliers[p].records == [] ==> OnWay(n, p, Answered(c)))
  {
    var s, n, c := j.sys, Step(w, j.sys, ReplierStep(p, fate, wall)), j.visits[p].claimed;
    assert OnWay(s, p, j.visits[p]);
    var k :| 0 <= k <= |c| && Remaining(s, p, c, k) && OverUpTo(s, c, k);
    StepKeepsLocking(w, s, ReplierStep(p, fate, wall));
    OverStays(s, n);
    assert OverUpTo(n, c, k);
    if p in n.repliers {
      FirstIsOver(w, s, p, fate, wall);
      OneMoreOver(s, n, p, c, k);
    } else if s.repliers[p].records == [] {
      assert k == |c|;
    }
  }

  lemma OneMoreOver(s: System, n: System, p: Pid, c: seq<Record>, k: nat)
    requires Remaining(s, p, c, k) && OverUpTo(n, c, k) && s.repliers[p].records != []
    requires p in n.repliers && n.repliers[p].records == s.repliers[p].records[1..]
    requires Over(n, s.repliers[p].records[0].id)
    ensures OnWay(n, p, Replying(c))
  {
    assert c[k..][0] == c[k] && c[k..][1..] == c[k + 1..];
    assert Remaining(n, p, c, k + 1) && OverUpTo(n, c, k + 1);
  }

  lemma FirstIsOver(w: Workflows, s: System, p: Pid, fate: Fate, wall: Instant)
    requires WellKeyed(w) && Locking(w, Look(s)) && p in s.repliers
    requires p in Step(w, s, ReplierStep(p, fate, wall)).repliers
    ensures var n, records := Step(w, s, ReplierStep(p, fate, wall)), s.repliers[p].records;
      records != [] && n.repliers[p].records == records[1..] && Over(n, records[0].id)
  {
    var r := s.repliers[p].records[0];
    assert Known(Look(s), r) && LockOk(w, Look(s), r.id);
    ReplierRows(w, s.db, s.repliers[p], fate, wall);
  }

  lemma HandlingKeepsBridged(w: Workflows, j: Bridge, p: Pid, fate: Fate, wall: Instant)
    requires WellKeyed(w) && Bridged(w, j) && AtWork(j, p) && j.visits[p].Replying? && p in j.sys.repliers
    ensures Bridged(w, DoHandle(w, j, p, fate, wall))
  {
    var a, n := ReplierStep(p, fate, wall), DoHandle(w, j, p, fate, wall);
    HandlingGoesOn(w, j, p, fate, wall);
    if p in n.sys.repliers || j.sys.repliers[p].records == [] {
      StepKeepsLocking(w, j.sys, a);
      forall q | q in n.visits ensures OnWay(n.sys, q, n.visits[q]) {
        if q != p {
          OtherVisitsGoOn(w, j, a, q);
        }
      }
      forall q | q in n.sys.repliers ensures q in j.visits {
        if q != p { ReplyTouchesOwn(w, j.sys, a, q); }
      }
      MovingKeepsBridged(w, j, n);
    } else {
      FailingKeepsBridged(w, j, p, a);
    }
  }

  lemma MarkingKeepsBridged(w: Workflows, j: Bridge, p: Pid, ok: bool, fate: Fate)
    requires Bridged(w, j)
    ensures Bridged(w, Do(w, j, Marks(p, ok, fate)))
  {
    if AtWork(j, p) && j.visits[p].Answered? {
      assert OnWay(j.sys, p, j.visits[p]);
      LeavingKeepsBridged(w, j, Do(w, j, Marks(p, ok, fate)), p, Inbox.Process(p, ok, fate));
    }
  }

  lemma CallFailureKeepsBridged(w: Workflows, j: Bridge, p: Pid)
    requires Bridged(w, j)
    ensures Bridged(w, Do(w, j, CallFails(p)))
  {
    if AtWork(j, p) && j.visits[p].Calling? {
      assert OnWay(j.sys, p, j.visits[p]);
      LeavingKeepsBridged(w, j, Failed(j, p, j.sys), p, Inbox.Process(p, false, Succeeds));
    }
  }

  lemma SettlingKeepsBridged(w: Workflows, j: Bridge, p: Pid, lands: bool)
    requires Bridged(w, j)
    ensures Bridged(w, Do(w, j, Settles(p, lands)))
  {
    if p !in j.visits {
      var n := Do(w, j, Settles(p, lands));
      forall q | q in n.visits ensures q in n.inbox.workers && n.inbox.workers[q] == j.inbox.workers[q] {
        OthersStaySeated(j.inbox, Inbox.Event(j.sys.db.now, Inbox.Settle(p, lands)), q);
      }
    }
  }

  lemma DeathKeepsBridged(w: Workflows, j: Bridge, p: Pid)
    requires WellKeyed(w) && Bridged(w, j)
    ensures Bridged(w, Do(w, j, Dies(p)))
  {
    var a, n := ReplierCrash(p), Do(w, j, Dies(p));
    StepKeepsLocking(w, j.sys, a);
    forall q | q in j.visits && q != p ensures OnWay(n.sys, q, j.visits[q]) {
      OtherVisitsGoOn(w, j, a, q);
    }
    LeavingKeepsBridged(w, j, n, p, Inbox.Crash(p));
  }

  lemma ElsewhereKeepsBridged(w: Workflows, j: Bridge, a: Action)
    requires WellKeyed(w) && Bridged(w, j) && !OfReplies(a)
    ensures Bridged(w, Do(w, j, Elsewhere(a)))
  {
    var n := Do(w, j, Elsewhere(a));
    StepKeepsLocking(w, j.sys, a);
    OthersKeepRepliers(w, j.sys, a);
    forall q | q in n.visits ensures OnWay(n.sys, q, n.visits[q]) {
      OtherVisitsGoOn(w, j, a, q);
    }
    MovingKeepsBridged(w, j, n);
  }

  lemma DeedKeepsBridged(w: Workflows, j: Bridge, d: Deed)
    requires WellKeyed(w) && Bridged(w, j)
    ensures Bridged(w, Do(w, j, d))
  {
    match d
    case Arrives(p, event, letter, seen) => ArrivalKeepsBridged(w, j, p, event, letter, seen);
    case Takes(p, i, seen) => TakingKeepsBridged(w, j, p, i, seen);
    case CallFails(p) => CallFailureKeepsBridged(w, j, p);
    case Hears(p, fate) => if AtWork(j, p) && j.visits[p].Calling? { HearingKeepsBridged(w, j, p, fate); }
    case Handles(p, fate, wall) =>
      if AtWork(j, p) && j.visits[p].Replying? && p in j.sys.repliers { HandlingKeepsBridged(w, j, p, fate, wall); }
    case Marks(p, ok, fate) => MarkingKeepsBridged(w, j, p, ok, fate);
    case Settles(p, lands) => SettlingKeepsBridged(w, j, p, lands);
    case Dies(p) => DeathKeepsBridged(w, j, p);
    case Elsewhere(a) => if !OfReplies(a) { ElsewhereKeepsBridged(w, j, a); }
  }

  lemma {:induction false} RunKeepsBridged(w: Workflows, now: Instant, deeds: seq<Deed>)
    requires WellKeyed(w)
    ensures Bridged(w, Doing(w, Empty(now), deeds))
    decreases |deeds|
  {
    if deeds == [] {
      EmptyIsBridged(w, now);
    } else {
      var k := |deeds| - 1;
      RunKeepsBridged(w, now, deeds[..k]);
      DeedKeepsBridged(w, Doing(w, Empty(now), deeds[..k]), deeds[k]);
    }
  }

}
