/** The inbound and delivery tables and RunInboundWorker as they run (internal/store/store.go, internal/app/app.go). */
module Mailboxes {
  import opened Wrappers
  import opened SendWindow
  import opened Inbox

  class Mailbox {
    var now: Instant
    var rows: seq<Item>

    method Record(event: string) returns (inserted: bool)
      modifies `rows
      ensures inserted <==> !Recorded(old(rows), event)
      ensures rows == if inserted then old(rows) + [Received(event, now)] else old(rows)
      ensures inserted ==> rows == old(rows) + [Item(event := event, receivedAt := now, attempts := 0,
        lockedUntil := Some(now + 120 * SECOND), settled := false, failed := false)]
    {
      var i := 0;
      while i < |rows|
        invariant 0 <= i <= |rows|
        invariant forall j :: 0 <= j < i ==> rows[j].event != event
      {
        if rows[i].event == event {
          return false;
        }
        i := i + 1;
      }
      rows := rows + [Received(event, now)];
      inserted := true;
    }

    /** The oldest row that is open and not locked. */
    method ClaimUnprocessed() returns (r: Option<nat>, attempts: nat)
      modifies `rows
      ensures r.None? ==> rows == old(rows) && forall i :: 0 <= i < |rows| ==> !Claimable(rows[i], now)
      ensures r.Some? ==> IsOldest(old(rows), now, r.value)
      ensures r.Some? ==>
        rows == old(rows)[r.value := Taken(old(rows)[r.value], now)] && attempts == old(rows)[r.value].attempts + 1
    {
      var i := 0;
      while i < |rows|
        invariant 0 <= i <= |rows|
        invariant forall j :: 0 <= j < i ==> !Claimable(rows[j], now)
      {
        if Claimable(rows[i], now) {
          attempts := rows[i].attempts + 1;
          rows := rows[i := rows[i].(lockedUntil := Some(now + LeasedQueue.LEASE), attempts := attempts)];
          return Some(i), attempts;
        }
        i := i + 1;
      }
      return None, 0;
    }

    method MarkProcessed(id: nat)
      modifies `rows
      ensures rows == if id < |old(rows)| then old(rows)[id := Settled(old(rows)[id])] else old(rows)
    {
      if id < |rows| {
        rows := rows[id := rows[id].(settled := true, lockedUntil := None)];
      }
    }

    method Retry(id: nat, delay: int)
      modifies `rows
      ensures rows == if id < |old(rows)| then old(rows)[id := Postponed(old(rows)[id], now, delay)] else old(rows)
    {
      if id < |rows| {
        rows := rows[id := rows[id].(lockedUntil := Some(now + delay))];
      }
    }

    method Fail(id: nat)
      modifies `rows
      ensures rows == if id < |old(rows)| then old(rows)[id := GivenUp(old(rows)[id])] else old(rows)
    {
      if id < |rows| {
        rows := rows[id := rows[id].(failed := true, lockedUntil := None)];
      }
    }

    /** Half an iteration of the loop: one row, with `ok` whether handling it succeeded. */
    method HandleOne(ok: bool) returns (worked: bool)
      modifies `rows
      ensures HandledOnce(old(rows), now, ok, rows, worked)
      ensures ItemHandled(old(rows), now, ok, rows, worked)
    {
      var id, attempts := ClaimUnprocessed();
      if id == None {
        return false;
      }
      worked := true;
      if ok {
        MarkProcessed(id.value);
      } else if attempts >= LeasedQueue.MAX_ATTEMPTS {
        Fail(id.value);
      } else {
        Retry(id.value, RetryDelay(attempts));
      }
      HandlingIsTrace(old(rows), now, id.value, ok);
      MinutesOfRetries();
      assert ItemAfter(old(rows)[id.value], rows[id.value], now, ok);
    }
  }

  // ----- The same by columns -----

  predicate IsOpen(r: Item, now: Instant) {
    !r.settled && !r.failed && (r.lockedUntil == None || r.lockedUntil.value < now)
  }

  /** Minutes after attempts one to four. */
  const PAUSES: seq<int> := [2, 4, 8, 16]

  /** One attempt more: processed, or locked for twice as long each time, and failed at the fifth. */
  predicate ItemAfter(was: Item, after: Item, now: Instant, ok: bool) {
    after == was.(attempts := was.attempts + 1, settled := ok, failed := !ok && was.attempts >= 4,
      lockedUntil := if ok || was.attempts >= 4 then None else Some(now + PAUSES[was.attempts] * 60 * SECOND))
  }

  /** The oldest open row has gone through that, and no other has changed. */
  ghost predicate ItemHandled(was: seq<Item>, now: Instant, ok: bool, after: seq<Item>, worked: bool) {
    if !worked then after == was && forall j :: 0 <= j < |was| ==> !IsOpen(was[j], now)
    else
      && |after| == |was|
      && exists i :: 0 <= i < |was| && IsOpen(was[i], now) && ItemAfter(was[i], after[i], now, ok) &&
           forall j :: 0 <= j < |was| && j != i ==> after[j] == was[j] && (j < i ==> !IsOpen(was[j], now))
  }

  lemma MinutesOfRetries()
    ensures forall k :: 0 <= k < 4 ==> RetryDelay(k + 1) == PAUSES[k] * 60 * SECOND
  {
    assert Machine.Power2(0) == 1 && Machine.Power2(1) == 2 && Machine.Power2(2) == 4 && Machine.Power2(3) == 8;
    assert Machine.Power2(4) == 16;
    forall k | 0 <= k < 4 ensures RetryDelay(k + 1) == PAUSES[k] * 60 * SECOND {
      assert k == 0 || k == 1 || k == 2 || k == 3;
    }
  }

  predicate IsOldest(rows: seq<Item>, now: Instant, i: nat) {
    i < |rows| && Claimable(rows[i], now) && forall j :: 0 <= j < i ==> !Claimable(rows[j], now)
  }

  /** Nothing was to be claimed, or the oldest such row went through one attempt of the protocol. */
  ghost predicate HandledOnce(was: seq<Item>, now: Instant, ok: bool, after: seq<Item>, worked: bool) {
    if worked then exists i :: IsOldest(was, now, i) && after == Trace(State(was, map[]), AttemptEvents(now, i, ok)).rows
    else after == was && forall i :: 0 <= i < |was| ==> !Claimable(was[i], now)
  }

  lemma HandlingIsTrace(rows: seq<Item>, now: Instant, i: nat, ok: bool)
    requires i < |rows| && Claimable(rows[i], now)
    ensures var taken := Taken(rows[i], now);
      Trace(State(rows, map[]), AttemptEvents(now, i, ok)).rows ==
        rows[i := if ok then Settled(taken) else Outcome(taken, taken.attempts, now)]
  {
    var s0, es := State(rows, map[]), AttemptEvents(now, i, ok);
    var s1 := Next(s0, es[0]);
    var s2 := Next(s1, es[1]);
    assert Trace(s0, es) == Trace(s1, es[1..]);
    assert es[1..][1..] == es[2..];
    assert Trace(s1, es[1..]) == Trace(s2, es[2..]);
    if !ok {
      var s3 := Next(s2, es[2]);
      assert es[2..][1..] == [];
      assert Trace(s2, es[2..]) == Trace(s3, []) == s3;
    }
  }

  /** One iteration serves both tables. */
  method RunInboundWorkerOnce(inbound: Mailbox, deliveries: Mailbox, processed: bool, synced: bool) returns (worked: bool)
    requires inbound != deliveries
    modifies inbound`rows, deliveries`rows
    ensures exists a, b ::
      && HandledOnce(old(inbound.rows), inbound.now, processed, inbound.rows, a)
      && HandledOnce(old(deliveries.rows), deliveries.now, synced, deliveries.rows, b)
      && ItemHandled(old(inbound.rows), inbound.now, processed, inbound.rows, a)
      && ItemHandled(old(deliveries.rows), deliveries.now, synced, deliveries.rows, b)
      && worked == (a || b)
  {
    var a := inbound.HandleOne(processed);
    var b := deliveries.HandleOne(synced);
    worked := a || b;
  }

}
