/** The per-workflow rate reserver (reserveWorkflowRate in internal/store/workflows.go): each reservation is
    granted an instant; a batch shares one instant, and the next batch comes `per` later. */
module RateLimit {
  import opened SendWindow
  import opened Catalog

  /** One row of workflow_rate_limits. */
  datatype Allowance = Allowance(next: Instant, remaining: int)

  datatype Reservation = Reservation(at: Instant, left: Allowance)

  function Reserve(a: Allowance, rate: Rate, now: Instant): Reservation {
    var next := if a.next < now then now else a.next;
    var remaining := (if a.next < now then rate.batchSize else a.remaining) - 1;
    Reservation(next,
      if remaining <= 0 then Allowance(next + rate.per, rate.batchSize) else Allowance(next, remaining))
  }

  predicate Positive(rate: Rate) { rate.batchSize > 0 && rate.per > 0 }

  /** The row as the reserver keeps it. */
  predicate Fresh(a: Allowance, rate: Rate) { 1 <= a.remaining <= rate.batchSize }

  /** The instants granted when the clock reads as given, one reading per reservation. */
  function Grants(a: Allowance, rate: Rate, clock: seq<Instant>): seq<Instant>
    decreases |clock|
  {
    if clock == [] then [] else
      [Reserve(a, rate, clock[0]).at] + Grants(Reserve(a, rate, clock[0]).left, rate, clock[1..])
  }

  function Left(a: Allowance, rate: Rate, clock: seq<Instant>): Allowance
    decreases |clock|
  {
    if clock == [] then a else Left(Reserve(a, rate, clock[0]).left, rate, clock[1..])
  }

  function CountIn(ts: seq<Instant>, from: Instant, length: int): nat {
    if ts == [] then 0 else (if from <= ts[0] < from + length then 1 else 0) + CountIn(ts[1..], from, length)
  }

  // ----- A clock that never passes the next allowed instant -----

  /** The instant the i-th reservation is due to get. */
  function Due(a: Allowance, rate: Rate, i: nat): Instant
    requires Positive(rate)
  {
    a.next + (rate.batchSize - a.remaining + i) / rate.batchSize * rate.per
  }

  predicate ClockBehind(a: Allowance, rate: Rate, clock: seq<Instant>)
    requires Positive(rate)
  {
    forall i :: 0 <= i < |clock| ==> clock[i] <= Due(a, rate, i)
  }

  lemma DueStep(a: Allowance, rate: Rate, i: nat)
    requires Positive(rate) && Fresh(a, rate)
    ensures Due(a, rate, 0) == a.next
    ensures Due(Reserve(a, rate, a.next).left, rate, i) == Due(a, rate, i + 1)
  {
    Quotients(rate.batchSize - a.remaining, rate.batchSize, rate.per);
    if a.remaining == 1 {
      Quotients(i, rate.batchSize, rate.per);
    }
  }

  lemma Quotients(x: nat, b: int, per: int)
    requires b > 0
    ensures x < b ==> x / b == 0
    ensures (x + b) / b == x / b + 1
    ensures (x + b) / b * per == x / b * per + per
  {
    var q, r := x / b, x % b;
    assert x + b == (q + 1) * b + r;
    Quotient(x + b, b, q + 1, r);
    assert (q + 1) * per == q * per + per;
  }

  lemma Quotient(n: int, b: int, q: int, r: int)
    requires b > 0 && 0 <= r < b && n == q * b + r
    ensures n / b == q
  {
    var d := n / b - q;
    assert d * b == r - n % b;
    Multiple(d, b);
  }

  lemma Multiple(d: int, b: int)
    requires b > 0
    ensures d >= 1 ==> d * b >= b
    ensures d <= -1 ==> d * b <= -b
  {}

  /** Closed form: whole batches, `per` apart. */
  lemma {:induction false} GrantsClosedForm(a: Allowance, rate: Rate, clock: seq<Instant>)
    requires Positive(rate) && Fresh(a, rate) && ClockBehind(a, rate, clock)
    ensures |Grants(a, rate, clock)| == |clock|
    ensures forall i :: 0 <= i < |clock| ==> Grants(a, rate, clock)[i] == Due(a, rate, i)
    decreases |clock|
  {
    if clock != [] {
      DueStep(a, rate, 0);
      var next := Reserve(a, rate, clock[0]).left;
      assert next == Reserve(a, rate, a.next).left;
      forall i | 0 <= i < |clock| - 1 ensures Due(next, rate, i) == Due(a, rate, i + 1) {
        DueStep(a, rate, i);
      }
      GrantsClosedForm(next, rate, clock[1..]);
    }
  }

  /** Any batchSize + 1 grants span at least `per`. */
  ghost predicate Paced(ts: seq<Instant>, rate: Rate) {
    && (forall i, j :: 0 <= i < j < |ts| ==> ts[i] <= ts[j])
    && (forall i, j :: 0 <= i < j < |ts| && j == i + rate.batchSize ==> ts[i] + rate.per <= ts[j])
  }

  lemma {:induction false} CountOutside(ts: seq<Instant>, from: Instant, length: int)
    requires forall i :: 0 <= i < |ts| ==> from + length <= ts[i]
    ensures CountIn(ts, from, length) == 0
  {
    if ts != [] {
      CountOutside(ts[1..], from, length);
    }
  }

  lemma {:induction false} CountSplit(ts: seq<Instant>, n: nat, from: Instant, length: int)
    requires n <= |ts|
    ensures CountIn(ts, from, length) <= n + CountIn(ts[n..], from, length)
  {
    if n > 0 {
      CountSplit(ts[1..], n - 1, from, length);
      assert ts[1..][n - 1..] == ts[n..];
    }
  }

  /** Paced grants put at most batchSize of them in any half-open window of length `per`. */
  lemma {:induction false} PacedWindow(ts: seq<Instant>, rate: Rate, from: Instant)
    requires Positive(rate) && Paced(ts, rate)
    ensures CountIn(ts, from, rate.per) <= rate.batchSize
    decreases |ts|
  {
    if ts != [] {
      if from <= ts[0] {
        var n := if rate.batchSize < |ts| then rate.batchSize else |ts|;
        CountSplit(ts, n, from, rate.per);
        forall i | 0 <= i < |ts[n..]| ensures from + rate.per <= ts[n..][i] {
          assert ts[0] + rate.per <= ts[n] && (i > 0 ==> ts[n] <= ts[n + i]);
        }
        CountOutside(ts[n..], from, rate.per);
      } else {
        forall i, j | 0 <= i < j < |ts[1..]| && j == i + rate.batchSize
          ensures ts[1..][i] + rate.per <= ts[1..][j]
        {
          assert ts[i + 1] + rate.per <= ts[j + 1];
        }
        PacedWindow(ts[1..], rate, from);
      }
    }
  }

  /** While the clock stays behind, every window of length `per` holds at most one batch. */
  lemma BatchPerWindow(a: Allowance, rate: Rate, clock: seq<Instant>, from: Instant)
    requires Positive(rate) && Fresh(a, rate) && ClockBehind(a, rate, clock)
    ensures CountIn(Grants(a, rate, clock), from, rate.per) <= rate.batchSize
  {
    GrantsClosedForm(a, rate, clock);
    var ts := Grants(a, rate, clock);
    AnyClock(a, rate, clock);
    forall i, j | 0 <= i < j < |ts| && j == i + rate.batchSize ensures ts[i] + rate.per <= ts[j] {
      Quotients(rate.batchSize - a.remaining + i, rate.batchSize, rate.per);
      assert rate.batchSize - a.remaining + i + rate.batchSize == rate.batchSize - a.remaining + j;
    }
    PacedWindow(ts, rate, from);
  }

  // ----- Any clock at all, running backwards included -----

  ghost predicate Rising(ts: seq<Instant>) {
    forall i, j :: 0 <= i < j < |ts| ==> ts[i] <= ts[j]
  }

  /** Grants never go back and none is before the clock reading or the row's next instant. */
  lemma {:induction false} GrantsRise(a: Allowance, rate: Rate, clock: seq<Instant>)
    requires Positive(rate) && Fresh(a, rate)
    ensures Fresh(Left(a, rate, clock), rate)
    ensures |Grants(a, rate, clock)| == |clock|
    ensures forall i :: 0 <= i < |clock| ==> a.next <= Grants(a, rate, clock)[i] && clock[i] <= Grants(a, rate, clock)[i]
    ensures Rising(Grants(a, rate, clock))
    decreases |clock|
  {
    if clock != [] {
      GrantsRise(Reserve(a, rate, clock[0]).left, rate, clock[1..]);
    }
  }

  /** A row that has `remaining` left at one instant moves past it after that many grants. */
  lemma {:induction false} InstantIsUsedUp(a: Allowance, rate: Rate, clock: seq<Instant>)
    requires Positive(rate) && Fresh(a, rate) && a.remaining < |clock|
    ensures |Grants(a, rate, clock)| == |clock|
    ensures a.next < Grants(a, rate, clock)[a.remaining]
    ensures rate.batchSize == 1 ==> Grants(a, rate, clock)[0] + rate.per <= Grants(a, rate, clock)[1]
    decreases |clock|
  {
    GrantsRise(a, rate, clock);
    var r := Reserve(a, rate, clock[0]);
    GrantsRise(r.left, rate, clock[1..]);
    if a.next < clock[0] {
      assert clock[0] <= Grants(a, rate, clock)[0];
    } else if a.remaining > 1 {
      InstantIsUsedUp(r.left, rate, clock[1..]);
    }
  }

  /** Reading a clock that is ahead starts a full batch at the reading. */
  lemma {:induction false} RefillAtReading(a: Allowance, rate: Rate, clock: seq<Instant>)
    requires clock != [] && a.next < clock[0]
    ensures Grants(a, rate, clock) == Grants(Allowance(clock[0], rate.batchSize), rate, clock)
  {}

  ghost predicate NoInstantOverused(ts: seq<Instant>, rate: Rate) {
    && (forall i, j :: 0 <= i < j < |ts| && j == i + rate.batchSize ==> ts[i] < ts[j])
    && (rate.batchSize == 1 ==> forall i, j :: 0 <= i < j < |ts| && j == i + 1 ==> ts[i] + rate.per <= ts[j])
  }

  /** No instant is granted more than batchSize times, and single-message batches are `per` apart. */
  lemma {:induction false} AnyClock(a: Allowance, rate: Rate, clock: seq<Instant>)
    requires Positive(rate) && Fresh(a, rate)
    ensures Rising(Grants(a, rate, clock)) && NoInstantOverused(Grants(a, rate, clock), rate)
    decreases |clock|
  {
    GrantsRise(a, rate, clock);
    if clock != [] {
      var b, r := rate.batchSize, Reserve(a, rate, clock[0]);
      var ts, later := Grants(a, rate, clock), Grants(r.left, rate, clock[1..]);
      AnyClock(r.left, rate, clock[1..]);
      if b < |ts| {
        var start := if a.next < clock[0] then Allowance(clock[0], b) else a;
        if a.next < clock[0] {
          RefillAtReading(a, rate, clock);
        }
        InstantIsUsedUp(start, rate, clock);
        assert ts[0] < ts[start.remaining] <= ts[b];
      }
      Prepend(r.at, later, rate);
    }
  }

  lemma Prepend(t: Instant, later: seq<Instant>, rate: Rate)
    requires Positive(rate) && NoInstantOverused(later, rate)
    requires rate.batchSize < |later| + 1 ==> t < later[rate.batchSize - 1]
    requires rate.batchSize == 1 && later != [] ==> t + rate.per <= later[0]
    ensures NoInstantOverused([t] + later, rate)
  {
    var ts := [t] + later;
    forall i, j | 0 <= i < j < |ts| && j == i + rate.batchSize
      ensures ts[i] < ts[j] && (rate.batchSize == 1 ==> ts[i] + rate.per <= ts[j])
    {
      if i > 0 {
        assert later[i - 1] < later[j - 1] && (rate.batchSize == 1 ==> later[i - 1] + rate.per <= later[j - 1]);
      }
    }
  }

  ghost predicate AlwaysWithinRate(rate: Rate) {
    forall a, clock, from {:trigger CountIn(Grants(a, rate, clock), from, rate.per)} ::
      Fresh(a, rate) ==> CountIn(Grants(a, rate, clock), from, rate.per) <= rate.batchSize
  }

  /** The configured rate holds in every window under every clock only for batches of one (or a period of
      one tick): as soon as the clock passes the next allowed instant, a started batch is refilled. */
  lemma RateHoldsOnlyForSingles(rate: Rate)
    requires Positive(rate)
    ensures AlwaysWithinRate(rate) <==> rate.batchSize == 1 || rate.per == 1
  {
    if rate.batchSize == 1 || rate.per == 1 {
      forall a, clock, from | Fresh(a, rate)
        ensures CountIn(Grants(a, rate, clock), from, rate.per) <= rate.batchSize
      {
        AnyClock(a, rate, clock);
        PacedWindow(Grants(a, rate, clock), rate, from);
      }
    } else {
      RefillOverruns(rate);
    }
  }

  /** One message now and a full batch a tick later. */
  lemma RefillOverruns(rate: Rate)
    requires Positive(rate) && rate.batchSize > 1 && rate.per > 1
    ensures exists a, clock {:trigger Grants(a, rate, clock)} ::
      Fresh(a, rate) && CountIn(Grants(a, rate, clock), 0, rate.per) > rate.batchSize
  {
    var b := rate.batchSize;
    var burst: seq<Instant> := seq(b, i => 1);
    var clock := [0] + burst;
    var a := Allowance(0, b);
    assert clock[1..] == burst && burst[0] == 1;
    var started := Reserve(a, rate, 0).left;
    assert Grants(started, rate, burst) == Grants(Allowance(1, b), rate, burst);
    forall i | 0 <= i < b ensures Due(Allowance(1, b), rate, i) == 1 {
      assert (b - b + i) / b == 0;
    }
    GrantsClosedForm(Allowance(1, b), rate, burst);
    CountInside(Grants(started, rate, burst), 0, rate.per);
    assert Grants(a, rate, clock)[1..] == Grants(started, rate, burst);
    assert Fresh(a, rate) && CountIn(Grants(a, rate, clock), 0, rate.per) > b;
  }

  lemma {:induction false} CountInside(ts: seq<Instant>, from: Instant, length: int)
    requires forall i :: 0 <= i < |ts| ==> from <= ts[i] < from + length
    ensures CountIn(ts, from, length) == |ts|
  {
    if ts != [] {
      CountInside(ts[1..], from, length);
    }
  }

}
