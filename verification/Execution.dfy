/** Costs, T+1 position lots and the FIFO drain of engines/backtest/execution.py. */
module Execution {
  import opened Wrappers

  const COMMISSION_RATE := 0.00025
  const COMMISSION_MIN := 5.0
  const STAMP_TAX_RATE := 0.0005
  const SLIPPAGE_RATE := 0.001

  datatype Side = Buy | Sell

  function CostOf(value: real, side: Side): real {
    if value <= 0.0 then 0.0
    else
      Max(value * COMMISSION_RATE, COMMISSION_MIN)
      + (if side.Sell? then value * STAMP_TAX_RATE else 0.0)
      + value * SLIPPAGE_RATE
  }

  /** The share thresholds of the drain: stop once at most `stop` is left, drop lots of at most `drop`. */
  datatype Tolerance = Tolerance(stop: real, drop: real) {
    predicate Valid() { 0.0 <= stop && 0.0 <= drop }
  }

  const SOURCE_TOLERANCE := Tolerance(0.000000000001, 0.000000001)
  const EXACT := Tolerance(0.0, 0.0)

  datatype Lot = Lot(shares: real, availableDate: int)

  function Total(lots: seq<Lot>): real {
    if lots == [] then 0.0 else lots[0].shares + Total(lots[1..])
  }

  function Available(lots: seq<Lot>, day: int): real {
    if lots == [] then 0.0
    else (if lots[0].availableDate <= day then lots[0].shares else 0.0) + Available(lots[1..], day)
  }

  /** What the drain loop leaves in each lot. */
  function Drain(lots: seq<Lot>, remaining: real, day: int, stop: real): (r: seq<Lot>)
    ensures |r| == |lots|
  {
    if lots == [] then []
    else if remaining <= stop then lots
    else if lots[0].availableDate > day then [lots[0]] + Drain(lots[1..], remaining, day, stop)
    else
      var take := Min(lots[0].shares, remaining);
      [lots[0].(shares := lots[0].shares - take)] + Drain(lots[1..], remaining - take, day, stop)
  }

  lemma DrainSplits(lots: seq<Lot>, left: real, day: int, stop: real)
    requires lots != [] && left > stop
    ensures var take := if lots[0].availableDate > day then 0.0 else Min(lots[0].shares, left);
            Drain(lots, left, day, stop) ==
            [lots[0].(shares := lots[0].shares - take)] + Drain(lots[1..], left - take, day, stop)
  {
  }

  lemma DrainStops(lots: seq<Lot>, left: real, day: int, stop: real)
    requires lots == [] || left <= stop
    ensures Drain(lots, left, day, stop) == lots
  {
  }

  /** The list comprehension that drops exhausted lots. */
  function Sweep(lots: seq<Lot>, drop: real): seq<Lot> {
    if lots == [] then []
    else (if lots[0].shares > drop then [lots[0]] else []) + Sweep(lots[1..], drop)
  }

  function AfterPop(lots: seq<Lot>, taken: real, day: int, tol: Tolerance): seq<Lot> {
    Sweep(Drain(lots, taken, day, tol.stop), tol.drop)
  }

  class PositionBook {
    var lots: seq<Lot>

    constructor ()
      ensures lots == []
    {
      lots := [];
    }

    method Add(shares: real, buyDate: int)
      modifies this
      ensures lots == old(lots) + [Lot(shares, buyDate + 1)]
    {
      lots := lots + [Lot(shares, buyDate + 1)];
    }

    method TotalShares() returns (sum: real)
      ensures sum == Total(lots)
    {
      sum := 0.0;
      for i := 0 to |lots|
        invariant sum + Total(lots[i..]) == Total(lots)
      {
        sum := sum + lots[i].shares;
      }
    }

    method AvailableShares(day: int) returns (sum: real)
      ensures sum == Available(lots, day)
    {
      sum := 0.0;
      for i := 0 to |lots|
        invariant sum + Available(lots[i..], day) == Available(lots, day)
      {
        if lots[i].availableDate <= day {
          sum := sum + lots[i].shares;
        }
      }
    }

    /** First in, first out: take released shares in place, and report how many were asked for and available. */
    method PopAvailable(shares: real, day: int) returns (taken: real)
      modifies this
      ensures taken == Min(shares, Available(old(lots), day))
      ensures lots == AfterPop(old(lots), taken, day, SOURCE_TOLERANCE)
    {
      var available := AvailableShares(day);
      taken := Min(shares, available);
      DrainLots(taken, day);
      SweepLots();
    }

    method DrainLots(taken: real, day: int)
      modifies this
      ensures lots == Drain(old(lots), taken, day, SOURCE_TOLERANCE.stop)
    {
      hide Drain, Min;
      var remaining := taken;
      ghost var start := lots;
      var i := 0;
      assert start[0..] == start && lots[..0] == [];
      while i < |lots| && remaining > 0.000000000001
        invariant 0 <= i <= |lots| == |start|
        invariant lots[i..] == start[i..]
        invariant lots[..i] + Drain(start[i..], remaining, day, SOURCE_TOLERANCE.stop)
               == Drain(start, taken, day, SOURCE_TOLERANCE.stop)
      {
        ghost var before := lots;
        assert start[i..][1..] == start[i + 1..] && start[i..][0] == lots[i];
        DrainSplits(start[i..], remaining, day, SOURCE_TOLERANCE.stop);
        if lots[i].availableDate <= day {
          var take := Min(lots[i].shares, remaining);
          lots := lots[i := lots[i].(shares := lots[i].shares - take)];
          remaining := remaining - take;
        }
        assert lots[..i + 1] == before[..i] + [lots[i]];
        i := i + 1;
      }
      DrainStops(start[i..], remaining, day, SOURCE_TOLERANCE.stop);
      assert lots == lots[..i] + lots[i..];
    }

    method SweepLots()
      modifies this
      ensures lots == Sweep(old(lots), SOURCE_TOLERANCE.drop)
    {
      var kept := [];
      for j := 0 to |lots|
        invariant kept + Sweep(lots[j..], SOURCE_TOLERANCE.drop) == Sweep(lots, SOURCE_TOLERANCE.drop)
        invariant lots == old(lots)
      {
        assert lots[j..][1..] == lots[j + 1..];
        if lots[j].shares > 0.000000001 {
          kept := kept + [lots[j]];
        }
      }
      lots := kept;
    }
  }

  // ---- What a pop does -------------------------------------------------------------

  ghost predicate AllAbove(lots: seq<Lot>, floor: real) {
    forall i :: 0 <= i < |lots| ==> lots[i].shares > floor
  }

  /** Lots are appended day by day, so their release dates never decrease. */
  ghost predicate Ordered(lots: seq<Lot>) {
    forall i, j :: 0 <= i < j < |lots| ==> lots[i].availableDate <= lots[j].availableDate
  }

  lemma {:induction false} TotalConcat(a: seq<Lot>, b: seq<Lot>)
    ensures Total(a + b) == Total(a) + Total(b)
  {
    if a == [] {
      assert a + b == b;
    } else {
      assert (a + b)[1..] == a[1..] + b;
      TotalConcat(a[1..], b);
    }
  }

  lemma {:induction false} AvailableConcat(a: seq<Lot>, b: seq<Lot>, day: int)
    ensures Available(a + b, day) == Available(a, day) + Available(b, day)
  {
    if a == [] {
      assert a + b == b;
    } else {
      assert (a + b)[1..] == a[1..] + b;
      AvailableConcat(a[1..], b, day);
    }
  }

  lemma {:induction false} AvailableBounds(lots: seq<Lot>, day: int)
    requires AllAbove(lots, 0.0)
    ensures 0.0 <= Available(lots, day) <= Total(lots)
  {
    if lots != [] {
      AvailableBounds(lots[1..], day);
    }
  }

  /** A request within the available amount is taken to within one stopping threshold, for every later horizon. */
  lemma {:induction false} DrainTakes(lots: seq<Lot>, s: real, day: int, stop: real, horizon: int)
    requires AllAbove(lots, 0.0) && 0.0 <= stop && 0.0 <= s <= Available(lots, day) && day <= horizon
    ensures Total(lots) - s <= Total(Drain(lots, s, day, stop)) <= Total(lots) - s + stop
    ensures Available(lots, horizon) - s <= Available(Drain(lots, s, day, stop), horizon)
         <= Available(lots, horizon) - s + stop
  {
    if lots != [] && s > stop {
      AvailableBounds(lots[1..], day);
      var take := if lots[0].availableDate > day then 0.0 else Min(lots[0].shares, s);
      DrainTakes(lots[1..], s - take, day, stop, horizon);
      var rest := Drain(lots[1..], s - take, day, stop);
      assert Drain(lots, s, day, stop)[1..] == rest;
    }
  }

  /** Shape of a drain: every lot is emptied, untouched, or is the single partly consumed one. */
  lemma {:induction false} DrainLeavesOnePartial(lots: seq<Lot>, s: real, day: int, stop: real, drop: real)
    requires AllAbove(lots, drop) && 0.0 <= stop && 0.0 <= drop
    ensures var swept := Sweep(Drain(lots, s, day, stop), drop);
            && Total(Drain(lots, s, day, stop)) - drop <= Total(swept) <= Total(Drain(lots, s, day, stop))
            && AllAbove(swept, drop)
            && (forall horizon :: Available(Drain(lots, s, day, stop), horizon) - drop <= Available(swept, horizon)
                                  <= Available(Drain(lots, s, day, stop), horizon))
  {
    if lots == [] {
    } else if s <= stop {
      SweepKeepsAll(lots, drop);
    } else {
      var take := if lots[0].availableDate > day then 0.0 else Min(lots[0].shares, s);
      var d := Drain(lots, s, day, stop);
      assert d[1..] == Drain(lots[1..], s - take, day, stop);
      if lots[0].availableDate <= day && s < lots[0].shares {
        assert s - take == 0.0;
        assert d[1..] == lots[1..];
        SweepKeepsAll(lots[1..], drop);
      } else {
        DrainLeavesOnePartial(lots[1..], s - take, day, stop, drop);
      }
      var rest := Sweep(d[1..], drop);
      var swept := Sweep(d, drop);
      assert swept == (if d[0].shares > drop then [d[0]] else []) + rest;
      if d[0].shares > drop {
        assert swept[1..] == rest;
      } else {
        assert swept == rest;
      }
    }
  }

  lemma {:induction false} SweepKeepsAll(lots: seq<Lot>, drop: real)
    requires AllAbove(lots, drop)
    ensures Sweep(lots, drop) == lots
  {
    if lots != [] {
      SweepKeepsAll(lots[1..], drop);
      assert lots == [lots[0]] + lots[1..];
    }
  }

  /** Release dates survive a pop: the kept lots keep their order and dates. */
  lemma {:induction false} PopKeepsOrder(lots: seq<Lot>, s: real, day: int, tol: Tolerance, last: int)
    requires Ordered(lots) && forall i :: 0 <= i < |lots| ==> lots[i].availableDate <= last
    ensures Ordered(AfterPop(lots, s, day, tol))
    ensures forall i :: 0 <= i < |AfterPop(lots, s, day, tol)| ==> AfterPop(lots, s, day, tol)[i].availableDate <= last
  {
    DrainKeepsDates(lots, s, day, tol.stop);
    SweepKeepsOrder(Drain(lots, s, day, tol.stop), tol.drop, last);
  }

  lemma {:induction false} DrainKeepsDates(lots: seq<Lot>, s: real, day: int, stop: real)
    ensures forall i :: 0 <= i < |lots| ==> Drain(lots, s, day, stop)[i].availableDate == lots[i].availableDate
  {
    if lots != [] && s > stop {
      var take := if lots[0].availableDate > day then 0.0 else Min(lots[0].shares, s);
      DrainKeepsDates(lots[1..], s - take, day, stop);
      assert Drain(lots, s, day, stop)[1..] == Drain(lots[1..], s - take, day, stop);
      forall i | 0 <= i < |lots| ensures Drain(lots, s, day, stop)[i].availableDate == lots[i].availableDate {
        if i > 0 {
          assert Drain(lots, s, day, stop)[i] == Drain(lots, s, day, stop)[1..][i - 1];
        }
      }
    }
  }

  lemma {:induction false} SweepKeepsOrder(lots: seq<Lot>, drop: real, last: int)
    requires Ordered(lots) && forall i :: 0 <= i < |lots| ==> lots[i].availableDate <= last
    ensures Ordered(Sweep(lots, drop))
    ensures forall i :: 0 <= i < |Sweep(lots, drop)| ==> Sweep(lots, drop)[i].availableDate <= last
    ensures lots != [] ==>
              forall i :: 0 <= i < |Sweep(lots, drop)| ==> lots[0].availableDate <= Sweep(lots, drop)[i].availableDate
  {
    if lots != [] {
      SweepKeepsOrder(lots[1..], drop, last);
      var rest := Sweep(lots[1..], drop);
      if rest != [] && |lots| > 1 {
        assert lots[0].availableDate <= lots[1].availableDate;
      }
    }
  }

  /** Per-pop accuracy: what leaves the book differs from the reported amount by at most the two thresholds. */
  lemma PopAccuracy(lots: seq<Lot>, s: real, day: int, tol: Tolerance, horizon: int)
    requires tol.Valid() && AllAbove(lots, tol.drop) && 0.0 <= s <= Available(lots, day) && day <= horizon
    ensures Total(lots) - s - tol.drop <= Total(AfterPop(lots, s, day, tol)) <= Total(lots) - s + tol.stop
    ensures Available(lots, horizon) - s - tol.drop <= Available(AfterPop(lots, s, day, tol), horizon)
         <= Available(lots, horizon) - s + tol.stop
    ensures AllAbove(AfterPop(lots, s, day, tol), tol.drop)
  {
    DrainTakes(lots, s, day, tol.stop, horizon);
    DrainLeavesOnePartial(lots, s, day, tol.stop, tol.drop);
  }
}
