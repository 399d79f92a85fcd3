/** A whole backtest that ends in debt: small trims each pay the minimum commission. */
module Overdraft {
  import opened Wrappers
  import opened Execution
  import opened WinRate
  import opened Ledger
  import opened LedgerLaws
  import opened Selection
  import opened Portfolio
  import opened PriceLimits
  import opened Backtest

  /** A share of the Beijing board: 30% either way. */
  const RULE := Rule(Beijing, Some(0.3), Some(0.3), true, BoardRule)

  const TICK := 0.01

  /** A traded name at one price all day, with the price limits its previous close gives. */
  function Day(price: real, prev: Option<real>): Quote {
    var upper := if prev.Some? then LimitUp(prev.value, RULE, TICK) else None;
    var lower := if prev.Some? then LimitDown(prev.value, RULE, TICK) else None;
    Quote(Some(1.0), Some(price), Some(1.0), Some(price), Some(price), Some(price), prev, Some(price), upper, lower)
  }

  /** Scored, traded at a price inside its limits. */
  predicate Ordinary(q: Quote, price: real) {
    && q.score.Some? && q.price == Some(price) && price > 0.0
    && Tradable(q, false) && BuyAllowed(q) && SellAllowed(q)
  }

  const NAMES := ["920001"]

  function Always(): Executor { (side: Side, i: nat, shares: real, price: real) => true }

  lemma OneTarget(q: Quote, price: real, held: set<nat>)
    requires Ordinary(q, price)
    ensures Targets([q], held, 1, false) == [0]
  {
    var panel := [q];
    assert Eligible(panel[0], false) && BuyAllowed(panel[0]);
    assert Ranking(panel, 0, false) == [];
    assert Ranking(panel, 1, false) == [0];
    assert Obtainable(panel, held, 0);
  }

  function Held(l: Account, price: real): real { Worth(HeldShares(l.books, 0), price) }

  function Goal(l: Account, price: real): real {
    (l.cash + (if HeldShares(l.books, 0) <= HELD_EPS then 0.0 else Held(l, price))) * 0.99
  }

  function Trimmed(l: Account, price: real, goal: real, t: int): Account
    requires price > 0.0 && WellFormed(l.trades)
  {
    if Held(l, price) - goal > MIN_TRADE_VALUE
    then Apply(l, NAMES, Order(Sell, 0, t, (Held(l, price) - goal) / price, price, true), SOURCE_TOLERANCE) else l
  }

  function Filled(l: Account, price: real, goal: real, t: int): Account
    requires price > 0.0 && WellFormed(l.trades)
  {
    if goal - Held(l, price) > MIN_TRADE_VALUE
    then Apply(l, NAMES, Order(Buy, 0, t, goal - Held(l, price), price, true), SOURCE_TOLERANCE) else l
  }

  ghost predicate OnlyName(l: Account) { WellFormed(l.trades) && forall i :: i in l.books ==> i == 0 }

  lemma HeldIsHolding(l: Account, q: Quote, price: real)
    requires Ordinary(q, price)
    ensures HoldingValue(l.books, [q], 0) == Held(l, price)
  {
    hide Worth, HeldShares;
  }

  lemma AllTheSame(keys: seq<nat>)
    requires forall i :: i in keys ==> i == 0
    ensures keys != [] ==> keys[0] == 0
    ensures |keys| > 1 ==> keys[0] == keys[1]
  {
    assert keys != [] ==> keys[0] in keys;
    assert |keys| > 1 ==> keys[1] in keys;
  }

  /** With one name there is nothing to exit. */
  lemma NoExits(l: Account, q: Quote, keys: seq<nat>)
    requires OnlyName(l) && Opens(keys, l.books)
    ensures Wanting(Exiting([0]), l.books, [q], false, keys) == []
    ensures Equity(l.books, [q], keys) ==
            if 0 !in l.books || HeldShares(l.books, 0) <= HELD_EPS then 0.0 else HoldingValue(l.books, [q], 0)
  {
    hide HoldingValue, HeldShares, Portfolio.CanSell;
    var panel := [q];
    AllTheSame(keys);
    if keys == [] {
      assert 0 !in l.books;
    } else {
      assert keys == [0] && keys[..0] == [];
      assert 0 in keys;
      assert Equity(l.books, panel, keys[..0]) == 0.0;
    }
  }

  /** The single order of a phase, or none. */
  lemma OneOrder(l: Account, r: Account, phase: Phase, panel: seq<Quote>, orders: seq<Order>, t: int)
    requires |panel| == 1 && Played(l, r, NAMES, orders, t, Always())
    requires Names(orders) == Wanting(phase, l.books, panel, false, [0])
    ensures if Wants(phase, l.books, panel, false, 0)
            then |orders| == 1 && orders[0].idx == 0 && orders[0].day == t && orders[0].price > 0.0
                 && r == Apply(l, NAMES, orders[0].(fills := true), SOURCE_TOLERANCE)
            else orders == [] && r == l
  {
    hide Wants, Apply;
    assert [0][..0] == [];
    NamesCount(orders);
    if Wants(phase, l.books, panel, false, 0) {
      assert Wanting(phase, l.books, panel, false, [0]) == [0];
      assert orders[..0] == [];
      assert Names(orders) == [orders[0].idx];
      assert ApplyAll(l, NAMES, orders[..0], SOURCE_TOLERANCE) == l;
      assert Answered(l, orders[0], Always());
      AnswerFills(l, orders[0]);
    } else {
      assert Wanting(phase, l.books, panel, false, [0]) == [];
    }
  }

  /** The callback always agrees; where it was not asked the order changes nothing. */
  lemma AnswerFills(l: Account, o: Order)
    requires o.idx == 0 && o.price > 0.0 && WellFormed(l.trades) && Answered(l, o, Always())
    ensures Apply(l, NAMES, o.(fills := true), SOURCE_TOLERANCE) == Apply(l, NAMES, o, SOURCE_TOLERANCE)
  {
  }

  lemma {:induction false} NamesCount(orders: seq<Order>)
    ensures |Names(orders)| == |orders|
  {
    if orders != [] {
      NamesCount(orders[..|orders| - 1]);
    }
  }

  /** One rebalance of a single name: trim it to its share, or fill it up. */
  lemma OneNameDay(l: Account, r: Account, keys: seq<nat>, q: Quote, price: real, t: int, plan: Plan)
    requires Ordinary(q, price) && OnlyName(l) && Opens(keys, l.books)
    requires Rebalanced(l, r, keys, [q], NAMES, 1, false, t, Always(), plan)
    ensures plan.goal == Goal(l, price)
    ensures WellFormed(plan.low.trades) && plan.low == Trimmed(l, price, plan.goal, t)
    ensures r == Filled(plan.low, price, plan.goal, t)
  {
    hide Targets, Played, Wanting, Names, Apply, HeldShares, Worth, HoldingValue, Equity;
    var panel := [q];
    OneTarget(q, price, HeldIn(l.books));
    NoExits(l, q, keys);
    NothingPlayed(l, plan.mid, plan.exits, t);
    HeldIsHolding(l, q, price);
    EmptyHolding(l, price);
    OneOrder(l, plan.low, Trimming(plan.goal), panel, plan.trims, t);
    PlayedIsWellFormed(plan.low, r, plan.buys, t);
    HeldIsHolding(plan.low, q, price);
    OneOrder(plan.low, r, Buying(plan.goal), panel, plan.buys, t);
    if plan.trims != [] {
      assert IsTrim(l.books, panel, plan.goal, plan.trims[0]);
    }
    if plan.buys != [] {
      assert IsBuy(plan.low.books, panel, plan.goal, plan.buys[0]);
    }
  }

  lemma NothingPlayed(l: Account, r: Account, orders: seq<Order>, t: int)
    requires Played(l, r, NAMES, orders, t, Always()) && Names(orders) == []
    ensures r == l
  {
    hide Apply;
    NamesCount(orders);
  }

  lemma PlayedIsWellFormed(l: Account, r: Account, orders: seq<Order>, t: int)
    requires Played(l, r, NAMES, orders, t, Always())
    ensures WellFormed(l.trades)
  {
  }

  lemma EmptyHolding(l: Account, price: real)
    ensures 0 !in l.books ==> HeldShares(l.books, 0) == 0.0
  {
  }

  // ---- Three rebalances -------------------------------------------------------------------------

  /** 310 yuan buy one lot at 3 and leave 4.70. */
  lemma FirstDay(l: Account)
    requires l == Account(310.0, map[], [])
    ensures var r := Filled(Trimmed(l, 3.0, Goal(l, 3.0), 0), 3.0, Goal(l, 3.0), 0);
            OnlyName(r) && r.cash == 4.7 && r.books == map[0 := [Lot(100.0, 1)]]
  {
    assert HeldShares(l.books, 0) == 0.0;
    assert Goal(l, 3.0) == 306.9 && Trimmed(l, 3.0, 306.9, 0) == l;
    assert PlanBuy(310.0, 306.9, 3.0) == Some(Fill(100.0, 300.0, 5.3)) by { FirstPlan(); }
    assert [] + [Lot(100.0, 1)] == [Lot(100.0, 1)];
  }

  lemma FirstPlan()
    ensures PlanBuy(310.0, 306.9, 3.0) == Some(Fill(100.0, 300.0, 5.3))
  {
    assert CostOf(306.9, Buy) == 5.3069;
    assert Shrink(310.0, 306.9) == 304.6931;
    assert CostOf(304.6931, Buy) == 5.3046931;
    assert Shrink(310.0, 304.6931) == 304.6931;
    assert RoundBuyShares(304.6931 / 3.0) == 100.0;
    assert CostOf(300.0, Buy) == 5.3;
  }

  /** One lot in the book; `shares` of it are sold. */
  lemma Trim(l: Account, price: real, goal: real, t: int, shares: real, sold: real)
    requires price > 0.0 && WellFormed(l.trades) && l.books == map[0 := [Lot(shares, 1)]] && t >= 1
    requires Worth(shares, price) - goal > MIN_TRADE_VALUE
    requires sold == (Worth(shares, price) - goal) / price
    requires 0.000000000001 < sold && sold + 0.000000001 < shares
    ensures var r := Trimmed(l, price, goal, t);
            var value := Worth(shares, price) - goal;
            && r.books == map[0 := [Lot(shares - sold, 1)]]
            && WellFormed(r.trades) && r.cash == l.cash + value - CostOf(value, Sell)
  {
    hide Worth, CostOf;
    var lots := [Lot(shares, 1)];
    LotOnly(shares, t);
    WorthOf(Worth(shares, price) - goal, price);
    LotSold(shares, sold, t);
    hide Total, Available, AfterPop;
    assert HeldShares(l.books, 0) == shares;
  }

  lemma LotOnly(shares: real, t: int)
    requires t >= 1
    ensures Total([Lot(shares, 1)]) == Available([Lot(shares, 1)], t) == shares
  {
    assert [Lot(shares, 1)][1..] == [];
    assert Available([], t) == 0.0 && Total([]) == 0.0;
  }

  lemma LotSold(shares: real, sold: real, t: int)
    requires t >= 1 && 0.000000000001 < sold && sold + 0.000000001 < shares
    ensures AfterPop([Lot(shares, 1)], sold, t, SOURCE_TOLERANCE) == [Lot(shares - sold, 1)]
  {
    var lots, left := [Lot(shares, 1)], [Lot(shares - sold, 1)];
    assert lots[1..] == [] && left[1..] == [];
    assert Drain([], 0.0, t, SOURCE_TOLERANCE.stop) == [] && Sweep([], SOURCE_TOLERANCE.drop) == [];
    assert Drain(lots, sold, t, SOURCE_TOLERANCE.stop) == left;
    assert Sweep(left, SOURCE_TOLERANCE.drop) == left;
  }

  lemma OneLot(l: Account, shares: real, price: real)
    requires l.books == map[0 := [Lot(shares, 1)]]
    ensures HeldShares(l.books, 0) == shares && Held(l, price) == Worth(shares, price)
  {
    hide Worth;
    LotOnly(shares, 1);
    hide Total;
  }

  /** At 6 the lot is 1.347 yuan over its share: the trim costs 5.002. */
  lemma SecondDay(l: Account)
    requires WellFormed(l.trades) && l.cash == 4.7 && l.books == map[0 := [Lot(100.0, 1)]]
    ensures var r := Filled(Trimmed(l, 6.0, Goal(l, 6.0), 3), 6.0, Goal(l, 6.0), 3);
            OnlyName(r) && r.cash == 1.0449795 && r.books == map[0 := [Lot(99.7755, 1)]]
  {
    hide Trimmed, HeldShares, Held;
    OneLot(l, 100.0, 6.0);
    assert Goal(l, 6.0) == 598.653;
    Trim(l, 6.0, 598.653, 3, 100.0, 0.2245);
    var low := Trimmed(l, 6.0, 598.653, 3);
    OneLot(low, 99.7755, 6.0);
    assert CostOf(1.347, Sell) == 5.0020205;
    assert Filled(low, 6.0, 598.653, 3) == low;
  }

  /** At 3.3 the next trim is worth 2.26 yuan and costs more than twice that. */
  lemma ThirdDay(l: Account)
    requires WellFormed(l.trades) && l.cash == 1.0449795 && l.books == map[0 := [Lot(99.7755, 1)]]
    ensures Filled(Trimmed(l, 3.3, Goal(l, 3.3), 5), 3.3, Goal(l, 3.3), 5).cash < -1.7
  {
    hide Trimmed, HeldShares, Held;
    OneLot(l, 99.7755, 3.3);
    var goal := Goal(l, 3.3);
    assert goal == 327.001088205;
    var sold := (329.25915 - goal) / 3.3;
    Trim(l, 3.3, goal, 5, 99.7755, sold);
    var low := Trimmed(l, 3.3, goal, 5);
    OneLot(low, 99.7755 - sold, 3.3);
    assert sold * 3.3 == 329.25915 - goal;
    assert Held(low, 3.3) == goal;
    assert CostOf(2.258061795, Sell) == 5.0033870926925;
    assert Filled(low, 3.3, goal, 5) == low;
  }

  /** A rebalancing day's keys and plan. */
  lemma DayIs(l: Account, r: Account, q: Quote, price: real, t: int)
    requires Ordinary(q, price) && OnlyName(l)
    requires DayStep(l, r, [q], NAMES, Always(), true, 1, false, t)
    ensures WellFormed(Trimmed(l, price, Goal(l, price), t).trades)
    ensures r == Filled(Trimmed(l, price, Goal(l, price), t), price, Goal(l, price), t)
  {
    hide Rebalanced, Trimmed, Filled, Goal, Ordinary;
    var keys, plan :| Opens(keys, l.books) && Rebalanced(l, r, keys, [q], NAMES, 1, false, t, Always(), plan);
    OneNameDay(l, r, keys, q, price, t, plan);
  }

  /** The prices of six days; rebalances on the first, fourth and sixth. */
  const PRICES := [3.0, 3.8, 4.9, 6.0, 4.3, 3.3]

  const MASK := [true, false, false, true, false, true]

  function Panel(t: nat): Quote
    requires t < 6
  {
    Day(PRICES[t], if t == 0 then None else Some(PRICES[t - 1]))
  }

  function Panels(): seq<seq<Quote>> {
    [[Panel(0)], [Panel(1)], [Panel(2)], [Panel(3)], [Panel(4)], [Panel(5)]]
  }

  /** Every day trades within the limits of the previous close. */
  lemma PanelKeepsLimits(t: nat)
    requires t < 6
    ensures Ordinary(Panel(t), PRICES[t])
    ensures t > 0 ==>
              LimitDown(PRICES[t - 1], RULE, TICK).value <= PRICES[t] <= LimitUp(PRICES[t - 1], RULE, TICK).value
  {
    LimitsNear(3.0, 3.9, 2.1);
    LimitsNear(3.8, 4.94, 2.66);
    LimitsNear(4.9, 6.37, 3.43);
    LimitsNear(6.0, 7.8, 4.2);
    LimitsNear(4.3, 5.59, 3.01);
  }

  lemma LimitsNear(prev: real, up: real, down: real)
    requires prev > 0.0 && up == prev * 1.3 && down == prev * 0.7
    ensures up - 0.005 <= LimitUp(prev, RULE, TICK).value <= up + 0.005
    ensures down - 0.005 <= LimitDown(prev, RULE, TICK).value <= down + 0.005
  {
    RoundingIsNearest(up, TICK, 0);
    RoundingIsNearest(down, TICK, 0);
    hide RoundToTick;
  }

  /**
   * 310 yuan, one name, rebalances at 3, 6 and 3.3 with ordinary days in between: the backtest ends 1.70 yuan in debt.
   */
  method CashCanGoNegative() returns (state: PortfolioState?)
    ensures state != null && state.cash < -1.7
  {
    hide DayStep, Trimmed, Filled, Goal, Backtest.Lawful, Run, Panel, Ordinary;
    var execute: Executor := Always();
    ghost var orders, h;
    state, orders, h := RunTopKBacktest(
      NAMES, Panels(), [execute, execute, execute, execute, execute, execute], Some(MASK), 1, None, false, 310.0);
    assert TopK(None, 1) == 1;
    assert forall t :: 0 <= t < 6 ==>
             DayStep(h[t], h[t + 1], Panels()[t], NAMES, execute, MASK[t], 1, false, t);
    PanelKeepsLimits(0);
    PanelKeepsLimits(3);
    PanelKeepsLimits(5);
    DayIs(h[0], h[0 + 1], Panel(0), 3.0, 0);
    FirstDay(h[0]);
    QuietAre(h[1], h[1 + 1], h[2 + 1], Panels()[1], Panels()[2], execute);
    DayIs(h[3], h[3 + 1], Panel(3), 6.0, 3);
    SecondDay(h[3]);
    QuietIs(h[4], h[4 + 1], Panels()[4], execute, 4);
    DayIs(h[5], h[5 + 1], Panel(5), 3.3, 5);
    ThirdDay(h[5]);
  }

  lemma QuietIs(l: Account, r: Account, panel: seq<Quote>, execute: Executor, t: int)
    requires DayStep(l, r, panel, NAMES, execute, false, 1, false, t)
    ensures r == l
  {
  }

  lemma QuietAre(l: Account, m: Account, r: Account, panel: seq<Quote>, next: seq<Quote>, execute: Executor)
    requires DayStep(l, m, panel, NAMES, execute, false, 1, false, 1)
    requires DayStep(m, r, next, NAMES, execute, false, 1, false, 2)
    ensures r == l
  {
  }
}
