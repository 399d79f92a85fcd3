/** The day loop of the top-k backtest, and what the run laws say about every account it produces. */
module Backtest {
  import opened Wrappers
  import opened Execution
  import opened WinRate
  import opened Ledger
  import opened LedgerLaws
  import opened Selection
  import opened Portfolio

  /** Rebalancing days: the explicit mask if there is one, otherwise every `interval` days. */
  predicate IsRebalanceDay(mask: Option<seq<bool>>, interval: int, t: nat)
    requires mask.Some? ==> t < |mask.value|
  {
    if mask.Some? then mask.value[t] else t % (if interval < 1 then 1 else interval) == 0
  }

  function TopK(topK: Option<int>, symbols: nat): nat {
    var wanted := if topK.Some? then topK.value else if symbols / 100 > 5 then symbols / 100 else 5;
    var capped := if wanted < symbols then wanted else symbols;
    if capped < 1 then 1 else capped
  }

  /** Everything the run laws promise about one account; laws per symbol need each symbol to be one name. */
  ghost predicate Lawful(cash: real, l: Account, symbols: seq<string>)
    requires WellFormed(l.trades)
  {
    && l.cash == cash + CashFlow(l.trades)
    && (0.0 <= cash ==> l.cash >= -CASH_SLACK - Times(LosingSales(l.trades), COMMISSION_MIN))
    && (Distinct(symbols) ==>
          && (forall i: nat, t :: i < |symbols| ==> SoldWithinBought(l.trades, symbols[i], SOURCE_TOLERANCE, t))
          && (forall i: nat :: i < |symbols| ==>
                && WithinDust(BookOf(l.books, i), l.trades, symbols[i], SOURCE_TOLERANCE, MATCH_EPS)
                && MatchedWithinDust(l.trades, symbols[i], SOURCE_TOLERANCE, MATCH_EPS)))
  }

  lemma RunsAreLawful(cash: real, symbols: seq<string>, orders: seq<Order>)
    requires Legal(symbols, orders) && Chronological(orders)
    ensures Lawful(cash, Run(cash, symbols, orders, SOURCE_TOLERANCE), symbols)
  {
    hide Run, SoldWithinBought, WithinDust, MatchedWithinDust, Legal, Chronological, Distinct, LosingSales, CashFlow;
    var l := Run(cash, symbols, orders, SOURCE_TOLERANCE);
    CashLedger(cash, symbols, orders, SOURCE_TOLERANCE);
    if Distinct(symbols) {
      forall i: nat, t | i < |symbols| ensures SoldWithinBought(l.trades, symbols[i], SOURCE_TOLERANCE, t) {
        SellsNeverOutrunEarlierBuys(cash, symbols, orders, SOURCE_TOLERANCE, i, t);
      }
      forall i: nat | i < |symbols|
        ensures WithinDust(BookOf(l.books, i), l.trades, symbols[i], SOURCE_TOLERANCE, MATCH_EPS)
        ensures MatchedWithinDust(l.trades, symbols[i], SOURCE_TOLERANCE, MATCH_EPS)
      {
        FifosWithinDust(cash, symbols, orders, SOURCE_TOLERANCE, MATCH_EPS, i);
      }
    }
  }

  /** Orders of one day after all earlier ones keep the run chronological. */
  lemma NextDay(start: Account, l: Account, r: Account, symbols: seq<string>, past: seq<Order>, today: seq<Order>,
                t: int, execute: Executor)
    requires WellFormed(start.trades) && Legal(symbols, past) && Chronological(past) && By(past, t - 1)
    requires l == ApplyAll(start, symbols, past, SOURCE_TOLERANCE) && Played(l, r, symbols, today, t, execute)
    ensures Legal(symbols, past + today) && Chronological(past + today) && By(past + today, t)
    ensures r == ApplyAll(start, symbols, past + today, SOURCE_TOLERANCE)
  {
    hide Apply, ApplyAll, Answered, AllAnswered, WellFormed, Chronological, Legal, By;
    AllToday(l, symbols, today, t, execute);
    ApplyAllConcat(start, symbols, past, today, SOURCE_TOLERANCE);
    JoinDays(past, today, t);
  }

  lemma JoinDays(past: seq<Order>, today: seq<Order>, t: int)
    requires Chronological(past) && By(past, t - 1) && forall k :: 0 <= k < |today| ==> today[k].day == t
    ensures Chronological(past + today) && By(past + today, t)
  {
    var all := past + today;
    forall k | 0 <= k < |all| ensures all[k].day == if k < |past| then past[k].day else t {
    }
  }

  lemma {:induction false} AllToday(l: Account, symbols: seq<string>, orders: seq<Order>, t: int, execute: Executor)
    requires Legal(symbols, orders) && WellFormed(l.trades) && AllAnswered(l, symbols, orders, t, execute)
    ensures forall k :: 0 <= k < |orders| ==> orders[k].day == t
  {
    if orders != [] {
      AllToday(l, symbols, orders[..|orders| - 1], t, execute);
    }
  }

  /** What a day does to the account: one rebalance over the books in opening order, or nothing. */
  ghost predicate DayStep(l: Account, r: Account, panel: seq<Quote>, symbols: seq<string>, execute: Executor,
                          rebalances: bool, topK: nat, limitOrder: bool, t: int) {
    if rebalances
    then exists keys, plan ::
           && Opens(keys, l.books)
           && Rebalanced(l, r, keys, panel, symbols, topK, limitOrder, t, execute, plan)
    else r == l
  }

  ghost predicate Opens(keys: seq<nat>, books: map<nat, seq<Lot>>) {
    NoDup(keys) && forall i :: i in keys <==> i in books
  }

  lemma Rebalances(l: Account, r: Account, panel: seq<Quote>, symbols: seq<string>, execute: Executor,
                   topK: nat, limitOrder: bool, t: int, keys: seq<nat>, plan: Plan)
    requires Opens(keys, l.books) && Rebalanced(l, r, keys, panel, symbols, topK, limitOrder, t, execute, plan)
    ensures DayStep(l, r, panel, symbols, execute, true, topK, limitOrder, t)
  {
    hide Opens, Rebalanced;
  }

  lemma QuietDay(l: Account, panel: seq<Quote>, symbols: seq<string>, execute: Executor, topK: nat, limitOrder: bool,
                 t: int)
    ensures DayStep(l, l, panel, symbols, execute, false, topK, limitOrder, t)
  {
  }

  /** The accounts before each day and after the last one. */
  ghost predicate IsHistory(history: seq<Account>, days: nat, panels: seq<seq<Quote>>, symbols: seq<string>,
                            executors: seq<Executor>, mask: Option<seq<bool>>, interval: int, topK: nat,
                            limitOrder: bool)
    requires days <= |panels| == |executors| && (mask.Some? ==> |mask.value| == |panels|)
  {
    && |history| == days + 1
    && forall t :: 0 <= t < days ==>
         DayStep(history[t], history[t + 1], panels[t], symbols, executors[t], IsRebalanceDay(mask, interval, t), topK,
                 limitOrder, t)
  }

  /** Run the panel; a mask of the wrong length is refused. */
  method RunTopKBacktest(symbols: seq<string>, panels: seq<seq<Quote>>, executors: seq<Executor>,
                         mask: Option<seq<bool>>, interval: int, topK: Option<int>, limitOrder: bool, initialCash: real)
    returns (state: PortfolioState?, ghost orders: seq<Order>, ghost history: seq<Account>)
    requires |executors| == |panels|
    requires forall t :: 0 <= t < |panels| ==> |panels[t]| == |symbols|
    ensures state == null <==> mask.Some? && |mask.value| != |panels|
    ensures state != null ==>
              && fresh(state) && state.Valid() && Legal(symbols, orders) && Chronological(orders)
              && state.View() == Run(initialCash, symbols, orders, SOURCE_TOLERANCE)
              && Lawful(initialCash, state.View(), symbols)
              && IsHistory(history, |panels|, panels, symbols, executors, mask, interval, TopK(topK, |symbols|),
                           limitOrder)
              && history[0] == Account(initialCash, map[], []) && history[|panels|] == state.View()
              && (forall k :: 0 <= k < |orders| ==>
                    0 <= orders[k].day < |panels| && IsRebalanceDay(mask, interval, orders[k].day))
  {
    hide ApplyAll, Played, Rebalanced, Lawful, WellFormed, Distinct, TradedValue, Chronological, DayStep, TopK;
    orders := [];
    if mask.Some? && |mask.value| != |panels| {
      return null, [], [];
    }
    var s := new PortfolioState(initialCash);
    state := s;
    ghost var start := s.View();
    NoOrders(start, symbols);
    history := [start];
    for t := 0 to |panels|
      invariant fresh(s) && s.Valid() && fresh(s.books.Values) && forall i :: i in s.books ==> i < |symbols|
      invariant Legal(symbols, orders) && Chronological(orders) && By(orders, t - 1)
      invariant s.View() == ApplyAll(start, symbols, orders, SOURCE_TOLERANCE)
      invariant IsHistory(history, t, panels, symbols, executors, mask, interval, TopK(topK, |symbols|), limitOrder)
      invariant history[0] == start && history[t] == s.View()
      invariant forall k :: 0 <= k < |orders| ==>
                  0 <= orders[k].day < |panels| && IsRebalanceDay(mask, interval, orders[k].day)
    {
      if IsRebalanceDay(mask, interval, t) {
        ghost var before, keys := s.View(), s.keys;
        var traded;
        ghost var today, plan;
        traded, today, plan := s.Rebalance(t, panels[t], symbols, executors[t], TopK(topK, |symbols|), limitOrder);
        NextDay(start, before, s.View(), symbols, orders, today, t, executors[t]);
        TodayOnly(before, s.View(), symbols, today, t, executors[t]);
        Rebalances(before, s.View(), panels[t], symbols, executors[t], TopK(topK, |symbols|), limitOrder, t, keys,
                   plan);
        orders := orders + today;
      } else {
        QuietDay(s.View(), panels[t], symbols, executors[t], TopK(topK, |symbols|), limitOrder, t);
      }
      history := history + [s.View()];
    }
    RunsAreLawful(initialCash, symbols, orders);
  }

  lemma NoOrders(l: Account, symbols: seq<string>)
    requires WellFormed(l.trades)
    ensures ApplyAll(l, symbols, [], SOURCE_TOLERANCE) == l && Chronological([])
  {
  }

  lemma TodayOnly(l: Account, r: Account, symbols: seq<string>, orders: seq<Order>, t: int, execute: Executor)
    requires Played(l, r, symbols, orders, t, execute)
    ensures forall k :: 0 <= k < |orders| ==> orders[k].day == t
  {
    AllToday(l, symbols, orders, t, execute);
  }
}
