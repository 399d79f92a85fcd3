/** Trading at the marking price moves money between cash and holdings: net worth falls by the trading costs alone. */
module SelfFinancing {
  import opened Wrappers
  import opened Execution
  import opened WinRate
  import opened Ledger
  import opened LedgerLaws
  import opened Selection
  import opened Portfolio
  import opened Backtest

  /** Value of the first `n` holdings at given prices. */
  function Value(books: map<nat, seq<Lot>>, prices: seq<real>, n: nat): real
    requires n <= |prices|
  {
    if n == 0 then 0.0 else Value(books, prices, n - 1) + Worth(HeldShares(books, n - 1), prices[n - 1])
  }

  function NetWorth(l: Account, prices: seq<real>): real { l.cash + Value(l.books, prices, |prices|) }

  function Costs(trades: seq<Trade>): real {
    if trades == [] then 0.0 else Costs(trades[..|trades| - 1]) + trades[|trades| - 1].cost
  }

  /** One share threshold per sale, at the price of the sale. */
  function Dust(trades: seq<Trade>, unit: real): real {
    if trades == [] then 0.0
    else
      var last := trades[|trades| - 1];
      Dust(trades[..|trades| - 1], unit) + (if last.side.Sell? then Worth(unit, last.price) else 0.0)
  }

  /** Net worth plus the costs paid so far; every sale may lose `drop` shares of dust, or gain `stop` shares. */
  function Floor(l: Account, prices: seq<real>, tol: Tolerance): real {
    NetWorth(l, prices) + Costs(l.trades) + Dust(l.trades, tol.drop)
  }

  function Ceiling(l: Account, prices: seq<real>, tol: Tolerance): real {
    NetWorth(l, prices) + Costs(l.trades) - Dust(l.trades, tol.stop)
  }

  ghost predicate Sound(books: map<nat, seq<Lot>>, drop: real) {
    forall i: nat :: AllAbove(BookOf(books, i), drop)
  }

  predicate AtPrices(orders: seq<Order>, prices: seq<real>) {
    forall k :: 0 <= k < |orders| ==> orders[k].idx < |prices| && orders[k].price == prices[orders[k].idx]
  }

  /** Changing one holding changes the value by that holding's worth. */
  lemma {:induction false} OneHoldingMoves(before: map<nat, seq<Lot>>, after: map<nat, seq<Lot>>, prices: seq<real>,
                                           n: nat, i: nat)
    requires n <= |prices| && i < |prices|
    requires forall j: nat :: j != i ==> BookOf(after, j) == BookOf(before, j)
    ensures Value(after, prices, n) - Value(before, prices, n) ==
            if i < n then Worth(HeldShares(after, i), prices[i]) - Worth(HeldShares(before, i), prices[i]) else 0.0
  {
    hide Worth;
    if n > 0 {
      OneHoldingMoves(before, after, prices, n - 1, i);
    }
  }

  lemma LogGrows(trades: seq<Trade>, trade: Trade, unit: real)
    ensures Costs(trades + [trade]) == Costs(trades) + trade.cost
    ensures Dust(trades + [trade], unit) ==
              Dust(trades, unit) + if trade.side.Sell? then Worth(unit, trade.price) else 0.0
  {
    hide Worth;
    assert (trades + [trade])[..|trades|] == trades;
  }

  /** What one executed trade does to its own holding. */
  lemma TradedHolding(book: seq<Lot>, after: seq<Lot>, trade: Trade, tol: Tolerance)
    requires tol.Valid() && tol.drop < 100.0 && AllAbove(book, tol.drop) && trade.price > 0.0 && trade.shares > 0.0
    requires trade.side.Sell? ==>
               trade.shares <= Available(book, trade.day) && after == AfterPop(book, trade.shares, trade.day, tol)
    requires trade.side.Buy? ==> trade.shares >= 100.0 && after == book + [Lot(trade.shares, trade.day + 1)]
    ensures AllAbove(after, tol.drop)
    ensures var change := Worth(Total(after), trade.price) - Worth(Total(book), trade.price);
            if trade.side.Buy? then change == Worth(trade.shares, trade.price)
            else 0.0 - Worth(trade.shares, trade.price) - Worth(tol.drop, trade.price) <= change
                 <= Worth(tol.stop, trade.price) - Worth(trade.shares, trade.price)
  {
    hide Worth, AfterPop, Available;
    if trade.side.Sell? {
      PopAccuracy(book, trade.shares, trade.day, tol, trade.day);
      WorthAdds(Total(after), trade.shares + tol.drop, trade.price);
      WorthAdds(trade.shares, tol.drop, trade.price);
      WorthAdds(Total(book), tol.stop, trade.price);
      WorthAdds(Total(after), trade.shares, trade.price);
      Scale(Total(book), Total(after) + (trade.shares + tol.drop), trade.price);
      Scale(Total(after) + trade.shares, Total(book) + tol.stop, trade.price);
    } else {
      TotalConcat(book, [Lot(trade.shares, trade.day + 1)]);
      SingleLot(Lot(trade.shares, trade.day + 1));
      WorthAdds(Total(book), trade.shares, trade.price);
    }
  }

  lemma OrderIsFinanced(l: Account, symbols: seq<string>, o: Order, prices: seq<real>, tol: Tolerance)
    requires o.idx < |symbols| == |prices| && o.price == prices[o.idx] > 0.0 && WellFormed(l.trades)
    requires tol.Valid() && tol.drop < 100.0 && Sound(l.books, tol.drop)
    ensures var r := Apply(l, symbols, o, tol);
            && Sound(r.books, tol.drop)
            && Floor(l, prices, tol) <= Floor(r, prices, tol) && Ceiling(r, prices, tol) <= Ceiling(l, prices, tol)
  {
    hide Apply, TradeOf, Worth, AfterPop, CostOf, AllAbove, Value, Costs, Dust, Available;
    var r, i := Apply(l, symbols, o, tol), o.idx;
    OrderIsAtomic(l, symbols, o, tol);
    if r != l {
      var trade := TradeOf(l, symbols[i], o);
      TradedHolding(BookOf(l.books, i), BookOf(r.books, i), trade, tol);
      OneHoldingMoves(l.books, r.books, prices, |prices|, i);
      LogGrows(l.trades, trade, tol.drop);
      LogGrows(l.trades, trade, tol.stop);
    }
  }

  /**
   * Any orders at the marking prices: net worth falls by exactly the costs, up to the thresholds of the sales.
   */
  lemma {:induction false} OrdersAreFinanced(l: Account, symbols: seq<string>, orders: seq<Order>, prices: seq<real>,
                                             tol: Tolerance)
    requires |symbols| == |prices| && Legal(symbols, orders) && AtPrices(orders, prices) && WellFormed(l.trades)
    requires tol.Valid() && tol.drop < 100.0 && Sound(l.books, tol.drop)
    ensures var r := ApplyAll(l, symbols, orders, tol);
            && Sound(r.books, tol.drop)
            && Floor(l, prices, tol) <= Floor(r, prices, tol) && Ceiling(r, prices, tol) <= Ceiling(l, prices, tol)
  {
    hide Floor, Ceiling, Sound, Apply;
    if orders != [] {
      var n := |orders| - 1;
      OrdersAreFinanced(l, symbols, orders[..n], prices, tol);
      OrderIsFinanced(ApplyAll(l, symbols, orders[..n], tol), symbols, orders[n], prices, tol);
    }
  }

  lemma {:induction false} NoDust(trades: seq<Trade>)
    ensures Dust(trades, 0.0) == 0.0
  {
    if trades != [] {
      NoDust(trades[..|trades| - 1]);
      NothingIsWorthless(trades[|trades| - 1].price);
    }
  }

  lemma NothingIsWorthless(price: real)
    ensures Worth(0.0, price) == 0.0
  {
  }

  /** With exact thresholds net worth plus costs never moves. */
  lemma ExactOrdersCostOnly(l: Account, symbols: seq<string>, orders: seq<Order>, prices: seq<real>)
    requires |symbols| == |prices| && Legal(symbols, orders) && AtPrices(orders, prices) && WellFormed(l.trades)
    requires Sound(l.books, 0.0)
    ensures var r := ApplyAll(l, symbols, orders, EXACT);
            NetWorth(r, prices) + Costs(r.trades) == NetWorth(l, prices) + Costs(l.trades)
  {
    hide ApplyAll, NetWorth, Costs, Dust, Sound;
    OrdersAreFinanced(l, symbols, orders, prices, EXACT);
    NoDust(l.trades);
    NoDust(ApplyAll(l, symbols, orders, EXACT).trades);
  }

  // ---- One rebalance ----------------------------------------------------------------------

  function Marks(panel: seq<Quote>): seq<real> { seq(|panel|, i requires 0 <= i < |panel| => MarkOf(panel[i])) }

  /** Every order of a rebalance is placed at the price its holding is marked at. */
  lemma RebalanceTradesAtMarks(l: Account, r: Account, keys: seq<nat>, panel: seq<Quote>, symbols: seq<string>,
                               topK: nat,
                               limitOrder: bool, t: int, execute: Executor, p: Plan)
    requires Rebalanced(l, r, keys, panel, symbols, topK, limitOrder, t, execute, p) && |panel| == |symbols|
    requires Legal(symbols, p.exits + p.trims + p.buys)
    ensures AtPrices(p.exits + p.trims + p.buys, Marks(panel))
  {
    hide Targets, Played, Wanting, HoldingValue, HeldShares, Equity;
    var orders := p.exits + p.trims + p.buys;
    forall k | 0 <= k < |orders| ensures orders[k].idx < |panel| &&
      panel[orders[k].idx].price == Some(orders[k].price) {
      if k < |p.exits| {
        assert IsExit(l.books, panel, p.exits[k]);
      } else if k < |p.exits| + |p.trims| {
        assert IsTrim(p.mid.books, panel, p.goal, p.trims[k - |p.exits|]);
      } else {
        assert IsBuy(p.low.books, panel, p.goal, p.buys[k - |p.exits| - |p.trims|]);
      }
    }
  }

  /** The phases of a rebalance play one after the other. */
  lemma RebalanceIsPlayed(l: Account, r: Account, keys: seq<nat>, panel: seq<Quote>, symbols: seq<string>, topK: nat,
                          limitOrder: bool, t: int, execute: Executor, p: Plan)
    requires Rebalanced(l, r, keys, panel, symbols, topK, limitOrder, t, execute, p)
    ensures Played(l, r, symbols, p.exits + p.trims + p.buys, t, execute)
  {
    hide Targets, Played, Reweighted, Wanting;
    if p.targets == [] {
      assert p.exits + p.trims + p.buys == p.exits;
    } else {
      ReweightedJoins(l, p.mid, r, keys, panel, symbols, limitOrder, t, execute, p.targets, p.exits, p.goal, p.trims,
                      p.low, p.buys);
    }
  }

  /** Net worth at the given marks falls by the costs paid, up to the thresholds of the sales. */
  ghost predicate Financed(l: Account, r: Account, prices: seq<real>, tol: Tolerance) {
    && Sound(r.books, tol.drop)
    && Floor(l, prices, tol) <= Floor(r, prices, tol) && Ceiling(r, prices, tol) <= Ceiling(l, prices, tol)
  }

  /** A whole rebalance is self-financing: at its own marks it costs its commissions, taxes and slippage, and dust. */
  lemma RebalanceIsSelfFinancing(l: Account, r: Account, keys: seq<nat>, panel: seq<Quote>, symbols: seq<string>,
                                 topK: nat, limitOrder: bool, t: int, execute: Executor, p: Plan)
    requires Rebalanced(l, r, keys, panel, symbols, topK, limitOrder, t, execute, p) && |panel| == |symbols|
    requires Sound(l.books, SOURCE_TOLERANCE.drop)
    ensures Financed(l, r, Marks(panel), SOURCE_TOLERANCE)
  {
    hide Floor, Ceiling, Sound, ApplyAll, Rebalanced, MarkOf;
    RebalanceIsPlayed(l, r, keys, panel, symbols, topK, limitOrder, t, execute, p);
    RebalanceTradesAtMarks(l, r, keys, panel, symbols, topK, limitOrder, t, execute, p);
    OrdersAreFinanced(l, symbols, p.exits + p.trims + p.buys, Marks(panel), SOURCE_TOLERANCE);
  }

  lemma DayIsSelfFinancing(l: Account, r: Account, panel: seq<Quote>, symbols: seq<string>, execute: Executor,
                           rebalances: bool, topK: nat, limitOrder: bool, t: int)
    requires DayStep(l, r, panel, symbols, execute, rebalances, topK, limitOrder, t) && |panel| == |symbols|
    requires Sound(l.books, SOURCE_TOLERANCE.drop)
    ensures Financed(l, r, Marks(panel), SOURCE_TOLERANCE)
  {
    hide Floor, Ceiling, Sound, Rebalanced, Financed, Opens;
    if rebalances {
      var keys, plan :|
        Opens(keys, l.books) && Rebalanced(l, r, keys, panel, symbols, topK, limitOrder, t, execute, plan);
      RebalanceIsSelfFinancing(l, r, keys, panel, symbols, topK, limitOrder, t, execute, plan);
    } else {
      QuietIsFinanced(l, Marks(panel));
    }
  }

  lemma QuietIsFinanced(l: Account, prices: seq<real>)
    requires Sound(l.books, SOURCE_TOLERANCE.drop)
    ensures Financed(l, l, prices, SOURCE_TOLERANCE)
  {
  }

  /** So is every day of a backtest, from the initial cash on. */
  lemma {:induction false} BacktestIsSelfFinancing(history: seq<Account>, days: nat, panels: seq<seq<Quote>>,
                                                   symbols: seq<string>, executors: seq<Executor>,
                                                   mask: Option<seq<bool>>, interval: int, topK: nat,
                                                   limitOrder: bool, cash: real)
    requires days <= |panels| == |executors| && (mask.Some? ==> |mask.value| == |panels|)
    requires IsHistory(history, days, panels, symbols, executors, mask, interval, topK, limitOrder)
    requires history[0] == Account(cash, map[], []) && forall t :: 0 <= t < days ==> |panels[t]| == |symbols|
    ensures Sound(history[days].books, SOURCE_TOLERANCE.drop)
    ensures forall t :: 0 <= t < days ==> Financed(history[t], history[t + 1], Marks(panels[t]), SOURCE_TOLERANCE)
  {
    hide Financed, DayStep, Sound;
    if days == 0 {
      NothingIsSound();
    } else {
      var n := days - 1;
      EarlierHistory(history, days, panels, symbols, executors, mask, interval, topK, limitOrder);
      BacktestIsSelfFinancing(history[..days], n, panels, symbols, executors, mask, interval, topK, limitOrder, cash);
      assert forall t :: 0 <= t <= n ==> history[..days][t] == history[t];
      DayIsSelfFinancing(history[n], history[n + 1], panels[n], symbols, executors[n],
                         IsRebalanceDay(mask, interval, n), topK, limitOrder, n);
      FinancedIsSound(history[n], history[days], Marks(panels[n]));
    }
  }

  lemma NothingIsSound()
    ensures Sound(map[], SOURCE_TOLERANCE.drop)
  {
  }

  lemma FinancedIsSound(l: Account, r: Account, prices: seq<real>)
    requires Financed(l, r, prices, SOURCE_TOLERANCE)
    ensures Sound(r.books, SOURCE_TOLERANCE.drop)
  {
  }

  lemma EarlierHistory(history: seq<Account>, days: nat, panels: seq<seq<Quote>>, symbols: seq<string>,
                       executors: seq<Executor>, mask: Option<seq<bool>>, interval: int, topK: nat, limitOrder: bool)
    requires 0 < days <= |panels| == |executors| && (mask.Some? ==> |mask.value| == |panels|)
    requires IsHistory(history, days, panels, symbols, executors, mask, interval, topK, limitOrder)
    ensures IsHistory(history[..days], days - 1, panels, symbols, executors, mask, interval, topK, limitOrder)
    ensures DayStep(history[days - 1], history[days], panels[days - 1], symbols, executors[days - 1],
                    IsRebalanceDay(mask, interval, days - 1), topK, limitOrder, days - 1)
  {
    hide DayStep;
    assert history[days - 1 + 1] == history[days];
    var earlier := history[..days];
    forall t | 0 <= t < days - 1
      ensures DayStep(earlier[t], earlier[t + 1], panels[t], symbols, executors[t], IsRebalanceDay(mask, interval, t),
                      topK, limitOrder, t)
    {
      assert earlier[t] == history[t] && earlier[t + 1] == history[t + 1];
    }
  }
}
