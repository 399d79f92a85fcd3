/** Laws of every run of orders: T+1, share and cash conservation, and the agreement of the two FIFOs. */
module LedgerLaws {
  import opened Wrappers
  import opened Execution
  import opened WinRate
  import opened Ledger

  /** The last order of a run changes nothing, or executes one trade. */
  lemma RunStep(cash: real, symbols: seq<string>, orders: seq<Order>, tol: Tolerance) returns (trade: Trade)
    requires Legal(symbols, orders) && orders != []
    ensures var n := |orders| - 1;
            var o := orders[n];
            var before, after := Run(cash, symbols, orders[..n], tol), Run(cash, symbols, orders, tol);
            after == before || Executes(before, after, trade, symbols[o.idx], o, tol)
  {
    hide Apply, TradeOf, Executes;
    var n := |orders| - 1;
    var before := Run(cash, symbols, orders[..n], tol);
    trade := TradeOf(before, symbols[orders[n].idx], orders[n]);
    OrderIsAtomic(before, symbols, orders[n], tol);
  }

  // ---- T+1 and share conservation --------------------------------------------------

  lemma {:induction false} AvailableIsTotal(lots: seq<Lot>, t: int)
    requires forall k :: 0 <= k < |lots| ==> lots[k].availableDate <= t
    ensures Available(lots, t) == Total(lots)
  {
    if lots != [] {
      AvailableIsTotal(lots[1..], t);
    }
  }

  /** After any run each book holds what was bought minus what was sold, up to one threshold per sale. */
  lemma BookHoldsBoughtMinusSold(cash: real, symbols: seq<string>, orders: seq<Order>, tol: Tolerance, i: nat, day: int)
    requires Legal(symbols, orders) && Chronological(orders) && Distinct(symbols)
    requires tol.Valid() && tol.drop < 100.0 && i < |symbols| && By(orders, day)
    ensures var l := Run(cash, symbols, orders, tol);
            var n := SellCount(l.trades, symbols[i]);
            var net := BoughtBefore(l.trades, symbols[i], day + 1) - SoldUpTo(l.trades, symbols[i], day + 1);
            net - Times(n, tol.drop) <= Total(BookOf(l.books, i)) <= net + Times(n, tol.stop)
  {
    RunShares(cash, symbols, orders, tol, i, day, day + 1);
    AvailableIsTotal(BookOf(Run(cash, symbols, orders, tol).books, i), day + 1);
  }

  lemma {:induction false} TimesMonotone(m: nat, n: nat, unit: real)
    requires m <= n && 0.0 <= unit
    ensures 0.0 <= Times(m, unit) <= Times(n, unit)
  {
    if n > 0 {
      TimesMonotone(if m == n then m - 1 else m, n - 1, unit);
    }
  }

  lemma BoughtMonotone(trades: seq<Trade>, symbol: string, t: int, u: int)
    requires t <= u && forall k :: 0 <= k < |trades| ==> trades[k].shares > 0.0
    ensures BoughtBefore(trades, symbol, t) <= BoughtBefore(trades, symbol, u)
  {
    if trades != [] {
      BoughtMonotone(trades[..|trades| - 1], symbol, t, u);
    }
  }

  ghost predicate SoldWithinBought(trades: seq<Trade>, symbol: string, tol: Tolerance, t: int) {
    SoldUpTo(trades, symbol, t) <= BoughtBefore(trades, symbol, t) + Times(SellCount(trades, symbol), tol.stop)
  }

  lemma SoldWithinBoughtStep(trades: seq<Trade>, trade: Trade, symbol: string, tol: Tolerance, t: int, book: seq<Lot>)
    requires tol.Valid() && trade.shares > 0.0 && SoldWithinBought(trades, symbol, tol, t)
    requires trade.symbol == symbol && trade.side.Sell? && trade.day <= t ==>
               && trade.shares <= Available(book, trade.day)
               && BookTracksLog(book, trades, symbol, tol, trade.day, t)
    ensures SoldWithinBought(trades + [trade], symbol, tol, t)
  {
    hide Available, BoughtBefore, SoldUpTo, SellCount, Ordered;
    LogStep(trades, trade, symbol, t);
    var n := SellCount(trades, symbol);
    TimesMonotone(n, n + 1, tol.stop);
    if trade.symbol == symbol && trade.side.Sell? && trade.day <= t {
      AvailableGrows(book, trade.day, t);
    }
  }

  /** T+1 over a whole run: up to any day no more is sold than was bought on earlier days. */
  lemma {:induction false} SellsNeverOutrunEarlierBuys(cash: real, symbols: seq<string>, orders: seq<Order>,
                                                       tol: Tolerance, i: nat, t: int)
    requires Legal(symbols, orders) && Chronological(orders) && Distinct(symbols)
    requires tol.Valid() && tol.drop < 100.0 && i < |symbols|
    ensures SoldWithinBought(Run(cash, symbols, orders, tol).trades, symbols[i], tol, t)
  {
    if orders != [] {
      hide Apply, SoldWithinBought, BookTracksLog, Available, CostOf, Worth;
      var n := |orders| - 1;
      var o := orders[n];
      var before := Run(cash, symbols, orders[..n], tol);
      SellsNeverOutrunEarlierBuys(cash, symbols, orders[..n], tol, i, t);
      var trade := RunStep(cash, symbols, orders, tol);
      if Run(cash, symbols, orders, tol) != before {
        if o.idx == i && o.side.Sell? && o.day <= t {
          RunShares(cash, symbols, orders[..n], tol, i, o.day, t);
        }
        SoldWithinBoughtStep(before.trades, trade, symbols[i], tol, t, BookOf(before.books, i));
      }
    }
  }

  lemma {:induction false} AvailableGrows(lots: seq<Lot>, day: int, t: int)
    requires day <= t && AllAbove(lots, 0.0)
    ensures Available(lots, day) <= Available(lots, t)
  {
    if lots != [] {
      AvailableGrows(lots[1..], day, t);
    }
  }

  // ---- Cash ------------------------------------------------------------------------

  /** A sale below this value costs more than it brings. */
  const BREAK_EVEN := 5.0 / 0.9985

  function Flow(trade: Trade): real {
    if trade.side.Sell? then trade.value - trade.cost else -(trade.value + trade.cost)
  }

  function CashFlow(trades: seq<Trade>): real {
    if trades == [] then 0.0 else CashFlow(trades[..|trades| - 1]) + Flow(trades[|trades| - 1])
  }

  /** Sales below break-even since the last purchase. */
  function LosingSales(trades: seq<Trade>): nat {
    if trades == [] || trades[|trades| - 1].side.Buy? then 0
    else LosingSales(trades[..|trades| - 1]) + (if trades[|trades| - 1].value < BREAK_EVEN then 1 else 0)
  }

  /** A sale lowers cash exactly when it is below break-even, and then by less than the minimum commission. */
  lemma SaleLowersCashIff(value: real)
    requires value > 0.0
    ensures value - CostOf(value, Sell) < 0.0 <==> value < BREAK_EVEN
    ensures value - CostOf(value, Sell) > -COMMISSION_MIN
  {
  }

  /**
   * Cash is the initial cash plus the flows of the log, and its deficit is bounded by the losing sales since the last
   * buy.
   */
  lemma {:induction false} CashLedger(cash: real, symbols: seq<string>, orders: seq<Order>, tol: Tolerance)
    requires Legal(symbols, orders)
    ensures var l := Run(cash, symbols, orders, tol);
            && l.cash == cash + CashFlow(l.trades)
            && (0.0 <= cash ==> l.cash >= -CASH_SLACK - Times(LosingSales(l.trades), COMMISSION_MIN))
  {
    if orders != [] {
      hide Apply, TradeOf;
      var n := |orders| - 1;
      var before, after := Run(cash, symbols, orders[..n], tol), Run(cash, symbols, orders, tol);
      CashLedger(cash, symbols, orders[..n], tol);
      OrderIsAtomic(before, symbols, orders[n], tol);
      if after != before {
        var trade := TradeOf(before, symbols[orders[n].idx], orders[n]);
        assert after.trades[..|after.trades| - 1] == before.trades;
        if trade.side.Sell? {
          assert Worth(0.0, trade.price) == 0.0;
          hide Worth;
          Scale(0.0, trade.shares, trade.price);
          SaleLowersCashIff(trade.value);
        }
      }
    }
  }

  /** What a sale would bring in. */
  function Proceeds(l: Account, o: Order): real
    requires o.price > 0.0
  {
    if o.idx !in l.books then 0.0 else Worth(Min(o.amount, Available(l.books[o.idx], o.day)), o.price)
  }

  /**
   * An order that overdraws: an executed sale whose proceeds, less tax and slippage, and the cash together do not
   * cover the minimum commission.
   */
  predicate Overdraws(l: Account, o: Order)
    requires o.price > 0.0
  {
    && o.side.Sell? && o.fills && Proceeds(l, o) > 0.0
    && l.cash + Proceeds(l, o) * 0.9985 < COMMISSION_MIN - CASH_SLACK
  }

  /** From any account within the slack of a buy, exactly these orders lead below it. */
  lemma OverdrawsIff(l: Account, symbols: seq<string>, o: Order, tol: Tolerance)
    requires o.idx < |symbols| && o.price > 0.0 && WellFormed(l.trades) && l.cash >= -CASH_SLACK
    ensures Apply(l, symbols, o, tol).cash < -CASH_SLACK <==> Overdraws(l, o)
  {
    hide TradeOf, Available, AfterPop, PlanBuy;
    if o.side.Sell? {
      if o.idx in l.books {
        var sold := Min(o.amount, Available(l.books[o.idx], o.day));
        Scale(0.0, sold, o.price);
        NothingSold(o.price);
        if sold > 0.0 {
          SaleNet(Proceeds(l, o));
        }
        hide CostOf, Worth;
      }
    } else {
      OrderIsAtomic(l, symbols, o, tol);
    }
  }

  /** Cash never falls below the slack of a buy, before the run or after any of its orders. */
  ghost predicate Solvent(cash: real, symbols: seq<string>, orders: seq<Order>, tol: Tolerance)
    requires Legal(symbols, orders)
  {
    && (orders != [] ==> Solvent(cash, symbols, orders[..|orders| - 1], tol))
    && Run(cash, symbols, orders, tol).cash >= -CASH_SLACK
  }

  /** No order overdraws the account it meets. */
  ghost predicate NoOverdraft(cash: real, symbols: seq<string>, orders: seq<Order>, tol: Tolerance)
    requires Legal(symbols, orders)
  {
    orders != [] ==>
      var n := |orders| - 1;
      && NoOverdraft(cash, symbols, orders[..n], tol)
      && !Overdraws(Run(cash, symbols, orders[..n], tol), orders[n])
  }

  /** A run stays solvent exactly when none of its orders overdraws the account it meets. */
  lemma {:induction false} SolventIff(cash: real, symbols: seq<string>, orders: seq<Order>, tol: Tolerance)
    requires Legal(symbols, orders) && cash >= -CASH_SLACK
    ensures Solvent(cash, symbols, orders, tol) <==> NoOverdraft(cash, symbols, orders, tol)
  {
    hide Apply, Overdraws;
    if orders != [] {
      var n := |orders| - 1;
      SolventIff(cash, symbols, orders[..n], tol);
      var before := Run(cash, symbols, orders[..n], tol);
      if before.cash >= -CASH_SLACK {
        OverdrawsIff(before, symbols, orders[n], tol);
      }
    }
  }

  lemma NothingSold(price: real)
    ensures Worth(0.0, price) == 0.0
  {
  }

  /** A sale either pays the minimum commission or at least breaks even. */
  lemma SaleNet(value: real)
    requires value > 0.0
    ensures value <= 20000.0 ==> value - CostOf(value, Sell) == value * 0.9985 - COMMISSION_MIN
    ensures value > 20000.0 ==> value - CostOf(value, Sell) > 0.0 && value * 0.9985 > COMMISSION_MIN
  {
  }

  // ---- The two FIFOs ---------------------------------------------------------------

  function LotShares(lots: seq<Lot>): seq<real> {
    seq(|lots|, k requires 0 <= k < |lots| => lots[k].shares)
  }

  function QueueShares(queue: seq<Open>): seq<real> {
    seq(|queue|, k requires 0 <= k < |queue| => queue[k].shares)
  }

  /** Available lots form a prefix, so popping the book and matching the queue consume the same lots. */
  lemma {:induction false} PopIsMatch(lots: seq<Lot>, queue: seq<Open>, s: real, day: int)
    requires Ordered(lots) && AllAbove(lots, 0.0) && Positive(queue) && LotShares(lots) == QueueShares(queue)
    requires 0.0 <= s <= Available(lots, day)
    ensures var m := MatchSell(queue, s, 0.0);
            LotShares(AfterPop(lots, s, day, EXACT)) == QueueShares(m.queue) && m.remaining == 0.0
  {
    assert |lots| == |LotShares(lots)| == |queue|;
    if s == 0.0 {
      SweepKeepsAll(lots, 0.0);
    } else {
      if lots == [] || lots[0].availableDate > day {
        NoneAvailable(lots, day);
        assert false;
      }
      SameFront(lots, queue);
      if s < lots[0].shares {
        PartialFront(lots, queue, s, day);
      } else {
        var rest := s - lots[0].shares;
        AvailableBounds(lots[1..], day);
        PopIsMatch(lots[1..], queue[1..], rest, day);
        WholeFront(lots, queue, s, day);
      }
    }
  }

  lemma SameFront(lots: seq<Lot>, queue: seq<Open>)
    requires lots != [] && LotShares(lots) == QueueShares(queue)
    ensures queue != [] && lots[0].shares == queue[0].shares
    ensures LotShares(lots[1..]) == QueueShares(queue[1..])
  {
    assert |lots| == |LotShares(lots)| == |queue|;
    assert LotShares(lots)[0] == QueueShares(queue)[0];
    assert LotShares(lots[1..]) == LotShares(lots)[1..];
    assert QueueShares(queue[1..]) == QueueShares(queue)[1..];
  }

  /** A sale that leaves part of the front lot leaves the same part of the front of the queue. */
  lemma PartialFront(lots: seq<Lot>, queue: seq<Open>, s: real, day: int)
    requires lots != [] && lots[0].availableDate <= day && AllAbove(lots, 0.0)
    requires Positive(queue) && LotShares(lots) == QueueShares(queue) && 0.0 < s < lots[0].shares
    ensures var m := MatchSell(queue, s, 0.0);
            LotShares(AfterPop(lots, s, day, EXACT)) == QueueShares(m.queue) && m.remaining == 0.0
  {
    hide Portion;
    SameFront(lots, queue);
    var left := lots[0].(shares := lots[0].shares - s);
    var d := Drain(lots, s, day, 0.0);
    DrainSplits(lots, s, day, 0.0);
    DrainStops(lots[1..], 0.0, day, 0.0);
    assert d == [left] + lots[1..] && d[1..] == lots[1..];
    SweepKeepsAll(lots[1..], 0.0);
    assert AfterPop(lots, s, day, EXACT) == [left] + lots[1..];
    var m := MatchSell(queue, s, 0.0);
    assert m.queue[1..] == queue[1..] && m.queue[0].shares == left.shares && m.remaining == 0.0;
    LotFront(left, lots[1..], m.queue);
  }

  lemma LotFront(left: Lot, lots: seq<Lot>, queue: seq<Open>)
    requires queue != [] && queue[0].shares == left.shares && LotShares(lots) == QueueShares(queue[1..])
    ensures LotShares([left] + lots) == QueueShares(queue)
  {
    assert |lots| == |LotShares(lots)| == |queue| - 1;
    forall k | 0 <= k < |queue| ensures ([left] + lots)[k].shares == queue[k].shares {
      if k > 0 {
        assert LotShares(lots)[k - 1] == QueueShares(queue[1..])[k - 1];
      }
    }
  }

  /** A sale that takes the whole front lot goes on behind it on both sides. */
  lemma WholeFront(lots: seq<Lot>, queue: seq<Open>, s: real, day: int)
    requires lots != [] && lots[0].availableDate <= day && AllAbove(lots, 0.0)
    requires Positive(queue) && queue != [] && queue[0].shares == lots[0].shares && lots[0].shares <= s
    ensures AfterPop(lots, s, day, EXACT) == AfterPop(lots[1..], s - lots[0].shares, day, EXACT)
    ensures MatchSell(queue, s, 0.0).queue == MatchSell(queue[1..], s - lots[0].shares, 0.0).queue
    ensures MatchSell(queue, s, 0.0).remaining == MatchSell(queue[1..], s - lots[0].shares, 0.0).remaining
  {
    hide Portion;
    var d := Drain(lots, s, day, 0.0);
    assert d == [lots[0].(shares := 0.0)] + Drain(lots[1..], s - lots[0].shares, day, 0.0);
    assert d[1..] == Drain(lots[1..], s - lots[0].shares, day, 0.0);
  }

  lemma {:induction false} NoneAvailable(lots: seq<Lot>, day: int)
    requires Ordered(lots) && (lots == [] || lots[0].availableDate > day)
    ensures Available(lots, day) == 0.0
  {
    if |lots| > 1 {
      assert lots[0].availableDate <= lots[1].availableDate;
      NoneAvailable(lots[1..], day);
    }
  }

  ghost predicate SameLots(book: seq<Lot>, trades: seq<Trade>, symbol: string)
    requires WellFormed(trades)
  {
    LotShares(book) == QueueShares(QueueOf(Replay(trades, 0.0).queues, symbol))
  }

  lemma SameLotsStep(l: Account, r: Account, trade: Trade, symbols: seq<string>, o: Order, i: nat)
    requires Distinct(symbols) && i < |symbols| && o.idx < |symbols| && WellFormed(l.trades) && WellFormed(r.trades)
    requires Executes(l, r, trade, symbols[o.idx], o, EXACT)
    requires SameLots(BookOf(l.books, i), l.trades, symbols[i])
    requires Ordered(BookOf(l.books, i)) && AllAbove(BookOf(l.books, i), 0.0)
    ensures SameLots(BookOf(r.books, i), r.trades, symbols[i])
  {
    hide MatchSell, AfterPop, Available, LotShares, QueueShares, Replay, CostOf, Worth;
    var book, queue := BookOf(l.books, i), QueueOf(Replay(l.trades, 0.0).queues, symbols[i]);
    QueueStep(l.trades, trade, symbols[i], 0.0);
    if o.idx == i && o.side.Sell? {
      PopIsMatch(book, queue, trade.shares, o.day);
    } else if o.idx == i {
      PushBoth(book, queue, trade, o.day);
    }
  }

  /** With exact thresholds the matcher rebuilds each book lot by lot. */
  lemma {:induction false} FifosAgree(cash: real, symbols: seq<string>, orders: seq<Order>, i: nat)
    requires Legal(symbols, orders) && Chronological(orders) && Distinct(symbols) && i < |symbols|
    ensures var l := Run(cash, symbols, orders, EXACT); SameLots(BookOf(l.books, i), l.trades, symbols[i])
  {
    if orders != [] {
      hide Apply, Executes, SameLots, Available, BoughtBefore, SoldUpTo, SellCount;
      var n := |orders| - 1;
      var before, after := Run(cash, symbols, orders[..n], EXACT), Run(cash, symbols, orders, EXACT);
      FifosAgree(cash, symbols, orders[..n], i);
      var trade := RunStep(cash, symbols, orders, EXACT);
      if after != before {
        RunShares(cash, symbols, orders[..n], EXACT, i, orders[n].day, orders[n].day);
        SameLotsStep(before, after, trade, symbols, orders[n], i);
      }
    }
  }

  lemma PushBoth(book: seq<Lot>, queue: seq<Open>, trade: Trade, day: int)
    requires LotShares(book) == QueueShares(queue)
    ensures LotShares(book + [Lot(trade.shares, day + 1)])
         == QueueShares(queue + [Open(trade.shares, trade.value + trade.cost)])
  {
    assert |book| == |LotShares(book)| == |queue|;
    var a, b := book + [Lot(trade.shares, day + 1)], queue + [Open(trade.shares, trade.value + trade.cost)];
    forall k | 0 <= k < |a| ensures LotShares(a)[k] == QueueShares(b)[k] {
      if k < |book| {
        assert LotShares(book)[k] == QueueShares(queue)[k];
      }
    }
  }

  /** Every sale in the log found its full amount in the matcher's queue. */
  ghost predicate MatchedInFull(trades: seq<Trade>)
    requires WellFormed(trades)
  {
    trades == [] ||
    (var n := |trades| - 1;
     && MatchedInFull(trades[..n])
     && (trades[n].side.Sell? ==>
           MatchSell(QueueOf(Replay(trades[..n], 0.0).queues, trades[n].symbol), trades[n].shares, 0.0).remaining ==
             0.0))
  }

  /** Profit booked by the matcher over the whole log. */
  function Realised(trades: seq<Trade>): real
    requires WellFormed(trades)
  {
    if trades == [] then 0.0
    else
      var n := |trades| - 1;
      var trade := trades[n];
      Realised(trades[..n]) +
      if trade.side.Buy? then 0.0
      else
        var m := MatchSell(QueueOf(Replay(trades[..n], 0.0).queues, trade.symbol), trade.shares, 0.0);
        if trade.shares - m.remaining > 0.0 then Gain(trade, m) else 0.0
  }

  function Sales(trades: seq<Trade>): nat {
    if trades == [] then 0 else Sales(trades[..|trades| - 1]) + (if trades[|trades| - 1].side.Sell? then 1 else 0)
  }

  /** Outlay still tied up in unmatched purchases, over the whole panel. */
  function OpenCostAll(queues: map<string, seq<Open>>, symbols: seq<string>): real {
    if symbols == [] then 0.0
    else
      var n := |symbols| - 1;
      OpenCostAll(queues, symbols[..n]) + OpenCost(QueueOf(queues, symbols[n]))
  }

  lemma {:induction false} OpenCostMoves(before: map<string, seq<Open>>, after: map<string, seq<Open>>,
                                         symbols: seq<string>, symbol: string)
    requires Distinct(symbols)
    requires forall other :: other != symbol ==> QueueOf(after, other) == QueueOf(before, other)
    ensures OpenCostAll(after, symbols) - OpenCostAll(before, symbols)
         == if symbol in symbols then OpenCost(QueueOf(after, symbol)) - OpenCost(QueueOf(before, symbol)) else 0.0
  {
    if symbols != [] {
      var n := |symbols| - 1;
      OpenCostMoves(before, after, symbols[..n], symbol);
      assert symbols == symbols[..n] + [symbols[n]];
    }
  }

  lemma FullMatchGain(trade: Trade, m: Match)
    requires trade.shares > 0.0 && m.remaining == 0.0
    ensures Gain(trade, m) == trade.value - trade.cost - m.bought
  {
    assert (trade.shares - m.remaining) / trade.shares == 1.0;
  }

  /** One matched sale turns its proceeds into profit plus the outlay released from the queue. */
  lemma SaleRealises(trade: Trade, queue: seq<Open>)
    requires Positive(queue) && trade.shares > 0.0
    requires MatchSell(queue, trade.shares, 0.0).remaining == 0.0
    ensures var m := MatchSell(queue, trade.shares, 0.0);
            trade.value - trade.cost == Gain(trade, m) + OpenCost(queue) - OpenCost(m.queue)
  {
    hide MatchSell, Gain;
    ExactMatchConservesCost(queue, trade.shares);
    FullMatchGain(trade, MatchSell(queue, trade.shares, 0.0));
  }

  lemma LastTally(trades: seq<Trade>, trade: Trade)
    requires WellFormed(trades + [trade]) && WellFormed(trades)
    ensures var t, after := Replay(trades, 0.0), Replay(trades + [trade], 0.0);
            var queue := QueueOf(t.queues, trade.symbol);
            && (forall other :: other != trade.symbol ==> QueueOf(after.queues, other) == QueueOf(t.queues, other))
            && Sales(trades + [trade]) == Sales(trades) + (if trade.side.Sell? then 1 else 0)
            && CashFlow(trades + [trade]) == CashFlow(trades) + Flow(trade)
            && (trade.side.Buy? ==>
                  && after.closed == t.closed && Realised(trades + [trade]) == Realised(trades)
                  && QueueOf(after.queues, trade.symbol) == queue + [Open(trade.shares, trade.value + trade.cost)]
                  && (MatchedInFull(trades) ==> MatchedInFull(trades + [trade])))
            && (trade.side.Sell? && trade.shares > 0.0 && MatchSell(queue, trade.shares, 0.0).remaining == 0.0 ==>
                  && after.closed == t.closed + 1
                  && Realised(trades + [trade]) == Realised(trades) + Gain(trade, MatchSell(queue, trade.shares, 0.0))
                  && QueueOf(after.queues, trade.symbol) == MatchSell(queue, trade.shares, 0.0).queue
                  && (MatchedInFull(trades) ==> MatchedInFull(trades + [trade])))
  {
    hide Portion, Gain;
    var log := trades + [trade];
    assert log[..|log| - 1] == trades;
  }

  ghost predicate Accounted(cash: real, l: Account, symbols: seq<string>)
    requires WellFormed(l.trades)
  {
    var tally := Replay(l.trades, 0.0);
    && MatchedInFull(l.trades) && tally.closed == Sales(l.trades)
    && l.cash + OpenCostAll(tally.queues, symbols) == cash + Realised(l.trades)
  }

  lemma AccountedStep(cash: real, l: Account, r: Account, trade: Trade, symbols: seq<string>, o: Order)
    requires Distinct(symbols) && o.idx < |symbols| && WellFormed(l.trades) && WellFormed(r.trades)
    requires Executes(l, r, trade, symbols[o.idx], o, EXACT) && Accounted(cash, l, symbols)
    requires SameLots(BookOf(l.books, o.idx), l.trades, symbols[o.idx])
    requires Ordered(BookOf(l.books, o.idx)) && AllAbove(BookOf(l.books, o.idx), 0.0)
    ensures Accounted(cash, r, symbols)
  {
    hide MatchSell, AfterPop, Available, Gain, Replay, OpenCostAll, OpenCost, CostOf, Worth, LotShares, QueueShares,
         Realised, MatchedInFull, Sales, CashFlow;
    var queue := QueueOf(Replay(l.trades, 0.0).queues, trade.symbol);
    LastTally(l.trades, trade);
    OpenCostMoves(Replay(l.trades, 0.0).queues, Replay(r.trades, 0.0).queues, symbols, trade.symbol);
    if o.side.Sell? {
      PopIsMatch(BookOf(l.books, o.idx), queue, trade.shares, o.day);
      SaleRealises(trade, queue);
    } else {
      var bought := Open(trade.shares, trade.value + trade.cost);
      OpenConcat(queue, [bought]);
      SingleOpen(bought);
    }
  }

  lemma SingleOpen(open: Open)
    ensures OpenCost([open]) == open.cost && OpenShares([open]) == open.shares
  {
  }

  /**
   * Exact accounting: every sale is matched in full, and cash plus open outlay is initial cash plus realised profit.
   */
  lemma {:induction false} CashIsRealisedProfit(cash: real, symbols: seq<string>, orders: seq<Order>)
    requires Legal(symbols, orders) && Chronological(orders) && Distinct(symbols)
    ensures Accounted(cash, Run(cash, symbols, orders, EXACT), symbols)
  {
    if orders == [] {
      NothingOpen(symbols);
    } else {
      hide Apply, Executes, SameLots, Accounted, Available, BoughtBefore, SoldUpTo, SellCount;
      var n := |orders| - 1;
      var o := orders[n];
      var before, after := Run(cash, symbols, orders[..n], EXACT), Run(cash, symbols, orders, EXACT);
      CashIsRealisedProfit(cash, symbols, orders[..n]);
      var trade := RunStep(cash, symbols, orders, EXACT);
      if after != before {
        RunShares(cash, symbols, orders[..n], EXACT, o.idx, o.day, o.day);
        FifosAgree(cash, symbols, orders[..n], o.idx);
        AccountedStep(cash, before, after, trade, symbols, o);
      }
    }
  }

  lemma {:induction false} NothingOpen(symbols: seq<string>)
    ensures OpenCostAll(map[], symbols) == 0.0
  {
    if symbols != [] {
      NothingOpen(symbols[..|symbols| - 1]);
    }
  }

  ghost predicate WithinDust(book: seq<Lot>, trades: seq<Trade>, symbol: string, tol: Tolerance, eps: real)
    requires WellFormed(trades) && 0.0 <= eps
  {
    var n := SellCount(trades, symbol);
    var gap := Total(book) - OpenShares(QueueOf(Replay(trades, eps).queues, symbol));
    -Times(n, tol.drop + eps) <= gap <= Times(n, tol.stop + eps)
  }

  /** Every sale of the symbol found its shares in the matcher's queue, up to the dust of the sales before it. */
  ghost predicate MatchedWithinDust(trades: seq<Trade>, symbol: string, tol: Tolerance, eps: real)
    requires WellFormed(trades) && 0.0 <= eps
  {
    trades == [] ||
    (var n := |trades| - 1;
     && MatchedWithinDust(trades[..n], symbol, tol, eps)
     && (trades[n].side.Sell? && trades[n].symbol == symbol ==>
           MatchSell(QueueOf(Replay(trades[..n], eps).queues, symbol), trades[n].shares, eps).remaining
           <= Max(eps, Times(SellCount(trades[..n], symbol), tol.stop + eps))))
  }

  lemma MatchedStep(trades: seq<Trade>, trade: Trade, symbol: string, tol: Tolerance, eps: real)
    requires WellFormed(trades) && WellFormed(trades + [trade]) && 0.0 <= eps
    requires MatchedWithinDust(trades, symbol, tol, eps)
    requires trade.side.Sell? && trade.symbol == symbol ==>
               MatchSell(QueueOf(Replay(trades, eps).queues, symbol), trade.shares, eps).remaining
               <= Max(eps, Times(SellCount(trades, symbol), tol.stop + eps))
    ensures MatchedWithinDust(trades + [trade], symbol, tol, eps)
  {
    hide MatchSell, Replay, SellCount;
    assert (trades + [trade])[..|trades|] == trades;
  }

  lemma WithinDustStep(l: Account, r: Account, trade: Trade, symbols: seq<string>, o: Order, tol: Tolerance, eps: real,
                       i: nat)
    requires Distinct(symbols) && i < |symbols| && o.idx < |symbols| && WellFormed(l.trades) && WellFormed(r.trades)
    requires Executes(l, r, trade, symbols[o.idx], o, tol)
    requires tol.Valid() && 0.0 <= eps && tol.stop <= eps
    requires WithinDust(BookOf(l.books, i), l.trades, symbols[i], tol, eps)
    requires AllAbove(BookOf(l.books, i), tol.drop)
    ensures WithinDust(BookOf(r.books, i), r.trades, symbols[i], tol, eps)
    ensures o.idx == i && o.side.Sell? ==>
              MatchSell(QueueOf(Replay(l.trades, eps).queues, symbols[i]), trade.shares, eps).remaining
              <= Max(eps, Times(SellCount(l.trades, symbols[i]), tol.stop + eps))
  {
    hide MatchSell, AfterPop, Available, Replay, CostOf, Worth, SellCount, BoughtBefore, SoldUpTo, Total, OpenShares;
    var book, queue := BookOf(l.books, i), QueueOf(Replay(l.trades, eps).queues, symbols[i]);
    LogStep(l.trades, trade, symbols[i], o.day);
    QueueStep(l.trades, trade, symbols[i], eps);
    if o.idx == i && o.side.Sell? {
      var popped, m := AfterPop(book, trade.shares, o.day, tol), MatchSell(queue, trade.shares, eps);
      PopAccuracy(book, trade.shares, o.day, tol, o.day);
      AvailableBounds(book, o.day);
      AvailableBounds(popped, o.day);
      MatchAccuracy(queue, trade.shares, eps);
      if m.remaining > eps {
        NoOpenShares();
        var n := SellCount(l.trades, symbols[i]) + 1;
        TimesMonotone(n, n, tol.drop + eps);
      }
    } else if o.idx == i {
      var bought := Open(trade.shares, trade.value + trade.cost);
      TotalConcat(book, [Lot(trade.shares, o.day + 1)]);
      SingleLot(Lot(trade.shares, o.day + 1));
      OpenConcat(queue, [bought]);
      SingleOpen(bought);
    }
  }

  lemma NoOpenShares()
    ensures OpenShares([]) == 0.0
  {
  }

  lemma SingleLot(lot: Lot)
    ensures Total([lot]) == lot.shares
  {
  }

  lemma TradeFacts(l: Account, r: Account, trade: Trade, symbols: seq<string>, o: Order, tol: Tolerance)
    requires o.idx < |symbols| && Distinct(symbols) && Executes(l, r, trade, symbols[o.idx], o, tol)
    ensures r.trades == l.trades + [trade] && trade.side == o.side
    ensures forall i :: 0 <= i < |symbols| ==> (trade.symbol == symbols[i] <==> o.idx == i)
  {
  }

  /**
   * With nonzero thresholds the two FIFOs drift apart by at most a threshold or two per sale, and so does each match.
   */
  lemma {:induction false} FifosWithinDust(cash: real, symbols: seq<string>, orders: seq<Order>,
                                           tol: Tolerance, eps: real, i: nat)
    requires Legal(symbols, orders) && Chronological(orders) && Distinct(symbols) && i < |symbols|
    requires tol.Valid() && tol.drop < 100.0 && 0.0 <= eps && tol.stop <= eps
    ensures var l := Run(cash, symbols, orders, tol);
            && WithinDust(BookOf(l.books, i), l.trades, symbols[i], tol, eps)
            && MatchedWithinDust(l.trades, symbols[i], tol, eps)
  {
    if orders != [] {
      hide Apply, Executes, WithinDust, MatchedWithinDust, Available, BoughtBefore, SoldUpTo, SellCount, Ordered;
      var n := |orders| - 1;
      var before, after := Run(cash, symbols, orders[..n], tol), Run(cash, symbols, orders, tol);
      FifosWithinDust(cash, symbols, orders[..n], tol, eps, i);
      var trade := RunStep(cash, symbols, orders, tol);
      if after != before {
        RunShares(cash, symbols, orders[..n], tol, i, orders[n].day, orders[n].day);
        WithinDustStep(before, after, trade, symbols, orders[n], tol, eps, i);
        TradeFacts(before, after, trade, symbols, orders[n], tol);
        MatchedStep(before.trades, trade, symbols[i], tol, eps);
      }
    }
  }

  lemma QueueStep(trades: seq<Trade>, trade: Trade, symbol: string, eps: real)
    requires WellFormed(trades + [trade]) && WellFormed(trades) && 0.0 <= eps
    ensures var queue := QueueOf(Replay(trades, eps).queues, symbol);
            QueueOf(Replay(trades + [trade], eps).queues, symbol) ==
            if trade.symbol != symbol then queue
            else if trade.side.Buy? then queue + [Open(trade.shares, trade.value + trade.cost)]
            else MatchSell(queue, trade.shares, eps).queue
  {
    hide Portion, Gain;
    var log := trades + [trade];
    assert log[..|log| - 1] == trades;
  }
}
