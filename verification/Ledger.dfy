/** Cash, lot books and trade log as values, and the laws every sequence of orders obeys. */
module Ledger {
  import opened Wrappers
  import opened Execution
  import opened WinRate

  const MIN_TRADE_VALUE := 1.0
  const CASH_SLACK := 0.000000001

  // ---- The buy plan ----------------------------------------------------------------

  datatype Fill = Fill(shares: real, value: real, cost: real)

  function RoundBuyShares(shares: real): real {
    (shares / 100.0).Floor as real * 100.0
  }

  predicate IsLots(shares: real, lots: int) { shares == lots as real * 100.0 }

  function Worth(shares: real, price: real): real { shares * price }

  function FillAt(shares: real, price: real): Fill {
    Fill(shares, Worth(shares, price), CostOf(Worth(shares, price), Buy))
  }

  /** One pass of the "amount plus cost within cash" iteration. */
  function Shrink(cash: real, value: real): real {
    if value + CostOf(value, Buy) <= cash + CASH_SLACK then value else Max(cash - CostOf(value, Buy), 0.0)
  }

  /** The guard in front of the second rounding. */
  predicate Reround(cash: real, first: Fill) {
    first.value + first.cost > cash + CASH_SLACK
  }

  function FirstFill(cash: real, requested: real, price: real): Option<Fill>
    requires price > 0.0
  {
    if Min(requested, cash) <= MIN_TRADE_VALUE then None
    else
      var value := Shrink(cash, Shrink(cash, Min(requested, cash)));
      if value <= MIN_TRADE_VALUE then None
      else
        var first := FillAt(RoundBuyShares(value / price), price);
        if first.shares <= 0.0 || first.value <= MIN_TRADE_VALUE then None else Some(first)
  }

  function SecondFill(cash: real, first: Fill, price: real): Option<Fill>
    requires price > 0.0
  {
    var again := FillAt(RoundBuyShares(Max(cash - first.cost, 0.0) / price), price);
    if again.shares <= 0.0 || Reround(cash, again) then None else Some(again)
  }

  function PlanBuy(cash: real, requested: real, price: real): (f: Option<Fill>)
    requires price > 0.0
    ensures f.Some? ==> f.value.shares > 0.0
  {
    match FirstFill(cash, requested, price)
    case None => None
    case Some(first) => if Reround(cash, first) then SecondFill(cash, first, price) else Some(first)
  }

  lemma CostMonotone(a: real, b: real, side: Side)
    requires a <= b
    ensures 0.0 <= CostOf(a, side) <= CostOf(b, side)
  {
  }

  lemma Scale(a: real, b: real, price: real)
    requires price > 0.0
    ensures a < b <==> Worth(a, price) < Worth(b, price)
    ensures a <= b <==> Worth(a, price) <= Worth(b, price)
  {
    assert (b - a) * price == b * price - a * price;
    if a < b {
      assert (b - a) * price > 0.0;
    } else {
      assert (a - b) * price >= 0.0;
    }
  }

  lemma WorthOf(amount: real, price: real)
    requires price > 0.0
    ensures Worth(amount / price, price) == amount
  {
  }

  lemma WorthAdds(a: real, b: real, price: real)
    ensures Worth(a + b, price) == Worth(a, price) + Worth(b, price)
  {
  }

  lemma LotBounds(shares: real, q: real, price: real)
    requires price > 0.0 && shares <= q < shares + 100.0
    ensures Worth(shares, price) <= Worth(q, price) < Worth(shares, price) + Worth(100.0, price)
    ensures 0.0 <= q <==> 0.0 <= Worth(q, price)
    ensures 100.0 <= q <==> Worth(100.0, price) <= Worth(q, price)
  {
    assert Worth(0.0, price) == 0.0;
    hide Worth;
    WorthAdds(shares, 100.0, price);
    Scale(shares, q, price);
    Scale(q, shares + 100.0, price);
    Scale(0.0, q, price);
    Scale(100.0, q, price);
  }

  lemma FloorBounds(q: real)
    ensures var shares := RoundBuyShares(q);
            && shares <= q < shares + 100.0
            && (0.0 <= q ==> 0.0 <= shares)
            && (shares >= 100.0 <==> 100.0 <= q)
            && (shares > 0.0 <==> shares >= 100.0)
  {
  }

  lemma RoundingBounds(amount: real, price: real)
    requires price > 0.0
    ensures var shares := RoundBuyShares(amount / price);
            && Worth(shares, price) <= amount < Worth(shares, price) + Worth(100.0, price)
            && (0.0 <= amount ==> 0.0 <= shares)
            && (shares >= 100.0 <==> Worth(100.0, price) <= amount)
            && (shares > 0.0 <==> shares >= 100.0)
  {
    hide RoundBuyShares, Worth;
    WorthOf(amount, price);
    FloorBounds(amount / price);
    LotBounds(RoundBuyShares(amount / price), amount / price, price);
  }

  /** One shrink already settles: the second pass always breaks out unchanged. */
  lemma ShrinkSettles(cash: real, value: real)
    requires value <= cash && MIN_TRADE_VALUE < value
    ensures var v := Shrink(cash, value);
            && v + CostOf(v, Buy) <= cash + CASH_SLACK
            && Shrink(cash, v) == v
            && v <= value
  {
    var cost := CostOf(value, Buy);
    if value + cost > cash + CASH_SLACK && cash - cost >= 0.0 {
      CostMonotone(cash - cost, value, Buy);
    }
  }

  /** What may be spent: the request itself, or cash less the cost of the capped request. */
  function SpendLimit(cash: real, requested: real): real {
    var capped := Min(requested, cash);
    if capped + CostOf(capped, Buy) <= cash + CASH_SLACK then capped else cash - CostOf(capped, Buy)
  }

  lemma FirstFillValue(cash: real, requested: real, price: real)
    requires price > 0.0 && MIN_TRADE_VALUE < Min(requested, cash)
    ensures Shrink(cash, Shrink(cash, Min(requested, cash))) == Max(SpendLimit(cash, requested), 0.0)
  {
    ShrinkSettles(cash, Min(requested, cash));
  }

  lemma FillWithinLimit(cash: real, limit: real, price: real)
    requires price > 0.0 && limit + CostOf(limit, Buy) <= cash + CASH_SLACK
    ensures !Reround(cash, FillAt(RoundBuyShares(limit / price), price))
  {
    RoundingBounds(limit, price);
    CostMonotone(Worth(RoundBuyShares(limit / price), price), limit, Buy);
  }

  /** The rounded fill is affordable at once, so the second rounding of the source never runs. */
  lemma SecondRoundingNeverRuns(cash: real, requested: real, price: real)
    requires price > 0.0 && FirstFill(cash, requested, price).Some?
    ensures !Reround(cash, FirstFill(cash, requested, price).value)
    ensures PlanBuy(cash, requested, price) == FirstFill(cash, requested, price)
  {
    var capped := Min(requested, cash);
    ShrinkSettles(cash, capped);
    FillWithinLimit(cash, Shrink(cash, Shrink(cash, capped)), price);
  }

  /** Were it to run on an unaffordable fill, it would fail exactly when no round lot fits in the cash left. */
  lemma SecondRoundingFailsOnlyOnZeroShares(cash: real, first: Fill, price: real)
    requires price > 0.0 && first.cost == CostOf(first.value, Buy) && Reround(cash, first)
    ensures SecondFill(cash, first, price).None? <==> cash - first.cost < Worth(100.0, price)
  {
    var room := Max(cash - first.cost, 0.0);
    RoundingBounds(room, price);
    var again := FillAt(RoundBuyShares(room / price), price);
    if room >= Worth(100.0, price) {
      CostMonotone(again.value, first.value, Buy);
    }
  }

  /** The largest round lot worth at most `limit`. */
  ghost predicate LargestLot(f: Fill, limit: real, price: real) {
    && (exists lots: int :: IsLots(f.shares, lots))
    && f.value == Worth(f.shares, price) && f.cost == CostOf(f.value, Buy)
    && f.value <= limit < f.value + Worth(100.0, price)
    && (f.shares > 0.0 <==> f.shares >= 100.0)
    && (f.shares >= 100.0 <==> Worth(100.0, price) <= limit)
  }

  lemma RoundedIsLargestLot(limit: real, price: real)
    requires price > 0.0
    ensures LargestLot(FillAt(RoundBuyShares(limit / price), price), limit, price)
  {
    RoundingBounds(limit, price);
    assert IsLots(RoundBuyShares(limit / price), (limit / price / 100.0).Floor);
  }

  lemma PlanIsFillAtLimit(cash: real, requested: real, price: real)
    requires price > 0.0 && PlanBuy(cash, requested, price).Some?
    ensures PlanBuy(cash, requested, price).value == FillAt(RoundBuyShares(SpendLimit(cash, requested) / price), price)
    ensures SpendLimit(cash, requested) <= requested
    ensures var f := PlanBuy(cash, requested, price).value;
            f.shares > 0.0 && MIN_TRADE_VALUE < f.value && f.value + f.cost <= cash + CASH_SLACK
  {
    SecondRoundingNeverRuns(cash, requested, price);
    FirstFillValue(cash, requested, price);
    CostMonotone(0.0, Min(requested, cash), Buy);
  }

  /** The fill is the largest round lot within the spend limit, and it is affordable. */
  lemma BuyIsLargestAffordableLot(cash: real, requested: real, price: real)
    requires price > 0.0 && PlanBuy(cash, requested, price).Some?
    ensures SpendLimit(cash, requested) <= requested
    ensures LargestLot(PlanBuy(cash, requested, price).value, SpendLimit(cash, requested), price)
    ensures var f := PlanBuy(cash, requested, price).value;
            f.shares > 0.0 && MIN_TRADE_VALUE < f.value && f.value + f.cost <= cash + CASH_SLACK
  {
    PlanIsFillAtLimit(cash, requested, price);
    RoundedIsLargestLot(SpendLimit(cash, requested), price);
  }

  /** A buy is refused exactly when the request, the spend limit or its largest round lot is trivial. */
  lemma BuyRefusedIff(cash: real, requested: real, price: real)
    requires price > 0.0
    ensures var limit := SpendLimit(cash, requested);
            PlanBuy(cash, requested, price).None? <==>
              || Min(requested, cash) <= MIN_TRADE_VALUE
              || limit <= MIN_TRADE_VALUE
              || limit < Worth(100.0, price)
              || Worth(RoundBuyShares(limit / price), price) <= MIN_TRADE_VALUE
  {
    if Min(requested, cash) > MIN_TRADE_VALUE {
      FirstFillValue(cash, requested, price);
      RoundingBounds(SpendLimit(cash, requested), price);
      if FirstFill(cash, requested, price).Some? {
        SecondRoundingNeverRuns(cash, requested, price);
      }
    }
  }

  // ---- Orders and runs -------------------------------------------------------------

  datatype Account = Account(cash: real, books: map<nat, seq<Lot>>, trades: seq<Trade>)

  /** `amount` is shares for a sell and money for a buy; `fills` is the answer of the execution callback. */
  datatype Order = Order(side: Side, idx: nat, day: int, amount: real, price: real, fills: bool)

  function BookOf(books: map<nat, seq<Lot>>, idx: nat): seq<Lot> {
    if idx in books then books[idx] else []
  }

  function ApplySell(l: Account, symbol: string, o: Order, tol: Tolerance): (r: Account)
    requires WellFormed(l.trades)
    ensures WellFormed(r.trades)
  {
    var sold := Min(o.amount, Available(BookOf(l.books, o.idx), o.day));
    if o.idx !in l.books || sold <= 0.0 || !o.fills then l
    else
      var value := Worth(sold, o.price);
      var cost := CostOf(value, Sell);
      Account(
        l.cash + value - cost,
        l.books[o.idx := AfterPop(l.books[o.idx], sold, o.day, tol)],
        l.trades + [Trade(o.day, symbol, Sell, sold, o.price, value, cost)])
  }

  function ApplyBuy(l: Account, symbol: string, o: Order): (r: Account)
    requires o.price > 0.0 && WellFormed(l.trades)
    ensures WellFormed(r.trades)
  {
    match PlanBuy(l.cash, o.amount, o.price)
    case None => l
    case Some(f) =>
      if !o.fills then l
      else
        Account(
          l.cash - (f.value + f.cost),
          l.books[o.idx := BookOf(l.books, o.idx) + [Lot(f.shares, o.day + 1)]],
          l.trades + [Trade(o.day, symbol, Buy, f.shares, o.price, f.value, f.cost)])
  }

  function Apply(l: Account, symbols: seq<string>, o: Order, tol: Tolerance): (r: Account)
    requires o.idx < |symbols| && o.price > 0.0 && WellFormed(l.trades)
    ensures WellFormed(r.trades)
  {
    if o.side.Sell? then ApplySell(l, symbols[o.idx], o, tol) else ApplyBuy(l, symbols[o.idx], o)
  }

  ghost predicate Distinct(symbols: seq<string>) {
    forall i, j :: 0 <= i < j < |symbols| ==> symbols[i] != symbols[j]
  }

  predicate Legal(symbols: seq<string>, orders: seq<Order>) {
    forall k :: 0 <= k < |orders| ==> orders[k].idx < |symbols| && orders[k].price > 0.0
  }

  /** The day loop only moves forward. */
  ghost predicate Chronological(orders: seq<Order>) {
    forall j, k :: 0 <= j < k < |orders| ==> orders[j].day <= orders[k].day
  }

  ghost predicate By(orders: seq<Order>, day: int) {
    forall k :: 0 <= k < |orders| ==> orders[k].day <= day
  }

  /** Applying orders to a ledger, last order last. */
  function ApplyAll(l: Account, symbols: seq<string>, orders: seq<Order>, tol: Tolerance): (r: Account)
    requires Legal(symbols, orders) && WellFormed(l.trades)
    ensures WellFormed(r.trades)
  {
    if orders == [] then l
    else
      var n := |orders| - 1;
      Apply(ApplyAll(l, symbols, orders[..n], tol), symbols, orders[n], tol)
  }

  function Run(cash: real, symbols: seq<string>, orders: seq<Order>, tol: Tolerance): (r: Account)
    requires Legal(symbols, orders)
    ensures WellFormed(r.trades)
  {
    ApplyAll(Account(cash, map[], []), symbols, orders, tol)
  }

  lemma {:induction false} ApplyAllConcat(l: Account, symbols: seq<string>, a: seq<Order>, b: seq<Order>,
                                          tol: Tolerance)
    requires Legal(symbols, a) && Legal(symbols, b) && WellFormed(l.trades)
    ensures Legal(symbols, a + b)
    ensures ApplyAll(l, symbols, a + b, tol) == ApplyAll(ApplyAll(l, symbols, a, tol), symbols, b, tol)
  {
    if b == [] {
      assert a + b == a;
    } else {
      var n := |b| - 1;
      assert (a + b)[..|a + b| - 1] == a + b[..n];
      ApplyAllConcat(l, symbols, a, b[..n], tol);
    }
  }

  // ---- Shares: T+1 and conservation ------------------------------------------------

  /** Shares of `symbol` bought before day `t`. */
  function BoughtBefore(trades: seq<Trade>, symbol: string, t: int): real {
    if trades == [] then 0.0
    else
      var n := |trades| - 1;
      BoughtBefore(trades[..n], symbol, t)
      + (if trades[n].side.Buy? && trades[n].symbol == symbol && trades[n].day < t then trades[n].shares else 0.0)
  }

  /** Shares of `symbol` sold up to and including day `t`. */
  function SoldUpTo(trades: seq<Trade>, symbol: string, t: int): real {
    if trades == [] then 0.0
    else
      var n := |trades| - 1;
      SoldUpTo(trades[..n], symbol, t)
      + (if trades[n].side.Sell? && trades[n].symbol == symbol && trades[n].day <= t then trades[n].shares else 0.0)
  }

  function SellCount(trades: seq<Trade>, symbol: string): nat {
    if trades == [] then 0
    else
      var n := |trades| - 1;
      SellCount(trades[..n], symbol) + (if trades[n].side.Sell? && trades[n].symbol == symbol then 1 else 0)
  }

  /** `n` thresholds. */
  function Times(n: nat, unit: real): real {
    if n == 0 then 0.0 else Times(n - 1, unit) + unit
  }

  ghost predicate BookTracksLog(book: seq<Lot>, trades: seq<Trade>, symbol: string, tol: Tolerance, day: int, t: int) {
    var n := SellCount(trades, symbol);
    var net := BoughtBefore(trades, symbol, t) - SoldUpTo(trades, symbol, t);
    && net - Times(n, tol.drop) <= Available(book, t) <= net + Times(n, tol.stop)
    && AllAbove(book, tol.drop)
    && Ordered(book)
    && (forall k :: 0 <= k < |book| ==> book[k].availableDate <= day + 1)
  }

  lemma LogStep(trades: seq<Trade>, trade: Trade, symbol: string, t: int)
    ensures var log, ours := trades + [trade], trade.symbol == symbol;
            && BoughtBefore(log, symbol, t)
               == BoughtBefore(trades, symbol, t)
                  + (if ours && trade.side.Buy? && trade.day < t then trade.shares else 0.0)
            && SoldUpTo(log, symbol, t)
               == SoldUpTo(trades, symbol, t)
                  + (if ours && trade.side.Sell? && trade.day <= t then trade.shares else 0.0)
            && SellCount(log, symbol) == SellCount(trades, symbol) + (if ours && trade.side.Sell? then 1 else 0)
  {
    var log := trades + [trade];
    assert log[..|log| - 1] == trades;
  }

  lemma SellKeepsTrack(book: seq<Lot>, trades: seq<Trade>, trade: Trade, tol: Tolerance, t: int)
    requires tol.Valid() && trade.day <= t && trade.side.Sell?
    requires BookTracksLog(book, trades, trade.symbol, tol, trade.day, t)
    requires 0.0 < trade.shares <= Available(book, trade.day)
    ensures BookTracksLog(AfterPop(book, trade.shares, trade.day, tol), trades + [trade], trade.symbol, tol, trade.day,
                          t)
  {
    hide AfterPop, Available, BoughtBefore, SoldUpTo, SellCount;
    PopAccuracy(book, trade.shares, trade.day, tol, t);
    PopKeepsOrder(book, trade.shares, trade.day, tol, trade.day + 1);
    LogStep(trades, trade, trade.symbol, t);
  }

  lemma BuyKeepsTrack(book: seq<Lot>, trades: seq<Trade>, trade: Trade, tol: Tolerance, t: int)
    requires tol.Valid() && trade.day <= t && trade.side.Buy?
    requires BookTracksLog(book, trades, trade.symbol, tol, trade.day, t)
    requires trade.shares > tol.drop
    ensures BookTracksLog(book + [Lot(trade.shares, trade.day + 1)], trades + [trade], trade.symbol, tol, trade.day, t)
  {
    hide BoughtBefore, SoldUpTo, SellCount, Times;
    LogStep(trades, trade, trade.symbol, t);
    AvailableConcat(book, [Lot(trade.shares, trade.day + 1)], t);
    assert Available([Lot(trade.shares, trade.day + 1)], t) == if trade.day < t then trade.shares else 0.0;
  }

  lemma OthersKeepTrack(book: seq<Lot>, trades: seq<Trade>, trade: Trade, symbol: string, tol: Tolerance, day: int,
                        t: int)
    requires BookTracksLog(book, trades, symbol, tol, day, t) && trade.symbol != symbol && day <= trade.day <= t
    ensures BookTracksLog(book, trades + [trade], symbol, tol, trade.day, t)
  {
    hide BoughtBefore, SoldUpTo, SellCount, Times;
    LogStep(trades, trade, symbol, t);
  }

  /** The trade an executed order records. */
  function TradeOf(l: Account, symbol: string, o: Order): Trade
    requires o.price > 0.0
  {
    if o.side.Sell? then
      var sold := Min(o.amount, Available(BookOf(l.books, o.idx), o.day));
      Trade(o.day, symbol, Sell, sold, o.price, Worth(sold, o.price), CostOf(Worth(sold, o.price), Sell))
    else
      match PlanBuy(l.cash, o.amount, o.price)
      case None => Trade(o.day, symbol, Buy, 0.0, o.price, 0.0, 0.0)
      case Some(f) => Trade(o.day, symbol, Buy, f.shares, o.price, f.value, f.cost)
  }

  /** The cash and book moves that go with a recorded trade. */
  ghost predicate Executes(l: Account, r: Account, trade: Trade, symbol: string, o: Order, tol: Tolerance) {
    var book := BookOf(l.books, o.idx);
    && r.trades == l.trades + [trade] && trade.shares > 0.0
    && trade.symbol == symbol && trade.day == o.day && trade.side == o.side && trade.price == o.price
    && trade.value == Worth(trade.shares, o.price) && trade.cost == CostOf(trade.value, o.side)
    && (forall j: nat :: j != o.idx ==> BookOf(r.books, j) == BookOf(l.books, j))
    && if o.side.Sell? then
         && trade.shares <= Available(book, o.day) && trade.shares <= o.amount
         && r.cash == l.cash + trade.value - trade.cost
         && BookOf(r.books, o.idx) == AfterPop(book, trade.shares, o.day, tol)
       else
         && trade.shares >= 100.0 && trade.value <= o.amount && trade.value + trade.cost <= l.cash + CASH_SLACK
         && r.cash == l.cash - (trade.value + trade.cost)
         && BookOf(r.books, o.idx) == book + [Lot(trade.shares, o.day + 1)]
  }

  lemma SellIsAtomic(l: Account, symbol: string, o: Order, tol: Tolerance)
    requires o.side.Sell? && o.price > 0.0 && WellFormed(l.trades)
    ensures var r := ApplySell(l, symbol, o, tol);
            r == l || (o.fills && Executes(l, r, TradeOf(l, symbol, o), symbol, o, tol))
  {
  }

  lemma BuyIsAtomic(l: Account, symbol: string, o: Order, tol: Tolerance)
    requires o.side.Buy? && o.price > 0.0 && WellFormed(l.trades)
    ensures var r := ApplyBuy(l, symbol, o);
            r == l || (o.fills && Executes(l, r, TradeOf(l, symbol, o), symbol, o, tol))
  {
    hide PlanBuy, SpendLimit;
    if PlanBuy(l.cash, o.amount, o.price).Some? {
      BuyIsLargestAffordableLot(l.cash, o.amount, o.price);
    }
  }

  /** An order is all or nothing: no change at all, or its trade with the matching cash and book moves. */
  lemma OrderIsAtomic(l: Account, symbols: seq<string>, o: Order, tol: Tolerance)
    requires o.idx < |symbols| && o.price > 0.0 && WellFormed(l.trades)
    ensures var r := Apply(l, symbols, o, tol);
            r == l || (o.fills && Executes(l, r, TradeOf(l, symbols[o.idx], o), symbols[o.idx], o, tol))
  {
    if o.side.Sell? {
      SellIsAtomic(l, symbols[o.idx], o, tol);
    } else {
      BuyIsAtomic(l, symbols[o.idx], o, tol);
    }
  }

  lemma TracksLater(book: seq<Lot>, trades: seq<Trade>, symbol: string, tol: Tolerance, day: int, later: int, t: int)
    requires BookTracksLog(book, trades, symbol, tol, day, t) && day <= later
    ensures BookTracksLog(book, trades, symbol, tol, later, t)
  {
  }

  lemma NothingTracked(symbol: string, tol: Tolerance, day: int, t: int)
    ensures BookTracksLog([], [], symbol, tol, day, t)
  {
  }

  /** The released part of a book tracks bought-minus-sold within one threshold per sale. */
  lemma {:induction false} RunShares(cash: real, symbols: seq<string>, orders: seq<Order>, tol: Tolerance,
                                     i: nat, day: int, t: int)
    requires Legal(symbols, orders) && Chronological(orders) && Distinct(symbols)
    requires tol.Valid() && tol.drop < 100.0 && i < |symbols| && By(orders, day) && day <= t
    ensures var l := Run(cash, symbols, orders, tol);
            BookTracksLog(BookOf(l.books, i), l.trades, symbols[i], tol, day, t)
  {
    if orders != [] {
      hide Apply, TradeOf, BookTracksLog, AfterPop, Available, Worth, CostOf;
      var n := |orders| - 1;
      var o := orders[n];
      var before, after := Run(cash, symbols, orders[..n], tol), Run(cash, symbols, orders, tol);
      RunShares(cash, symbols, orders[..n], tol, i, o.day, t);
      OrderIsAtomic(before, symbols, o, tol);
      var book, trade := BookOf(before.books, i), TradeOf(before, symbols[o.idx], o);
      if after != before {
        if o.idx != i {
          OthersKeepTrack(book, before.trades, trade, symbols[i], tol, o.day, t);
        } else if o.side.Sell? {
          SellKeepsTrack(book, before.trades, trade, tol, t);
        } else {
          BuyKeepsTrack(book, before.trades, trade, tol, t);
        }
      }
      TracksLater(BookOf(after.books, i), after.trades, symbols[i], tol, o.day, day, t);
    } else {
      NothingTracked(symbols[i], tol, day, t);
    }
  }
}
