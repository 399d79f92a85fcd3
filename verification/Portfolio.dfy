/** The mutable portfolio of engines/backtest/portfolio_backtest.py: sell, buy, rebalance, day loop. */
module Portfolio {
  import opened Wrappers
  import opened Execution
  import opened WinRate
  import opened Ledger
  import opened LedgerLaws
  import opened Selection

  /** The execution callback: may an order of this side, symbol, quantity and price be filled today? */
  type Executor = (Side, nat, real, real) -> bool

  function TradedValue(trades: seq<Trade>): real {
    if trades == [] then 0.0 else TradedValue(trades[..|trades| - 1]) + trades[|trades| - 1].value
  }

  lemma TradedAppend(trades: seq<Trade>, trade: Trade)
    ensures TradedValue(trades + [trade]) == TradedValue(trades) + trade.value
  {
    assert (trades + [trade])[..|trades|] == trades;
  }

  /** A valid price: the execution price, else the last close, else the holding is not valued. */
  function MarkOf(q: Quote): real {
    if ValidPrice(q.price) then q.price.value else if ValidPrice(q.lastClose) then q.lastClose.value else 0.0
  }

  function HeldShares(books: map<nat, seq<Lot>>, i: nat): real { Total(BookOf(books, i)) }

  function HoldingValue(books: map<nat, seq<Lot>>, panel: seq<Quote>, i: nat): real {
    if i < |panel| then Worth(HeldShares(books, i), MarkOf(panel[i])) else 0.0
  }

  /** Holdings of at most the dust threshold are not valued. */
  function Equity(books: map<nat, seq<Lot>>, panel: seq<Quote>, keys: seq<nat>): real {
    if keys == [] then 0.0
    else
      var n := |keys| - 1;
      Equity(books, panel, keys[..n]) +
      (if HeldShares(books, keys[n]) <= HELD_EPS then 0.0 else HoldingValue(books, panel, keys[n]))
  }

  /** The recorded answer of the execution callback, asked with the quantity the order would trade. */
  ghost predicate Answered(l: Account, o: Order, execute: Executor)
    requires o.price > 0.0
  {
    if o.side.Sell? then
      o.fills == execute(Sell, o.idx, Min(o.amount, Available(BookOf(l.books, o.idx), o.day)), o.price)
    else
      var plan := PlanBuy(l.cash, o.amount, o.price);
      plan.Some? ==> o.fills == execute(Buy, o.idx, plan.value.shares, o.price)
  }

  /** Every order is placed on day `t`, with the callback's answer in the account it meets. */
  ghost predicate AllAnswered(l: Account, symbols: seq<string>, orders: seq<Order>, t: int, execute: Executor)
    requires Legal(symbols, orders) && WellFormed(l.trades)
  {
    orders == [] ||
    (var n := |orders| - 1;
     && AllAnswered(l, symbols, orders[..n], t, execute)
     && orders[n].day == t
     && Answered(ApplyAll(l, symbols, orders[..n], SOURCE_TOLERANCE), orders[n], execute))
  }

  /** The orders of day `t` lead from one account to the other. */
  ghost predicate Played(l: Account, r: Account, symbols: seq<string>, orders: seq<Order>, t: int, execute: Executor) {
    && Legal(symbols, orders) && WellFormed(l.trades)
    && r == ApplyAll(l, symbols, orders, SOURCE_TOLERANCE)
    && AllAnswered(l, symbols, orders, t, execute)
  }

  lemma PlayedNothing(l: Account, symbols: seq<string>, t: int, execute: Executor)
    requires WellFormed(l.trades)
    ensures Played(l, l, symbols, [], t, execute)
  {
  }

  lemma PlayedStep(l: Account, m: Account, symbols: seq<string>, orders: seq<Order>, o: Order, t: int,
                   execute: Executor)
    requires Played(l, m, symbols, orders, t, execute)
    requires o.idx < |symbols| && o.price > 0.0 && o.day == t && WellFormed(m.trades) && Answered(m, o, execute)
    ensures Played(l, Apply(m, symbols, o, SOURCE_TOLERANCE), symbols, orders + [o], t, execute)
  {
    hide Apply, Answered, WellFormed;
    var all := orders + [o];
    assert all[..|all| - 1] == orders;
    assert Legal(symbols, all);
  }

  lemma {:induction false} PlayedJoin(l: Account, m: Account, r: Account, symbols: seq<string>,
                                      a: seq<Order>, b: seq<Order>, t: int, execute: Executor)
    requires Played(l, m, symbols, a, t, execute) && Played(m, r, symbols, b, t, execute)
    ensures Played(l, r, symbols, a + b, t, execute)
    decreases |b|
  {
    hide Apply, Answered, WellFormed;
    if b == [] {
      assert a + b == a;
    } else {
      var n := |b| - 1;
      var p := ApplyAll(m, symbols, b[..n], SOURCE_TOLERANCE);
      PlayedJoin(l, m, p, symbols, a, b[..n], t, execute);
      PlayedStep(l, p, symbols, a + b[..n], b[n], t, execute);
      assert a + b == a + b[..n] + [b[n]];
    }
  }

  function Names(orders: seq<Order>): seq<nat> {
    if orders == [] then [] else Names(orders[..|orders| - 1]) + [orders[|orders| - 1].idx]
  }

  lemma NamesStep(orders: seq<Order>, o: Order)
    ensures Names(orders + [o]) == Names(orders) + [o.idx]
  {
    assert (orders + [o])[..|orders|] == orders;
  }

  /** One order touches one book. */
  lemma OtherBooks(l: Account, symbols: seq<string>, o: Order, j: nat, panel: seq<Quote>)
    requires o.idx < |symbols| && o.price > 0.0 && WellFormed(l.trades) && j != o.idx
    ensures var books := Apply(l, symbols, o, SOURCE_TOLERANCE).books;
            && HeldShares(books, j) == HeldShares(l.books, j)
            && HoldingValue(books, panel, j) == HoldingValue(l.books, panel, j)
  {
    hide Total, Worth, MarkOf, PlanBuy, CostOf;
  }

  ghost predicate NoDup(s: seq<nat>) {
    forall j, k :: 0 <= j < k < |s| ==> s[j] != s[k]
  }

  // ---- What each phase of a rebalance orders -----------------------------------------

  predicate CanSell(panel: seq<Quote>, limitOrder: bool, i: nat) {
    i < |panel| && Tradable(panel[i], limitOrder) && SellAllowed(panel[i])
  }

  /** Step one sells what left the target pool; steps three and four move targets towards their share. */
  datatype Phase = Exiting(targets: seq<nat>) | Trimming(goal: real) | Buying(goal: real)

  /**
   * Exits and trims must be sellable today, buys must not be blocked at the upper limit, and tiny moves are skipped.
   */
  predicate Wants(phase: Phase, books: map<nat, seq<Lot>>, panel: seq<Quote>, limitOrder: bool, i: nat) {
    match phase
    case Exiting(targets) => i !in targets && HeldShares(books, i) > HELD_EPS && CanSell(panel, limitOrder, i)
    case Trimming(goal) => HoldingValue(books, panel, i) - goal > MIN_TRADE_VALUE && CanSell(panel, limitOrder, i)
    case Buying(goal) => i < |panel| && goal - HoldingValue(books, panel, i) > MIN_TRADE_VALUE && BuyAllowed(panel[i])
  }

  /** The names a phase orders, in the order given. */
  function Wanting(phase: Phase, books: map<nat, seq<Lot>>, panel: seq<Quote>, limitOrder: bool,
                   names: seq<nat>): seq<nat> {
    if names == [] then []
    else
      var n := |names| - 1;
      Wanting(phase, books, panel, limitOrder, names[..n])
      + if Wants(phase, books, panel, limitOrder, names[n]) then [names[n]] else []
  }

  lemma NothingWanted(phase: Phase, books: map<nat, seq<Lot>>, panel: seq<Quote>, limitOrder: bool, names: seq<nat>)
    ensures Names([]) == [] == Wanting(phase, books, panel, limitOrder, names[..0])
  {
  }

  lemma WantingStep(phase: Phase, books: map<nat, seq<Lot>>, panel: seq<Quote>, limitOrder: bool, names: seq<nat>,
                    n: nat)
    requires n < |names|
    ensures Wanting(phase, books, panel, limitOrder, names[..n + 1]) ==
            Wanting(phase, books, panel, limitOrder, names[..n])
            + if Wants(phase, books, panel, limitOrder, names[n]) then [names[n]] else []
  {
    hide Wants;
    assert names[..n + 1][..n] == names[..n];
  }

  lemma {:induction false} WantingIsPart(phase: Phase, books: map<nat, seq<Lot>>, panel: seq<Quote>, limitOrder: bool,
                                         names: seq<nat>)
    ensures forall i :: i in Wanting(phase, books, panel, limitOrder, names) ==> i in names
  {
    hide Wants;
    if names != [] {
      WantingIsPart(phase, books, panel, limitOrder, names[..|names| - 1]);
    }
  }

  predicate IsExit(books: map<nat, seq<Lot>>, panel: seq<Quote>, o: Order) {
    o.side.Sell? && o.idx < |panel| && o.amount == HeldShares(books, o.idx) && panel[o.idx].price == Some(o.price)
  }

  predicate IsTrim(books: map<nat, seq<Lot>>, panel: seq<Quote>, goal: real, o: Order) {
    && o.side.Sell? && o.idx < |panel| && panel[o.idx].price == Some(o.price) && o.price > 0.0
    && o.amount == (HoldingValue(books, panel, o.idx) - goal) / o.price
  }

  predicate IsBuy(books: map<nat, seq<Lot>>, panel: seq<Quote>, goal: real, o: Order) {
    && o.side.Buy? && o.idx < |panel| && panel[o.idx].price == Some(o.price)
    && o.amount == goal - HoldingValue(books, panel, o.idx)
  }

  function HeldIn(books: map<nat, seq<Lot>>): set<nat> { set i | i in books && HeldShares(books, i) > HELD_EPS }

  /** The phases of one rebalance: exits, then trims and buys towards the equal-weight goal. */
  datatype Plan = Plan(targets: seq<nat>, exits: seq<Order>, mid: Account, goal: real,
                       trims: seq<Order>, low: Account, buys: seq<Order>)

  /** Trims and buys follow the goal exactly, and nothing bought ends above it. */
  ghost predicate Reweighted(m: Account, r: Account, keys: seq<nat>, panel: seq<Quote>, symbols: seq<string>,
                             limitOrder: bool, t: int, execute: Executor, targets: seq<nat>, goal: real,
                             trims: seq<Order>, low: Account, buys: seq<Order>) {
    && targets != [] && goal == (m.cash + Equity(m.books, panel, keys)) * 0.99 / |targets| as real
    && Played(m, low, symbols, trims, t, execute)
    && (forall k :: 0 <= k < |trims| ==> IsTrim(m.books, panel, goal, trims[k]))
    && Names(trims) == Wanting(Trimming(goal), m.books, panel, limitOrder, targets)
    && Played(low, r, symbols, buys, t, execute)
    && (forall k :: 0 <= k < |buys| ==> IsBuy(low.books, panel, goal, buys[k]))
    && Names(buys) == Wanting(Buying(goal), low.books, panel, limitOrder, targets)
    && (forall i :: i in Names(buys) ==> HoldingValue(r.books, panel, i) <= goal)
  }

  ghost predicate Rebalanced(l: Account, r: Account, keys: seq<nat>, panel: seq<Quote>, symbols: seq<string>,
                             topK: nat, limitOrder: bool, t: int, execute: Executor, p: Plan) {
    && p.targets == Targets(panel, HeldIn(l.books), topK, limitOrder)
    && Played(l, p.mid, symbols, p.exits, t, execute)
    && (forall k :: 0 <= k < |p.exits| ==> IsExit(l.books, panel, p.exits[k]))
    && Names(p.exits) == Wanting(Exiting(p.targets), l.books, panel, limitOrder, keys)
    && if p.targets == [] then p.trims == p.buys == [] && p.mid == p.low == r
       else Reweighted(p.mid, r, keys, panel, symbols, limitOrder, t, execute, p.targets, p.goal, p.trims, p.low,
                       p.buys)
  }

  lemma TargetsArePriced(panel: seq<Quote>, held: set<nat>, topK: nat, limitOrder: bool)
    ensures var targets := Targets(panel, held, topK, limitOrder);
            NoDup(targets) && forall i :: i in targets ==> i < |panel| && ValidPrice(panel[i].price)
  {
    hide Targets;
    TargetsAreBest(panel, held, topK, limitOrder);
  }

  lemma RefusedOrder(l: Account, symbols: seq<string>, o: Order)
    requires o.idx < |symbols| && o.price > 0.0 && WellFormed(l.trades)
    requires o.side.Sell? ==>
               (!o.fills || o.idx !in l.books || Min(o.amount, Available(BookOf(l.books, o.idx), o.day)) <= 0.0)
    requires o.side.Buy? ==> (!o.fills || PlanBuy(l.cash, o.amount, o.price).None?)
    ensures Apply(l, symbols, o, SOURCE_TOLERANCE) == l
  {
  }

  lemma FilledBuy(l: Account, symbols: seq<string>, o: Order, f: Fill)
    requires o.idx < |symbols| && o.price > 0.0 && WellFormed(l.trades)
    requires o.side.Buy? && o.fills && PlanBuy(l.cash, o.amount, o.price) == Some(f)
    ensures Apply(l, symbols, o, SOURCE_TOLERANCE)
         == Account(l.cash - (f.value + f.cost), l.books[o.idx := BookOf(l.books, o.idx) + [Lot(f.shares, o.day + 1)]],
                    l.trades + [Trade(o.day, symbols[o.idx], Buy, f.shares, o.price, f.value, f.cost)])
  {
  }

  lemma FilledSell(l: Account, symbols: seq<string>, o: Order, sold: real)
    requires o.idx < |symbols| && o.price > 0.0 && WellFormed(l.trades)
    requires o.side.Sell? && o.fills && o.idx in l.books
    requires sold == Min(o.amount, Available(l.books[o.idx], o.day)) && sold > 0.0
    ensures var value := Worth(sold, o.price);
            Apply(l, symbols, o, SOURCE_TOLERANCE) ==
            Account(l.cash + (value - CostOf(value, Sell)),
                    l.books[o.idx := AfterPop(l.books[o.idx], sold, o.day, SOURCE_TOLERANCE)],
                    l.trades + [Trade(o.day, symbols[o.idx], Sell, sold, o.price, value, CostOf(value, Sell))])
  {
  }

  class PortfolioState {
    var cash: real
    var books: map<nat, PositionBook>
    /** Insertion order of `books`. */
    var keys: seq<nat>
    var trades: seq<Trade>

    ghost predicate Valid()
      reads this, books.Values
    {
      && (forall i, j :: i in books && j in books && i != j ==> books[i] != books[j])
      && (forall i :: i in books <==> i in keys) && NoDup(keys)
      && WellFormed(trades)
    }

    ghost function Books(): map<nat, seq<Lot>>
      reads this`books, books.Values
    {
      map i | i in books :: books[i].lots
    }

    ghost function View(): Account
      reads this, books.Values
    {
      Account(cash, Books(), trades)
    }

    constructor (initialCash: real)
      ensures Valid() && View() == Account(initialCash, map[], []) && books == map[] && keys == []
    {
      cash, books, keys, trades := initialCash, map[], [], [];
    }

    method SharesOf(i: nat) returns (shares: real)
      requires Valid()
      ensures shares == HeldShares(Books(), i)
    {
      if i in books {
        shares := books[i].TotalShares();
      } else {
        shares := 0.0;
      }
    }

    /** Sell up to `shares`, limited to the T+1-available amount. */
    method SellShares(i: nat, day: int, shares: real, price: real, symbols: seq<string>, execute: Executor)
      returns (value: real, ghost order: Order)
      requires Valid() && price > 0.0 && i < |symbols|
      modifies this, books.Values
      ensures Valid() && keys == old(keys) && books == old(books)
      ensures order == Order(Sell, i, day, shares, price, order.fills)
      ensures Answered(old(View()), order, execute)
      ensures View() == Apply(old(View()), symbols, order, SOURCE_TOLERANCE)
      ensures TradedValue(trades) == TradedValue(old(trades)) + value
    {
      hide Apply, CostOf, Worth, Available, AfterPop;
      ghost var before := View();
      value := 0.0;
      order := Order(Sell, i, day, shares, price,
                     execute(Sell, i, Min(shares, Available(BookOf(before.books, i), day)), price));
      if i !in books {
        RefusedOrder(before, symbols, order);
        return;
      }
      var available := books[i].AvailableShares(day);
      var sold := Min(shares, available);
      if sold <= 0.0 || !execute(Sell, i, sold, price) {
        RefusedOrder(before, symbols, order);
        return;
      }
      FilledSell(before, symbols, order, sold);
      sold := books[i].PopAvailable(sold, day);
      value := Worth(sold, price);
      var cost := CostOf(value, Sell);
      cash := cash + (value - cost);
      trades := trades + [Trade(day, symbols[i], Sell, sold, price, value, cost)];
      assert trades[..|trades| - 1] == before.trades;
      assert Books() == before.books[i := AfterPop(before.books[i], sold, day, SOURCE_TOLERANCE)];
    }

    /** Buy for about `requested`, within cash and in round lots. */
    method BuyValue(i: nat, day: int, requested: real, price: real, symbols: seq<string>, execute: Executor)
      returns (value: real, ghost order: Order)
      requires Valid() && price > 0.0 && i < |symbols|
      modifies this, books.Values
      ensures Valid() && fresh(books.Values - old(books.Values)) && books.Keys <= old(books).Keys + {i}
      ensures order == Order(Buy, i, day, requested, price, order.fills)
      ensures Answered(old(View()), order, execute)
      ensures View() == Apply(old(View()), symbols, order, SOURCE_TOLERANCE)
      ensures TradedValue(trades) == TradedValue(old(trades)) + value
    {
      hide Apply, PlanBuy, WellFormed, BookOf, TradedValue, CostOf, Worth;
      ghost var before := View();
      value := 0.0;
      var plan := ChooseFill(requested, price);
      if plan.None? {
        order := Order(Buy, i, day, requested, price, false);
        RefusedOrder(before, symbols, order);
        return;
      }
      var fill := plan.value;
      assert fill.shares > 0.0;
      order := Order(Buy, i, day, requested, price, execute(Buy, i, fill.shares, price));
      if !execute(Buy, i, fill.shares, price) {
        RefusedOrder(before, symbols, order);
        return;
      }
      FilledBuy(before, symbols, order, fill);
      value := fill.value;
      TradedAppend(trades, Trade(day, symbols[i], Buy, fill.shares, price, fill.value, fill.cost));
      Settle(i, day, fill, price, symbols[i]);
    }

    /** Pay for the fill, book its lot and log the trade. */
    method Settle(i: nat, day: int, fill: Fill, price: real, symbol: string)
      requires Valid() && fill.shares > 0.0
      modifies this, books.Values
      ensures Valid() && fresh(books.Values - old(books.Values)) && books.Keys <= old(books).Keys + {i}
      ensures View() == Account(old(cash) - (fill.value + fill.cost),
                                old(Books())[i := BookOf(old(Books()), i) + [Lot(fill.shares, day + 1)]],
                                old(trades) + [Trade(day, symbol, Buy, fill.shares, price, fill.value, fill.cost)])
    {
      AddLot(i, day, fill.shares);
      ghost var booked := Books();
      cash := cash - (fill.value + fill.cost);
      trades := trades + [Trade(day, symbol, Buy, fill.shares, price, fill.value, fill.cost)];
      assert Books() == booked;
    }

    /** Book the purchase, opening the symbol's book on first use. */
    method AddLot(i: nat, day: int, shares: real)
      requires Valid()
      modifies this`books, this`keys, books.Values
      ensures Valid() && fresh(books.Values - old(books.Values)) && books.Keys <= old(books).Keys + {i}
      ensures Books() == old(Books())[i := BookOf(old(Books()), i) + [Lot(shares, day + 1)]]
    {
      hide WellFormed;
      ghost var before := Books();
      if i !in books {
        var book := new PositionBook();
        books := books[i := book];
        keys := keys + [i];
      }
      books[i].Add(shares, day);
      assert Books() == before[i := BookOf(before, i) + [Lot(shares, day + 1)]];
    }

    /** Fit the amount to cash, round it, and round again if the first rounding does not fit. */
    method ChooseFill(requested: real, price: real) returns (plan: Option<Fill>)
      requires price > 0.0
      ensures plan == PlanBuy(cash, requested, price)
    {
      hide CostOf, RoundBuyShares, Worth;
      var value := Min(requested, cash);
      if value <= MIN_TRADE_VALUE {
        return None;
      }
      var pass := 0;
      while pass < 2
        invariant 0 <= pass <= 2
        invariant pass == 0 ==> value == Min(requested, cash)
        invariant pass == 1 ==> value == Shrink(cash, Min(requested, cash))
        invariant pass == 2 ==> value == Shrink(cash, Shrink(cash, Min(requested, cash)))
      {
        var cost := CostOf(value, Buy);
        if value + cost <= cash + CASH_SLACK {
          break;
        }
        value := Max(cash - cost, 0.0);
        pass := pass + 1;
      }
      assert value == Shrink(cash, Shrink(cash, Min(requested, cash)));
      if value <= MIN_TRADE_VALUE {
        return None;
      }
      var fill := FillAt(RoundBuyShares(value / price), price);
      if fill.shares <= 0.0 || fill.value <= MIN_TRADE_VALUE {
        return None;
      }
      if fill.value + fill.cost > cash + CASH_SLACK {
        fill := FillAt(RoundBuyShares(Max(cash - fill.cost, 0.0) / price), price);
        if fill.shares <= 0.0 || fill.value + fill.cost > cash + CASH_SLACK {
          return None;
        }
      }
      return Some(fill);
    }

    /** Step one: sell what left the target pool, in the order the books were opened. */
    method SellExits(t: int, panel: seq<Quote>, symbols: seq<string>, execute: Executor, limitOrder: bool,
                     targets: seq<nat>)
      returns (traded: real, ghost orders: seq<Order>)
      requires Valid() && |panel| == |symbols|
      modifies this, books.Values
      ensures Valid() && keys == old(keys) && books == old(books)
      ensures Played(old(View()), View(), symbols, orders, t, execute)
      ensures TradedValue(trades) == TradedValue(old(trades)) + traded
      ensures forall k :: 0 <= k < |orders| ==> IsExit(old(Books()), panel, orders[k])
      ensures Names(orders) == Wanting(Exiting(targets), old(Books()), panel, limitOrder, old(keys))
    {
      hide Apply, Answered, SellAllowed, HeldShares, TradedValue, WellFormed, Played, Names, Wanting;
      ghost var start := View();
      traded, orders := 0.0, [];
      PlayedNothing(start, symbols, t, execute);
      NothingWanted(Exiting(targets), start.books, panel, limitOrder, keys);
      for n := 0 to |keys|
        invariant Valid() && keys == old(keys) && books == old(books)
        invariant Played(start, View(), symbols, orders, t, execute)
        invariant TradedValue(trades) == TradedValue(old(trades)) + traded
        invariant forall k :: 0 <= k < |orders| ==> IsExit(start.books, panel, orders[k])
        invariant Names(orders) == Wanting(Exiting(targets), start.books, panel, limitOrder, keys[..n])
        invariant forall m :: n <= m < |keys| ==> HeldShares(Books(), keys[m]) == HeldShares(start.books, keys[m])
      {
        var i := keys[n];
        WantingStep(Exiting(targets), start.books, panel, limitOrder, keys, n);
        var shares := SharesOf(i);
        if i in targets || shares <= HELD_EPS || !CanSell(panel, limitOrder, i) {
          continue;
        }
        ghost var before := View();
        var value, order := SellShares(i, t, shares, panel[i].price.value, symbols, execute);
        PlayedStep(start, before, symbols, orders, order, t, execute);
        NamesStep(orders, order);
        forall m | n + 1 <= m < |keys| ensures HeldShares(Books(), keys[m]) == HeldShares(start.books, keys[m]) {
          OtherBooks(before, symbols, order, keys[m], panel);
        }
        orders := orders + [order];
        traded := traded + value;
      }
      assert keys[..|keys|] == keys;
    }

    /** Current value of one holding at the execution price, or the last close. */
    method CurrentValue(i: nat, panel: seq<Quote>) returns (value: real)
      requires Valid() && i < |panel|
      ensures value == HoldingValue(Books(), panel, i)
    {
      var shares := SharesOf(i);
      value := Worth(shares, MarkOf(panel[i]));
    }

    /** Step two: the open equity over all held books. */
    method OpenEquity(panel: seq<Quote>) returns (equity: real)
      requires Valid() && forall i :: i in books ==> i < |panel|
      ensures equity == cash + Equity(Books(), panel, keys)
    {
      hide HeldShares, HoldingValue;
      equity := cash;
      for n := 0 to |keys|
        invariant equity == cash + Equity(Books(), panel, keys[..n])
      {
        assert keys[..n + 1][..n] == keys[..n];
        var shares := SharesOf(keys[n]);
        if shares <= HELD_EPS {
          continue;
        }
        assert keys[n] in keys;
        var value := CurrentValue(keys[n], panel);
        equity := equity + value;
      }
      assert keys[..|keys|] == keys;
    }

    /** Step three: cut overweight targets back to their share. */
    method TrimTargets(t: int, panel: seq<Quote>, symbols: seq<string>, execute: Executor, limitOrder: bool,
                       targets: seq<nat>, goal: real)
      returns (traded: real, ghost orders: seq<Order>)
      requires Valid() && |panel| == |symbols| && NoDup(targets) && forall i :: i in targets ==> i < |panel|
      modifies this, books.Values
      ensures Valid() && keys == old(keys) && books == old(books)
      ensures Played(old(View()), View(), symbols, orders, t, execute)
      ensures TradedValue(trades) == TradedValue(old(trades)) + traded
      ensures forall k :: 0 <= k < |orders| ==> IsTrim(old(Books()), panel, goal, orders[k])
      ensures Names(orders) == Wanting(Trimming(goal), old(Books()), panel, limitOrder, targets)
    {
      hide Apply, Answered, SellAllowed, TradedValue, WellFormed, HoldingValue, Played, Names, Wanting;
      ghost var start := View();
      traded, orders := 0.0, [];
      PlayedNothing(start, symbols, t, execute);
      NothingWanted(Trimming(goal), start.books, panel, limitOrder, targets);
      for n := 0 to |targets|
        invariant Valid() && keys == old(keys) && books == old(books)
        invariant Played(start, View(), symbols, orders, t, execute)
        invariant TradedValue(trades) == TradedValue(old(trades)) + traded
        invariant forall k :: 0 <= k < |orders| ==> IsTrim(start.books, panel, goal, orders[k])
        invariant Names(orders) == Wanting(Trimming(goal), start.books, panel, limitOrder, targets[..n])
        invariant forall m :: n <= m < |targets| ==>
                    HoldingValue(Books(), panel, targets[m]) == HoldingValue(start.books, panel, targets[m])
      {
        var i := targets[n];
        assert i in targets;
        WantingStep(Trimming(goal), start.books, panel, limitOrder, targets, n);
        var value := CurrentValue(i, panel);
        if value - goal <= MIN_TRADE_VALUE || !CanSell(panel, limitOrder, i) {
          continue;
        }
        ghost var before := View();
        var price := panel[i].price.value;
        var sold, order := SellShares(i, t, (value - goal) / price, price, symbols, execute);
        PlayedStep(start, before, symbols, orders, order, t, execute);
        NamesStep(orders, order);
        forall m | n + 1 <= m < |targets|
          ensures HoldingValue(Books(), panel, targets[m]) == HoldingValue(start.books, panel, targets[m])
        {
          OtherBooks(before, symbols, order, targets[m], panel);
        }
        orders := orders + [order];
        traded := traded + sold;
      }
      assert targets[..|targets|] == targets;
    }

    /** Step four: fill up underweight targets; nothing bought ends above its share. */
    method BuyTargets(t: int, panel: seq<Quote>, symbols: seq<string>, execute: Executor, ghost limitOrder: bool,
                      targets: seq<nat>, goal: real)
      returns (traded: real, ghost orders: seq<Order>)
      requires Valid() && |panel| == |symbols| && NoDup(targets)
      requires forall i :: i in targets ==> i < |panel| && ValidPrice(panel[i].price)
      modifies this, books.Values
      ensures Valid() && fresh(books.Values - old(books.Values))
      ensures Played(old(View()), View(), symbols, orders, t, execute)
      ensures TradedValue(trades) == TradedValue(old(trades)) + traded
      ensures forall k :: 0 <= k < |orders| ==> IsBuy(old(Books()), panel, goal, orders[k])
      ensures Names(orders) == Wanting(Buying(goal), old(Books()), panel, limitOrder, targets)
      ensures forall i :: i in Names(orders) ==> HoldingValue(Books(), panel, i) <= goal
      ensures forall i :: i in books ==> i in old(books) || i < |panel|
    {
      hide Apply, Answered, BuyAllowed, TradedValue, WellFormed, HoldingValue, Played, Names, Wanting;
      ghost var start := View();
      traded, orders := 0.0, [];
      PlayedNothing(start, symbols, t, execute);
      NothingWanted(Buying(goal), start.books, panel, limitOrder, targets);
      for n := 0 to |targets|
        invariant Valid() && fresh(books.Values - old(books.Values))
        invariant Played(start, View(), symbols, orders, t, execute)
        invariant TradedValue(trades) == TradedValue(old(trades)) + traded
        invariant forall k :: 0 <= k < |orders| ==> IsBuy(start.books, panel, goal, orders[k])
        invariant forall i :: i in books ==> i in old(books) || i < |panel|
        invariant Names(orders) == Wanting(Buying(goal), start.books, panel, limitOrder, targets[..n])
        invariant forall i :: i in Names(orders) ==> HoldingValue(Books(), panel, i) <= goal
        invariant forall m :: n <= m < |targets| ==>
                    HoldingValue(Books(), panel, targets[m]) == HoldingValue(start.books, panel, targets[m])
      {
        var i := targets[n];
        assert i in targets;
        WantingStep(Buying(goal), start.books, panel, limitOrder, targets, n);
        WantingIsPart(Buying(goal), start.books, panel, limitOrder, targets[..n]);
        var value := CurrentValue(i, panel);
        if goal - value <= MIN_TRADE_VALUE || !BuyAllowed(panel[i]) {
          continue;
        }
        ghost var before := View();
        var bought, order := BuyValue(i, t, goal - value, panel[i].price.value, symbols, execute);
        PlayedStep(start, before, symbols, orders, order, t, execute);
        NamesStep(orders, order);
        forall j | j in targets && j != i
          ensures HoldingValue(Books(), panel, j) == HoldingValue(before.books, panel, j)
        {
          OtherBooks(before, symbols, order, j, panel);
        }
        BuyReachesAtMost(before, symbols, order, panel);
        orders := orders + [order];
        traded := traded + bought;
      }
      assert targets[..|targets|] == targets;
    }

    method HeldNames() returns (held: set<nat>)
      requires Valid()
      ensures held == HeldIn(Books())
    {
      hide HeldShares;
      held := {};
      for n := 0 to |keys|
        invariant held == set i | i in keys[..n] && HeldShares(Books(), i) > HELD_EPS
      {
        assert keys[..n + 1] == keys[..n] + [keys[n]];
        var shares := SharesOf(keys[n]);
        if shares > HELD_EPS {
          held := held + {keys[n]};
        }
      }
      assert keys[..|keys|] == keys;
    }

    /** Steps two to four: value the book, then trim and buy towards equal weights. */
    method Reweight(t: int, panel: seq<Quote>, symbols: seq<string>, execute: Executor, limitOrder: bool,
                    targets: seq<nat>)
      returns (traded: real, ghost goal: real, ghost trims: seq<Order>, ghost low: Account, ghost buys: seq<Order>)
      requires Valid() && |panel| == |symbols| && (forall i :: i in books ==> i < |panel|)
      requires targets != [] && NoDup(targets) && forall i :: i in targets ==> i < |panel| && ValidPrice(panel[i].price)
      modifies this, books.Values
      ensures Valid() && fresh(books.Values - old(books.Values)) && forall i :: i in books ==> i < |panel|
      ensures Reweighted(old(View()), View(), old(keys), panel, symbols, limitOrder, t, execute, targets, goal, trims,
                         low, buys)
      ensures TradedValue(trades) == TradedValue(old(trades)) + traded
    {
      hide Played, Names, Wanting, Equity, HoldingValue, HeldShares, TradedValue, WellFormed, IsTrim, IsBuy, Wants;
      var equity := OpenEquity(panel);
      var share := equity * 0.99 / |targets| as real;
      goal := share;
      traded, trims := TrimTargets(t, panel, symbols, execute, limitOrder, targets, share);
      low := View();
      var bought;
      bought, buys := BuyTargets(t, panel, symbols, execute, limitOrder, targets, share);
      traded := traded + bought;
    }

    /** One rebalancing day. */
    method Rebalance(t: int, panel: seq<Quote>, symbols: seq<string>, execute: Executor, topK: nat, limitOrder: bool)
      returns (traded: real, ghost orders: seq<Order>, ghost plan: Plan)
      requires Valid() && |panel| == |symbols| && forall i :: i in books ==> i < |panel|
      modifies this, books.Values
      ensures Valid() && fresh(books.Values - old(books.Values)) && forall i :: i in books ==> i < |panel|
      ensures Rebalanced(old(View()), View(), old(keys), panel, symbols, topK, limitOrder, t, execute, plan)
      ensures orders == plan.exits + plan.trims + plan.buys
      ensures Played(old(View()), View(), symbols, orders, t, execute)
      ensures TradedValue(trades) == TradedValue(old(trades)) + traded
    {
      hide Targets, Played, Names, Wanting, Reweighted, TradedValue, WellFormed, HeldIn, IsExit, Wants;
      ghost var start := View();
      var held := HeldNames();
      var targets := Targets(panel, held, topK, limitOrder);
      TargetsArePriced(panel, held, topK, limitOrder);
      ghost var exits;
      traded, exits := SellExits(t, panel, symbols, execute, limitOrder, targets);
      ghost var mid := View();
      if targets == [] {
        plan := Plan(targets, exits, mid, 0.0, [], mid, []);
        orders := exits;
        assert orders == exits + [] + [];
        return;
      }
      ghost var goal, trims, low, buys;
      var moved;
      moved, goal, trims, low, buys := Reweight(t, panel, symbols, execute, limitOrder, targets);
      traded := traded + moved;
      ReweightedJoins(start, mid, View(), old(keys), panel, symbols, limitOrder, t, execute, targets, exits, goal,
                      trims, low, buys);
      orders := exits + trims + buys;
      plan := Plan(targets, exits, mid, goal, trims, low, buys);
    }
  }

  lemma ReweightedJoins(l: Account, m: Account, r: Account, keys: seq<nat>, panel: seq<Quote>, symbols: seq<string>,
                        limitOrder: bool, t: int, execute: Executor, targets: seq<nat>, exits: seq<Order>,
                        goal: real, trims: seq<Order>, low: Account, buys: seq<Order>)
    requires Played(l, m, symbols, exits, t, execute)
    requires Reweighted(m, r, keys, panel, symbols, limitOrder, t, execute, targets, goal, trims, low, buys)
    ensures Played(l, r, symbols, exits + trims + buys, t, execute)
  {
    hide Played;
    PlayedJoin(l, m, low, symbols, exits, trims, t, execute);
    PlayedJoin(l, low, r, symbols, exits + trims, buys, t, execute);
  }

  /** A buy raises the holding by at most the requested amount. */
  lemma BuyReachesAtMost(l: Account, symbols: seq<string>, o: Order, panel: seq<Quote>)
    requires o.side.Buy? && o.idx < |symbols| && o.idx < |panel| && WellFormed(l.trades)
    requires panel[o.idx].price == Some(o.price) && o.price > 0.0 && o.amount >= 0.0
    ensures HoldingValue(Apply(l, symbols, o, SOURCE_TOLERANCE).books, panel, o.idx)
         <= HoldingValue(l.books, panel, o.idx) + o.amount
  {
    hide Apply, TradeOf, Worth, CostOf;
    OrderIsAtomic(l, symbols, o, SOURCE_TOLERANCE);
    if Apply(l, symbols, o, SOURCE_TOLERANCE) != l {
      var trade := TradeOf(l, symbols[o.idx], o);
      var book := BookOf(l.books, o.idx);
      TotalConcat(book, [Lot(trade.shares, o.day + 1)]);
      SingleLot(Lot(trade.shares, o.day + 1));
      WorthAdds(Total(book), trade.shares, o.price);
    }
  }
}
