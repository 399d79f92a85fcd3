/** The round-trip win rate of engines/backtest/metrics.py: a second FIFO, run over the trade log. */
module WinRate {
  import opened Wrappers
  import opened Execution

  datatype Trade = Trade(day: int, symbol: string, side: Side, shares: real, price: real, value: real, cost: real)

  /** An open purchase: shares still unmatched and the part of the outlay they carry. */
  datatype Open = Open(shares: real, cost: real)

  datatype Match = Match(queue: seq<Open>, remaining: real, bought: real)

  datatype Tally = Tally(queues: map<string, seq<Open>>, closed: nat, wins: nat)

  const MATCH_EPS := 0.000000001

  ghost predicate Positive(queue: seq<Open>) {
    forall i :: 0 <= i < |queue| ==> queue[i].shares > 0.0
  }

  /** The share of a lot's outlay that goes with `take` of its shares. */
  function Portion(lot: Open, take: real): real
    requires lot.shares != 0.0
  {
    lot.cost * (take / lot.shares)
  }

  /** Matching one sale against the front of the queue. */
  function MatchSell(queue: seq<Open>, remaining: real, eps: real): (m: Match)
    requires Positive(queue) && 0.0 <= eps
    ensures Positive(m.queue)
    ensures m.remaining <= remaining && (0.0 <= remaining ==> 0.0 <= m.remaining)
    ensures remaining <= eps ==> m.remaining == remaining
    ensures m.remaining > eps ==> m.queue == []
  {
    if remaining <= eps || queue == [] then Match(queue, remaining, 0.0)
    else
      var lot := queue[0];
      var take := Min(lot.shares, remaining);
      var portion := Portion(lot, take);
      if lot.shares - take <= eps then
        var m := MatchSell(queue[1..], remaining - take, eps);
        m.(bought := m.bought + portion)
      else
        Match([Open(lot.shares - take, lot.cost - portion)] + queue[1..], remaining - take, portion)
  }

  function Gain(trade: Trade, m: Match): real
    requires trade.shares != 0.0
  {
    trade.value * ((trade.shares - m.remaining) / trade.shares) - trade.cost - m.bought
  }

  function QueueOf(queues: map<string, seq<Open>>, symbol: string): seq<Open> {
    if symbol in queues then queues[symbol] else []
  }

  ghost predicate AllPositive(queues: map<string, seq<Open>>) {
    forall symbol :: symbol in queues ==> Positive(queues[symbol])
  }

  /** Buys in the log carry shares: the matcher divides by them. */
  ghost predicate WellFormed(trades: seq<Trade>) {
    forall i :: 0 <= i < |trades| && trades[i].side.Buy? ==> trades[i].shares > 0.0
  }

  function StepTally(t: Tally, trade: Trade, eps: real): (r: Tally)
    requires AllPositive(t.queues) && 0.0 <= eps
    requires trade.side.Buy? ==> trade.shares > 0.0
    ensures AllPositive(r.queues)
  {
    var queue := QueueOf(t.queues, trade.symbol);
    if trade.side.Buy? then
      t.(queues := t.queues[trade.symbol := queue + [Open(trade.shares, trade.value + trade.cost)]])
    else
      var m := MatchSell(queue, trade.shares, eps);
      var queues := if trade.symbol in t.queues then t.queues[trade.symbol := m.queue] else t.queues;
      if trade.shares - m.remaining > eps then
        Tally(queues, t.closed + 1, if Gain(trade, m) > 0.0 then t.wins + 1 else t.wins)
      else
        Tally(queues, t.closed, t.wins)
  }

  function Replay(trades: seq<Trade>, eps: real): (t: Tally)
    requires WellFormed(trades) && 0.0 <= eps
    ensures AllPositive(t.queues)
  {
    if trades == [] then Tally(map[], 0, 0)
    else
      var n := |trades| - 1;
      StepTally(Replay(trades[..n], eps), trades[n], eps)
  }

  method RoundTripWinRate(trades: seq<Trade>) returns (rate: Option<real>)
    requires WellFormed(trades)
    ensures var t := Replay(trades, MATCH_EPS);
            rate == if t.closed == 0 then None else Some(FourDigits(t.wins as real / t.closed as real))
  {
    hide FourDigits, MatchSell, Gain;
    var queues: map<string, seq<Open>> := map[];
    var closed, wins := 0, 0;
    for n := 0 to |trades|
      invariant closed >= 0 && wins >= 0
      invariant Replay(trades[..n], MATCH_EPS) == Tally(queues, closed, wins)
    {
      var trade := trades[n];
      assert trades[..n + 1][..n] == trades[..n];
      ghost var before := Tally(queues, closed, wins);
      if trade.side.Buy? {
        queues := queues[trade.symbol := QueueOf(queues, trade.symbol) +
          [Open(trade.shares, trade.value + trade.cost)]];
      } else {
        var m := MatchFront(QueueOf(queues, trade.symbol), trade.shares);
        if trade.symbol in queues {
          queues := queues[trade.symbol := m.queue];
        }
        if trade.shares - m.remaining > MATCH_EPS {
          closed, wins := closed + 1, if Gain(trade, m) > 0.0 then wins + 1 else wins;
        }
      }
      assert Tally(queues, closed, wins) == StepTally(before, trade, MATCH_EPS);
    }
    assert trades[..|trades|] == trades;
    rate := if closed == 0 then None else Some(FourDigits(wins as real / closed as real));
  }

  /** Rounded to four digits, ties to even. */
  function FourDigits(x: real): real {
    var n := (x * 10000.0).Floor;
    var rest := x * 10000.0 - n as real;
    (if rest < 0.5 || (rest == 0.5 && n % 2 == 0) then n else n + 1) as real / 10000.0
  }

  /** The reported rate is within half a digit of the true share, and a share of the closed trades. */
  lemma RateIsShare(trades: seq<Trade>)
    requires WellFormed(trades) && Replay(trades, MATCH_EPS).closed > 0
    ensures var t := Replay(trades, MATCH_EPS);
            var share := t.wins as real / t.closed as real;
            && 0.0 <= share <= 1.0 && 0.0 <= FourDigits(share) <= 1.0
            && -0.00005 <= FourDigits(share) - share <= 0.00005
  {
    WinsAreClosed(trades, MATCH_EPS);
    var t := Replay(trades, MATCH_EPS);
    ShareBounds(t.wins, t.closed);
    DigitBounds(t.wins as real / t.closed as real);
  }

  lemma ShareBounds(wins: nat, closed: nat)
    requires wins <= closed && closed > 0
    ensures 0.0 <= wins as real / closed as real <= 1.0
  {
  }

  lemma DigitBounds(x: real)
    requires 0.0 <= x <= 1.0
    ensures 0.0 <= FourDigits(x) <= 1.0 && -0.00005 <= FourDigits(x) - x <= 0.00005
  {
  }

  lemma {:induction false} WinsAreClosed(trades: seq<Trade>, eps: real)
    requires WellFormed(trades) && 0.0 <= eps
    ensures Replay(trades, eps).wins <= Replay(trades, eps).closed
  {
    if trades != [] {
      hide MatchSell, Gain;
      WinsAreClosed(trades[..|trades| - 1], eps);
    }
  }

  /** The inner loop: rewrite the front lot, pop it once it is exhausted. */
  method MatchFront(open: seq<Open>, shares: real) returns (m: Match)
    requires Positive(open)
    ensures m == MatchSell(open, shares, MATCH_EPS)
  {
    hide Portion;
    var queue, remaining, total := open, shares, 0.0;
    while remaining > MATCH_EPS && queue != []
      invariant Positive(queue)
      invariant var rest := MatchSell(queue, remaining, MATCH_EPS);
                MatchSell(open, shares, MATCH_EPS) == rest.(bought := total + rest.bought)
      decreases |queue|, if remaining > MATCH_EPS then 1 else 0
    {
      var lot := queue[0];
      var take := Min(lot.shares, remaining);
      var portion := Portion(lot, take);
      total := total + portion;
      queue := queue[0 := Open(lot.shares - take, lot.cost - portion)];
      remaining := remaining - take;
      if queue[0].shares <= MATCH_EPS {
        queue := queue[1..];
      }
    }
    m := Match(queue, remaining, total);
  }

  // ---- Totals over the log ---------------------------------------------------------

  function OpenShares(queue: seq<Open>): real {
    if queue == [] then 0.0 else queue[0].shares + OpenShares(queue[1..])
  }

  function OpenCost(queue: seq<Open>): real {
    if queue == [] then 0.0 else queue[0].cost + OpenCost(queue[1..])
  }

  lemma {:induction false} OpenConcat(a: seq<Open>, b: seq<Open>)
    ensures OpenShares(a + b) == OpenShares(a) + OpenShares(b)
    ensures OpenCost(a + b) == OpenCost(a) + OpenCost(b)
  {
    if a == [] {
      assert a + b == b;
    } else {
      assert (a + b)[1..] == a[1..] + b;
      OpenConcat(a[1..], b);
    }
  }

  lemma {:induction false} OpenSharesPositive(queue: seq<Open>)
    requires Positive(queue)
    ensures OpenShares(queue) >= 0.0
    ensures queue != [] ==> OpenShares(queue) > 0.0
  {
    if queue != [] {
      OpenSharesPositive(queue[1..]);
    }
  }

  /** What a match removes: at most one threshold of dust beyond what it reports. */
  lemma {:induction false} MatchAccuracy(queue: seq<Open>, s: real, eps: real)
    requires Positive(queue) && 0.0 <= eps && 0.0 <= s
    ensures var m := MatchSell(queue, s, eps);
            OpenShares(queue) - (s - m.remaining) - eps <= OpenShares(m.queue) <= OpenShares(queue) - (s - m.remaining)
    ensures var m := MatchSell(queue, s, eps);
            m.remaining > eps ==> m.remaining == s - OpenShares(queue)
  {
    if s > eps && queue != [] {
      var take := Min(queue[0].shares, s);
      OpenSharesPositive(queue[1..]);
      if queue[0].shares - take <= eps {
        if take == s {
          assert MatchSell(queue[1..], 0.0, eps) == Match(queue[1..], 0.0, 0.0);
        } else {
          MatchAccuracy(queue[1..], s - take, eps);
        }
      } else {
        var rest := MatchSell(queue, s, eps).queue;
        assert rest[1..] == queue[1..];
      }
    }
  }

  /** With exact thresholds no cost is lost: what leaves the queue is what the sale was charged. */
  lemma {:induction false} ExactMatchConservesCost(queue: seq<Open>, s: real)
    requires Positive(queue)
    ensures var m := MatchSell(queue, s, 0.0); OpenCost(m.queue) + m.bought == OpenCost(queue)
  {
    if s > 0.0 && queue != [] {
      var lot := queue[0];
      var take := Min(lot.shares, s);
      if lot.shares - take <= 0.0 {
        assert take / lot.shares == 1.0;
        ExactMatchConservesCost(queue[1..], s - take);
      } else {
        var rest := MatchSell(queue, s, 0.0).queue;
        assert rest[1..] == queue[1..];
      }
    }
  }
}
