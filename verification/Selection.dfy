/** Which names a rebalance targets: tradability, price-limit gates and the stable top-k ranking. */
module Selection {
  import opened Wrappers

  /** One symbol on one day; `None` stands for a missing (NaN) cell, and a missing limit price for no limit. */
  datatype Quote = Quote(
    score: Option<real>, price: Option<real>, volume: Option<real>, high: Option<real>, low: Option<real>,
    close: Option<real>, prevClose: Option<real>, lastClose: Option<real>,
    upperLimit: Option<real>, lowerLimit: Option<real>)

  const HELD_EPS := 0.000000001

  predicate ValidPrice(p: Option<real>) { p.Some? && p.value > 0.0 }

  predicate IsSuspended(volume: Option<real>) { volume.None? || volume.value <= 0.0 }

  predicate Tradable(q: Quote, limitOrder: bool) {
    && !IsSuspended(q.volume)
    && ValidPrice(q.price)
    && (q.high.None? || q.low.None? || !(limitOrder && !(q.low.value <= q.price.value <= q.high.value)))
  }

  /** No previous close, no price-limit gate; otherwise the price must be strictly inside the limit. */
  predicate BuyAllowed(q: Quote) {
    !ValidPrice(q.prevClose) || (q.price.Some? && (q.upperLimit.None? || q.price.value < q.upperLimit.value))
  }

  predicate SellAllowed(q: Quote) {
    !ValidPrice(q.prevClose) || (q.price.Some? && (q.lowerLimit.None? || q.price.value > q.lowerLimit.value))
  }

  predicate Eligible(q: Quote, limitOrder: bool) { q.score.Some? && Tradable(q, limitOrder) }

  function Score(panel: seq<Quote>, i: nat): real {
    if i < |panel| && panel[i].score.Some? then panel[i].score.value else 0.0
  }

  /** Insert a later index behind every entry that scores at least as much. */
  function InsertByScore(panel: seq<Quote>, ranked: seq<nat>, i: nat): (r: seq<nat>)
    ensures multiset(r) == multiset(ranked) + multiset{i}
  {
    if ranked == [] || Score(panel, ranked[0]) < Score(panel, i) then [i] + ranked
    else
      assert ranked == [ranked[0]] + ranked[1..];
      [ranked[0]] + InsertByScore(panel, ranked[1..], i)
  }

  /** Eligible names among the first `n`, best score first, ties in panel order. */
  function Ranking(panel: seq<Quote>, n: nat, limitOrder: bool): seq<nat>
    requires n <= |panel|
  {
    if n == 0 then []
    else
      var rest := Ranking(panel, n - 1, limitOrder);
      if Eligible(panel[n - 1], limitOrder) then InsertByScore(panel, rest, n - 1) else rest
  }

  /** Held, or not blocked at the upper limit. */
  predicate Obtainable(panel: seq<Quote>, held: set<nat>, i: nat) {
    i in held || (i < |panel| && BuyAllowed(panel[i]))
  }

  function Keep(panel: seq<Quote>, held: set<nat>, ranked: seq<nat>): seq<nat> {
    if ranked == [] then []
    else (if Obtainable(panel, held, ranked[0]) then [ranked[0]] else []) + Keep(panel, held, ranked[1..])
  }

  function Take(s: seq<nat>, k: nat): seq<nat> { if k <= |s| then s[..k] else s }

  /** The first k ranked names; if one of them can neither be bought nor is held, its slot moves on. */
  function Targets(panel: seq<Quote>, held: set<nat>, topK: nat, limitOrder: bool): seq<nat> {
    var ranking := Ranking(panel, |panel|, limitOrder);
    var first := Take(ranking, topK);
    if exists k :: 0 <= k < |first| && !Obtainable(panel, held, first[k])
    then Take(Keep(panel, held, ranking), topK)
    else first
  }

  // ---- Properties ------------------------------------------------------------------

  /** Ranks before: higher score, or the same score and an earlier panel row. */
  ghost predicate Ahead(panel: seq<Quote>, i: nat, j: nat) {
    Score(panel, i) > Score(panel, j) || (Score(panel, i) == Score(panel, j) && i < j)
  }

  ghost predicate Descending(panel: seq<Quote>, s: seq<nat>) {
    forall j, k :: 0 <= j < k < |s| ==> Ahead(panel, s[j], s[k])
  }

  lemma DescendingCons(panel: seq<Quote>, i: nat, s: seq<nat>)
    requires Descending(panel, s) && forall j :: j in s ==> Ahead(panel, i, j)
    ensures Descending(panel, [i] + s)
  {
    hide Ahead;
    var t := [i] + s;
    forall j, k | 0 <= j < k < |t| ensures Ahead(panel, t[j], t[k]) {
      if j == 0 {
        assert t[k] in s;
      } else {
        assert Ahead(panel, s[j - 1], s[k - 1]);
      }
    }
  }

  lemma {:induction false} InsertKeepsDescending(panel: seq<Quote>, ranked: seq<nat>, i: nat)
    requires Descending(panel, ranked) && forall j :: j in ranked ==> j < i
    ensures Descending(panel, InsertByScore(panel, ranked, i))
    ensures forall j :: j in InsertByScore(panel, ranked, i) <==> j in ranked || j == i
  {
    hide Score;
    if ranked == [] || Score(panel, ranked[0]) < Score(panel, i) {
      forall j | j in ranked ensures Ahead(panel, i, j) {
        var k :| 0 <= k < |ranked| && ranked[k] == j;
        assert k == 0 || Ahead(panel, ranked[0], ranked[k]);
      }
      DescendingCons(panel, i, ranked);
    } else {
      assert forall j :: j in ranked[1..] ==> j in ranked;
      InsertKeepsDescending(panel, ranked[1..], i);
      var rest := InsertByScore(panel, ranked[1..], i);
      forall j | j in rest ensures Ahead(panel, ranked[0], j) {
        if j in ranked[1..] {
          var k :| 1 <= k < |ranked| && ranked[k] == j;
        } else {
          assert ranked[0] in ranked;
        }
      }
      DescendingCons(panel, ranked[0], rest);
    }
  }

  /** The ranking lists exactly the eligible names, in strictly descending (score, panel) order. */
  lemma {:induction false} RankingIsSorted(panel: seq<Quote>, n: nat, limitOrder: bool)
    requires n <= |panel|
    ensures Descending(panel, Ranking(panel, n, limitOrder))
    ensures forall i: nat :: i in Ranking(panel, n, limitOrder) <==> i < n && Eligible(panel[i], limitOrder)
  {
    hide InsertByScore, Descending, Eligible;
    if n == 0 {
      assert Descending(panel, []) by { EmptyDescending(panel); }
    } else {
      RankingIsSorted(panel, n - 1, limitOrder);
      if Eligible(panel[n - 1], limitOrder) {
        InsertKeepsDescending(panel, Ranking(panel, n - 1, limitOrder), n - 1);
      }
    }
  }

  lemma EmptyDescending(panel: seq<Quote>)
    ensures Descending(panel, [])
  {
  }

  lemma {:induction false} KeepFilters(panel: seq<Quote>, held: set<nat>, s: seq<nat>)
    requires Descending(panel, s)
    ensures Descending(panel, Keep(panel, held, s))
    ensures forall i :: i in Keep(panel, held, s) <==> i in s && Obtainable(panel, held, i)
  {
    hide Ahead, Obtainable;
    if s != [] {
      var rest := Keep(panel, held, s[1..]);
      assert Descending(panel, s[1..]);
      KeepFilters(panel, held, s[1..]);
      forall j | j in rest ensures Ahead(panel, s[0], j) {
        var k :| 1 <= k < |s| && s[k] == j;
      }
      DescendingCons(panel, s[0], rest);
    }
  }

  /** An unblocked prefix survives the filter in place. */
  lemma {:induction false} KeepPrefix(panel: seq<Quote>, held: set<nat>, s: seq<nat>, k: nat)
    requires forall j :: 0 <= j < k && j < |s| ==> Obtainable(panel, held, s[j])
    ensures Take(Keep(panel, held, s), k) == Take(s, k)
  {
    hide Obtainable;
    if s != [] && k > 0 {
      KeepPrefix(panel, held, s[1..], k - 1);
      assert Take(s, k) == [s[0]] + Take(s[1..], k - 1);
      assert Take(Keep(panel, held, s), k) == [s[0]] + Take(Keep(panel, held, s[1..]), k - 1);
    }
  }

  /** Moving slots on is the same as always filtering first. */
  lemma TargetsAreFilteredTopK(panel: seq<Quote>, held: set<nat>, topK: nat, limitOrder: bool)
    ensures Targets(panel, held, topK, limitOrder) == Take(Keep(panel, held, Ranking(panel, |panel|, limitOrder)), topK)
  {
    hide Obtainable, Ranking, Keep;
    var ranking := Ranking(panel, |panel|, limitOrder);
    var first := Take(ranking, topK);
    if forall k :: 0 <= k < |first| ==> Obtainable(panel, held, first[k]) {
      assert forall j :: 0 <= j < topK && j < |ranking| ==> first[j] == ranking[j];
      KeepPrefix(panel, held, ranking, topK);
    }
  }

  ghost predicate Candidate(panel: seq<Quote>, held: set<nat>, limitOrder: bool, i: nat) {
    i < |panel| && Eligible(panel[i], limitOrder) && Obtainable(panel, held, i)
  }

  lemma TakeIsBest(panel: seq<Quote>, s: seq<nat>, k: nat)
    requires Descending(panel, s)
    ensures Descending(panel, Take(s, k)) && |Take(s, k)| <= k
    ensures forall i :: i in Take(s, k) ==> i in s
    ensures forall i, j :: i in Take(s, k) && j in s && j !in Take(s, k) ==> |Take(s, k)| == k && Ahead(panel, i, j)
  {
    hide Ahead;
    assert forall c :: 0 <= c < |Take(s, k)| ==> Take(s, k)[c] == s[c];
    forall i, j | i in Take(s, k) && j in s && j !in Take(s, k) ensures |Take(s, k)| == k && Ahead(panel, i, j) {
      var a :| 0 <= a < |Take(s, k)| && Take(s, k)[a] == i;
      var b :| 0 <= b < |s| && s[b] == j;
    }
  }

  /** The targets are the k best obtainable eligible names: nothing better is left out, and no slot is wasted. */
  lemma TargetsAreBest(panel: seq<Quote>, held: set<nat>, topK: nat, limitOrder: bool)
    ensures var targets := Targets(panel, held, topK, limitOrder);
            && |targets| <= topK && Descending(panel, targets)
            && (forall i :: i in targets ==> Candidate(panel, held, limitOrder, i))
            && (forall i, j :: i in targets && j !in targets && Candidate(panel, held, limitOrder, j) ==>
                  (|targets| == topK && Ahead(panel, i, j)))
  {
    var ranking := Ranking(panel, |panel|, limitOrder);
    hide Targets, Obtainable, Eligible, Ranking, Keep, Take, Descending, Ahead;
    RankingIsSorted(panel, |panel|, limitOrder);
    KeepFilters(panel, held, ranking);
    var kept := Keep(panel, held, ranking);
    TakeIsBest(panel, kept, topK);
    TargetsAreFilteredTopK(panel, held, topK, limitOrder);
    forall i ensures i in kept <==> Candidate(panel, held, limitOrder, i) {
      assert i in kept <==> i in ranking && Obtainable(panel, held, i);
    }
  }
}
