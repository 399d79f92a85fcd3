/** The bounded metric store of app/model_gateway/metrics.py: accumulate, move to the end, evict the oldest. */
module MetricStores {

  /** A metric name with its sorted labels. */
  datatype Series = Series(name: string, labels: seq<(string, string)>)

  datatype Entry = Entry(key: Series, value: real)

  datatype Observation = Observation(key: Series, value: real)

  function ValueOf(entries: seq<Entry>, key: Series): real {
    if entries == [] then 0.0 else if entries[0].key == key then entries[0].value else ValueOf(entries[1..], key)
  }

  function Remove(entries: seq<Entry>, key: Series): seq<Entry> {
    if entries == [] then []
    else if entries[0].key == key then entries[1..]
    else [entries[0]] + Remove(entries[1..], key)
  }

  /** Drop from the front until at most `max` are left. */
  function Newest(entries: seq<Entry>, max: nat): seq<Entry> {
    if |entries| > max then entries[|entries| - max..] else entries
  }

  /** The key with its new value, now at the end. */
  function Moved(entries: seq<Entry>, o: Observation): seq<Entry> {
    Remove(entries, o.key) + [Entry(o.key, ValueOf(entries, o.key) + o.value)]
  }

  function Observed(entries: seq<Entry>, o: Observation, max: nat): seq<Entry> { Newest(Moved(entries, o), max) }

  function After(history: seq<Observation>, max: nat): seq<Entry> {
    if history == [] then []
    else Observed(After(history[..|history| - 1], max), history[|history| - 1], max)
  }

  class MetricStore {
    const maxSeries: nat
    /** The ordered dictionary, oldest first. */
    var values: seq<Entry>

    constructor (max: int)
      ensures values == [] && maxSeries >= 1 && (max >= 1 ==> maxSeries == max)
    {
      maxSeries := if max < 1 then 1 else max;
      values := [];
    }

    method Observe(key: Series, value: real)
      modifies this
      ensures values == Observed(old(values), Observation(key, value), maxSeries)
    {
      values := Remove(values, key) + [Entry(key, ValueOf(values, key) + value)];
      ghost var moved := values;
      while |values| > maxSeries
        invariant Newest(values, maxSeries) == Newest(moved, maxSeries)
      {
        values := values[1..];
      }
    }
  }

  // ---- What the store holds, in terms of the history --------------------------------------

  /** Index of the last observation of a key, or -1. */
  function Last(history: seq<Observation>, key: Series): (i: int)
    ensures -1 <= i < |history|
    ensures i >= 0 ==> history[i].key == key
  {
    if history == [] then -1
    else
      var n := |history| - 1;
      if history[n].key == key then n else Last(history[..n], key)
  }

  predicate Seen(history: seq<Observation>, key: Series) { Last(history, key) >= 0 }

  /** Number of distinct keys, counted at their last occurrence. */
  function DistinctKeys(history: seq<Observation>): nat {
    if history == [] then 0
    else DistinctKeys(history[1..]) + (if Seen(history[1..], history[0].key) then 0 else 1)
  }

  /** Distinct keys observed since the last use of `key`, itself included. */
  function Age(history: seq<Observation>, key: Series): nat
    requires Seen(history, key)
  {
    DistinctKeys(history[Last(history, key)..])
  }

  /** The last observation, plus what its key had gathered if it was still in the store just before. */
  function Gathered(history: seq<Observation>, max: nat): real
    requires history != []
    decreases |history|
  {
    var n := |history| - 1;
    var past := history[..n];
    var key := history[n].key;
    history[n].value +
    if Seen(past, key) && Age(past, key) <= max then Gathered(past[..Last(past, key) + 1], max) else 0.0
  }

  lemma {:induction false} LastOfSuffix(history: seq<Observation>, from: nat, key: Series)
    requires from <= |history|
    ensures Last(history[from..], key) == if Last(history, key) >= from then Last(history, key) - from else -1
  {
    if from < |history| {
      var n := |history| - 1;
      assert history[from..][..|history[from..]| - 1] == history[..n][from..];
      if history[n].key != key {
        LastOfSuffix(history[..n], from, key);
      }
    }
  }

  lemma {:induction false} DistinctAppend(history: seq<Observation>, o: Observation)
    ensures DistinctKeys(history + [o]) == DistinctKeys(history) + (if Seen(history, o.key) then 0 else 1)
    ensures forall key :: Seen(history + [o], key) <==> Seen(history, key) || key == o.key
  {
    var all := history + [o];
    assert all[..|all| - 1] == history;
    if history == [] {
      assert all == [o] && all[1..] == [];
    } else {
      var first := history[0].key;
      DistinctAppend(history[1..], o);
      assert all[1..] == history[1..] + [o];
      SeenFirst(history, o.key);
    }
  }

  /** A key is seen when it comes first or is seen after. */
  lemma SeenFirst(history: seq<Observation>, key: Series)
    requires history != []
    ensures Seen(history, key) <==> history[0].key == key || Seen(history[1..], key)
  {
    LastOfSuffix(history, 1, key);
    if history[0].key == key {
      LastIsLast(history, key, 0);
    }
  }

  lemma {:induction false} LastIsLast(history: seq<Observation>, key: Series, i: nat)
    requires i < |history| && history[i].key == key
    ensures i <= Last(history, key)
  {
    if i < |history| - 1 {
      LastIsLast(history[..|history| - 1], key, i);
    }
  }

  lemma {:induction false} DistinctMonotone(history: seq<Observation>, i: nat, j: nat)
    requires i <= j <= |history|
    ensures DistinctKeys(history[j..]) <= DistinctKeys(history[i..])
    decreases j - i
  {
    if i < j {
      assert history[i..][1..] == history[i + 1..];
      DistinctMonotone(history, i + 1, j);
    }
  }

  /** A key used less recently is strictly older. */
  lemma AgeStrict(history: seq<Observation>, older: Series, newer: Series)
    requires Seen(history, older) && Seen(history, newer) && Last(history, older) < Last(history, newer)
    ensures Age(history, newer) < Age(history, older)
  {
    var i := Last(history, older);
    assert history[i..][1..] == history[i + 1..];
    LastOfSuffix(history, i + 1, older);
    DistinctMonotone(history, i + 1, Last(history, newer));
  }

  /** One more observation ages exactly the keys used since which the new key had not been seen. */
  lemma AgeAppend(history: seq<Observation>, o: Observation, key: Series)
    ensures var all := history + [o];
            && Last(all, o.key) == |history| && Age(all, o.key) == 1
            && (key != o.key ==> Last(all, key) == Last(history, key))
            && (key != o.key && Seen(history, key) ==>
                  Age(all, key) == Age(history, key)
                    + (if Seen(history, o.key) && Last(history, o.key) > Last(history, key) then 0 else 1))
  {
    var all := history + [o];
    assert all[..|all| - 1] == history;
    assert all[|history|..] == [o];
    assert [o][1..] == [];
    assert DistinctKeys([o]) == 1;
    if key != o.key && Seen(history, key) {
      var i := Last(history, key);
      assert all[i..] == history[i..] + [o];
      DistinctAppend(history[i..], o);
      LastOfSuffix(history, i, o.key);
    }
  }

  /** Every entry's distance from the end is its age. */
  ghost predicate AgesFromEnd(entries: seq<Entry>, history: seq<Observation>) {
    forall j :: 0 <= j < |entries| ==> HasAge(history, entries[j].key, |entries| - j)
  }

  ghost predicate HasAge(history: seq<Observation>, key: Series, age: nat) {
    Seen(history, key) && Age(history, key) == age
  }

  /** No key as young as the store is allowed to hold is missing. */
  ghost predicate HoldsYoung(entries: seq<Entry>, history: seq<Observation>, max: nat) {
    forall key :: Seen(history, key) && Age(history, key) <= max ==> Has(entries, key)
  }

  predicate Has(entries: seq<Entry>, key: Series) { exists j :: 0 <= j < |entries| && entries[j].key == key }

  /** The `max` most recently used keys, oldest first. */
  ghost predicate HoldsNewest(entries: seq<Entry>, history: seq<Observation>, max: nat) {
    |entries| <= max && AgesFromEnd(entries, history) && HoldsYoung(entries, history, max)
  }

  /** Every value is what its key gathered since it last entered the store. */
  ghost predicate HoldsSums(entries: seq<Entry>, history: seq<Observation>, max: nat) {
    forall j :: 0 <= j < |entries| ==> HoldsSum(entries[j], history, max)
  }

  ghost predicate HoldsSum(entry: Entry, history: seq<Observation>, max: nat) {
    Seen(history, entry.key) && entry.value == Gathered(history[..Last(history, entry.key) + 1], max)
  }

  /** Where a key sits, or the length. */
  ghost predicate IsAt(entries: seq<Entry>, key: Series, p: nat) {
    && p <= |entries| && (p < |entries| <==> Has(entries, key))
    && (forall j :: 0 <= j < p ==> entries[j].key != key)
    && (p < |entries| ==> entries[p].key == key && ValueOf(entries, key) == entries[p].value)
    && (p == |entries| ==> ValueOf(entries, key) == 0.0)
    && Remove(entries, key) == if p < |entries| then entries[..p] + entries[p + 1..] else entries
  }

  lemma HasFirst(entries: seq<Entry>, key: Series)
    ensures Has(entries, key) <==> entries != [] && (entries[0].key == key || Has(entries[1..], key))
  {
    if entries != [] {
      if j :| 0 <= j < |entries[1..]| && entries[1..][j].key == key {
        assert entries[j + 1].key == key;
      }
      if j :| 0 < j < |entries| && entries[j].key == key {
        assert entries[1..][j - 1].key == key;
      }
    }
  }

  lemma {:induction false} Find(entries: seq<Entry>, key: Series) returns (p: nat)
    ensures IsAt(entries, key, p)
  {
    hide Has;
    p := 0;
    HasFirst(entries, key);
    if entries != [] && entries[0].key != key {
      var q := Find(entries[1..], key);
      p := q + 1;
      var rest := entries[1..];
      assert entries == [entries[0]] + rest;
      if q < |rest| {
        assert entries[..p] == [entries[0]] + rest[..q];
        assert entries[p + 1..] == rest[q + 1..];
      }
    }
  }

  /** In the store, later means used more recently. */
  lemma LaterIsFresher(history: seq<Observation>, a: Series, b: Series)
    requires Seen(history, a) && Seen(history, b) && a != b
    ensures Last(history, a) > Last(history, b) <==> Age(history, a) < Age(history, b)
  {
    hide Age;
    if Last(history, a) > Last(history, b) {
      AgeStrict(history, b, a);
    } else if Last(history, a) < Last(history, b) {
      AgeStrict(history, a, b);
    }
  }

  /** Where the entry at `j` of the new order was before. */
  function Came(p: nat, j: nat): nat { if j < p then j else j + 1 }

  lemma MovedAt(entries: seq<Entry>, o: Observation, p: nat)
    requires IsAt(entries, o.key, p)
    ensures var moved := Moved(entries, o);
            && |moved| == (if p < |entries| then |entries| else |entries| + 1)
            && moved[|moved| - 1] == Entry(o.key, ValueOf(entries, o.key) + o.value)
            && (forall j :: 0 <= j < |moved| - 1 ==> Came(p, j) < |entries| && moved[j] == entries[Came(p, j)])
  {
    hide Has, ValueOf, Remove;
  }

  /** The key at any other position is another one: its age differs. */
  lemma KeysDiffer(entries: seq<Entry>, history: seq<Observation>, i: nat, p: nat)
    requires AgesFromEnd(entries, history) && i < |entries| && p < |entries| && i != p
    ensures entries[i].key != entries[p].key
  {
    hide Seen, Age;
    assert HasAge(history, entries[i].key, |entries| - i) && HasAge(history, entries[p].key, |entries| - p);
  }

  /** What is fresher than the moved key ages by one, what is older keeps its age. */
  lemma OneOlder(entries: seq<Entry>, history: seq<Observation>, max: nat, o: Observation, p: nat, i: nat)
    requires |entries| <= max && AgesFromEnd(entries, history) && HoldsYoung(entries, history, max)
    requires IsAt(entries, o.key, p) && i < |entries| && i != p
    ensures entries[i].key != o.key
    ensures HasAge(history + [o], entries[i].key, |entries| - i + (if i < p < |entries| then 0 else 1))
  {
    hide Age, Last, Remove, ValueOf;
    var key := entries[i].key;
    assert HasAge(history, key, |entries| - i);
    if p < |entries| {
      KeysDiffer(entries, history, i, p);
      assert HasAge(history, entries[p].key, |entries| - p);
    }
    AgeAppend(history, o, key);
    if Seen(history, o.key) {
      LaterIsFresher(history, o.key, key);
    }
  }

  lemma MovedAges(entries: seq<Entry>, history: seq<Observation>, max: nat, o: Observation, p: nat)
    requires |entries| <= max && AgesFromEnd(entries, history) && HoldsYoung(entries, history, max)
    requires IsAt(entries, o.key, p)
    ensures AgesFromEnd(Moved(entries, o), history + [o])
  {
    hide IsAt, HoldsYoung, Age, Last, Seen, Moved;
    var moved, all := Moved(entries, o), history + [o];
    MovedAt(entries, o, p);
    AgeAppend(history, o, o.key);
    SeenNow(history, o);
    PositionInRange(entries, o.key, p);
    forall j | 0 <= j < |moved| ensures HasAge(all, moved[j].key, |moved| - j) {
      if j < |moved| - 1 {
        OneOlder(entries, history, max, o, p, Came(p, j));
      }
    }
  }

  lemma PositionInRange(entries: seq<Entry>, key: Series, p: nat)
    requires IsAt(entries, key, p)
    ensures p <= |entries|
  {
  }

  lemma SeenNow(history: seq<Observation>, o: Observation)
    ensures Seen(history + [o], o.key)
  {
  }

  /** Whatever is young enough afterwards sits among the last `max` of the new order. */
  lemma MovedHolds(entries: seq<Entry>, history: seq<Observation>, max: nat, o: Observation, p: nat, key: Series)
    requires HoldsYoung(entries, history, max) && IsAt(entries, o.key, p)
    requires Seen(history + [o], key) && Age(history + [o], key) <= max
    ensures Has(Moved(entries, o), key)
  {
    hide Age, Last, Remove, ValueOf, Moved;
    var moved := Moved(entries, o);
    MovedAt(entries, o, p);
    AgeAppend(history, o, key);
    if key == o.key {
      assert moved[|moved| - 1].key == key;
    } else {
      var i :| 0 <= i < |entries| && entries[i].key == key;
      var j := if i < p then i else i - 1;
      assert moved[j].key == key;
    }
  }

  /** Dropping from the front: position `j` held position `j + d`. */
  lemma NewestAt(moved: seq<Entry>, max: nat)
    ensures var kept := Newest(moved, max);
            var d := |moved| - |kept|;
            && |kept| <= max && d >= 0 && (d > 0 ==> |kept| == max)
            && (forall j :: 0 <= j < |kept| ==> kept[j] == moved[j + d])
  {
  }

  lemma NewestAges(moved: seq<Entry>, history: seq<Observation>, max: nat)
    requires AgesFromEnd(moved, history)
    ensures AgesFromEnd(Newest(moved, max), history)
  {
    hide HasAge, Newest;
    NewestAt(moved, max);
    var kept := Newest(moved, max);
    var d := |moved| - |kept|;
    forall j | 0 <= j < |kept| ensures HasAge(history, kept[j].key, |kept| - j) {
      assert HasAge(history, moved[j + d].key, |moved| - (j + d));
    }
  }

  lemma NewestHasYoung(moved: seq<Entry>, history: seq<Observation>, max: nat, key: Series)
    requires AgesFromEnd(moved, history) && Has(moved, key)
    requires Seen(history, key) && Age(history, key) <= max
    ensures Has(Newest(moved, max), key)
  {
    hide Age, Seen, Newest;
    NewestAt(moved, max);
    var kept := Newest(moved, max);
    var j :| 0 <= j < |moved| && moved[j].key == key;
    assert HasAge(history, moved[j].key, |moved| - j);
    assert kept[j - (|moved| - |kept|)].key == key;
  }

  lemma NewestKeeps(moved: seq<Entry>, history: seq<Observation>, max: nat)
    requires AgesFromEnd(moved, history) && HoldsYoung(moved, history, max)
    ensures HoldsNewest(Newest(moved, max), history, max)
  {
    hide Age, Seen, AgesFromEnd, Newest, Has;
    NewestAt(moved, max);
    NewestAges(moved, history, max);
    forall key | Seen(history, key) && Age(history, key) <= max ensures Has(Newest(moved, max), key) {
      NewestHasYoung(moved, history, max, key);
    }
  }

  lemma ObservedKeepsNewest(entries: seq<Entry>, history: seq<Observation>, max: nat, o: Observation)
    requires HoldsNewest(entries, history, max)
    ensures HoldsNewest(Observed(entries, o, max), history + [o], max)
  {
    hide AgesFromEnd, IsAt, Age, Last, Seen, Moved, Newest, Has;
    var p := Find(entries, o.key);
    MovedAges(entries, history, max, o, p);
    forall key | Seen(history + [o], key) && Age(history + [o], key) <= max ensures Has(Moved(entries, o), key) {
      MovedHolds(entries, history, max, o, p, key);
    }
    NewestKeeps(Moved(entries, o), history + [o], max);
  }

  /** An untouched key keeps its sum. */
  lemma SumStays(entry: Entry, history: seq<Observation>, max: nat, o: Observation)
    requires HoldsSum(entry, history, max) && entry.key != o.key
    ensures HoldsSum(entry, history + [o], max)
  {
    hide Age, Gathered, Last;
    AgeAppend(history, o, entry.key);
    var n := Last(history, entry.key) + 1;
    assert (history + [o])[..n] == history[..n];
  }

  lemma GatheredStep(history: seq<Observation>, o: Observation, max: nat)
    ensures Gathered(history + [o], max) ==
            o.value + if Seen(history, o.key) && Age(history, o.key) <= max
                      then Gathered(history[..Last(history, o.key) + 1], max) else 0.0
  {
    hide Age;
    assert (history + [o])[..|history|] == history;
  }

  /** What the store has for a key is what the key gathered while it was young enough. */
  lemma ValueIsGathered(entries: seq<Entry>, history: seq<Observation>, max: nat, key: Series, p: nat)
    requires HoldsNewest(entries, history, max) && HoldsSums(entries, history, max) && IsAt(entries, key, p)
    ensures ValueOf(entries, key) ==
            if Seen(history, key) && Age(history, key) <= max then Gathered(history[..Last(history, key) + 1], max)
            else 0.0
  {
    hide Age, ValueOf, Remove, Last, Gathered;
    if p < |entries| {
      assert HasAge(history, entries[p].key, |entries| - p);
      assert HoldsSum(entries[p], history, max);
    }
  }

  /** The touched key has what it gathered before, if it was still held, plus the new amount. */
  lemma SumGrows(entries: seq<Entry>, history: seq<Observation>, max: nat, o: Observation, p: nat)
    requires HoldsNewest(entries, history, max) && HoldsSums(entries, history, max) && IsAt(entries, o.key, p)
    ensures HoldsSum(Entry(o.key, ValueOf(entries, o.key) + o.value), history + [o], max)
  {
    hide Age, ValueOf, Gathered, Last, HoldsNewest, HoldsSums, IsAt;
    var all := history + [o];
    ValueIsGathered(entries, history, max, o.key, p);
    GatheredStep(history, o, max);
    AgeAppend(history, o, o.key);
    assert all[..|history| + 1] == all;
  }

  lemma ObservedKeepsSums(entries: seq<Entry>, history: seq<Observation>, max: nat, o: Observation)
    requires HoldsNewest(entries, history, max) && HoldsSums(entries, history, max)
    ensures HoldsSums(Observed(entries, o, max), history + [o], max)
  {
    hide IsAt, HoldsSum, Moved, ValueOf, HoldsYoung, AgesFromEnd;
    var p := Find(entries, o.key);
    var moved, all := Moved(entries, o), history + [o];
    MovedAt(entries, o, p);
    SumGrows(entries, history, max, o, p);
    PositionInRange(entries, o.key, p);
    forall j | 0 <= j < |moved| ensures HoldsSum(moved[j], all, max) {
      if j < |moved| - 1 {
        OneOlder(entries, history, max, o, p, Came(p, j));
        SumStays(moved[j], history, max, o);
      }
    }
    var kept := Newest(moved, max);
    var d := |moved| - |kept|;
    assert forall j :: 0 <= j < |kept| ==> kept[j] == moved[j + d];
  }

  /** After any history the store holds exactly the `max` most recently used keys, oldest first, each with its sum. */
  lemma {:induction false} StoreRefinesHistory(history: seq<Observation>, max: nat)
    requires max >= 1
    ensures HoldsNewest(After(history, max), history, max) && HoldsSums(After(history, max), history, max)
  {
    if history != [] {
      var n := |history| - 1;
      StoreRefinesHistory(history[..n], max);
      ObservedKeepsNewest(After(history[..n], max), history[..n], max, history[n]);
      ObservedKeepsSums(After(history[..n], max), history[..n], max, history[n]);
      assert history == history[..n] + [history[n]];
    }
  }
}
