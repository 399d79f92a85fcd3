/** Drawdown and excursions of an equal-weight basket of candidates (engines/decision/outcome_evaluator.py). */
module PathMetrics {
  import opened Wrappers

  datatype Date = Date(day: int)

  datatype Row = Row(date: Date, open: Option<real>, close: Option<real>)

  type Window = seq<Row>

  /** Closing prices over the entry price, by date. */
  type Points = map<Date, real>

  datatype Outcome = NoPath | DividedByZero | Path(drawdown: real, adverse: real, favorable: real)

  // ---- One window -----------------------------------------------------------------------

  /** The first opening price quoted on the entry date. */
  function EntryPrice(rows: Window, entry: Date): Option<real> {
    if rows == [] then None
    else if rows[0].date == entry && rows[0].open.Some? then rows[0].open
    else EntryPrice(rows[1..], entry)
  }

  /** The caller rejects a window whose entry price is not positive. */
  predicate EntryIsPositive(rows: Window, entry: Date) {
    var price := EntryPrice(rows, entry);
    price.Some? ==> price.value > 0.0
  }

  predicate Counts(row: Row, entry: Date, exit: Date) {
    entry.day <= row.date.day <= exit.day && row.close.Some?
  }

  function PointsOf(rows: Window, entry: Date, exit: Date, base: real): Points
    requires base > 0.0
  {
    if rows == [] then map[entry := 1.0]
    else
      var n := |rows| - 1;
      var before := PointsOf(rows[..n], entry, exit, base);
      if Counts(rows[n], entry, exit) then before[rows[n].date := rows[n].close.value / base] else before
  }

  method BuildPoints(rows: Window, entry: Date, exit: Date, base: real) returns (points: Points)
    requires base > 0.0
    ensures points == PointsOf(rows, entry, exit, base)
  {
    points := map[entry := 1.0];
    for i := 0 to |rows|
      invariant points == PointsOf(rows[..i], entry, exit, base)
    {
      assert rows[..i + 1][..i] == rows[..i];
      if Counts(rows[i], entry, exit) {
        points := points[rows[i].date := rows[i].close.value / base];
      }
    }
    assert rows[..|rows|] == rows;
  }

  /** The entry date always has a point, no date comes before it, and closes above zero give points above zero. */
  lemma {:induction false} PointsStartAtEntry(rows: Window, entry: Date, exit: Date, base: real)
    requires base > 0.0
    ensures var points := PointsOf(rows, entry, exit, base);
            && entry in points
            && (forall d :: d in points ==> entry.day <= d.day)
            && (ClosesPositive(rows) ==> forall d :: d in points ==> points[d] > 0.0)
  {
    if rows != [] {
      PointsStartAtEntry(rows[..|rows| - 1], entry, exit, base);
    }
  }

  predicate ClosesPositive(rows: Window) {
    forall i :: 0 <= i < |rows| && rows[i].close.Some? ==> rows[i].close.value > 0.0
  }

  // ---- Forward fill ---------------------------------------------------------------------

  /** The value at the latest known date not after the day, 1 when there is none. */
  ghost predicate IsLastKnown(points: Points, day: Date, v: real) {
    if exists d :: d in points && d.day <= day.day
    then exists d :: d in points && IsLatest(points, day, d) && v == points[d]
    else v == 1.0
  }

  ghost predicate IsLatest(points: Points, day: Date, d: Date) {
    d in points && d.day <= day.day && forall e :: e in points && e.day <= day.day ==> e.day <= d.day
  }

  method LastKnown(points: Points, day: Date) returns (v: real)
    ensures IsLastKnown(points, day, v)
  {
    var todo := points.Keys;
    var best: Option<Date> := None;
    while todo != {}
      invariant todo <= points.Keys
      invariant best.Some? ==> best.value in points && best.value.day <= day.day
      invariant forall e :: e in points && e !in todo && e.day <= day.day ==> best.Some? && e.day <= best.value.day
      decreases |todo|
    {
      var d :| d in todo;
      if d.day <= day.day && (best.None? || best.value.day < d.day) {
        best := Some(d);
      }
      todo := todo - {d};
    }
    v := if best.Some? then points[best.value] else 1.0;
    assert best.Some? ==> IsLatest(points, day, best.value);
  }

  /** The reference: walk back along the calendar to a day that has a point. */
  function Forward(points: Points, dates: seq<Date>, k: nat): real
    requires k < |dates|
  {
    if dates[k] in points then points[dates[k]] else if k == 0 then 1.0 else Forward(points, dates, k - 1)
  }

  ghost predicate Ascending(dates: seq<Date>) {
    forall i, j :: 0 <= i < j < |dates| ==> dates[i].day < dates[j].day
  }

  /**
   * The latest point not after a calendar day is what walking back finds; with the first day known, never the
   * default.
   */
  lemma {:induction false} LastKnownIsForward(points: Points, dates: seq<Date>, k: nat, v: real)
    requires k < |dates| && Ascending(dates) && IsLastKnown(points, dates[k], v)
    requires (forall d :: d in points ==> d in dates) && dates[0] in points
    ensures v == Forward(points, dates, k)
    ensures exists i :: 0 <= i <= k && dates[i] in points && v == points[dates[i]]
  {
    if dates[k] in points {
      KnownToday(points, dates[k], v);
    } else {
      YesterdayServes(points, dates, k, v);
      LastKnownIsForward(points, dates, k - 1, v);
    }
  }

  lemma KnownToday(points: Points, day: Date, v: real)
    requires IsLastKnown(points, day, v) && day in points
    ensures v == points[day]
  {
  }

  lemma YesterdayServes(points: Points, dates: seq<Date>, k: nat, v: real)
    requires k < |dates| && Ascending(dates) && IsLastKnown(points, dates[k], v) && dates[k] !in points
    requires (forall d :: d in points ==> d in dates) && dates[0] in points
    ensures k > 0 && IsLastKnown(points, dates[k - 1], v)
  {
    forall d | d in points && d.day <= dates[k].day ensures d.day <= dates[k - 1].day {
      var i :| 0 <= i < |dates| && dates[i] == d;
      assert i < k;
    }
    var d :| d in points && IsLatest(points, dates[k], d) && v == points[d];
    assert IsLatest(points, dates[k - 1], d);
  }

  // ---- The basket -----------------------------------------------------------------------

  /** The dates of all series, each once, in order. */
  ghost predicate IsCalendar(dates: seq<Date>, series: seq<Points>) {
    && Ascending(dates)
    && (forall d :: d in dates <==> exists i :: 0 <= i < |series| && d in series[i])
  }

  function Insert(dates: seq<Date>, d: Date): seq<Date> {
    if dates == [] || d.day < dates[0].day then [d] + dates
    else if d == dates[0] then dates
    else [dates[0]] + Insert(dates[1..], d)
  }

  lemma {:induction false} InsertKeeps(dates: seq<Date>, d: Date)
    requires Ascending(dates)
    ensures Ascending(Insert(dates, d))
    ensures forall e :: e in Insert(dates, d) <==> e in dates || e == d
  {
    if dates == [] || d.day < dates[0].day || d == dates[0] {
    } else {
      InsertKeeps(dates[1..], d);
      assert dates == [dates[0]] + dates[1..];
      forall e | e in dates[1..] ensures dates[0].day < e.day {
      }
    }
  }

  method AllDates(series: seq<Points>) returns (dates: seq<Date>)
    ensures IsCalendar(dates, series)
  {
    dates := [];
    for i := 0 to |series|
      invariant Ascending(dates)
      invariant forall d :: d in dates <==> exists k :: 0 <= k < i && d in series[k]
    {
      ghost var before := dates;
      var todo := series[i].Keys;
      while todo != {}
        invariant todo <= series[i].Keys && Ascending(dates)
        invariant forall d :: d in dates <==> d in before || (d in series[i] && d !in todo)
        decreases |todo|
      {
        var d :| d in todo;
        InsertKeeps(dates, d);
        dates := Insert(dates, d);
        todo := todo - {d};
      }
    }
  }

  function SumAt(series: seq<Points>, dates: seq<Date>, k: nat): real
    requires k < |dates|
  {
    if series == [] then 0.0
    else SumAt(series[..|series| - 1], dates, k) + Forward(series[|series| - 1], dates, k)
  }

  /** The mean of the forward-filled series on every calendar day. */
  ghost predicate IsBasket(basket: seq<real>, series: seq<Points>, dates: seq<Date>) {
    && series != [] && |basket| == |dates|
    && forall k :: 0 <= k < |dates| ==> basket[k] == SumAt(series, dates, k) / |series| as real
  }

  ghost predicate AllStart(series: seq<Points>, entry: Date) {
    forall i :: 0 <= i < |series| ==> entry in series[i] && forall d :: d in series[i] ==> entry.day <= d.day
  }

  /** The calendar starts on the entry date. */
  lemma CalendarStarts(series: seq<Points>, dates: seq<Date>, entry: Date)
    requires series != [] && AllStart(series, entry) && IsCalendar(dates, series)
    ensures dates != [] && dates[0] == entry
    ensures forall i, d :: 0 <= i < |series| && d in series[i] ==> d in dates
  {
    assert entry in series[0];
    assert entry in dates;
    assert dates[0] in dates;
    var i :| 0 <= i < |series| && dates[0] in series[i];
    var k :| 0 <= k < |dates| && dates[k] == entry;
  }

  method Mean(series: seq<Points>, dates: seq<Date>, k: nat, entry: Date) returns (m: real)
    requires series != [] && AllStart(series, entry) && IsCalendar(dates, series) && k < |dates|
    ensures m == SumAt(series, dates, k) / |series| as real
  {
    CalendarStarts(series, dates, entry);
    var sum := 0.0;
    for i := 0 to |series|
      invariant sum == SumAt(series[..i], dates, k)
    {
      assert series[..i + 1][..i] == series[..i];
      var v := LastKnown(series[i], dates[k]);
      LastKnownIsForward(series[i], dates, k, v);
      sum := sum + v;
    }
    assert series[..|series|] == series;
    m := sum / |series| as real;
  }

  // ---- Drawdown -------------------------------------------------------------------------

  /** The highest value up to day `k`. */
  function Peak(basket: seq<real>, k: nat): real
    requires k < |basket|
  {
    if k == 0 then basket[0] else Max(Peak(basket, k - 1), basket[k])
  }

  predicate Breaks(basket: seq<real>) { exists k :: 0 <= k < |basket| && Peak(basket, k) == 0.0 }

  /** Change from one value to another, 0 from zero. */
  function Change(from: real, to: real): real { if from == 0.0 then 0.0 else to / from - 1.0 }

  /** The least of zero and of the changes from the peak so far, over the first days. */
  ghost predicate IsRunningDrawdown(basket: seq<real>, days: nat, d: real)
    requires days <= |basket|
  {
    && d <= 0.0
    && (forall k :: 0 <= k < days ==> d <= Change(Peak(basket, k), basket[k]))
    && (d == 0.0 || exists k :: 0 <= k < days && d == Change(Peak(basket, k), basket[k]))
  }

  /** None is a division by zero. */
  method Drawdown(basket: seq<real>) returns (r: Option<real>)
    requires basket != []
    ensures r.None? <==> Breaks(basket)
    ensures r.Some? ==> IsRunningDrawdown(basket, |basket|, r.value)
  {
    var peak := basket[0];
    var drawdown := 0.0;
    for k := 0 to |basket|
      invariant peak == if k == 0 then basket[0] else Peak(basket, k - 1)
      invariant forall i :: 0 <= i < k ==> Peak(basket, i) != 0.0
      invariant IsRunningDrawdown(basket, k, drawdown)
    {
      peak := Max(peak, basket[k]);
      assert peak == Peak(basket, k);
      if peak == 0.0 {
        return None;
      }
      drawdown := Min(drawdown, basket[k] / peak - 1.0);
    }
    r := Some(drawdown);
  }

  predicate Positive(basket: seq<real>) { forall k :: 0 <= k < |basket| ==> basket[k] > 0.0 }

  lemma {:induction false} PeakIsHighest(basket: seq<real>, k: nat) returns (i: nat)
    requires k < |basket|
    ensures i <= k && Peak(basket, k) == basket[i]
    ensures forall j :: 0 <= j <= k ==> basket[j] <= Peak(basket, k)
  {
    if k == 0 {
      i := 0;
    } else {
      i := PeakIsHighest(basket, k - 1);
      if basket[i] < basket[k] {
        i := k;
      }
    }
  }

  lemma ChangeFromHigher(low: real, high: real, to: real)
    requires 0.0 < low <= high && to > 0.0
    ensures Change(high, to) <= Change(low, to)
  {
    var x, y := to / high, to / low;
    assert x * high == to && y * low == to;
    if x > y {
      assert x * high >= x * low > y * low;
    }
  }

  /** The largest loss between any day and any later one. */
  ghost predicate IsWorstPair(basket: seq<real>, d: real) {
    && (forall i, j :: 0 <= i <= j < |basket| ==> d <= Change(basket[i], basket[j]))
    && (exists i, j :: 0 <= i <= j < |basket| && d == Change(basket[i], basket[j]))
  }

  /** On positive values the one-pass drawdown is the worst pair, and no division fails. */
  lemma RunningIsWorstPair(basket: seq<real>, d: real)
    requires basket != [] && Positive(basket) && IsRunningDrawdown(basket, |basket|, d)
    ensures IsWorstPair(basket, d)
  {
    hide Change, Peak;
    forall i, j | 0 <= i <= j < |basket| ensures d <= Change(basket[i], basket[j]) {
      var p := PeakIsHighest(basket, j);
      ChangeFromHigher(basket[i], Peak(basket, j), basket[j]);
    }
    if d == 0.0 {
      NoChange(basket[0]);
      assert d == Change(basket[0], basket[0]);
    } else {
      var k :| 0 <= k < |basket| && d == Change(Peak(basket, k), basket[k]);
      var p := PeakIsHighest(basket, k);
      assert d == Change(basket[p], basket[k]);
    }
  }

  lemma NoChange(v: real)
    requires v > 0.0
    ensures Change(v, v) == 0.0
  {
  }

  lemma PositiveNeverBreaks(basket: seq<real>)
    requires Positive(basket)
    ensures !Breaks(basket)
  {
    if Breaks(basket) {
      var k :| 0 <= k < |basket| && Peak(basket, k) == 0.0;
      var i := PeakIsHighest(basket, k);
      assert false;
    }
  }

  lemma {:induction false} SumIsPositive(series: seq<Points>, dates: seq<Date>, k: nat)
    requires k < |dates|
    requires forall i :: 0 <= i < |series| ==> forall d :: d in series[i] ==> series[i][d] > 0.0
    ensures SumAt(series, dates, k) >= 0.0 && (series != [] ==> SumAt(series, dates, k) > 0.0)
  {
    if series != [] {
      SumIsPositive(series[..|series| - 1], dates, k);
      ForwardIsPositive(series[|series| - 1], dates, k);
    }
  }

  lemma {:induction false} ForwardIsPositive(points: Points, dates: seq<Date>, k: nat)
    requires k < |dates| && forall d :: d in points ==> points[d] > 0.0
    ensures Forward(points, dates, k) > 0.0
  {
    if dates[k] !in points && k > 0 {
      ForwardIsPositive(points, dates, k - 1);
    }
  }

  // ---- The three metrics ----------------------------------------------------------------

  predicate HasPath(windows: seq<Window>, entry: Date) {
    windows != [] && forall i :: 0 <= i < |windows| ==> EntryPrice(windows[i], entry).Some?
  }

  ghost predicate IsSeries(series: seq<Points>, windows: seq<Window>, entry: Date, exit: Date) {
    && |series| == |windows|
    && forall i :: 0 <= i < |windows| ==>
         var price := EntryPrice(windows[i], entry);
         price.Some? && price.value > 0.0 && series[i] == PointsOf(windows[i], entry, exit, price.value)
  }

  ghost predicate IsLeast(basket: seq<real>, m: real) { m in basket && forall v :: v in basket ==> m <= v }

  ghost predicate IsGreatest(basket: seq<real>, m: real) { m in basket && forall v :: v in basket ==> v <= m }

  /** What the basket's path answers: the running drawdown, its lowest and its highest value less one. */
  ghost predicate Answers(basket: seq<real>, r: Outcome) {
    match r
    case NoPath => false
    case DividedByZero => Breaks(basket)
    case Path(drawdown, adverse, favorable) =>
      && !Breaks(basket) && IsRunningDrawdown(basket, |basket|, drawdown)
      && IsLeast(basket, adverse + 1.0) && IsGreatest(basket, favorable + 1.0)
  }

  method Extremes(basket: seq<real>) returns (least: real, greatest: real)
    requires basket != []
    ensures IsLeast(basket, least) && IsGreatest(basket, greatest)
  {
    least, greatest := basket[0], basket[0];
    for k := 1 to |basket|
      invariant IsLeast(basket[..k], least) && IsGreatest(basket[..k], greatest)
    {
      least, greatest := Min(least, basket[k]), Max(greatest, basket[k]);
      assert basket[..k + 1] == basket[..k] + [basket[k]];
    }
    assert basket[..|basket|] == basket;
  }

  method Evaluate(windows: seq<Window>, entry: Date, exit: Date)
    returns (r: Outcome, ghost series: seq<Points>, ghost dates: seq<Date>, ghost basket: seq<real>)
    requires forall i :: 0 <= i < |windows| ==> EntryIsPositive(windows[i], entry)
    ensures r.NoPath? <==> !HasPath(windows, entry)
    ensures !r.NoPath? ==>
              && IsSeries(series, windows, entry, exit) && IsCalendar(dates, series) && dates != [] && dates[0] == entry
              && IsBasket(basket, series, dates) && Answers(basket, r)
  {
    series, dates, basket := [], [], [];
    var all: seq<Points> := [];
    for i := 0 to |windows|
      invariant |all| == i && IsSeries(all, windows[..i], entry, exit) && AllStart(all, entry)
    {
      var price := EntryPrice(windows[i], entry);
      if price.None? {
        return NoPath, [], [], [];
      }
      assert EntryIsPositive(windows[i], entry);
      var points := BuildPoints(windows[i], entry, exit, price.value);
      PointsStartAtEntry(windows[i], entry, exit, price.value);
      all := all + [points];
    }
    if all == [] {
      return NoPath, [], [], [];
    }
    assert windows[..|windows|] == windows;
    var days := AllDates(all);
    CalendarStarts(all, days, entry);
    var values: seq<real> := [];
    for k := 0 to |days|
      invariant |values| == k && forall j :: 0 <= j < k ==> values[j] == SumAt(all, days, j) / |all| as real
    {
      var m := Mean(all, days, k, entry);
      values := values + [m];
    }
    series, dates, basket := all, days, values;
    var drawdown := Drawdown(values);
    if drawdown.None? {
      return DividedByZero, series, dates, basket;
    }
    var least, greatest := Extremes(values);
    r := Path(drawdown.value, least - 1.0, greatest - 1.0);
  }

  /** With positive closes the path never divides by zero, and its drawdown is the worst pair of basket values. */
  lemma PositivePath(windows: seq<Window>, entry: Date, exit: Date, series: seq<Points>, dates: seq<Date>,
                     basket: seq<real>, r: Outcome)
    requires IsSeries(series, windows, entry, exit) && IsBasket(basket, series, dates) && basket != []
    requires forall i :: 0 <= i < |windows| ==> ClosesPositive(windows[i])
    requires Answers(basket, r)
    ensures Positive(basket) && r.Path? && IsWorstPair(basket, r.drawdown)
  {
    forall i | 0 <= i < |series| ensures forall d :: d in series[i] ==> series[i][d] > 0.0 {
      PointsStartAtEntry(windows[i], entry, exit, EntryPrice(windows[i], entry).value);
    }
    forall k | 0 <= k < |basket| ensures basket[k] > 0.0 {
      SumIsPositive(series, dates, k);
    }
    PositiveNeverBreaks(basket);
    RunningIsWorstPair(basket, r.drawdown);
  }
}
