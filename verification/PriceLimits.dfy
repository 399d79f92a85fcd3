/** Daily price limits: which rule applies to a share, and the limit prices on the tick grid. */
module PriceLimits {
  import opened Wrappers

  datatype Board = Star | ChiNext | Beijing | Main

  datatype Source = ListingStage | QuotedRate | BoardRule

  datatype Rule = Rule(board: Board, up: Option<real>, down: Option<real>, hasLimit: bool, source: Source)

  /** A quoted rate once parsed as a floating-point number. */
  datatype Rate = NotFinite | Finite(value: real)

  datatype Failure = NoTradeDate | NonFinite | NonPositive | GreaterThan100Percent | Incomplete

  datatype Result<T> = Ok(value: T) | Err(error: Failure)

  /** The day the risk-warning rate of the main board became 10%, as year, month and day digits. */
  const ST_10_EFFECTIVE := 20260706

  const NO_LIMIT_STAGES := {"IPO_FIRST_DAY", "RELISTING_FIRST_DAY", "NO_LIMIT", "NONE_LIMIT"}

  predicate StartsWith(s: string, prefix: string) { prefix <= s }

  function BoardOf(code: string): Board {
    if StartsWith(code, "688") then Star
    else if StartsWith(code, "300") || StartsWith(code, "301") then ChiNext
    else if StartsWith(code, "920") || StartsWith(code, "8") || StartsWith(code, "4") then Beijing
    else Main
  }

  function Normalize(rate: Rate): Result<real> {
    if rate.NotFinite? then Err(NonFinite)
    else if rate.value <= 0.0 then Err(NonPositive)
    else
      var r := if rate.value > 1.0 then rate.value / 100.0 else rate.value;
      if r > 1.0 then Err(GreaterThan100Percent) else Ok(r)
  }

  /** A one-sided quote serves for both sides; the side already normalised is normalised again. */
  function QuoteRule(board: Board, up: Option<Rate>, down: Option<Rate>): Option<Result<Rule>> {
    if up.None? && down.None? then None
    else
      var u := Normalize(if up.Some? then up.value else down.value);
      if u.Err? then Some(Err(u.error))
      else
        var d := Normalize(if down.Some? then down.value else Finite(u.value));
        if d.Err? then Some(Err(d.error)) else Some(Ok(Rule(board, Some(u.value), Some(d.value), true, QuotedRate)))
  }

  function Validated(rule: Rule): Result<Rule> {
    if !rule.hasLimit then Ok(rule)
    else if rule.up.None? || rule.down.None? then Err(Incomplete)
    else if rule.up.value <= 0.0 || rule.down.value <= 0.0 then Err(NonPositive)
    else Ok(rule)
  }

  function BoardRate(board: Board, riskWarning: bool, day: int): real {
    match board
    case Star => 0.20
    case ChiNext => 0.20
    case Beijing => 0.30
    case Main => if riskWarning && day < ST_10_EFFECTIVE then 0.05 else 0.10
  }

  /** `day` is the trade date in digits, if it is given and readable. */
  function Resolve(code: string, day: Option<int>, stage: string, up: Option<Rate>, down: Option<Rate>,
                   riskWarning: bool): Result<Rule> {
    var board := BoardOf(code);
    if day.None? then Err(NoTradeDate)
    else if stage in NO_LIMIT_STAGES then Validated(Rule(board, None, None, false, ListingStage))
    else
      var quoted := QuoteRule(board, up, down);
      if quoted.Some? then
        if quoted.value.Err? then quoted.value else Validated(quoted.value.value)
      else
        var rate := BoardRate(board, riskWarning, day.value);
        Validated(Rule(board, Some(rate), Some(rate), true, BoardRule))
  }

  predicate IsRate(r: Option<real>) { r.Some? && 0.0 < r.value <= 1.0 }

  /** No limit at all, or both rates in (0, 1]. */
  predicate Lawful(rule: Rule) {
    if rule.hasLimit then IsRate(rule.up) && IsRate(rule.down) else rule.up.None? && rule.down.None?
  }

  /** A fraction up to 1, or a percentage up to 100. */
  predicate Readable(rate: Option<Rate>) { rate.Some? ==> rate.value.Finite? && 0.0 < rate.value.value <= 100.0 }

  /** Resolution fails exactly without a date or on an unreadable quoted rate outside the limit-free stages. */
  lemma ResolvedIsLawful(code: string, day: Option<int>, stage: string, up: Option<Rate>, down: Option<Rate>,
                         riskWarning: bool)
    ensures var r := Resolve(code, day, stage, up, down, riskWarning);
            && (r.Ok? <==> day.Some? && (stage in NO_LIMIT_STAGES || (Readable(up) && Readable(down))))
            && (r.Ok? ==> Lawful(r.value) && (r.value.hasLimit <==> stage !in NO_LIMIT_STAGES))
            && (r.Ok? && r.value.source == QuotedRate ==> up.Some? || down.Some?)
            && (r.Ok? && r.value.source == QuotedRate && (up.None? || down.None?) ==> r.value.up == r.value.down)
  {
  }

  /**
   * A percentage and the fraction it stands for resolve to the same rate, except that 1 and below read as fractions.
   */
  lemma PercentIsFraction(p: real)
    requires 0.0 < p <= 1.0
    ensures Normalize(Finite(p)) == Ok(p)
    ensures Normalize(Finite(100.0 * p)) == Ok(p) <==> p > 0.01
  {
  }

  // ---- The tick grid ----------------------------------------------------------------------

  /** Nearest whole number, halves away from zero. */
  function HalfUp(x: real): int {
    if x >= 0.0 then (x + 0.5).Floor else 0 - (0.5 - x).Floor
  }

  /** Within half; up on a tie when positive, down when negative. */
  lemma HalfUpBounds(x: real)
    ensures 0.0 - 0.5 <= HalfUp(x) as real - x <= 0.5
    ensures x >= 0.0 ==> HalfUp(x) as real - x > 0.0 - 0.5 && HalfUp(x) >= 0
  {
  }

  lemma HalfUpMonotone(x: real, y: real)
    requires x <= y
    ensures HalfUp(x) <= HalfUp(y)
  {
  }

  lemma HalfUpWhole(k: int)
    ensures HalfUp(k as real) == k
  {
  }

  lemma NearestWhole(x: real, k: int)
    requires x > 0.0
    ensures k > HalfUp(x) ==> k as real > x + 0.5
    ensures k < HalfUp(x) ==> k as real <= x - 0.5
  {
  }

  lemma MoveFromWhole(k: nat, m: real)
    requires 0.0 <= m <= k as real
    ensures HalfUp(k as real - m) <= k <= HalfUp(k as real + m)
    ensures k < HalfUp(k as real + m) <==> m >= 0.5
    ensures HalfUp(k as real - m) < k <==> m > 0.5
  {
  }

  /** The price of so many ticks. */
  function Ticks(n: real, tick: real): real { n * tick }

  function RoundToTick(price: real, tick: real): real
    requires tick > 0.0
  {
    Ticks(HalfUp(price / tick) as real, tick)
  }

  lemma Order(a: real, b: real, tick: real)
    requires tick > 0.0
    ensures a <= b <==> Ticks(a, tick) <= Ticks(b, tick)
    ensures a == b <==> Ticks(a, tick) == Ticks(b, tick)
  {
    if a < b {
      assert (b - a) * tick > 0.0;
    } else if b < a {
      assert (a - b) * tick > 0.0;
    }
  }

  lemma InTicks(price: real, tick: real) returns (q: real)
    requires tick > 0.0
    ensures price == Ticks(q, tick) && RoundToTick(price, tick) == Ticks(HalfUp(q) as real, tick)
    ensures Ticks(0.0, tick) == 0.0 && Ticks(0.5, tick) == tick / 2.0
  {
    q := price / tick;
  }

  lemma TicksAdd(a: real, b: real, tick: real)
    ensures Ticks(a + b, tick) == Ticks(a, tick) + Ticks(b, tick)
    ensures Ticks(a - b, tick) == Ticks(a, tick) - Ticks(b, tick)
  {
  }

  /** Within half a tick, and any multiple above the result is more than half a tick away: ties go up. */
  lemma RoundingIsNearest(price: real, tick: real, k: int)
    requires tick > 0.0 && price > 0.0
    ensures var r := RoundToTick(price, tick);
            var other := Ticks(k as real, tick);
            && 0.0 - tick / 2.0 < r - price <= tick / 2.0
            && (other > r ==> other - price > tick / 2.0)
            && (other < r ==> price - other >= tick / 2.0)
  {
    hide Ticks, RoundToTick, HalfUp;
    var q := InTicks(price, tick);
    var n, other := HalfUp(q) as real, k as real;
    Order(q, 0.0, tick);
    HalfUpBounds(q);
    NearestWhole(q, k);
    TicksAdd(q, 0.5, tick);
    Order(n, q + 0.5, tick);
    Order(n, q - 0.5, tick);
    Order(other, n, tick);
    Order(other, q + 0.5, tick);
    Order(other, q - 0.5, tick);
  }

  lemma RoundingIsMonotone(a: real, b: real, tick: real)
    requires tick > 0.0 && a <= b
    ensures RoundToTick(a, tick) <= RoundToTick(b, tick)
  {
    hide Ticks, RoundToTick, HalfUp;
    var p := InTicks(a, tick);
    var q := InTicks(b, tick);
    Order(p, q, tick);
    HalfUpMonotone(p, q);
    Order(HalfUp(p) as real, HalfUp(q) as real, tick);
  }

  lemma GridIsFixed(k: int, tick: real)
    requires tick > 0.0
    ensures RoundToTick(Ticks(k as real, tick), tick) == Ticks(k as real, tick)
  {
    hide Ticks, RoundToTick, HalfUp;
    var q := InTicks(Ticks(k as real, tick), tick);
    Order(k as real, q, tick);
    HalfUpWhole(k);
  }

  lemma RoundingIsIdempotent(price: real, tick: real)
    requires tick > 0.0
    ensures RoundToTick(RoundToTick(price, tick), tick) == RoundToTick(price, tick)
  {
    hide Ticks, RoundToTick, HalfUp;
    var q := InTicks(price, tick);
    GridIsFixed(HalfUp(q), tick);
  }

  // ---- Limit prices -----------------------------------------------------------------------

  function Scaled(price: real, rate: real): real { price * rate }

  /** None is an infinite limit. */
  function LimitUp(prevClose: real, rule: Rule, tick: real): Option<real>
    requires Lawful(rule) && tick > 0.0
  {
    if rule.hasLimit then Some(RoundToTick(Scaled(prevClose, 1.0 + rule.up.value), tick)) else None
  }

  function LimitDown(prevClose: real, rule: Rule, tick: real): Option<real>
    requires Lawful(rule) && tick > 0.0
  {
    if rule.hasLimit then Some(RoundToTick(Scaled(prevClose, 1.0 - rule.down.value), tick)) else None
  }

  predicate CanBuy(open: real, prevClose: real, rule: Rule, tick: real)
    requires Lawful(rule) && tick > 0.0
  {
    var limit := LimitUp(prevClose, rule, tick);
    limit.None? || open < limit.value
  }

  predicate CanSell(open: real, prevClose: real, rule: Rule, tick: real)
    requires Lawful(rule) && tick > 0.0
  {
    var limit := LimitDown(prevClose, rule, tick);
    limit.None? || open > limit.value
  }

  /** Moving up from a grid price leaves it exactly when the move is half a tick or more; down, more than half. */
  lemma MoveFromGrid(k: nat, move: real, tick: real)
    requires tick > 0.0 && 0.0 <= move <= Ticks(k as real, tick)
    ensures var close := Ticks(k as real, tick);
            && RoundToTick(close - move, tick) <= close <= RoundToTick(close + move, tick)
            && (close < RoundToTick(close + move, tick) <==> move >= tick / 2.0)
            && (RoundToTick(close - move, tick) < close <==> move > tick / 2.0)
  {
    hide Ticks, RoundToTick, HalfUp;
    var close := Ticks(k as real, tick);
    var m := InTicks(move, tick);
    var up := InTicks(close + move, tick);
    var down := InTicks(close - move, tick);
    var n := k as real;
    TicksAdd(n, m, tick);
    Order(up, n + m, tick);
    Order(down, n - m, tick);
    Order(0.0, m, tick);
    Order(m, n, tick);
    Order(0.5, m, tick);
    MoveFromWhole(k, m);
    Order(HalfUp(down) as real, n, tick);
    Order(HalfUp(up) as real, n, tick);
  }

  /**
   * The limits bracket a previous close on the grid, strictly so once the rate is worth half a tick. Below
   * that a share cannot be bought at its own previous close; at exactly half a tick it can be bought there
   * but not sold.
   */
  lemma LimitsBracketClose(k: nat, rule: Rule, tick: real)
    requires tick > 0.0 && Lawful(rule) && rule.hasLimit
    ensures var close := Ticks(k as real, tick);
            && LimitDown(close, rule, tick).value <= close <= LimitUp(close, rule, tick).value
            && (CanBuy(close, close, rule, tick) <==> Scaled(close, rule.up.value) >= tick / 2.0)
            && (CanSell(close, close, rule, tick) <==> Scaled(close, rule.down.value) > tick / 2.0)
  {
    hide Ticks, RoundToTick, HalfUp, Scaled;
    var close := Ticks(k as real, tick);
    Order(0.0, k as real, tick);
    var zero := InTicks(0.0, tick);
    Share(close, rule.up.value);
    Share(close, rule.down.value);
    MoveFromGrid(k, Scaled(close, rule.up.value), tick);
    MoveFromGrid(k, Scaled(close, rule.down.value), tick);
  }

  lemma Share(close: real, rate: real)
    requires close >= 0.0 && 0.0 < rate <= 1.0
    ensures 0.0 <= Scaled(close, rate) <= close
    ensures Scaled(close, 1.0 + rate) == close + Scaled(close, rate)
    ensures Scaled(close, 1.0 - rate) == close - Scaled(close, rate)
  {
    assert close * (1.0 - rate) >= 0.0;
  }
}
