/** The gateway call of app/model_gateway: routes, structured repair and transport retry over one budget. */
module ModelGateways {
  import opened Wrappers
  import opened CircuitBreakers

  // ---- Budget --------------------------------------------------------------------------

  datatype Usage = Usage(input: int, output: int, cost: real)

  datatype Caps = Caps(input: Option<int>, output: Option<int>, total: Option<int>, cost: Option<real>)

  /** The reservation check: the amounts are added as they come. */
  predicate Fits(caps: Caps, used: Usage, more: Usage) {
    && (caps.input.Some? ==> used.input + more.input <= caps.input.value)
    && (caps.output.Some? ==> used.output + more.output <= caps.output.value)
    && (caps.total.Some? ==> used.input + used.output + more.input + more.output <= caps.total.value)
    && (caps.cost.Some? ==> used.cost + more.cost <= caps.cost.value)
  }

  /** What a charge adds: negative amounts count as zero. */
  function Add(used: Usage, more: Usage): Usage {
    Usage(used.input + MaxInt(0, more.input), used.output + MaxInt(0, more.output), used.cost + Max(0.0, more.cost))
  }

  predicate WithinCaps(caps: Caps, used: Usage) { Fits(caps, used, Usage(0, 0, 0.0)) }

  predicate NonNegative(u: Usage) { u.input >= 0 && u.output >= 0 && u.cost >= 0.0 }

  class TokenCostBudget {
    const caps: Caps
    var inputTokens: int
    var outputTokens: int
    var cost: real

    ghost function View(): Usage
      reads this
    {
      Usage(inputTokens, outputTokens, cost)
    }

    constructor (caps: Caps)
      ensures this.caps == caps && View() == Usage(0, 0, 0.0)
    {
      this.caps := caps;
      inputTokens, outputTokens, cost := 0, 0, 0.0;
    }

    /** False is the raised budget error. */
    method Check(more: Usage) returns (ok: bool)
      ensures ok == Fits(caps, View(), more)
    {
      if caps.input.Some? && inputTokens + more.input > caps.input.value {
        return false;
      }
      if caps.output.Some? && outputTokens + more.output > caps.output.value {
        return false;
      }
      if caps.total.Some? && inputTokens + outputTokens + more.input + more.output > caps.total.value {
        return false;
      }
      if caps.cost.Some? && cost + more.cost > caps.cost.value {
        return false;
      }
      return true;
    }

    method Charge(more: Usage) returns (ok: bool)
      modifies this
      ensures ok == Fits(caps, old(View()), more)
      ensures View() == if ok then Add(old(View()), more) else old(View())
    {
      ok := Check(more);
      if ok {
        inputTokens := inputTokens + MaxInt(0, more.input);
        outputTokens := outputTokens + MaxInt(0, more.output);
        cost := cost + Max(0.0, more.cost);
      }
    }
  }

  /** An accepted charge keeps every cap but the total one; that one holds exactly when the clamped amounts fit it. */
  lemma ChargeKeepsCapsIff(caps: Caps, used: Usage, more: Usage)
    requires WithinCaps(caps, used) && Fits(caps, used, more)
    ensures WithinCaps(caps, Add(used, more)) <==>
              (caps.total.Some? ==>
                 used.input + used.output + MaxInt(0, more.input) + MaxInt(0, more.output) <= caps.total.value)
    ensures NonNegative(more) ==> WithinCaps(caps, Add(used, more))
  {
  }

  /** A response reporting negative input tokens is accepted and leaves the total over its cap. */
  lemma NegativeUsageBreaksTotalCap()
    ensures var caps := Caps(None, None, Some(10), None);
            var used, more := Usage(5, 0, 0.0), Usage(-5, 10, 0.0);
            WithinCaps(caps, used) && Fits(caps, used, more) && !WithinCaps(caps, Add(used, more))
  {
  }

  // ---- One gateway call ----------------------------------------------------------------

  /** What one endpoint call yields; `prompt` is 0 when the response reports no input tokens. */
  datatype Reply =
    | Response(prompt: int, completion: int, valid: bool)
    | Malformed
    | Raised(kind: ErrorKind, retryable: bool)

  /** The endpoint's own error, or one of the kinds the gateway treats apart. */
  datatype ErrorKind = TransportKind | BudgetKind | CircuitKind

  datatype RouteName = Primary | Fallback | Other

  datatype Route = Route(name: RouteName, inputPrice: real, outputPrice: real)

  datatype Request = Request(inputTokens: nat, maxTokens: int, structured: bool)

  datatype Result = Result(route: RouteName, input: int, output: int, cost: real)

  /** How a route attempt ends. */
  datatype RouteEnd = Answered | OverBudget | Rejected | CircuitRaised | RouteFailed(structured: bool)

  /** How a call without a response ends its route. */
  function EndBy(reply: Reply): RouteEnd {
    match reply
    case Raised(BudgetKind, _) => OverBudget
    case Raised(CircuitKind, _) => CircuitRaised
    case _ => RouteFailed(false)
  }

  datatype Outcome = Returned(result: Result) | BudgetError | StructuredError | AllRoutesFailed | UnknownBreaker

  function Sum(charged: seq<Usage>): Usage {
    if charged == [] then Usage(0, 0, 0.0)
    else
      var rest := Sum(charged[..|charged| - 1]);
      var last := charged[|charged| - 1];
      Usage(rest.input + last.input, rest.output + last.output, rest.cost + last.cost)
  }

  function Plus(a: Usage, b: Usage): Usage { Usage(a.input + b.input, a.output + b.output, a.cost + b.cost) }

  lemma SumAppend(charged: seq<Usage>, more: Usage)
    ensures Sum(charged + [more]) == Plus(Sum(charged), more)
  {
    assert (charged + [more])[..|charged|] == charged;
  }

  lemma {:induction false} SumConcat(a: seq<Usage>, b: seq<Usage>)
    ensures Sum(a + b) == Plus(Sum(a), Sum(b))
    decreases |b|
  {
    if b == [] {
      assert a + b == a;
      NothingAdds(Sum(a));
    } else {
      hide Sum, Plus;
      var n := |b| - 1;
      SumConcat(a, b[..n]);
      assert b == b[..n] + [b[n]];
      assert a + b == (a + b[..n]) + [b[n]];
      SumAppend(b[..n], b[n]);
      SumAppend(a + b[..n], b[n]);
      PlusAssociates(Sum(a), Sum(b[..n]), b[n]);
    }
  }

  lemma NothingAdds(a: Usage)
    ensures Plus(a, Sum([])) == a
  {
  }

  lemma PlusAssociates(a: Usage, b: Usage, c: Usage)
    ensures Plus(Plus(a, b), c) == Plus(a, Plus(b, c))
  {
  }

  /** The budget moved by exactly the charged usages, and if it started within its caps it still is. */
  ghost predicate Accounted(caps: Caps, start: Usage, now: Usage, charged: seq<Usage>) {
    now == Plus(start, Sum(charged)) && (WithinCaps(caps, start) ==> WithinCaps(caps, now))
  }

  lemma NothingCharged(caps: Caps, start: Usage)
    ensures Accounted(caps, start, start, [])
  {
  }

  lemma ChargeAccounted(caps: Caps, start: Usage, before: Usage, charged: seq<Usage>, more: Usage)
    requires Accounted(caps, start, before, charged) && Fits(caps, before, more) && NonNegative(more)
    ensures Accounted(caps, start, Add(before, more), charged + [more])
  {
    SumAppend(charged, more);
    hide Sum;
  }

  lemma AccountedJoins(caps: Caps, start: Usage, mid: Usage, now: Usage, a: seq<Usage>, b: seq<Usage>)
    requires Accounted(caps, start, mid, a) && Accounted(caps, mid, now, b)
    ensures Accounted(caps, start, now, a + b)
  {
    SumConcat(a, b);
    hide Sum;
  }

  /** What a route attempt does to its breaker: nothing when rejected, else at most one success or one failure. */
  ghost predicate BreakerMoved(before: Breaker, after: Breaker, end: RouteEnd, at: real, failedAt: real,
                               threshold: nat, recovery: real) {
    var admission := Allow(before, at, recovery);
    match end
    case Answered => admission.admitted && after == Success(admission.breaker)
    case RouteFailed(_) => admission.admitted && after == Failure(admission.breaker, failedAt, threshold)
    case Rejected => !admission.admitted && after == before
    case CircuitRaised => admission.admitted && after == admission.breaker
    case OverBudget => after == before || (admission.admitted && after == admission.breaker)
  }

  /** The charge for one response. */
  function UsageOf(route: Route, reply: Reply, estimate: nat): Usage
    requires reply.Response?
  {
    var input := if reply.prompt != 0 then reply.prompt else estimate;
    Usage(input, reply.completion, input as real * route.inputPrice + reply.completion as real * route.outputPrice)
  }

  /** The states of all breakers. */
  ghost function Views(breakers: set<CircuitBreaker>): map<CircuitBreaker, Breaker>
    reads breakers
  {
    map b | b in breakers :: b.View()
  }

  class ModelGateway {
    const maxAttempts: int
    /** The k-th endpoint call ever made yields provider(k); the k-th clock reading is clock(k). */
    const provider: nat -> Reply
    const clock: nat -> real
    /** Estimated input tokens of a route's payload, before and after the repair message. */
    const estimate: (RouteName, nat) -> nat
    var calls: nat
    var ticks: nat

    constructor (maxAttempts: int, provider: nat -> Reply, clock: nat -> real, estimate: (RouteName, nat) -> nat)
      ensures calls == 0 && this.maxAttempts == maxAttempts && this.provider == provider
    {
      this.maxAttempts, this.provider, this.clock, this.estimate := maxAttempts, provider, clock, estimate;
      calls, ticks := 0, 0;
    }

    function Attempts(): nat { if maxAttempts < 1 then 1 else maxAttempts }

    function Estimated(route: Route, request: Request, input: nat): Usage {
      var output := MaxInt(0, request.maxTokens);
      Usage(input, output, input as real * route.inputPrice + output as real * route.outputPrice)
    }

    /** What the responses among calls `from` up to `until` cost on one route, in order. */
    function Charges(route: Route, from: nat, until: nat): seq<Usage> {
      if until <= from then []
      else
        var before := Charges(route, from, until - 1);
        if provider(until - 1).Response?
        then before + [UsageOf(route, provider(until - 1), estimate(route.name, |before|))]
        else before
    }

    /** The same over the first `n` routes, route k having made the calls from marks[k] to marks[k + 1]. */
    function AllCharges(routes: seq<Route>, marks: seq<nat>, n: nat): seq<Usage>
      requires n <= |routes| && n < |marks|
    {
      if n == 0 then [] else AllCharges(routes, marks, n - 1) + Charges(routes[n - 1], marks[n - 1], marks[n])
    }

    /** Calls that yield no response cost nothing. */
    lemma {:induction false} SilentCalls(route: Route, from: nat, mid: nat, until: nat)
      requires from <= mid <= until && forall k :: mid <= k < until ==> !provider(k).Response?
      ensures Charges(route, from, until) == Charges(route, from, mid)
      decreases until
    {
      if mid < until {
        SilentCalls(route, from, mid, until - 1);
      }
    }

    lemma {:induction false} LongerMarks(routes: seq<Route>, marks: seq<nat>, more: seq<nat>, n: nat)
      requires n <= |routes| && n < |marks|
      ensures AllCharges(routes, marks + more, n) == AllCharges(routes, marks, n)
    {
      if n > 0 {
        LongerMarks(routes, marks, more, n - 1);
      }
    }

    lemma NoRoutes(routes: seq<Route>, marks: seq<nat>)
      requires marks != []
      ensures AllCharges(routes, marks, 0) == []
    {
    }

    /** One more route. */
    lemma AddMark(routes: seq<Route>, marks: seq<nat>, until: nat, n: nat)
      requires n < |routes| && |marks| == n + 1
      ensures AllCharges(routes, marks + [until], n + 1)
           == AllCharges(routes, marks, n) + Charges(routes[n], marks[n], until)
    {
      LongerMarks(routes, marks, [until], n);
    }

    /** All routes but the last charged every response; the last may have been stopped by its last response. */
    ghost predicate BudgetStops(routes: seq<Route>, marks: seq<nat>, charged: seq<Usage>) {
      && 2 <= |marks| <= |routes| + 1
      && var n := |marks| - 2;
         exists last :: && charged == AllCharges(routes, marks, n) + last
                        && ChargedResponses(routes[n], marks[n], marks[n + 1], last, OverBudget)
    }

    lemma StoppedBy(routes: seq<Route>, marks: seq<nat>, until: nat, n: nat, charged: seq<Usage>, last: seq<Usage>)
      requires n < |routes| && |marks| == n + 1 && charged == AllCharges(routes, marks, n)
      requires ChargedResponses(routes[n], marks[n], until, last, OverBudget)
      ensures BudgetStops(routes, marks + [until], charged + last)
    {
      hide ChargedResponses, AllCharges;
      LongerMarks(routes, marks, [until], n);
      assert charged + last == AllCharges(routes, marks + [until], n) + last;
    }

    lemma AllCharged(route: Route, from: nat, until: nat, charged: seq<Usage>, end: RouteEnd)
      requires ChargedResponses(route, from, until, charged, end) && !end.OverBudget?
      ensures charged == Charges(route, from, until)
    {
    }

    /** Every response was charged, or the budget ran out on the very last one. */
    predicate ChargedResponses(route: Route, from: nat, until: nat, charged: seq<Usage>, end: RouteEnd) {
      || charged == Charges(route, from, until)
      || (&& end.OverBudget? && until > from && provider(until - 1).Response?
          && charged == Charges(route, from, until - 1))
    }

    /** A structured route stops at its first valid response, any other at its first response. */
    predicate StopsAtFirst(request: Request, from: nat, until: nat) {
      forall k :: from <= k < until - 1 && provider(k).Response? ==> request.structured && !provider(k).valid
    }

    /** Retry while errors are retryable and attempts remain; anything but an error is returned at once. */
    method RetryCall() returns (reply: Reply)
      modifies this`calls
      ensures old(calls) < calls <= old(calls) + Attempts()
      ensures reply == provider(calls - 1)
      ensures forall k :: old(calls) <= k < calls - 1 ==> provider(k).Raised? && provider(k).retryable
      ensures reply.Raised? && reply.retryable ==> calls == old(calls) + Attempts()
    {
      var attempt := 0;
      while true
        invariant 0 <= attempt < Attempts() && calls == old(calls) + attempt
        invariant forall k :: old(calls) <= k < calls ==> provider(k).Raised? && provider(k).retryable
        decreases Attempts() - attempt
      {
        reply := provider(calls);
        calls := calls + 1;
        if !reply.Raised? || attempt + 1 >= Attempts() || !reply.retryable {
          return;
        }
        attempt := attempt + 1;
      }
    }

    /** The prices are non-negative, and so is the usage every response among these calls reports. */
    ghost predicate Honest(route: Route, from: nat, until: nat) {
      && route.inputPrice >= 0.0 && route.outputPrice >= 0.0
      && forall k :: from <= k < until && provider(k).Response? ==>
           provider(k).prompt >= 0 && provider(k).completion >= 0
    }

    lemma HonestUsage(route: Route, from: nat, until: nat, input: nat)
      requires from < until && Honest(route, from, until) && provider(until - 1).Response?
      ensures NonNegative(UsageOf(route, provider(until - 1), input))
    {
      var reply := provider(until - 1);
      var tokens := if reply.prompt != 0 then reply.prompt else input;
      assert tokens as real * route.inputPrice >= 0.0;
      assert reply.completion as real * route.outputPrice >= 0.0;
    }

    lemma HonestPart(route: Route, from: nat, until: nat, lo: nat, hi: nat)
      requires Honest(route, from, until) && from <= lo && hi <= until
      ensures Honest(route, lo, hi)
    {
    }

    /** One route: check, breaker, then one or two structured attempts, charging every response. */
    method TryRoute(route: Route, request: Request, budget: TokenCostBudget, breaker: CircuitBreaker)
      returns (end: RouteEnd, spent: Usage, ghost charged: seq<Usage>)
      modifies this`calls, this`ticks, budget, breaker
      ensures old(calls) <= calls <= old(calls) + (if request.structured then 2 else 1) * Attempts()
      ensures Honest(route, old(calls), calls) ==> Accounted(budget.caps, old(budget.View()), budget.View(), charged)
      ensures spent == Sum(charged)
      ensures ChargedResponses(route, old(calls), calls, charged, end) && StopsAtFirst(request, old(calls), calls)
      ensures calls > old(calls) ==>
                Fits(budget.caps, old(budget.View()), Estimated(route, request, request.inputTokens))
      ensures end.Answered? ==>
                charged != [] && calls > 0 && provider(calls - 1).Response? &&
                  (request.structured ==> provider(calls - 1).valid)
      ensures end.Rejected? ==> charged == [] && calls == old(calls)
      ensures calls > old(calls) && !provider(calls - 1).Response? ==> end == EndBy(provider(calls - 1))
      ensures ticks <= old(ticks) + 2
      ensures BreakerMoved(old(breaker.View()), breaker.View(), end, clock(old(ticks)), clock(old(ticks) + 1),
                           breaker.threshold, breaker.recovery)
      ensures calls > old(calls) ==> Allow(old(breaker.View()), clock(old(ticks)), breaker.recovery).admitted
    {
      hide Fits, Plus, Add, UsageOf, WithinCaps, Accounted, Sum, NonNegative, Failure, Honest, Estimated;
      NoSum();
      ghost var start, was := budget.View(), breaker.View();
      NothingCharged(budget.caps, start);
      spent, charged := Usage(0, 0, 0.0), [];
      var ok := budget.Check(Estimated(route, request, request.inputTokens));
      if !ok {
        end := OverBudget;
        return;
      }
      var admitted := breaker.BeforeCall(clock(ticks));
      ticks := ticks + 1;
      if !admitted {
        end := Rejected;
        return;
      }
      end, spent, charged := StructuredAttempts(route, request, budget);
      if end.Answered? {
        breaker.RecordSuccess();
      } else if end.RouteFailed? {
        breaker.RecordFailure(clock(ticks));
        ticks := ticks + 1;
      }
    }

    /** The structured loop; only transport, format or schema failures leave the route failed. */
    method StructuredAttempts(route: Route, request: Request, budget: TokenCostBudget)
      returns (end: RouteEnd, spent: Usage, ghost charged: seq<Usage>)
      modifies this`calls, budget
      ensures old(calls) <= calls <= old(calls) + (if request.structured then 2 else 1) * Attempts()
      ensures Honest(route, old(calls), calls) ==> Accounted(budget.caps, old(budget.View()), budget.View(), charged)
      ensures spent == Sum(charged) && !end.Rejected?
      ensures ChargedResponses(route, old(calls), calls, charged, end) && StopsAtFirst(request, old(calls), calls)
      ensures calls > old(calls) ==>
                Fits(budget.caps, old(budget.View()), Estimated(route, request, estimate(route.name, 0)))
      ensures end == RouteFailed(true) ==>
                calls > old(calls) && provider(calls - 1).Response? && !provider(calls - 1).valid
      ensures end.Answered? ==>
                charged != [] && calls > 0 && provider(calls - 1).Response? &&
                  (request.structured ==> provider(calls - 1).valid)
      ensures end == RouteFailed(true) ==> request.structured && |charged| == 2
      ensures end == RouteFailed(false) || end.CircuitRaised? ==>
                calls > old(calls) && !provider(calls - 1).Response? && end == EndBy(provider(calls - 1))
      ensures calls > old(calls) && !provider(calls - 1).Response? ==> end == EndBy(provider(calls - 1))
    {
      hide Fits, Add, UsageOf, Estimated, Attempts, Booked, Accounted, Sum, Charges, ChargedResponses, Honest;
      spent, charged := Usage(0, 0, 0.0), [];
      ghost var caps, start, first := budget.caps, budget.View(), calls;
      BookNothing(route, caps, first, start);
      var rounds := if request.structured then 2 else 1;
      var round := 0;
      while round < rounds
        invariant 0 <= round <= rounds && |charged| == round && (round > 0 ==> request.structured)
        invariant first <= calls <= first + round * Attempts()
        invariant Booked(route, caps, first, calls, start, budget.View(), spent, charged)
        invariant round == 0 ==> calls == first && budget.View() == start
        invariant round > 0 ==> && calls > first && provider(calls - 1).Response? && !provider(calls - 1).valid
                                && Fits(caps, start, Estimated(route, request, estimate(route.name, 0)))
        invariant forall k :: first <= k < calls && provider(k).Response? ==> !provider(k).valid
      {
        assert (round + 1) * Attempts() == round * Attempts() + Attempts() <= rounds * Attempts();
        BookedMeans(route, caps, first, calls, start, budget.View(), spent, charged, OverBudget);
        var input := estimate(route.name, round);
        var ok := budget.Check(Estimated(route, request, input));
        if !ok {
          return OverBudget, spent, charged;
        }
        ghost var from, before := calls, budget.View();
        var reply := RetryCall();
        if !reply.Response? {
          BookSilence(route, caps, first, from, calls, start, before, spent, charged);
          BookedMeans(route, caps, first, calls, start, before, spent, charged, EndBy(reply));
          return EndBy(reply), spent, charged;
        }
        var usage := UsageOf(route, reply, input);
        ok := budget.Charge(usage);
        if !ok {
          BookRefusal(route, caps, first, from, calls, start, before, spent, charged);
          return OverBudget, spent, charged;
        }
        BookResponse(route, caps, first, from, calls, start, before, spent, charged, usage);
        spent := Usage(spent.input + usage.input, spent.output + usage.output, spent.cost + usage.cost);
        charged := charged + [usage];
        if reply.valid || !request.structured {
          BookedMeans(route, caps, first, calls, start, budget.View(), spent, charged, Answered);
          return Answered, spent, charged;
        }
        round := round + 1;
      }
      BookedMeans(route, caps, first, calls, start, budget.View(), spent, charged, RouteFailed(true));
      return RouteFailed(true), spent, charged;
    }

    /** The books of one route: every response so far is charged, summed up and, if all are honest, in the budget. */
    ghost predicate Booked(route: Route, caps: Caps, from: nat, until: nat, start: Usage, now: Usage, spent: Usage,
                           charged: seq<Usage>) {
      && (Honest(route, from, until) ==> Accounted(caps, start, now, charged))
      && spent == Sum(charged) && charged == Charges(route, from, until)
    }

    lemma BookNothing(route: Route, caps: Caps, from: nat, start: Usage)
      ensures Booked(route, caps, from, from, start, start, Usage(0, 0, 0.0), [])
    {
      NoSum();
      NothingCharged(caps, start);
      hide Accounted, Sum, Honest;
    }

    lemma BookedMeans(route: Route, caps: Caps, from: nat, until: nat, start: Usage, now: Usage, spent: Usage,
                      charged: seq<Usage>, end: RouteEnd)
      requires Booked(route, caps, from, until, start, now, spent, charged)
      ensures Honest(route, from, until) ==> Accounted(caps, start, now, charged)
      ensures spent == Sum(charged) && ChargedResponses(route, from, until, charged, end)
    {
      hide Accounted, Sum, Honest, Charges;
    }

    lemma BookSilence(route: Route, caps: Caps, from: nat, until: nat, later: nat, start: Usage, now: Usage,
                      spent: Usage, charged: seq<Usage>)
      requires Booked(route, caps, from, until, start, now, spent, charged) && from <= until <= later
      requires forall k :: until <= k < later ==> !provider(k).Response?
      ensures Booked(route, caps, from, later, start, now, spent, charged)
    {
      SilentCalls(route, from, until, later);
      if Honest(route, from, later) {
        HonestPart(route, from, later, from, until);
      }
      hide Accounted, Sum, Honest, Charges;
    }

    lemma BookRefusal(route: Route, caps: Caps, from: nat, until: nat, later: nat, start: Usage, now: Usage,
                      spent: Usage, charged: seq<Usage>)
      requires Booked(route, caps, from, until, start, now, spent, charged) && from <= until < later
      requires provider(later - 1).Response? && forall k :: until <= k < later - 1 ==> !provider(k).Response?
      ensures Honest(route, from, later) ==> Accounted(caps, start, now, charged)
      ensures spent == Sum(charged) && ChargedResponses(route, from, later, charged, OverBudget)
    {
      SilentCalls(route, from, until, later - 1);
      if Honest(route, from, later) {
        HonestPart(route, from, later, from, until);
      }
      hide Accounted, Sum, Honest, Charges;
    }

    lemma BookResponse(route: Route, caps: Caps, from: nat, until: nat, later: nat, start: Usage, now: Usage,
                       spent: Usage, charged: seq<Usage>, more: Usage)
      requires Booked(route, caps, from, until, start, now, spent, charged) && from <= until < later
      requires provider(later - 1).Response? && forall k :: until <= k < later - 1 ==> !provider(k).Response?
      requires more == UsageOf(route, provider(later - 1), estimate(route.name, |charged|)) && Fits(caps, now, more)
      ensures Booked(route, caps, from, later, start, Add(now, more),
                     Usage(spent.input + more.input, spent.output + more.output, spent.cost + more.cost),
                     charged + [more])
    {
      hide Accounted, Sum, Fits, Add, UsageOf, Honest, Plus;
      SilentCalls(route, from, until, later - 1);
      if Honest(route, from, later) {
        HonestPart(route, from, later, from, until);
        HonestUsage(route, from, later, estimate(route.name, |charged|));
        ChargeAccounted(caps, start, now, charged, more);
      }
      SumAppend(charged, more);
      PlusUsage(spent, more);
    }

    ghost predicate AllHonest(routes: seq<Route>, from: nat, until: nat) {
      forall k :: 0 <= k < |routes| ==> Honest(routes[k], from, until)
    }

    lemma HonestParts(routes: seq<Route>, n: nat, from: nat, mid: nat, until: nat)
      requires n < |routes| && AllHonest(routes, from, until) && from <= mid <= until
      ensures AllHonest(routes, from, mid) && Honest(routes[n], mid, until)
    {
      forall k | 0 <= k < |routes| ensures Honest(routes[k], from, mid) {
        HonestPart(routes[k], from, until, from, mid);
      }
      HonestPart(routes[n], from, until, mid, until);
    }

    /**
     * Pass by pass, only the breaker of the tried route moves, as that pass ended; readings of the clock are the
     * first two of the pass. Routes may share a breaker.
     */
    ghost predicate BreakersMove(routes: seq<Route>, breakers: map<RouteName, CircuitBreaker>, ends: seq<RouteEnd>,
                                 clocks: seq<nat>, views: seq<map<CircuitBreaker, Breaker>>)
    {
      && |ends| <= |routes| && |clocks| == |ends| + 1 && |views| == |ends| + 1
      && forall k :: 0 <= k < |ends| ==> Moves(routes[k], breakers, ends[k], clocks[k], views[k], views[k + 1])
    }

    ghost predicate Moves(route: Route, breakers: map<RouteName, CircuitBreaker>, end: RouteEnd, tick: nat,
                          before: map<CircuitBreaker, Breaker>, after: map<CircuitBreaker, Breaker>)
    {
      && route.name in breakers
      && var b := breakers[route.name];
         && b in before && b in after && after == before[b := after[b]]
         && BreakerMoved(before[b], after[b], end, clock(tick), clock(tick + 1), b.threshold, b.recovery)
    }

    lemma NothingMoved(routes: seq<Route>, breakers: map<RouteName, CircuitBreaker>, clocks: seq<nat>,
                       views: seq<map<CircuitBreaker, Breaker>>)
      requires |clocks| == |views| == 1
      ensures BreakersMove(routes, breakers, [], clocks, views)
    {
    }

    lemma MoveBreaker(routes: seq<Route>, breakers: map<RouteName, CircuitBreaker>, ends: seq<RouteEnd>,
                      clocks: seq<nat>, views: seq<map<CircuitBreaker, Breaker>>, end: RouteEnd, tick: nat,
                      after: map<CircuitBreaker, Breaker>)
      requires BreakersMove(routes, breakers, ends, clocks, views) && |ends| < |routes|
      requires Moves(routes[|ends|], breakers, end, clocks[|ends|], views[|ends|], after)
      ensures BreakersMove(routes, breakers, ends + [end], clocks + [tick], views + [after])
    {
      hide Moves;
    }

    /** One pass: the route's own breaker moves, and no other. */
    method PassRoute(route: Route, request: Request, budget: TokenCostBudget, breakers: map<RouteName, CircuitBreaker>)
      returns (end: RouteEnd, spent: Usage, ghost charged: seq<Usage>)
      requires route.name in breakers
      modifies this`calls, this`ticks, budget, breakers.Values
      ensures old(calls) <= calls <= old(calls) + (if request.structured then 2 else 1) * Attempts()
      ensures Honest(route, old(calls), calls) ==> Accounted(budget.caps, old(budget.View()), budget.View(), charged)
      ensures spent == Sum(charged)
      ensures ChargedResponses(route, old(calls), calls, charged, end) && StopsAtFirst(request, old(calls), calls)
      ensures Moves(route, breakers, end, old(ticks), old(Views(breakers.Values)), Views(breakers.Values))
    {
      hide Accounted, Sum, Honest, Attempts, BreakerMoved, Charges, ChargedResponses, StopsAtFirst, Fits, Estimated;
      end, spent, charged := TryRoute(route, request, budget, breakers[route.name]);
    }

    /** The whole call over the primary and, if there is one, the fallback route. */
    method Complete(routes: seq<Route>, request: Request, budget: TokenCostBudget,
                    breakers: map<RouteName, CircuitBreaker>)
      returns (outcome: Outcome, ghost charged: seq<Usage>, ghost ends: seq<RouteEnd>, ghost marks: seq<nat>,
               ghost clocks: seq<nat>, ghost views: seq<map<CircuitBreaker, Breaker>>)
      modifies this`calls, this`ticks, budget, breakers.Values
      ensures |ends| <= |routes| && |marks| == |ends| + 1 && marks[0] == old(calls) && marks[|ends|] == calls
      ensures forall k :: 0 <= k < |ends| ==> marks[k] <= marks[k + 1] && StopsAtFirst(request, marks[k], marks[k + 1])
      ensures |clocks| == |views| == |ends| + 1
      ensures clocks[0] == old(ticks) && views[0] == old(Views(breakers.Values))
      ensures BreakersMove(routes, breakers, ends, clocks, views) && views[|ends|] == Views(breakers.Values)
      ensures outcome != BudgetError ==> charged == AllCharges(routes, marks, |ends|)
      ensures outcome == BudgetError ==> BudgetStops(routes, marks, charged)
      ensures calls <= old(calls) + |ends| * ((if request.structured then 2 else 1) * Attempts())
      ensures AllHonest(routes, old(calls), calls) ==>
                Accounted(budget.caps, old(budget.View()), budget.View(), charged)
      ensures outcome.Returned? ==>
                && Usage(outcome.result.input, outcome.result.output, outcome.result.cost) == Sum(charged)
                && ends != [] && ends[|ends| - 1].Answered? && outcome.result.route == routes[|ends| - 1].name
      ensures forall k :: 0 <= k < |ends| - 1 ==> ends[k].Rejected? || ends[k].CircuitRaised? || ends[k].RouteFailed?
      ensures outcome == BudgetError <==> ends != [] && ends[|ends| - 1].OverBudget?
      ensures outcome.Returned? <==> ends != [] && ends[|ends| - 1].Answered?
      ensures outcome == UnknownBreaker ==> |ends| < |routes| && routes[|ends|].name !in breakers
      ensures outcome == StructuredError || outcome == AllRoutesFailed ==> |ends| == |routes|
      ensures outcome == StructuredError ==> ends != [] && ends[|ends| - 1] == RouteFailed(true)
    {
      hide Plus, Accounted, Sum, Honest, Attempts, BreakerMoved, AllCharges, Charges, ChargedResponses, StopsAtFirst,
           BudgetStops, Fits, Estimated, AllHonest, BreakersMove, Moves, Views, Tallied;
      charged, ends, marks := [], [], [calls];
      clocks, views := [ticks], [Views(breakers.Values)];
      NothingMoved(routes, breakers, clocks, views);
      var total := Usage(0, 0, 0.0);
      ghost var caps, start, first := budget.caps, budget.View(), calls;
      ghost var perRoute := (if request.structured then 2 else 1) * Attempts();
      TallyNothing(routes, request, caps, start, first);
      var structured := false;
      for n := 0 to |routes|
        invariant |ends| == n && first <= calls <= first + n * perRoute
        invariant Tallied(routes, request, caps, marks, start, budget.View(), total, charged)
        invariant |clocks| == |views| == |marks| == n + 1 && marks[0] == first && marks[n] == calls
        invariant BreakersMove(routes, breakers, ends, clocks, views) && clocks[n] == ticks && clocks[0] == old(ticks)
        invariant views[n] == Views(breakers.Values) && views[0] == old(Views(breakers.Values))
        invariant forall k :: 0 <= k < |ends| ==> ends[k].Rejected? || ends[k].CircuitRaised? || ends[k].RouteFailed?
        invariant structured ==> ends != [] && ends[|ends| - 1] == RouteFailed(true)
      {
        var route := routes[n];
        TallyMeans(routes, request, caps, marks, start, budget.View(), total, charged);
        if route.name !in breakers {
          return UnknownBreaker, charged, ends, marks, clocks, views;
        }
        assert (n + 1) * perRoute == n * perRoute + perRoute;
        ghost var mid := budget.View();
        var end, spent;
        ghost var more;
        end, spent, more := PassRoute(route, request, budget, breakers);
        MoveBreaker(routes, breakers, ends, clocks, views, end, ticks, Views(breakers.Values));
        if end.OverBudget? {
          TallyStop(routes, request, caps, marks, start, mid, total, charged, calls, budget.View(), more);
        } else {
          TallyStep(routes, request, caps, marks, start, mid, total, charged, calls, budget.View(), spent, more, end);
        }
        charged, ends, marks := charged + more, ends + [end], marks + [calls];
        clocks, views := clocks + [ticks], views + [Views(breakers.Values)];
        total := Usage(total.input + spent.input, total.output + spent.output, total.cost + spent.cost);
        match end
        case OverBudget => return BudgetError, charged, ends, marks, clocks, views;
        case Answered =>
          TallyMeans(routes, request, caps, marks, start, budget.View(), total, charged);
          return Returned(Result(route.name, total.input, total.output, total.cost)), charged, ends, marks,
                 clocks, views;
        case Rejected => structured := false;
        case CircuitRaised => structured := false;
        case RouteFailed(schema) => structured := schema;
      }
      TallyMeans(routes, request, caps, marks, start, budget.View(), total, charged);
      outcome := if structured then StructuredError else AllRoutesFailed;
    }

    /** The books over the routes tried so far. */
    ghost predicate Tallied(routes: seq<Route>, request: Request, caps: Caps, marks: seq<nat>, start: Usage, now: Usage,
                            total: Usage, charged: seq<Usage>) {
      && 1 <= |marks| <= |routes| + 1
      && var n := |marks| - 1;
         && (forall k :: 0 <= k < n ==> marks[k] <= marks[k + 1] && StopsAtFirst(request, marks[k], marks[k + 1]))
         && marks[0] <= marks[n]
         && (AllHonest(routes, marks[0], marks[n]) ==> Accounted(caps, start, now, charged))
         && total == Sum(charged) && charged == AllCharges(routes, marks, n)
    }

    lemma TallyNothing(routes: seq<Route>, request: Request, caps: Caps, start: Usage, first: nat)
      ensures Tallied(routes, request, caps, [first], start, start, Usage(0, 0, 0.0), [])
    {
      hide Accounted, Sum, AllHonest;
      NoSum();
      NothingCharged(caps, start);
      NoRoutes(routes, [first]);
    }

    lemma TallyMeans(routes: seq<Route>, request: Request, caps: Caps, marks: seq<nat>, start: Usage, now: Usage,
                     total: Usage, charged: seq<Usage>)
      requires Tallied(routes, request, caps, marks, start, now, total, charged)
      ensures var n := |marks| - 1;
              && 0 <= n <= |routes|
              && (forall k :: 0 <= k < n ==> marks[k] <= marks[k + 1] && StopsAtFirst(request, marks[k], marks[k + 1]))
              && (AllHonest(routes, marks[0], marks[n]) ==> Accounted(caps, start, now, charged))
              && total == Sum(charged) && charged == AllCharges(routes, marks, n)
    {
      hide Accounted, Sum, AllHonest, AllCharges, StopsAtFirst;
    }

    lemma TallyStep(routes: seq<Route>, request: Request, caps: Caps, marks: seq<nat>, start: Usage, mid: Usage,
                    total: Usage, charged: seq<Usage>, until: nat, now: Usage, spent: Usage, more: seq<Usage>,
                    end: RouteEnd)
      requires Tallied(routes, request, caps, marks, start, mid, total, charged) && |marks| <= |routes|
      requires var n := |marks| - 1;
               && marks[n] <= until && StopsAtFirst(request, marks[n], until)
               && (Honest(routes[n], marks[n], until) ==> Accounted(caps, mid, now, more))
               && spent == Sum(more) && ChargedResponses(routes[n], marks[n], until, more, end) && !end.OverBudget?
      ensures Tallied(routes, request, caps, marks + [until], start, now,
                      Usage(total.input + spent.input, total.output + spent.output, total.cost + spent.cost),
                      charged + more)
    {
      hide Accounted, Sum, AllHonest, AllCharges, StopsAtFirst, Honest, ChargedResponses, Charges, Plus;
      var n := |marks| - 1;
      SumConcat(charged, more);
      PlusUsage(total, spent);
      AddMark(routes, marks, until, n);
      AllCharged(routes[n], marks[n], until, more, end);
      if AllHonest(routes, marks[0], until) {
        HonestParts(routes, n, marks[0], marks[n], until);
        AccountedJoins(caps, start, mid, now, charged, more);
      }
      StopsExtend(request, marks, until);
    }

    lemma StopsExtend(request: Request, marks: seq<nat>, until: nat)
      requires marks != [] && marks[|marks| - 1] <= until && StopsAtFirst(request, marks[|marks| - 1], until)
      requires forall k :: 0 <= k < |marks| - 1 ==>
                marks[k] <= marks[k + 1] && StopsAtFirst(request, marks[k], marks[k + 1])
      ensures var all := marks + [until];
              forall k :: 0 <= k < |marks| ==> all[k] <= all[k + 1] && StopsAtFirst(request, all[k], all[k + 1])
    {
      hide StopsAtFirst;
      var all := marks + [until];
      forall k | 0 <= k < |marks| ensures all[k] <= all[k + 1] && StopsAtFirst(request, all[k], all[k + 1]) {
        assert k < |marks| - 1 ==> all[k + 1] == marks[k + 1];
      }
    }

    lemma TallyStop(routes: seq<Route>, request: Request, caps: Caps, marks: seq<nat>, start: Usage, mid: Usage,
                    total: Usage, charged: seq<Usage>, until: nat, now: Usage, more: seq<Usage>)
      requires Tallied(routes, request, caps, marks, start, mid, total, charged) && |marks| <= |routes|
      requires var n := |marks| - 1;
               && marks[n] <= until && StopsAtFirst(request, marks[n], until)
               && (Honest(routes[n], marks[n], until) ==> Accounted(caps, mid, now, more))
               && ChargedResponses(routes[n], marks[n], until, more, OverBudget)
      ensures var all := marks + [until];
              && (forall k :: 0 <= k < |marks| ==> all[k] <= all[k + 1] && StopsAtFirst(request, all[k], all[k + 1]))
              && (AllHonest(routes, marks[0], until) ==> Accounted(caps, start, now, charged + more))
              && BudgetStops(routes, all, charged + more)
    {
      hide Accounted, Sum, AllHonest, AllCharges, StopsAtFirst, Honest, ChargedResponses, Charges, BudgetStops;
      var n := |marks| - 1;
      StoppedBy(routes, marks, until, n, charged, more);
      if AllHonest(routes, marks[0], until) {
        HonestParts(routes, n, marks[0], marks[n], until);
        AccountedJoins(caps, start, mid, now, charged, more);
      }
      StopsExtend(request, marks, until);
    }
  }

  lemma NoSum()
    ensures Sum([]) == Usage(0, 0, 0.0)
  {
  }

  lemma PlusUsage(a: Usage, b: Usage)
    ensures Plus(a, b) == Usage(a.input + b.input, a.output + b.output, a.cost + b.cost)
  {
  }
}
