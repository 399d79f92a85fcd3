/** The breaker of app/model_gateway/circuit_breaker.py, with the clock reading passed in. */
module CircuitBreakers {
  import opened Wrappers

  datatype CircuitState = Closed | Open | HalfOpen

  datatype Breaker = Breaker(state: CircuitState, failures: nat, openedAt: Option<real>)

  const FRESH := Breaker(Closed, 0, None)

  datatype Admission = Admission(breaker: Breaker, admitted: bool)

  function Allow(b: Breaker, now: real, recovery: real): Admission {
    if b.state == Open then
      if b.openedAt.Some? && now - b.openedAt.value >= recovery then Admission(b.(state := HalfOpen), true)
      else Admission(b, false)
    else Admission(b, true)
  }

  function Success(b: Breaker): Breaker { FRESH }

  function Failure(b: Breaker, now: real, threshold: nat): Breaker {
    var more := b.(failures := b.failures + 1);
    if b.state == HalfOpen || more.failures >= threshold then more.(state := Open, openedAt := Some(now)) else more
  }

  class CircuitBreaker {
    const threshold: nat
    const recovery: real
    var state: CircuitState
    var failures: nat
    var openedAt: Option<real>

    ghost function View(): Breaker
      reads this
    {
      Breaker(state, failures, openedAt)
    }

    constructor (failureThreshold: int, recoverySeconds: real)
      ensures View() == FRESH && threshold >= 1 && recovery >= 0.0
      ensures failureThreshold >= 1 ==> threshold == failureThreshold
      ensures recoverySeconds >= 0.0 ==> recovery == recoverySeconds
    {
      threshold := if failureThreshold < 1 then 1 else failureThreshold;
      recovery := if recoverySeconds < 0.0 then 0.0 else recoverySeconds;
      state, failures, openedAt := Closed, 0, None;
    }

    /** False is the raised circuit-open error. */
    method BeforeCall(now: real) returns (admitted: bool)
      modifies this
      ensures Admission(View(), admitted) == Allow(old(View()), now, recovery)
    {
      if state == Open {
        if openedAt.Some? && now - openedAt.value >= recovery {
          state := HalfOpen;
          return true;
        }
        return false;
      }
      return true;
    }

    method RecordSuccess()
      modifies this
      ensures View() == Success(old(View()))
    {
      state, failures, openedAt := Closed, 0, None;
    }

    method RecordFailure(now: real)
      modifies this
      ensures View() == Failure(old(View()), now, threshold)
    {
      failures := failures + 1;
      if state == HalfOpen || failures >= threshold {
        state, openedAt := Open, Some(now);
      }
    }
  }

  // ---- Whole histories -----------------------------------------------------------------

  /** What callers do to one breaker, in any interleaving. */
  datatype Event = Attempt(now: real) | Succeeded | Failed(now: real)

  function After(events: seq<Event>, threshold: nat, recovery: real): Breaker {
    if events == [] then FRESH
    else
      var n := |events| - 1;
      var b := After(events[..n], threshold, recovery);
      match events[n]
      case Attempt(now) => Allow(b, now, recovery).breaker
      case Succeeded => Success(b)
      case Failed(now) => Failure(b, now, threshold)
  }

  function LastFailure(events: seq<Event>): Option<real> {
    if events == [] then None
    else if events[|events| - 1].Failed? then Some(events[|events| - 1].now)
    else LastFailure(events[..|events| - 1])
  }

  /** Failures since the last success. */
  function FailureRun(events: seq<Event>): nat {
    if events == [] || events[|events| - 1].Succeeded? then 0
    else FailureRun(events[..|events| - 1]) + (if events[|events| - 1].Failed? then 1 else 0)
  }

  /** After any history: closed exactly below the threshold, and otherwise opened by the last recorded failure. */
  lemma {:induction false} BreakerInvariant(events: seq<Event>, threshold: nat, recovery: real)
    requires threshold >= 1
    ensures var b := After(events, threshold, recovery);
            && b.failures == FailureRun(events)
            && (b.state == Closed <==> b.failures < threshold)
            && (b.openedAt.Some? <==> b.state != Closed)
            && (b.state != Closed ==> b.openedAt == LastFailure(events))
  {
    if events != [] {
      BreakerInvariant(events[..|events| - 1], threshold, recovery);
    }
  }

  /** Rejections never postpone recovery: a call is rejected exactly while open and too soon after the last failure. */
  lemma RejectedIff(events: seq<Event>, threshold: nat, recovery: real, now: real)
    requires threshold >= 1
    ensures var b := After(events, threshold, recovery);
            !Allow(b, now, recovery).admitted <==>
              b.state == Open && LastFailure(events).Some? && now - LastFailure(events).value < recovery
  {
    BreakerInvariant(events, threshold, recovery);
  }

  /** Clock readings never go back, up to `now`. */
  ghost predicate Monotone(events: seq<Event>, now: real) {
    events != [] ==>
      var n := |events| - 1;
      match events[n]
      case Succeeded => Monotone(events[..n], now)
      case Attempt(t) => t <= now && Monotone(events[..n], t)
      case Failed(t) => t <= now && Monotone(events[..n], t)
  }

  /** A half-open breaker was last opened at least the recovery time ago. */
  lemma {:induction false} HalfOpenIsLate(events: seq<Event>, threshold: nat, recovery: real, now: real)
    requires threshold >= 1 && recovery >= 0.0 && Monotone(events, now)
    requires After(events, threshold, recovery).state == HalfOpen
    ensures LastFailure(events).Some? && now - LastFailure(events).value >= recovery
  {
    if events != [] {
      var n := |events| - 1;
      BreakerInvariant(events[..n], threshold, recovery);
      if After(events[..n], threshold, recovery).state == HalfOpen {
        match events[n]
        case Succeeded =>
        case Attempt(t) => HalfOpenIsLate(events[..n], threshold, recovery, t);
        case Failed(_) =>
      }
    }
  }

  /**
   * With a clock that never goes back, the history alone decides: a call is rejected exactly when the failures since
   * the last success reach the threshold and the last of them is more recent than the recovery time.
   */
  lemma RejectedByHistoryIff(events: seq<Event>, threshold: nat, recovery: real, now: real)
    requires threshold >= 1 && recovery >= 0.0 && Monotone(events, now)
    ensures !Allow(After(events, threshold, recovery), now, recovery).admitted <==>
            FailureRun(events) >= threshold && LastFailure(events).Some? && now - LastFailure(events).value < recovery
  {
    BreakerInvariant(events, threshold, recovery);
    if After(events, threshold, recovery).state == HalfOpen {
      HalfOpenIsLate(events, threshold, recovery, now);
    }
  }

  /** A probe decides: while half open, one failure reopens the circuit and one success closes it. */
  lemma ProbeDecides(events: seq<Event>, threshold: nat, recovery: real, now: real)
    requires threshold >= 1 && After(events, threshold, recovery).state == HalfOpen
    ensures After(events + [Failed(now)], threshold, recovery).state == Open
    ensures After(events + [Succeeded], threshold, recovery) == FRESH
  {
    assert (events + [Failed(now)])[..|events|] == events;
    assert (events + [Succeeded])[..|events|] == events;
  }
}
