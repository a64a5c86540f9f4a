/**
 * The circuit breaker of src/utils/circuitBreaker.ts.
 *
 * A breaker guards calls to a dependency.  CLOSED lets calls through and counts
 * consecutive failures; reaching `failureThreshold` trips it OPEN.  OPEN rejects
 * calls without running them until `resetTimeout` milliseconds have passed since
 * the last failure; the next call then moves it to HALF_OPEN and runs.  In
 * HALF_OPEN one failure re-opens it and `successThreshold` successes close it.
 *
 * The clock (`Date.now()`) is the `now` argument of each call, and the guarded
 * function `fn` is given as the outcome it settles to.  The module first states
 * the breaker's behaviour as functions on its metrics record (what `getMetrics()`
 * returns), then the class with the source's mutable fields, whose methods are
 * proved to follow those functions.
 */
module CircuitBreakers {
  import opened Wrappers

  datatype CircuitState = Closed | Open | HalfOpen

  /** The record `getMetrics()` returns: every mutable field of the breaker. */
  datatype Metrics = Metrics(
    state: CircuitState,
    failureCount: nat,
    successCount: nat,
    lastFailureTime: int,
    totalExecutions: nat,
    totalFailures: nat)

  /** Constructor options; an absent threshold or timeout takes its default. */
  datatype Options = Options(
    name: string,
    failureThreshold: Option<int>,
    resetTimeout: Option<int>,
    successThreshold: Option<int>)

  /** The read-only settings of one breaker. */
  datatype Config = Config(name: string, failureThreshold: int, resetTimeout: int, successThreshold: int)

  /** What the guarded function settles to: a value, or the error it throws. */
  datatype Outcome<T, E> = Succeeded(value: T) | Failed(error: E)

  /**
   * What `execute` does for its caller: return the value, rethrow the guarded
   * error, or throw a `CircuitBreakerError` without running the function.
   */
  datatype Response<T, E> = Returned(value: T) | Threw(error: E) | Rejected(message: string)

  const DefaultFailureThreshold := 5
  const DefaultResetTimeout := 30000
  const DefaultSuccessThreshold := 2

  function ConfigOf(options: Options): (c: Config)
    ensures c.name == options.name
    ensures c.failureThreshold == options.failureThreshold.GetOr(5)
    ensures c.resetTimeout == options.resetTimeout.GetOr(30000)
    ensures c.successThreshold == options.successThreshold.GetOr(2)
  {
    Config(options.name,
           options.failureThreshold.GetOr(DefaultFailureThreshold),
           options.resetTimeout.GetOr(DefaultResetTimeout),
           options.successThreshold.GetOr(DefaultSuccessThreshold))
  }

  const Initial := Metrics(Closed, 0, 0, 0, 0, 0)

  /** The message of the `CircuitBreakerError` thrown while OPEN. */
  function OpenMessage(name: string): string {
    "Circuit breaker [" + name + "] is OPEN"
  }

  // ---------------------------------------------------------------------------
  // The behaviour, as functions on the metrics record
  // ---------------------------------------------------------------------------

  predicate ResetDue(c: Config, m: Metrics, now: int) {
    now - m.lastFailureTime >= c.resetTimeout
  }

  /** `toOpen`: a no-op when already OPEN; otherwise OPEN with no successes. */
  function OpenedFrom(m: Metrics): (r: Metrics)
    ensures r.state == Open
    ensures m.state != Open ==> r == m.(state := Open, successCount := 0)
    ensures m.state == Open ==> r == m
  {
    if m.state != Open then m.(state := Open, successCount := 0) else m
  }

  /** `toHalfOpen`: a no-op when already HALF_OPEN; otherwise a fresh trial. */
  function HalfOpenedFrom(m: Metrics): (r: Metrics)
    ensures r.state == HalfOpen
    ensures m.state != HalfOpen ==> r == m.(state := HalfOpen, successCount := 0)
    ensures m.state == HalfOpen ==> r == m
  {
    if m.state != HalfOpen then m.(state := HalfOpen, successCount := 0) else m
  }

  /** `toClose`: a no-op when already CLOSED; otherwise CLOSED with both counts zero. */
  function ClosedFrom(m: Metrics): (r: Metrics)
    ensures r.state == Closed
    ensures m.state != Closed ==> r == m.(state := Closed, failureCount := 0, successCount := 0)
    ensures m.state == Closed ==> r == m
  {
    if m.state != Closed then m.(state := Closed, failureCount := 0, successCount := 0) else m
  }

  /** `onSuccess`. */
  function SuccessFrom(c: Config, m: Metrics): (r: Metrics)
    ensures r.totalExecutions == m.totalExecutions && r.totalFailures == m.totalFailures
    ensures r.lastFailureTime == m.lastFailureTime
    ensures m.state == Closed ==> r == m.(failureCount := 0)
    ensures m.state == Open ==> r == m
    ensures m.state == HalfOpen ==>
      if m.successCount + 1 >= c.successThreshold
      then r.state == Closed && r.failureCount == 0 && r.successCount == 0
      else r == m.(successCount := m.successCount + 1)
  {
    match m.state
    case HalfOpen =>
      var m' := m.(successCount := m.successCount + 1);
      if m'.successCount >= c.successThreshold then ClosedFrom(m') else m'
    case Closed => m.(failureCount := 0)
    case Open => m
  }

  /** `onFailure` at time `now`. */
  function FailureFrom(c: Config, m: Metrics, now: int): (r: Metrics)
    ensures r.totalFailures == m.totalFailures + 1 && r.lastFailureTime == now
    ensures r.totalExecutions == m.totalExecutions
    ensures m.state == HalfOpen ==> r.state == Open && r.successCount == 0 && r.failureCount == m.failureCount
    ensures m.state == Closed ==> r.failureCount == m.failureCount + 1
    ensures m.state == Closed ==> (r.state == Open <==> m.failureCount + 1 >= c.failureThreshold)
    ensures m.state == Open ==> r.state == Open && r.failureCount == m.failureCount
  {
    var m' := m.(totalFailures := m.totalFailures + 1, lastFailureTime := now);
    match m.state
    case HalfOpen => OpenedFrom(m')
    case Closed =>
      var m'' := m'.(failureCount := m'.failureCount + 1);
      if m''.failureCount >= c.failureThreshold then OpenedFrom(m'') else m''
    case Open => m'
  }

  /**
   * `execute(fn)` at time `now`: the metrics afterwards and what the caller sees.
   * Every call is counted; a call rejected while OPEN never looks at `fn` and
   * leaves the failure bookkeeping alone; otherwise `fn`'s value or error is
   * passed through unchanged.
   */
  function ExecuteFrom<T, E>(c: Config, m: Metrics, fn: Outcome<T, E>, now: int): (r: (Metrics, Response<T, E>))
    ensures r.0.totalExecutions == m.totalExecutions + 1
    ensures r.1.Rejected? <==> m.state == Open && !ResetDue(c, m, now)
    ensures r.1.Rejected? ==>
      r == (m.(totalExecutions := m.totalExecutions + 1), Rejected(OpenMessage(c.name)))
    ensures !r.1.Rejected? && fn.Succeeded? ==> r.1 == Returned(fn.value)
    ensures !r.1.Rejected? && fn.Failed? ==> r.1 == Threw(fn.error)
    ensures !r.1.Rejected? && fn.Failed? ==>
      r.0.totalFailures == m.totalFailures + 1 && r.0.lastFailureTime == now
    ensures !r.1.Rejected? && fn.Succeeded? ==>
      r.0.totalFailures == m.totalFailures && r.0.lastFailureTime == m.lastFailureTime
    ensures m.state != Open ==>
      var counted := m.(totalExecutions := m.totalExecutions + 1);
      r.0 == (if fn.Succeeded? then SuccessFrom(c, counted) else FailureFrom(c, counted, now))
    ensures m.state == Closed && fn.Succeeded? ==> r.0.state == Closed && r.0.failureCount == 0
    ensures m.state == HalfOpen && fn.Failed? ==> r.0.state == Open && r.0.successCount == 0
    ensures m.state == Open && ResetDue(c, m, now) ==>
      var trial := m.(totalExecutions := m.totalExecutions + 1, state := HalfOpen, successCount := 0);
      r.0 == (if fn.Succeeded? then SuccessFrom(c, trial) else FailureFrom(c, trial, now))
    ensures m.state == Open && ResetDue(c, m, now) && fn.Succeeded? ==>
      if c.successThreshold <= 1
      then r.0.state == Closed && r.0.failureCount == 0 && r.0.successCount == 0
      else r.0.state == HalfOpen && r.0.successCount == 1 && r.0.failureCount == m.failureCount
    ensures m.state == Open && ResetDue(c, m, now) && fn.Failed? ==>
      r.0.state == Open && r.0.successCount == 0 && r.0.failureCount == m.failureCount
  {
    var counted := m.(totalExecutions := m.totalExecutions + 1);
    if counted.state == Open && !ResetDue(c, counted, now) then
      (counted, Rejected(OpenMessage(c.name)))
    else
      var admitted := if counted.state == Open then HalfOpenedFrom(counted) else counted;
      match fn
      case Succeeded(v) => (SuccessFrom(c, admitted), Returned(v))
      case Failed(e) => (FailureFrom(c, admitted, now), Threw(e))
  }

  /** `reset()`: CLOSED with transient counters cleared; lifetime totals kept. */
  function ResetFrom(m: Metrics): (r: Metrics)
    ensures r.state == Closed && r.failureCount == 0 && r.successCount == 0 && r.lastFailureTime == 0
    ensures r.totalExecutions == m.totalExecutions && r.totalFailures == m.totalFailures
  {
    m.(state := Closed, failureCount := 0, successCount := 0, lastFailureTime := 0)
  }

  /**
   * What stays true of every breaker between calls: failures never outnumber
   * executions, only HALF_OPEN carries a success count (short of the threshold),
   * and CLOSED carries a failure count short of the threshold.
   */
  predicate Inv(c: Config, m: Metrics) {
    && m.totalFailures <= m.totalExecutions
    && (m.state != HalfOpen ==> m.successCount == 0)
    && (m.state == HalfOpen ==> m.successCount == 0 || m.successCount < c.successThreshold)
    && (m.state == Closed ==> m.failureCount == 0 || m.failureCount < c.failureThreshold)
  }

  lemma ExecutePreservesInv<T, E>(c: Config, m: Metrics, fn: Outcome<T, E>, now: int)
    requires Inv(c, m)
    ensures Inv(c, ExecuteFrom(c, m, fn, now).0)
  {
  }

  lemma InitialAndResetSatisfyInv(c: Config, m: Metrics)
    ensures Inv(c, Initial)
    ensures Inv(c, m) ==> Inv(c, ResetFrom(m))
  {
  }

  // ---------------------------------------------------------------------------
  // Runs of calls
  // ---------------------------------------------------------------------------

  /** The metrics after calls with the given outcomes, all made at time `now`. */
  function Run<T, E>(c: Config, m: Metrics, fns: seq<Outcome<T, E>>, now: int): Metrics
    decreases |fns|
  {
    if fns == [] then m else Run(c, ExecuteFrom(c, m, fns[0], now).0, fns[1..], now)
  }

  function Failures<T, E>(k: nat, e: E): (fns: seq<Outcome<T, E>>)
    ensures |fns| == k && forall i :: 0 <= i < k ==> fns[i] == Failed(e)
  {
    if k == 0 then [] else [Failed(e)] + Failures(k - 1, e)
  }

  function Successes<T, E>(k: nat, v: T): (fns: seq<Outcome<T, E>>)
    ensures |fns| == k && forall i :: 0 <= i < k ==> fns[i] == Succeeded(v)
  {
    if k == 0 then [] else [Succeeded(v)] + Successes(k - 1, v)
  }

  /**
   * From CLOSED with `f` recorded failures, `k` more consecutive failures leave
   * it CLOSED with `f + k` failures while that stays short of the threshold, and
   * the failure that reaches the threshold trips it.
   */
  lemma {:induction false} ClosedFailures<T, E>(c: Config, m: Metrics, k: nat, e: E, now: int)
    requires m.state == Closed && m.failureCount + k < c.failureThreshold
    ensures Run(c, m, Failures<T, E>(k, e), now).state == Closed
    ensures Run(c, m, Failures<T, E>(k, e), now).failureCount == m.failureCount + k
    decreases k
  {
    if k > 0 {
      var fns := Failures<T, E>(k, e);
      assert fns[1..] == Failures<T, E>(k - 1, e);
      ClosedFailures<T, E>(c, ExecuteFrom(c, m, fns[0], now).0, k - 1, e, now);
    }
  }

  /**
   * With `failureThreshold = n >= 1`, `n` consecutive failures from a fresh or
   * just-succeeded CLOSED breaker trip it OPEN; `n - 1` do not.
   */
  lemma ThresholdFailuresTrip<T, E>(c: Config, m: Metrics, e: E, now: int)
    requires m.state == Closed && m.failureCount == 0 && c.failureThreshold >= 1
    ensures Run(c, m, Failures<T, E>(c.failureThreshold - 1, e), now).state == Closed
    ensures Run(c, m, Failures<T, E>(c.failureThreshold, e), now).state == Open
  {
    var n := c.failureThreshold;
    ClosedFailures<T, E>(c, m, n - 1, e, now);
    var before := Run(c, m, Failures<T, E>(n - 1, e), now);
    RunSnoc(c, m, Failures<T, E>(n - 1, e), Failed(e), now);
    assert Failures<T, E>(n - 1, e) + [Failed(e)] == Failures<T, E>(n, e);
  }

  lemma {:induction false} RunSnoc<T, E>(c: Config, m: Metrics, fns: seq<Outcome<T, E>>, fn: Outcome<T, E>, now: int)
    ensures Run(c, m, fns + [fn], now) == ExecuteFrom(c, Run(c, m, fns, now), fn, now).0
    decreases |fns|
  {
    if fns != [] {
      assert (fns + [fn])[1..] == fns[1..] + [fn];
      RunSnoc(c, ExecuteFrom(c, m, fns[0], now).0, fns[1..], fn, now);
    }
  }

  /**
   * In HALF_OPEN with `s` trial successes, `k` more successes keep it HALF_OPEN
   * with `s + k` while that stays short of the threshold.
   */
  lemma {:induction false} HalfOpenSuccesses<T, E>(c: Config, m: Metrics, k: nat, v: T, now: int)
    requires m.state == HalfOpen && m.successCount + k < c.successThreshold
    ensures Run(c, m, Successes<T, E>(k, v), now).state == HalfOpen
    ensures Run(c, m, Successes<T, E>(k, v), now).successCount == m.successCount + k
    decreases k
  {
    if k > 0 {
      var fns := Successes<T, E>(k, v);
      assert fns[1..] == Successes<T, E>(k - 1, v);
      HalfOpenSuccesses<T, E>(c, ExecuteFrom(c, m, fns[0], now).0, k - 1, v, now);
    }
  }

  /**
   * With `successThreshold = n >= 1`, a HALF_OPEN breaker fresh from its reset
   * timeout closes after exactly `n` consecutive successes, with both counters
   * back at zero.
   */
  lemma ThresholdSuccessesClose<T, E>(c: Config, m: Metrics, v: T, now: int)
    requires m.state == HalfOpen && m.successCount == 0 && c.successThreshold >= 1
    ensures Run(c, m, Successes<T, E>(c.successThreshold - 1, v), now).state == HalfOpen
    ensures var r := Run(c, m, Successes<T, E>(c.successThreshold, v), now);
      r.state == Closed && r.failureCount == 0 && r.successCount == 0
  {
    var n := c.successThreshold;
    HalfOpenSuccesses<T, E>(c, m, n - 1, v, now);
    RunSnoc(c, m, Successes<T, E>(n - 1, v), Succeeded(v), now);
    assert Successes<T, E>(n - 1, v) + [Succeeded(v)] == Successes<T, E>(n, v);
  }

  /**
   * An OPEN breaker rejects every call made before the reset timeout, however
   * many, and the rejections leave everything but the execution count alone.
   */
  lemma {:induction false} OpenRejectsUntilTimeout<T, E>(c: Config, m: Metrics, fns: seq<Outcome<T, E>>, now: int)
    requires m.state == Open && !ResetDue(c, m, now)
    ensures Run(c, m, fns, now) == m.(totalExecutions := m.totalExecutions + |fns|)
    decreases |fns|
  {
    if fns != [] {
      OpenRejectsUntilTimeout(c, ExecuteFrom(c, m, fns[0], now).0, fns[1..], now);
    }
  }

  /** The failure rate in percent, on exact rationals. */
  function FailureRate(m: Metrics): (r: real)
    ensures m.totalExecutions == 0 ==> r == 0.0
    ensures m.totalFailures <= m.totalExecutions ==> 0.0 <= r <= 100.0
  {
    if m.totalExecutions == 0 then 0.0
    else (m.totalFailures as real / m.totalExecutions as real) * 100.0
  }

  // ---------------------------------------------------------------------------
  // The breaker object
  // ---------------------------------------------------------------------------

  class CircuitBreaker {
    const name: string
    const failureThreshold: int
    const resetTimeout: int
    const successThreshold: int

    var state: CircuitState
    var failureCount: nat
    var successCount: nat
    var lastFailureTime: int
    var totalExecutions: nat
    var totalFailures: nat

    function Settings(): Config {
      Config(name, failureThreshold, resetTimeout, successThreshold)
    }

    /** `getMetrics()`: a snapshot of the mutable fields, read without side effects. */
    /** `getMetrics()`: a copy of the six mutable fields. */
    function GetMetrics(): (m: Metrics)
      reads this
      ensures m.state == state && m.failureCount == failureCount && m.successCount == successCount
      ensures m.lastFailureTime == lastFailureTime
      ensures m.totalExecutions == totalExecutions && m.totalFailures == totalFailures
    {
      Metrics(state, failureCount, successCount, lastFailureTime, totalExecutions, totalFailures)
    }

    function GetState(): (s: CircuitState)
      reads this
      ensures s == GetMetrics().state
    {
      state
    }

    ghost predicate Valid()
      reads this
    {
      Inv(Settings(), GetMetrics())
    }

    constructor (options: Options)
      ensures Valid()
      ensures Settings() == ConfigOf(options)
      ensures GetMetrics() == Initial
    {
      name := options.name;
      failureThreshold := options.failureThreshold.GetOr(DefaultFailureThreshold);
      resetTimeout := options.resetTimeout.GetOr(DefaultResetTimeout);
      successThreshold := options.successThreshold.GetOr(DefaultSuccessThreshold);
      state := Closed;
      failureCount, successCount, lastFailureTime := 0, 0, 0;
      totalExecutions, totalFailures := 0, 0;
    }

    method Execute<T, E>(fn: Outcome<T, E>, now: int) returns (r: Response<T, E>)
      requires Valid()
      modifies this
      ensures Valid()
      ensures (GetMetrics(), r) == ExecuteFrom(Settings(), old(GetMetrics()), fn, now)
    {
      ExecutePreservesInv(Settings(), GetMetrics(), fn, now);
      totalExecutions := totalExecutions + 1;
      if state == Open {
        if ShouldAttemptReset(now) {
          ToHalfOpen();
        } else {
          return Rejected(OpenMessage(name));
        }
      }
      match fn
      case Succeeded(v) =>
        OnSuccess();
        r := Returned(v);
      case Failed(e) =>
        OnFailure(now);
        r := Threw(e);
    }

    function ShouldAttemptReset(now: int): (due: bool)
      reads this
      ensures due == ResetDue(Settings(), GetMetrics(), now)
    {
      now - lastFailureTime >= resetTimeout
    }

    method OnSuccess()
      modifies this
      ensures GetMetrics() == SuccessFrom(Settings(), old(GetMetrics()))
    {
      if state == HalfOpen {
        successCount := successCount + 1;
        if successCount >= successThreshold {
          ToClose();
        }
      } else if state == Closed {
        failureCount := 0;
      }
    }

    method OnFailure(now: int)
      modifies this
      ensures GetMetrics() == FailureFrom(Settings(), old(GetMetrics()), now)
    {
      totalFailures := totalFailures + 1;
      lastFailureTime := now;
      match state
      case HalfOpen =>
        ToOpen();
      case Closed =>
        failureCount := failureCount + 1;
        if failureCount >= failureThreshold {
          ToOpen();
        }
      case Open =>
    }

    method ToOpen()
      modifies this
      ensures GetMetrics() == OpenedFrom(old(GetMetrics()))
    {
      if state != Open {
        state := Open;
        successCount := 0;
      }
    }

    method ToHalfOpen()
      modifies this
      ensures GetMetrics() == HalfOpenedFrom(old(GetMetrics()))
    {
      if state != HalfOpen {
        state := HalfOpen;
        successCount := 0;
      }
    }

    method ToClose()
      modifies this
      ensures GetMetrics() == ClosedFrom(old(GetMetrics()))
    {
      if state != Closed {
        state := Closed;
        failureCount := 0;
        successCount := 0;
      }
    }

    method Reset()
      requires Valid()
      modifies this
      ensures Valid()
      ensures GetMetrics() == ResetFrom(old(GetMetrics()))
    {
      state := Closed;
      failureCount := 0;
      successCount := 0;
      lastFailureTime := 0;
    }

    function GetFailureRate(): (r: real)
      reads this
      requires Valid()
      ensures 0.0 <= r <= 100.0
      ensures totalExecutions == 0 ==> r == 0.0
    {
      FailureRate(GetMetrics())
    }
  }
}
