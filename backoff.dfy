/**
 * The retry executor of python-generator/exponential_backoff.py: run an
 * operation up to `max_retries + 1` times, stop at the first success, stop
 * at once when `should_retry` says no, re-raise on the last attempt, and
 * sleep a capped, jittered exponential delay between attempts.
 *
 * The operation is given by what each attempt does (`op(k)` is the outcome
 * of the call numbered `k`, counted from 0), and `random.random()` by the
 * draw `jitter(k)` made after failed attempt `k`.
 */
module Backoff {
  import opened Wrappers
  import opened Text

  /** One draw of `random.random()`. */
  type Unit = u: real | 0.0 <= u < 1.0

  /** What one call of the operation did: returned a value or raised an error. */
  datatype Outcome<+T, +E> = Ok(value: T) | Err(error: E)

  /** How a call of the executor ends. */
  datatype Ending<+T, +E> =
    | Returned(value: T)
      /** `raise last_error` with `last_error` still `None` (no attempt ran): Python raises a TypeError. */
    | RaisedNone
    | Raised(error: E)
      /** `time.sleep` refused a negative length with a ValueError. */
    | SleepRejected(delayMs: int)

  /** The `RetryOptions` dataclass, after `__post_init__` has filled in `should_retry`. */
  datatype RetryOptions<!E> = RetryOptions(
    maxRetries: int,
    initialDelayMs: int,
    maxDelayMs: int,
    backoffMultiplier: real,
    jitterFactor: real,
    shouldRetry: (E, int) -> bool)

  /** `RetryOptions(...)`: the dataclass defaults, and "always retry" when no predicate is given. */
  function NewRetryOptions<E(!new)>(
    maxRetries: int := 3,
    initialDelayMs: int := 1000,
    maxDelayMs: int := 30000,
    backoffMultiplier: real := 2.0,
    jitterFactor: real := 0.1,
    shouldRetry: Option<(E, int) -> bool> := None): (o: RetryOptions<E>)
    ensures o.maxRetries == maxRetries && o.initialDelayMs == initialDelayMs && o.maxDelayMs == maxDelayMs
    ensures o.backoffMultiplier == backoffMultiplier && o.jitterFactor == jitterFactor
    ensures shouldRetry.Some? ==> o.shouldRetry == shouldRetry.value
    ensures shouldRetry.None? ==> forall e, a :: o.shouldRetry(e, a)
  {
    RetryOptions(maxRetries, initialDelayMs, maxDelayMs, backoffMultiplier, jitterFactor,
      match shouldRetry
      case Some(p) => p
      case None => (e: E, a: int) => true)
  }

  function Pow(m: real, n: nat): real {
    if n == 0 then 1.0 else m * Pow(m, n - 1)
  }

  /** Python's `int(x)` on a float: truncation toward zero. */
  function Trunc(x: real): int {
    if x >= 0.0 then x.Floor else -((-x).Floor)
  }

  /** `initial_delay_ms * backoff_multiplier ** attempt`. */
  function BaseDelay<E>(o: RetryOptions<E>, attempt: nat): real {
    o.initialDelayMs as real * Pow(o.backoffMultiplier, attempt)
  }

  /** `_calculate_delay(attempt)`, with `u` the `random.random()` draw. */
  function CalculateDelay<E>(o: RetryOptions<E>, attempt: nat, u: Unit): (d: int)
    ensures d <= o.maxDelayMs
  {
    var base := BaseDelay(o, attempt);
    var jitter := base * o.jitterFactor * u;
    Min(Trunc(base + jitter), o.maxDelayMs)
  }

  /** The options describe non-negative delays: then no computed delay is negative. */
  predicate NonNegativeDelays<E>(o: RetryOptions<E>) {
    o.initialDelayMs >= 0 && o.maxDelayMs >= 0 && o.backoffMultiplier >= 0.0 && o.jitterFactor >= 0.0
  }

  lemma {:induction false} PowNonNegative(m: real, n: nat)
    requires m >= 0.0
    ensures Pow(m, n) >= 0.0
  {
    if n > 0 {
      PowNonNegative(m, n - 1);
    }
  }

  lemma TruncMonotone(x: real, y: real)
    requires 0.0 <= x <= y
    ensures 0 <= Trunc(x) <= Trunc(y)
  {
  }

  /** A non-negative amount scaled by a factor in [0, 1] stays between 0 and itself. */
  lemma ScaleDown(x: real, u: real)
    requires x >= 0.0 && 0.0 <= u <= 1.0
    ensures 0.0 <= x * u <= x
  {
  }

  lemma ProductNonNegative(x: real, y: real)
    requires x >= 0.0 && y >= 0.0
    ensures x * y >= 0.0
  {
  }

  /** With non-negative settings the base delay and the jitter allowance are non-negative. */
  lemma BaseDelayNonNegative<E>(o: RetryOptions<E>, attempt: nat)
    requires NonNegativeDelays(o)
    ensures BaseDelay(o, attempt) >= 0.0 && BaseDelay(o, attempt) * o.jitterFactor >= 0.0
  {
    PowNonNegative(o.backoffMultiplier, attempt);
    ProductNonNegative(o.initialDelayMs as real, Pow(o.backoffMultiplier, attempt));
    ProductNonNegative(BaseDelay(o, attempt), o.jitterFactor);
  }

  /** With non-negative settings the delay is between 0 and `max_delay_ms`. */
  lemma DelayBounds<E>(o: RetryOptions<E>, attempt: nat, u: Unit)
    requires NonNegativeDelays(o)
    ensures 0 <= CalculateDelay(o, attempt, u) <= o.maxDelayMs
  {
    var base := BaseDelay(o, attempt);
    BaseDelayNonNegative(o, attempt);
    var allowance := base * o.jitterFactor;
    ScaleDown(allowance, u);
    TruncMonotone(0.0, base + allowance * u);
  }

  /** With non-negative settings the jitter only adds: the delay is at least the capped base delay. */
  lemma DelayAtLeastBase<E>(o: RetryOptions<E>, attempt: nat, u: Unit)
    requires NonNegativeDelays(o)
    ensures Min(Trunc(BaseDelay(o, attempt)), o.maxDelayMs) <= CalculateDelay(o, attempt, u)
  {
    var base := BaseDelay(o, attempt);
    BaseDelayNonNegative(o, attempt);
    var allowance := base * o.jitterFactor;
    ScaleDown(allowance, u);
    TruncMonotone(base, base + allowance * u);
  }

  /** With non-negative settings the delay is at most the capped base delay plus its whole jitter allowance. */
  lemma DelayAtMostJittered<E>(o: RetryOptions<E>, attempt: nat, u: Unit)
    requires NonNegativeDelays(o)
    ensures CalculateDelay(o, attempt, u) <= Min(Trunc(BaseDelay(o, attempt) + BaseDelay(o, attempt) * o.jitterFactor), o.maxDelayMs)
  {
    var base := BaseDelay(o, attempt);
    BaseDelayNonNegative(o, attempt);
    var allowance := base * o.jitterFactor;
    ScaleDown(allowance, u);
    TruncMonotone(base + allowance * u, base + allowance);
  }

  /** With a multiplier of at least 1 the base delay never shrinks from one attempt to the next. */
  lemma BaseDelayGrows<E>(o: RetryOptions<E>, attempt: nat)
    requires o.initialDelayMs >= 0 && o.backoffMultiplier >= 1.0
    ensures BaseDelay(o, attempt) <= BaseDelay(o, attempt + 1)
  {
    PowNonNegative(o.backoffMultiplier, attempt);
    var p := Pow(o.backoffMultiplier, attempt);
    assert Pow(o.backoffMultiplier, attempt + 1) == o.backoffMultiplier * p;
    assert p <= o.backoffMultiplier * p;
  }

  /**
   * What a call of the executor did: how it ended, how many times it ran
   * the operation (attempts 0, 1, … in order), the attempt numbers it
   * passed to `should_retry`, and the delays it slept.
   */
  datatype Run<+T, +E> = Run(ending: Ending<T, E>, attempts: nat, consulted: seq<nat>, delays: seq<int>)

  /**
   * The loop of `execute` (strictSleep false) and of
   * `sync_exponential_backoff` (strictSleep true: `time.sleep` raises on a
   * negative length where `asyncio.sleep` returns at once), from attempt
   * `attempt` on, with `lastError` the error kept from the attempt before.
   */
  function RunFrom<T, E>(o: RetryOptions<E>, op: nat -> Outcome<T, E>, jitter: nat -> Unit,
                         strictSleep: bool, attempt: nat, lastError: Option<E>): Run<T, E>
    decreases if attempt <= o.maxRetries then o.maxRetries + 1 - attempt else 0
  {
    if attempt > o.maxRetries then
      Run(if lastError.Some? then Raised(lastError.value) else RaisedNone, 0, [], [])
    else
      match op(attempt)
      case Ok(v) => Run(Returned(v), 1, [], [])
      case Err(e) =>
        if attempt == o.maxRetries then Run(Raised(e), 1, [], [])
        else if !o.shouldRetry(e, attempt) then Run(Raised(e), 1, [attempt], [])
        else
          var d := CalculateDelay(o, attempt, jitter(attempt));
          if strictSleep && d < 0 then Run(SleepRejected(d), 1, [attempt], [])
          else
            var rest := RunFrom(o, op, jitter, strictSleep, attempt + 1, Some(e));
            Run(rest.ending, rest.attempts + 1, [attempt] + rest.consulted, [d] + rest.delays)
  }

  /** A whole call of the executor. */
  function RunAll<T, E>(o: RetryOptions<E>, op: nat -> Outcome<T, E>, jitter: nat -> Unit, strictSleep: bool): Run<T, E> {
    RunFrom(o, op, jitter, strictSleep, 0, None)
  }

  /** `r` with `k` earlier attempts, their `should_retry` calls and their delays put in front. */
  function After<T, E>(k: nat, consulted: seq<nat>, delays: seq<int>, r: Run<T, E>): Run<T, E> {
    Run(r.ending, r.attempts + k, consulted + r.consulted, delays + r.delays)
  }

  /** The error an attempt raised, if it raised one. */
  function ErrorOf<T, E>(outcome: Outcome<T, E>): Option<E> {
    if outcome.Err? then Some(outcome.error) else None
  }

  /** Attempt `k` failed, `should_retry` allowed another try, and the loop went on to sleep. */
  predicate Retried<T, E>(o: RetryOptions<E>, op: nat -> Outcome<T, E>, k: nat) {
    op(k).Err? && k < o.maxRetries && o.shouldRetry(op(k).error, k)
  }

  /** Attempt `k` is the one that ended the call `r` that started at attempt `start`. */
  function LastAttempt<T, E>(start: nat, r: Run<T, E>): int {
    start + r.attempts - 1
  }

  /**
   * Everything a call started at attempt `start` did, read off its run:
   * every attempt but the last failed and was retried, `should_retry` saw
   * the attempts in order and only below `max_retries`, the delays are the
   * computed ones, and the last attempt decides the ending.
   */
  lemma {:induction false} RunFromFacts<T, E>(o: RetryOptions<E>, op: nat -> Outcome<T, E>, jitter: nat -> Unit,
                                              strictSleep: bool, start: nat, lastError: Option<E>)
    requires start <= o.maxRetries
    ensures var r := RunFrom(o, op, jitter, strictSleep, start, lastError);
      && 1 <= r.attempts <= o.maxRetries + 1 - start
      && (forall k :: start <= k < LastAttempt(start, r) ==> Retried(o, op, k))
      && |r.delays| == r.attempts - 1
      && (forall i :: 0 <= i < |r.delays| ==> r.delays[i] == CalculateDelay(o, start + i, jitter(start + i)))
      && r.attempts - 1 <= |r.consulted| <= r.attempts
      && (forall i :: 0 <= i < |r.consulted| ==> r.consulted[i] == start + i < o.maxRetries)
      && !r.ending.RaisedNone?
      && (r.ending.Returned? ==> op(LastAttempt(start, r)) == Ok(r.ending.value) && |r.consulted| == r.attempts - 1)
      && (r.ending.Raised? ==>
            && op(LastAttempt(start, r)) == Err(r.ending.error)
            && (LastAttempt(start, r) == o.maxRetries <==> |r.consulted| == r.attempts - 1)
            && (LastAttempt(start, r) < o.maxRetries ==> !o.shouldRetry(r.ending.error, LastAttempt(start, r))))
      && (r.ending.SleepRejected? ==>
            && strictSleep && Retried(o, op, LastAttempt(start, r)) && |r.consulted| == r.attempts
            && r.ending.delayMs == CalculateDelay(o, LastAttempt(start, r), jitter(LastAttempt(start, r))) < 0)
  {
    RunDelayFacts(o, op, jitter, strictSleep, start, lastError);
    RunConsultedFacts(o, op, jitter, strictSleep, start, lastError);
    RunEndingFacts(o, op, jitter, strictSleep, start, lastError);
  }

  /** A call runs between 1 and `max_retries + 1 - start` attempts and sleeps the computed delay after each but the last. */
  lemma {:induction false} RunDelayFacts<T, E>(o: RetryOptions<E>, op: nat -> Outcome<T, E>, jitter: nat -> Unit,
                                               strictSleep: bool, start: nat, lastError: Option<E>)
    requires start <= o.maxRetries
    ensures var r := RunFrom(o, op, jitter, strictSleep, start, lastError);
      && 1 <= r.attempts <= o.maxRetries + 1 - start
      && |r.delays| == r.attempts - 1
      && (forall i :: 0 <= i < |r.delays| ==> r.delays[i] == CalculateDelay(o, start + i, jitter(start + i)))
    decreases o.maxRetries - start
  {
    var r := RunFrom(o, op, jitter, strictSleep, start, lastError);
    match op(start)
    case Ok(v) =>
    case Err(e) =>
      if start < o.maxRetries && o.shouldRetry(e, start) {
        var d := CalculateDelay(o, start, jitter(start));
        if !(strictSleep && d < 0) {
          var rest := RunFrom(o, op, jitter, strictSleep, start + 1, Some(e));
          RunDelayFacts(o, op, jitter, strictSleep, start + 1, Some(e));
          assert r == Run(rest.ending, rest.attempts + 1, [start] + rest.consulted, [d] + rest.delays);
          forall i | 0 <= i < |r.delays|
            ensures r.delays[i] == CalculateDelay(o, start + i, jitter(start + i))
          {
            if i > 0 {
              assert r.delays[i] == rest.delays[i - 1];
            }
          }
        }
      }
  }

  /** `should_retry` sees the attempts of a call in order, each below `max_retries`, all but possibly the last. */
  lemma {:induction false} RunConsultedFacts<T, E>(o: RetryOptions<E>, op: nat -> Outcome<T, E>, jitter: nat -> Unit,
                                                   strictSleep: bool, start: nat, lastError: Option<E>)
    requires start <= o.maxRetries
    ensures var r := RunFrom(o, op, jitter, strictSleep, start, lastError);
      && r.attempts - 1 <= |r.consulted| <= r.attempts
      && (forall i :: 0 <= i < |r.consulted| ==> r.consulted[i] == start + i < o.maxRetries)
    decreases o.maxRetries - start
  {
    var r := RunFrom(o, op, jitter, strictSleep, start, lastError);
    match op(start)
    case Ok(v) =>
    case Err(e) =>
      if start < o.maxRetries && o.shouldRetry(e, start) {
        var d := CalculateDelay(o, start, jitter(start));
        if !(strictSleep && d < 0) {
          var rest := RunFrom(o, op, jitter, strictSleep, start + 1, Some(e));
          RunConsultedFacts(o, op, jitter, strictSleep, start + 1, Some(e));
          assert r == Run(rest.ending, rest.attempts + 1, [start] + rest.consulted, [d] + rest.delays);
          forall i | 0 <= i < |r.consulted|
            ensures r.consulted[i] == start + i < o.maxRetries
          {
            if i > 0 {
              assert r.consulted[i] == rest.consulted[i - 1];
            }
          }
        }
      }
  }

  /** How a call ends: which attempt ended it, with what, and that every earlier attempt was retried. */
  lemma {:induction false} RunEndingFacts<T, E>(o: RetryOptions<E>, op: nat -> Outcome<T, E>, jitter: nat -> Unit,
                                                strictSleep: bool, start: nat, lastError: Option<E>)
    requires start <= o.maxRetries
    ensures var r := RunFrom(o, op, jitter, strictSleep, start, lastError);
      && (forall k :: start <= k < LastAttempt(start, r) ==> Retried(o, op, k))
      && !r.ending.RaisedNone?
      && (r.ending.Returned? ==> op(LastAttempt(start, r)) == Ok(r.ending.value) && |r.consulted| == r.attempts - 1)
      && (r.ending.Raised? ==>
            && op(LastAttempt(start, r)) == Err(r.ending.error)
            && (LastAttempt(start, r) == o.maxRetries <==> |r.consulted| == r.attempts - 1)
            && (LastAttempt(start, r) < o.maxRetries ==> !o.shouldRetry(r.ending.error, LastAttempt(start, r))))
      && (r.ending.SleepRejected? ==>
            && strictSleep && Retried(o, op, LastAttempt(start, r)) && |r.consulted| == r.attempts
            && r.ending.delayMs == CalculateDelay(o, LastAttempt(start, r), jitter(LastAttempt(start, r))) < 0)
    decreases o.maxRetries - start
  {
    var r := RunFrom(o, op, jitter, strictSleep, start, lastError);
    match op(start)
    case Ok(v) =>
    case Err(e) =>
      if start < o.maxRetries && o.shouldRetry(e, start) {
        var d := CalculateDelay(o, start, jitter(start));
        if !(strictSleep && d < 0) {
          var rest := RunFrom(o, op, jitter, strictSleep, start + 1, Some(e));
          RunEndingFacts(o, op, jitter, strictSleep, start + 1, Some(e));
          assert r == Run(rest.ending, rest.attempts + 1, [start] + rest.consulted, [d] + rest.delays);
          assert LastAttempt(start, r) == LastAttempt(start + 1, rest);
        }
      }
  }

  /** The operation runs at least once and at most `max_retries + 1` times; with a negative budget it never runs. */
  lemma AttemptsBounded<T, E>(o: RetryOptions<E>, op: nat -> Outcome<T, E>, jitter: nat -> Unit, strictSleep: bool)
    ensures var r := RunAll(o, op, jitter, strictSleep);
      && (o.maxRetries >= 0 ==> 1 <= r.attempts <= o.maxRetries + 1)
      && (o.maxRetries < 0 ==> r == Run(RaisedNone, 0, [], []))
  {
    if o.maxRetries >= 0 {
      RunFromFacts(o, op, jitter, strictSleep, 0, None);
    }
  }

  /**
   * A returned value is the result of the last attempt, which is the first
   * attempt that succeeded: every attempt before it failed.
   */
  lemma ReturnsFirstSuccess<T, E>(o: RetryOptions<E>, op: nat -> Outcome<T, E>, jitter: nat -> Unit, strictSleep: bool)
    ensures var r := RunAll(o, op, jitter, strictSleep);
      r.ending.Returned? ==>
        && r.attempts >= 1
        && op(r.attempts - 1) == Ok(r.ending.value)
        && (forall k :: 0 <= k < r.attempts - 1 ==> op(k).Err?)
  {
    if o.maxRetries >= 0 {
      RunFromFacts(o, op, jitter, strictSleep, 0, None);
      var r := RunAll(o, op, jitter, strictSleep);
      forall k | 0 <= k < r.attempts - 1 ensures op(k).Err? {
        assert Retried(o, op, k);
      }
    }
  }

  /**
   * When the last allowed attempt (number `max_retries`) fails, its own
   * error is raised and `should_retry` is never asked about it.
   */
  lemma LastAttemptReraises<T, E>(o: RetryOptions<E>, op: nat -> Outcome<T, E>, jitter: nat -> Unit, strictSleep: bool)
    ensures var r := RunAll(o, op, jitter, strictSleep);
      o.maxRetries >= 0 && r.attempts == o.maxRetries + 1 && !r.ending.Returned? ==>
        && r.ending.Raised?
        && op(o.maxRetries) == Err(r.ending.error)
        && o.maxRetries !in r.consulted
  {
    if o.maxRetries >= 0 {
      RunFromFacts(o, op, jitter, strictSleep, 0, None);
      var r := RunAll(o, op, jitter, strictSleep);
      if r.attempts == o.maxRetries + 1 && r.ending.Raised? {
        assert forall i :: 0 <= i < |r.consulted| ==> r.consulted[i] < o.maxRetries;
      }
    }
  }

  /**
   * An error raised before the last allowed attempt is one `should_retry`
   * refused: it is the error of the last attempt run, `should_retry` was
   * asked about that attempt, and no delay followed it.
   */
  lemma RefusedRetryStops<T, E>(o: RetryOptions<E>, op: nat -> Outcome<T, E>, jitter: nat -> Unit, strictSleep: bool)
    ensures var r := RunAll(o, op, jitter, strictSleep);
      r.ending.Raised? && r.attempts <= o.maxRetries ==>
        && op(r.attempts - 1) == Err(r.ending.error)
        && !o.shouldRetry(r.ending.error, r.attempts - 1)
        && r.consulted[|r.consulted| - 1] == r.attempts - 1
        && |r.delays| == r.attempts - 1
  {
    if o.maxRetries >= 0 {
      RunFromFacts(o, op, jitter, strictSleep, 0, None);
    }
  }

  /** `should_retry` is called with the attempt numbers 0, 1, … in order, each below `max_retries`. */
  lemma ShouldRetryArguments<T, E>(o: RetryOptions<E>, op: nat -> Outcome<T, E>, jitter: nat -> Unit, strictSleep: bool)
    ensures var r := RunAll(o, op, jitter, strictSleep);
      && |r.consulted| <= r.attempts
      && forall i :: 0 <= i < |r.consulted| ==> r.consulted[i] == i && i < o.maxRetries
  {
    if o.maxRetries >= 0 {
      RunFromFacts(o, op, jitter, strictSleep, 0, None);
    }
  }

  /** A delay separates each two consecutive attempts, and each is `_calculate_delay` of the failed attempt, so at most `max_delay_ms`. */
  lemma DelaysCapped<T, E>(o: RetryOptions<E>, op: nat -> Outcome<T, E>, jitter: nat -> Unit, strictSleep: bool)
    ensures var r := RunAll(o, op, jitter, strictSleep);
      && (o.maxRetries >= 0 ==> |r.delays| == r.attempts - 1)
      && forall i :: 0 <= i < |r.delays| ==> r.delays[i] == CalculateDelay(o, i, jitter(i)) <= o.maxDelayMs
  {
    if o.maxRetries >= 0 {
      RunFromFacts(o, op, jitter, strictSleep, 0, None);
    }
  }

  /**
   * Reaching attempt `k`: when every attempt from `start` up to `k` failed
   * and was retried (and, for the blocking sleep, no delay was negative),
   * the call ends as the call started at `k` does, after `k - start` more
   * attempts.
   */
  lemma {:induction false} RunReaches<T, E>(o: RetryOptions<E>, op: nat -> Outcome<T, E>, jitter: nat -> Unit,
                                            strictSleep: bool, start: nat, lastError: Option<E>, k: nat)
    requires start < k <= o.maxRetries
    requires forall i :: start <= i < k ==> Retried(o, op, i) && (strictSleep ==> CalculateDelay(o, i, jitter(i)) >= 0)
    ensures var r := RunFrom(o, op, jitter, strictSleep, start, lastError);
      var rk := RunFrom(o, op, jitter, strictSleep, k, ErrorOf(op(k - 1)));
      r.ending == rk.ending && r.attempts == rk.attempts + (k - start)
    decreases k - start
  {
    assert Retried(o, op, start);
    if start + 1 < k {
      RunReaches(o, op, jitter, strictSleep, start + 1, Some(op(start).error), k);
    }
  }

  /** Retrying up to a first success: that success is returned after exactly `k + 1` attempts. */
  lemma StopsAtFirstSuccess<T, E>(o: RetryOptions<E>, op: nat -> Outcome<T, E>, jitter: nat -> Unit, strictSleep: bool, k: nat)
    requires k <= o.maxRetries && op(k).Ok?
    requires forall i :: 0 <= i < k ==> Retried(o, op, i) && (strictSleep ==> CalculateDelay(o, i, jitter(i)) >= 0)
    ensures var r := RunAll(o, op, jitter, strictSleep);
      r.ending == Returned(op(k).value) && r.attempts == k + 1
  {
    if k > 0 {
      RunReaches(o, op, jitter, strictSleep, 0, None, k);
    }
  }

  /** The first refusal of `should_retry` raises that attempt's error after exactly `k + 1` attempts, whatever budget is left. */
  lemma StopsAtFirstRefusal<T, E>(o: RetryOptions<E>, op: nat -> Outcome<T, E>, jitter: nat -> Unit, strictSleep: bool, k: nat)
    requires k < o.maxRetries && op(k).Err? && !o.shouldRetry(op(k).error, k)
    requires forall i :: 0 <= i < k ==> Retried(o, op, i) && (strictSleep ==> CalculateDelay(o, i, jitter(i)) >= 0)
    ensures var r := RunAll(o, op, jitter, strictSleep);
      r.ending == Raised(op(k).error) && r.attempts == k + 1
  {
    if k > 0 {
      RunReaches(o, op, jitter, strictSleep, 0, None, k);
    }
  }

  /**
   * An operation that always fails, with `should_retry` saying yes to each
   * of its errors, runs exactly `max_retries + 1` times and raises the
   * last error.
   */
  lemma AlwaysFailingExhausts<T, E>(o: RetryOptions<E>, op: nat -> Outcome<T, E>, jitter: nat -> Unit)
    requires o.maxRetries >= 0
    requires forall k: nat :: op(k).Err? && o.shouldRetry(op(k).error, k)
    ensures var r := RunAll(o, op, jitter, false);
      r.ending == Raised(op(o.maxRetries).error) && r.attempts == o.maxRetries + 1
  {
    if o.maxRetries > 0 {
      RunReaches(o, op, jitter, false, 0, None, o.maxRetries);
    }
  }

  /**
   * `sync_exponential_backoff` behaves as `execute` whenever the options
   * give non-negative delays: same ending, attempts, predicate calls and
   * delays.
   */
  lemma {:induction false} SyncMatchesAsync<T, E>(o: RetryOptions<E>, op: nat -> Outcome<T, E>, jitter: nat -> Unit,
                                                   start: nat, lastError: Option<E>)
    requires NonNegativeDelays(o)
    ensures RunFrom(o, op, jitter, true, start, lastError) == RunFrom(o, op, jitter, false, start, lastError)
    decreases if start <= o.maxRetries then o.maxRetries + 1 - start else 0
  {
    if start <= o.maxRetries && op(start).Err? && start < o.maxRetries && o.shouldRetry(op(start).error, start) {
      DelayBounds(o, start, jitter(start));
      SyncMatchesAsync(o, op, jitter, start + 1, Some(op(start).error));
    }
  }

  /**
   * With a negative `max_delay_ms` the two differ: the blocking version
   * stops with a ValueError where `execute` sleeps zero seconds and tries
   * again.
   */
  lemma SyncRejectsNegativeDelay<T, E>(o: RetryOptions<E>, op: nat -> Outcome<T, E>, jitter: nat -> Unit)
    requires o.maxRetries >= 1 && o.maxDelayMs < 0
    requires op(0).Err? && o.shouldRetry(op(0).error, 0)
    ensures RunAll(o, op, jitter, true).ending.SleepRejected?
    ensures RunAll(o, op, jitter, false).attempts >= 2
  {
    RunFromFacts(o, op, jitter, false, 1, Some(op(0).error));
  }

  /** Putting attempts in front of a run in two steps or in one gives the same run. */
  lemma AfterAfter<T, E>(k: nat, c: seq<nat>, d: seq<int>, c1: seq<nat>, d1: seq<int>, r: Run<T, E>)
    ensures After(k, c, d, After(1, c1, d1, r)) == After(k + 1, c + c1, d + d1, r)
  {
    assert c + (c1 + r.consulted) == (c + c1) + r.consulted;
    assert d + (d1 + r.delays) == (d + d1) + r.delays;
  }

  /** A run that stops at its first attempt, with `k` attempts put in front. */
  lemma AfterStop<T, E>(k: nat, c: seq<nat>, d: seq<int>, ending: Ending<T, E>, c1: seq<nat>)
    ensures After(k, c, d, Run(ending, 1, c1, [])) == Run(ending, k + 1, c + c1, d)
  {
    assert d + [] == d;
  }

  /** One failed attempt that `should_retry` allowed and whose delay was slept. */
  lemma RetryStep<T, E>(o: RetryOptions<E>, op: nat -> Outcome<T, E>, jitter: nat -> Unit,
                        strictSleep: bool, attempt: nat, lastError: Option<E>)
    requires Retried(o, op, attempt)
    requires !(strictSleep && CalculateDelay(o, attempt, jitter(attempt)) < 0)
    ensures RunFrom(o, op, jitter, strictSleep, attempt, lastError) ==
      After(1, [attempt], [CalculateDelay(o, attempt, jitter(attempt))],
            RunFrom(o, op, jitter, strictSleep, attempt + 1, Some(op(attempt).error)))
  {
  }

  /**
   * One pass of the attempt loop: with `whole` the run of the call and
   * `attempt` attempts already behind, how `whole` reads once attempt
   * `attempt` is made, for each way it can go.
   */
  lemma LoopStep<T, E>(o: RetryOptions<E>, op: nat -> Outcome<T, E>, jitter: nat -> Unit, strictSleep: bool,
                       attempt: nat, lastError: Option<E>, consulted: seq<nat>, delays: seq<int>, whole: Run<T, E>)
    requires attempt <= o.maxRetries
    requires whole == After(attempt, consulted, delays, RunFrom(o, op, jitter, strictSleep, attempt, lastError))
    ensures op(attempt).Ok? ==> whole == Run(Returned(op(attempt).value), attempt + 1, consulted, delays)
    ensures op(attempt).Err? && attempt == o.maxRetries ==>
      whole == Run(Raised(op(attempt).error), attempt + 1, consulted, delays)
    ensures op(attempt).Err? && attempt < o.maxRetries && !o.shouldRetry(op(attempt).error, attempt) ==>
      whole == Run(Raised(op(attempt).error), attempt + 1, consulted + [attempt], delays)
    ensures Retried(o, op, attempt) && strictSleep && CalculateDelay(o, attempt, jitter(attempt)) < 0 ==>
      whole == Run(SleepRejected(CalculateDelay(o, attempt, jitter(attempt))), attempt + 1, consulted + [attempt], delays)
    ensures Retried(o, op, attempt) && !(strictSleep && CalculateDelay(o, attempt, jitter(attempt)) < 0) ==>
      whole == After(attempt + 1, consulted + [attempt], delays + [CalculateDelay(o, attempt, jitter(attempt))],
                     RunFrom(o, op, jitter, strictSleep, attempt + 1, Some(op(attempt).error)))
  {
    var d := CalculateDelay(o, attempt, jitter(attempt));
    match op(attempt)
    case Ok(v) =>
      AfterStop<T, E>(attempt, consulted, delays, Returned(v), []);
    case Err(e) =>
      if attempt == o.maxRetries {
        AfterStop<T, E>(attempt, consulted, delays, Raised(e), []);
      } else if !o.shouldRetry(e, attempt) {
        AfterStop<T, E>(attempt, consulted, delays, Raised(e), [attempt]);
      } else if strictSleep && d < 0 {
        AfterStop<T, E>(attempt, consulted, delays, SleepRejected(d), [attempt]);
      } else {
        RetryStep(o, op, jitter, strictSleep, attempt, lastError);
        AfterAfter(attempt, consulted, delays, [attempt], [d], RunFrom(o, op, jitter, strictSleep, attempt + 1, Some(e)));
      }
  }

  /** `ExponentialBackoff`: an executor holding its options. */
  class ExponentialBackoff<E(!new)> {
    const options: RetryOptions<E>

    /** `ExponentialBackoff(options)`: `options or RetryOptions()`. */
    constructor (options: Option<RetryOptions<E>>)
      ensures options.Some? ==> this.options == options.value
      ensures options.None? ==> this.options == NewRetryOptions()
    {
      this.options := match options
        case Some(o) => o
        case None => NewRetryOptions();
    }

    /** `await backoff.execute(operation)`: the attempt loop over this executor's options. */
    method Execute<T>(op: nat -> Outcome<T, E>, jitter: nat -> Unit)
      returns (ending: Ending<T, E>, attempts: nat, consulted: seq<nat>, delays: seq<int>)
      ensures Run(ending, attempts, consulted, delays) == RunAll(options, op, jitter, false)
    {
      ending, attempts, consulted, delays := Attempts(options, op, jitter, false, RunAll(options, op, jitter, false));
    }
  }

  /** What one attempt left to do: the call is over, or the error is retried after the sleep. */
  datatype Attempted<T, E> =
    | Finished(ending: Ending<T, E>, consulted: seq<nat>)
    | Again(error: E, consulted: seq<nat>, delays: seq<int>)

  /**
   * One pass of the attempt loop: run `op`, return its value, re-raise a final or
   * unretryable error, otherwise calculate the delay and sleep. `strictSleep` is the
   * synchronous sleep, which raises on a negative delay; the asynchronous sleep returns
   * at once instead.
   */
  method TryOnce<T, E>(o: RetryOptions<E>, op: nat -> Outcome<T, E>, jitter: nat -> Unit, strictSleep: bool,
                       attempt: nat, ghost lastError: Option<E>, consulted: seq<nat>, delays: seq<int>,
                       ghost whole: Run<T, E>)
    returns (a: Attempted<T, E>)
    requires attempt <= o.maxRetries
    requires whole == After(attempt, consulted, delays, RunFrom(o, op, jitter, strictSleep, attempt, lastError))
    ensures a.Finished? ==> whole == Run(a.ending, attempt + 1, a.consulted, delays)
    ensures a.Again? ==> attempt < o.maxRetries
    ensures a.Again? ==>
      whole == After(attempt + 1, a.consulted, a.delays, RunFrom(o, op, jitter, strictSleep, attempt + 1, Some(a.error)))
  {
    LoopStep(o, op, jitter, strictSleep, attempt, lastError, consulted, delays, whole);
    var outcome := op(attempt);
    if outcome.Ok? {
      return Finished(Returned(outcome.value), consulted);
    }
    var error := outcome.error;
    if attempt == o.maxRetries {
      return Finished(Raised(error), consulted);
    }
    if !o.shouldRetry(error, attempt) {
      return Finished(Raised(error), consulted + [attempt]);
    }
    var delay := CalculateDelay(o, attempt, jitter(attempt));
    if strictSleep && delay < 0 {
      return Finished(SleepRejected(delay), consulted + [attempt]);
    }
    return Again(error, consulted + [attempt], delays + [delay]);
  }

  /**
   * The attempt loop shared by `with_exponential_backoff` and `sync_exponential_backoff`:
   * up to `max_retries + 1` passes of `TryOnce`, then the last error is raised.
   */
  method Attempts<T, E>(o: RetryOptions<E>, op: nat -> Outcome<T, E>, jitter: nat -> Unit, strictSleep: bool,
                        ghost whole: Run<T, E>)
    returns (ending: Ending<T, E>, attempts: nat, consulted: seq<nat>, delays: seq<int>)
    requires whole == RunAll(o, op, jitter, strictSleep)
    ensures Run(ending, attempts, consulted, delays) == whole
  {
    var lastError: Option<E> := None;
    consulted, delays := [], [];
    var attempt: nat := 0;
    while attempt < o.maxRetries + 1
      invariant whole == After(attempt, consulted, delays, RunFrom(o, op, jitter, strictSleep, attempt, lastError))
      decreases o.maxRetries + 1 - attempt
    {
      var a := TryOnce(o, op, jitter, strictSleep, attempt, lastError, consulted, delays, whole);
      if a.Finished? {
        ending, attempts, consulted := a.ending, attempt + 1, a.consulted;
        return;
      }
      consulted, delays, lastError := a.consulted, a.delays, Some(a.error);
      attempt := attempt + 1;
    }
    ending, attempts := if lastError.Some? then Raised(lastError.value) else RaisedNone, attempt;
  }

  /** `with_exponential_backoff(operation, options)`: a fresh executor's `execute`. */
  method WithExponentialBackoff<T, E(!new)>(op: nat -> Outcome<T, E>, options: Option<RetryOptions<E>>, jitter: nat -> Unit)
    returns (ending: Ending<T, E>, attempts: nat, consulted: seq<nat>, delays: seq<int>)
    ensures options.Some? ==> Run(ending, attempts, consulted, delays) == RunAll(options.value, op, jitter, false)
    ensures options.None? ==> Run(ending, attempts, consulted, delays) == RunAll(NewRetryOptions(), op, jitter, false)
  {
    var backoff := new ExponentialBackoff(options);
    ending, attempts, consulted, delays := backoff.Execute(op, jitter);
  }

  /**
   * `sync_exponential_backoff(operation, options)`: the same loop with a
   * blocking `time.sleep`; the delay it writes out inline is the formula of
   * `_calculate_delay`.
   */
  method SyncExponentialBackoff<T, E(!new)>(op: nat -> Outcome<T, E>, options: Option<RetryOptions<E>>, jitter: nat -> Unit)
    returns (ending: Ending<T, E>, attempts: nat, consulted: seq<nat>, delays: seq<int>)
    ensures var o := if options.Some? then options.value else NewRetryOptions();
      Run(ending, attempts, consulted, delays) == RunAll(o, op, jitter, true)
  {
    var o := if options.Some? then options.value else NewRetryOptions();
    ending, attempts, consulted, delays := Attempts(o, op, jitter, true, RunAll(o, op, jitter, true));
  }
}
