/**
 The bounded retry loop around a PSP call.
 */
module Retry {
  /** Errors as the classifier sees them; `Wrapped` is an error that wraps another. */
  datatype Error =
    | PspError(code: string, message: string, retryable: bool)
    | DeadlineExceeded
    | NetworkError(text: string)
    | OtherError(text: string)
    | Wrapped(prefix: string, inner: Error)

  predicate IsRetryable(e: Error) {
    match e
    case PspError(_, _, retryable) => retryable
    case DeadlineExceeded => true
    case NetworkError(_) => true
    case OtherError(_) => false
    case Wrapped(_, inner) => IsRetryable(inner)
  }

  /** The error that an error wraps in the end. */
  function Root(e: Error): Error {
    if e.Wrapped? then Root(e.inner) else e
  }

  /** Wrapping does not matter: a PSP error decides for itself, deadlines and network errors are retried, others not. */
  lemma {:induction false} RetryableByRoot(e: Error)
    ensures !Root(e).Wrapped?
    ensures IsRetryable(e) <==>
      match Root(e)
      case PspError(_, _, retryable) => retryable
      case DeadlineExceeded => true
      case NetworkError(_) => true
      case _ => false
  {
    if e.Wrapped? {
      RetryableByRoot(e.inner);
    }
  }

  datatype Config = Config(maxAttempts: int, baseDelay: int, maxDelay: int, multiplier: real)

  const MILLISECOND := 1_000_000
  const SECOND := 1000 * MILLISECOND

  function WithDefaults(c: Config): Config {
    Config(
      if c.maxAttempts <= 0 then 3 else c.maxAttempts,
      if c.baseDelay <= 0 then 100 * MILLISECOND else c.baseDelay,
      if c.maxDelay <= 0 then 10 * SECOND else c.maxDelay,
      if c.multiplier <= 0.0 then 2.0 else c.multiplier)
  }

  /** Positive settings are kept, the others have the documented defaults. */
  lemma DefaultsKeepSettings(c: Config)
    ensures var d := WithDefaults(c);
      && d.maxAttempts > 0 && d.baseDelay > 0 && d.maxDelay > 0 && d.multiplier > 0.0
      && (c.maxAttempts > 0 && c.baseDelay > 0 && c.maxDelay > 0 && c.multiplier > 0.0 ==> d == c)
    ensures WithDefaults(Config(0, 0, 0, 0.0)) == Config(3, 100_000_000, 10_000_000_000, 2.0)
  {
  }

  /** How many calls a configuration allows. */
  function Cap(c: Config): (n: nat)
    ensures n > 0
  {
    WithDefaults(c).maxAttempts
  }

  /******* Backoff *******/

  function Pow(b: real, n: nat): (r: real)
    ensures b > 0.0 ==> r > 0.0
  {
    if n == 0 then 1.0 else b * Pow(b, n - 1)
  }

  function Min(a: real, b: real): real {
    if a <= b then a else b
  }

  /** The longest delay after a failed attempt: it grows by the multiplier with each attempt, up to the cap. */
  function DelayLimit(base: int, multiplier: real, cap: int, attempt: nat): real {
    Min(base as real * Pow(multiplier, attempt), cap as real)
  }

  /** Exponential backoff with full jitter; `u` is the uniform draw. */
  function Backoff(base: int, multiplier: real, cap: int, attempt: nat, u: real): int {
    var limit := DelayLimit(base, multiplier, cap, attempt);
    if limit <= 0.0 then 0 else (u * limit).Floor
  }

  /** The first delay is at most the base, and each next one at most the multiplier times more, up to the cap. */
  lemma DelayLimitGrows(base: int, multiplier: real, cap: int, attempt: nat)
    ensures DelayLimit(base, multiplier, cap, 0) == if base <= cap then base as real else cap as real
    ensures var limit := DelayLimit(base, multiplier, cap, attempt);
      var next := DelayLimit(base, multiplier, cap, attempt + 1);
      limit < cap as real ==>
        next == if multiplier * limit <= cap as real then multiplier * limit else cap as real
  {
    PowStep(base as real, multiplier, attempt);
    assert base as real * Pow(multiplier, 0) == base as real;
    hide Pow;
  }

  lemma PowStep(x: real, b: real, n: nat)
    ensures x * Pow(b, n + 1) == b * (x * Pow(b, n))
  {
    assert Pow(b, n + 1) == b * Pow(b, n);
  }

  /** With a multiplier of at least 1 the limit never falls, and once at the cap it stays there. */
  lemma DelayLimitMonotone(base: int, multiplier: real, cap: int, attempt: nat)
    requires base >= 0 && multiplier >= 1.0
    ensures DelayLimit(base, multiplier, cap, attempt) <= DelayLimit(base, multiplier, cap, attempt + 1) <= cap as real
  {
    var exp := base as real * Pow(multiplier, attempt);
    PowStep(base as real, multiplier, attempt);
    assert Pow(multiplier, attempt) > 0.0;
    hide Pow;
    assert exp >= 0.0;
    assert (multiplier - 1.0) * exp >= 0.0;
  }

  /** A delay is its draw's share of the limit, to the tick, and a larger draw never waits less. */
  lemma BackoffIsShare(base: int, multiplier: real, cap: int, attempt: nat, u: real, v: real)
    requires 0.0 <= u <= v <= 1.0 && DelayLimit(base, multiplier, cap, attempt) >= 0.0
    ensures var limit := DelayLimit(base, multiplier, cap, attempt);
      && u * limit - 1.0 < Backoff(base, multiplier, cap, attempt, u) as real <= u * limit <= limit
      && Backoff(base, multiplier, cap, attempt, u) <= Backoff(base, multiplier, cap, attempt, v)
  {
    var limit := DelayLimit(base, multiplier, cap, attempt);
    MulBounds(u, limit);
    assert (v - u) * limit >= 0.0;
  }

  /** Whatever is drawn, the delay is never negative and never above the cap. */
  lemma BackoffBounds(base: int, multiplier: real, cap: int, attempt: nat, u: real)
    requires cap >= 0 && 0.0 <= u <= 1.0
    ensures 0 <= Backoff(base, multiplier, cap, attempt, u) <= cap
  {
    var limit := DelayLimit(base, multiplier, cap, attempt);
    if limit > 0.0 {
      MulBounds(u, limit);
      assert u * limit <= cap as real;
    }
  }

  lemma MulBounds(u: real, x: real)
    requires 0.0 <= u <= 1.0 && x >= 0.0
    ensures 0.0 <= u * x <= x
  {
    assert (1.0 - u) * x >= 0.0;
  }

  /******* The loop *******/

  datatype Attempt<+T> = Value(value: T) | Fail(error: Error)
  datatype Result<+T> = Ok(value: T) | Err(error: Error)
  datatype Label = RetryableLabel | NonretryableLabel

  /** What to do after a failed call number `attempt`. */
  datatype Verdict = Again | Stop(error: Error)

  function Decide(cap: nat, attempt: nat, e: Error): Verdict {
    if !IsRetryable(e) then Stop(e)
    else if attempt + 1 >= cap then Stop(Wrapped("max retries exceeded", e))
    else Again
  }

  /**
   What the caller can see of one retried operation: `calls` outcomes were consumed,
   and cancellation struck either before the next call or while waiting for it.
   */
  datatype Script<!T> = Script(op: nat -> Attempt<T>, before: nat -> bool, waiting: nat -> bool, ctxErr: Error)

  /** The first `k` calls all failed with a retryable error and nothing was cancelled around them. */
  predicate StillRetrying<T(!new)>(s: Script<T>, k: nat) {
    forall i :: 0 <= i < k ==> !s.before(i) && s.op(i).Fail? && IsRetryable(s.op(i).error) && !s.waiting(i)
  }

  /** The result of the loop when it stops at call `k`: a reference definition without a loop. */
  ghost predicate StopsWith<T(!new)>(s: Script<T>, cap: nat, k: nat, calls: nat, r: Result<T>) {
    && k < cap && StillRetrying(s, k)
    && if s.before(k) then calls == k && r == Err(s.ctxErr)
       else if s.op(k).Value? then calls == k + 1 && r == Ok(s.op(k).value)
       else if !IsRetryable(s.op(k).error) then calls == k + 1 && r == Err(s.op(k).error)
       else if k + 1 == cap then calls == k + 1 && r == Err(Wrapped("max retries exceeded", s.op(k).error))
       else calls == k + 1 && s.waiting(k) && r == Err(s.ctxErr)
  }

  /** The reference definition leaves no freedom. */
  lemma StopsOnce<T(!new)>(s: Script<T>, cap: nat, k1: nat, c1: nat, r1: Result<T>, k2: nat, c2: nat, r2: Result<T>)
    requires StopsWith(s, cap, k1, c1, r1) && StopsWith(s, cap, k2, c2, r2)
    ensures k1 == k2 && c1 == c2 && r1 == r2
  {
    if k1 < k2 {
    } else if k2 < k1 {
    }
  }

  /** Nothing succeeds, everything is worth a retry, and nothing is cancelled. */
  ghost predicate AlwaysRetryable<T(!new)>(s: Script<T>) {
    forall i: nat :: !s.before(i) && s.op(i).Fail? && IsRetryable(s.op(i).error) && !s.waiting(i)
  }

  /** The number of calls in terms of the configured number: never more, and exactly that many while all fail. */
  lemma CallsAsConfigured<T(!new)>(cfg: Config, s: Script<T>, k: nat, calls: nat, r: Result<T>)
    requires StopsWith(s, Cap(cfg), k, calls, r)
    ensures cfg.maxAttempts > 0 ==> calls <= cfg.maxAttempts
    ensures cfg.maxAttempts <= 0 ==> calls <= 3
    ensures AlwaysRetryable(s) ==> calls == if cfg.maxAttempts > 0 then cfg.maxAttempts else 3
  {
  }

  /**
   The retry loop meets the reference definition, for every outcome sequence and every
   cancellation point, with one label per failed call.
   */
  method DoWithObserver<T(!new)>(cfg: Config, s: Script<T>)
    returns (r: Result<T>, calls: nat, labels: seq<Label>)
    ensures exists k :: StopsWith(s, Cap(cfg), k, calls, r)
    ensures cfg.maxAttempts > 0 ==> calls <= cfg.maxAttempts
    ensures cfg.maxAttempts <= 0 ==> calls <= 3
    ensures AlwaysRetryable(s) ==> calls == if cfg.maxAttempts > 0 then cfg.maxAttempts else 3
    ensures |labels| == if r.Ok? then calls - 1 else calls
    ensures forall i :: 0 <= i < |labels| ==> s.op(i).Fail?
    ensures forall i :: 0 <= i < |labels| ==> (labels[i] == RetryableLabel <==> IsRetryable(s.op(i).error))
    ensures forall i :: 0 <= i < |labels| - 1 ==> labels[i] == RetryableLabel
  {
    var cap := Cap(cfg);
    calls, labels := 0, [];
    var lastErr := s.ctxErr;
    var attempt := 0;
    while attempt < cap
      invariant 0 <= attempt == calls <= cap && |labels| == calls
      invariant forall i :: 0 <= i < attempt ==> !s.before(i) && s.op(i).Fail? && IsRetryable(s.op(i).error)
      invariant forall i :: 0 <= i < attempt && i + 1 < cap ==> !s.waiting(i)
      invariant forall i :: 0 <= i < attempt ==> labels[i] == RetryableLabel
      invariant attempt > 0 ==> lastErr == s.op(attempt - 1).error
    {
      if s.before(attempt) {
        assert StopsWith(s, cap, attempt, calls, Err(s.ctxErr));
        return Err(s.ctxErr), calls, labels;
      }
      var outcome := s.op(attempt);
      calls := calls + 1;
      if outcome.Value? {
        assert StopsWith(s, cap, attempt, calls, Ok(outcome.value));
        return Ok(outcome.value), calls, labels;
      }
      lastErr := outcome.error;
      if !IsRetryable(outcome.error) {
        labels := labels + [NonretryableLabel];
        assert StopsWith(s, cap, attempt, calls, Err(outcome.error));
        return Err(outcome.error), calls, labels;
      }
      labels := labels + [RetryableLabel];
      if attempt == cap - 1 {
        attempt := attempt + 1;
        break;
      }
      if s.waiting(attempt) {
        assert StopsWith(s, cap, attempt, calls, Err(s.ctxErr));
        return Err(s.ctxErr), calls, labels;
      }
      attempt := attempt + 1;
    }
    assert StopsWith(s, cap, cap - 1, calls, Err(Wrapped("max retries exceeded", lastErr)));
    return Err(Wrapped("max retries exceeded", lastErr)), calls, labels;
  }
}
