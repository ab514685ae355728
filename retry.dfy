/**
 * `retry_with_backoff`: call a function up to `max_retries + 1` times, sleeping
 * between attempts with exponentially growing, capped delays, and retrying only
 * on the exceptions declared retryable.
 *
 * The wrapped call is a function from the attempt number to its outcome (the
 * outcomes an environment would produce, in order); the set of retryable
 * exception types is a predicate on errors. Delays are whole numbers of a time
 * unit, and sleeping is recorded rather than performed.
 */
module Retry {
  import opened Wrappers
  import opened Exceptions

  const UNEXPECTED := RuntimeError("Unexpected error in retry logic")

  function Pow(b: nat, e: nat): nat
  {
    if e == 0 then 1 else b * Pow(b, e - 1)
  }

  /** The delay slept after the `i`-th failed attempt (counting from 0). */
  function Backoff(initial: nat, base: nat, maxDelay: nat, i: nat): nat
  {
    if i == 0 then initial else Min(Backoff(initial, base, maxDelay, i - 1) * base, maxDelay)
  }

  /** The first `count` delays, in the order they are slept. */
  function Delays(initial: nat, base: nat, maxDelay: nat, count: nat): (r: seq<nat>)
    ensures |r| == count
    ensures forall i :: 0 <= i < count ==> r[i] == Backoff(initial, base, maxDelay, i)
  {
    if count == 0 then [] else Delays(initial, base, maxDelay, count - 1) + [Backoff(initial, base, maxDelay, count - 1)]
  }

  /** An attempt that ends in an exception of a retryable type. */
  predicate Retried<T>(f: nat -> Result<T, Error>, retryable: Error -> bool, j: nat)
  {
    f(j).Failure? && retryable(f(j).error)
  }

  /** The first attempt in `from..n` that does not ask for a retry, or `n` when every one does. */
  function FirstStop<T>(f: nat -> Result<T, Error>, retryable: Error -> bool, from: nat, n: nat): (k: nat)
    requires from <= n
    ensures from <= k <= n
    ensures forall j :: from <= j < k ==> Retried(f, retryable, j)
    ensures k < n ==> !Retried(f, retryable, k)
    decreases n - from
  {
    if from == n then n
    else if Retried(f, retryable, from) then FirstStop(f, retryable, from + 1, n)
    else from
  }

  /** How many times the wrapped function is called. */
  function Attempts<T>(f: nat -> Result<T, Error>, retryable: Error -> bool, maxRetries: int): nat
  {
    if maxRetries < 0 then 0
    else
      var n := maxRetries + 1;
      var k := FirstStop(f, retryable, 0, n);
      if k < n then k + 1 else n
  }

  /** What the wrapper returns or raises: the outcome of the last call, or the "unexpected" error when there was none. */
  function RunResult<T>(f: nat -> Result<T, Error>, retryable: Error -> bool, maxRetries: int): Result<T, Error>
  {
    var calls := Attempts(f, retryable, maxRetries);
    if calls == 0 then Failure(UNEXPECTED) else f(calls - 1)
  }

  /** The delays slept during a run that made `calls` calls: one before every call but the first. */
  function SleepsFor(initial: nat, base: nat, maxDelay: nat, calls: nat): seq<nat>
  {
    Delays(initial, base, maxDelay, if calls == 0 then 0 else calls - 1)
  }

  /** The decorated call: `calls` counts the invocations of `f`, `slept` the delays passed to `time.sleep`. */
  method RetryWithBackoff<T>(f: nat -> Result<T, Error>, retryable: Error -> bool,
                             maxRetries: int := 3, initialDelay: nat := 1, maxDelay: nat := 60,
                             exponentialBase: nat := 2)
    returns (r: Result<T, Error>, calls: nat, ghost slept: seq<nat>)
    ensures calls == Attempts(f, retryable, maxRetries)
    ensures r == RunResult(f, retryable, maxRetries)
    ensures slept == SleepsFor(initialDelay, exponentialBase, maxDelay, calls)
  {
    var delay := initialDelay;
    var lastError: Option<Error> := None;
    var attempt: nat := 0;
    calls := 0;
    slept := [];
    ghost var n := if maxRetries < 0 then 0 else maxRetries + 1;
    while attempt <= maxRetries
      invariant attempt <= n
      invariant calls == attempt
      invariant forall j :: 0 <= j < attempt ==> Retried(f, retryable, j)
      invariant attempt == 0 ==> lastError == None
      invariant attempt > 0 ==> Retried(f, retryable, attempt - 1) && lastError == Some(f(attempt - 1).error)
      invariant attempt <= maxRetries ==> slept == Delays(initialDelay, exponentialBase, maxDelay, attempt)
      invariant attempt <= maxRetries ==> delay == Backoff(initialDelay, exponentialBase, maxDelay, attempt)
      invariant attempt > maxRetries ==> slept == SleepsFor(initialDelay, exponentialBase, maxDelay, attempt)
    {
      var outcome := f(attempt);
      calls := calls + 1;
      if outcome.Success? || !retryable(outcome.error) {
        assert FirstStop(f, retryable, 0, n) == attempt by {
          FirstStopAt(f, retryable, attempt, n);
        }
        r := outcome;
        return;
      }
      lastError := Some(outcome.error);
      if attempt < maxRetries {
        slept := slept + [delay];
        delay := Min(delay * exponentialBase, maxDelay);
      }
      attempt := attempt + 1;
    }
    if maxRetries >= 0 {
      FirstStopAt(f, retryable, n, n);
    }
    if lastError.Some? {
      r := Failure(lastError.value);
    } else {
      r := Failure(UNEXPECTED);
    }
  }

  /** FirstStop from 0 is `k` when every attempt before `k` retried and `k` is the end or does not retry. */
  lemma FirstStopAt<T>(f: nat -> Result<T, Error>, retryable: Error -> bool, k: nat, n: nat)
    requires k <= n
    requires forall j :: 0 <= j < k ==> Retried(f, retryable, j)
    requires k < n ==> !Retried(f, retryable, k)
    ensures FirstStop(f, retryable, 0, n) == k
  {
  }

  /** A run whose attempt `k` is the first that does not ask for a retry makes `k + 1` calls and ends with that attempt. */
  lemma StopsAt<T>(f: nat -> Result<T, Error>, retryable: Error -> bool, maxRetries: int, k: nat)
    requires k <= maxRetries
    requires forall j :: 0 <= j < k ==> Retried(f, retryable, j)
    requires !Retried(f, retryable, k)
    ensures Attempts(f, retryable, maxRetries) == k + 1
    ensures RunResult(f, retryable, maxRetries) == f(k)
  {
    FirstStopAt(f, retryable, k, maxRetries + 1);
  }

  /** A run in which every attempt asks for a retry makes `max_retries + 1` calls and re-raises the last error. */
  lemma Exhausts<T>(f: nat -> Result<T, Error>, retryable: Error -> bool, maxRetries: int)
    requires maxRetries >= 0
    requires forall j :: 0 <= j <= maxRetries ==> Retried(f, retryable, j)
    ensures Attempts(f, retryable, maxRetries) == maxRetries + 1
    ensures f(maxRetries).Failure? && RunResult(f, retryable, maxRetries) == Failure(f(maxRetries).error)
  {
    FirstStopAt(f, retryable, maxRetries + 1, maxRetries + 1);
    assert Retried(f, retryable, maxRetries);
  }

  /** A first call that succeeds is made once, with no sleep, and its value is returned verbatim. */
  lemma FirstCallSucceeds<T>(f: nat -> Result<T, Error>, retryable: Error -> bool, maxRetries: int, initial: nat, base: nat, maxDelay: nat)
    requires maxRetries >= 0 && f(0).Success?
    ensures Attempts(f, retryable, maxRetries) == 1
    ensures RunResult(f, retryable, maxRetries) == f(0)
    ensures SleepsFor(initial, base, maxDelay, Attempts(f, retryable, maxRetries)) == []
  {
    FirstStopAt(f, retryable, 0, maxRetries + 1);
  }

  /** A call that always raises a retryable error is made `max_retries + 1` times and the last error is re-raised. */
  lemma AlwaysFailing<T>(f: nat -> Result<T, Error>, retryable: Error -> bool, maxRetries: int, initial: nat, base: nat, maxDelay: nat)
    requires maxRetries >= 0
    requires forall j: nat :: Retried(f, retryable, j)
    ensures Attempts(f, retryable, maxRetries) == maxRetries + 1
    ensures RunResult(f, retryable, maxRetries) == f(maxRetries) && f(maxRetries).Failure?
    ensures |SleepsFor(initial, base, maxDelay, maxRetries + 1)| == maxRetries
  {
    FirstStopAt(f, retryable, maxRetries + 1, maxRetries + 1);
    assert Retried(f, retryable, maxRetries);
  }

  /** A non-retryable error from the first call is re-raised after exactly that one call. */
  lemma NonRetryableRaisedAtOnce<T>(f: nat -> Result<T, Error>, retryable: Error -> bool, maxRetries: int)
    requires maxRetries >= 0
    requires f(0).Failure? && !retryable(f(0).error)
    ensures Attempts(f, retryable, maxRetries) == 1
    ensures RunResult(f, retryable, maxRetries) == f(0)
  {
    FirstStopAt(f, retryable, 0, maxRetries + 1);
  }

  /** Succeeding on attempt `k + 1` takes exactly `k + 1` calls and `k` sleeps. */
  lemma SucceedsAfterRetries<T>(f: nat -> Result<T, Error>, retryable: Error -> bool, maxRetries: int, k: nat, initial: nat, base: nat, maxDelay: nat)
    requires k <= maxRetries
    requires forall j :: 0 <= j < k ==> Retried(f, retryable, j)
    requires f(k).Success?
    ensures Attempts(f, retryable, maxRetries) == k + 1
    ensures RunResult(f, retryable, maxRetries) == f(k)
    ensures SleepsFor(initial, base, maxDelay, k + 1) == Delays(initial, base, maxDelay, k)
  {
    FirstStopAt(f, retryable, k, maxRetries + 1);
  }

  /** A negative retry count means the function is never called and RuntimeError is raised. */
  lemma NegativeRetries<T>(f: nat -> Result<T, Error>, retryable: Error -> bool, maxRetries: int)
    requires maxRetries < 0
    ensures Attempts(f, retryable, maxRetries) == 0
    ensures RunResult(f, retryable, maxRetries) == Failure(UNEXPECTED)
  {
  }

  /**
   * Only retryable errors lead to another call: every call but the last ended in
   * one, there are never more than `max_retries + 1` calls, and a run that
   * stops early stops on a success or a non-retryable error.
   */
  lemma OnlyRetryableRetried<T>(f: nat -> Result<T, Error>, retryable: Error -> bool, maxRetries: int)
    ensures var calls := Attempts(f, retryable, maxRetries);
      calls <= Max(maxRetries + 1, 0) &&
      (forall j :: 0 <= j < calls - 1 ==> Retried(f, retryable, j)) &&
      (0 < calls < maxRetries + 1 ==> !Retried(f, retryable, calls - 1))
  {
  }

  lemma {:induction false} MinScale(x: nat, b: nat, m: nat)
    ensures Min(Min(x, m) * b, m) == Min(x * b, m)
  {
    if x > m && b > 0 {
      assert x * b >= m * b by {
        assert (x - m) * b >= 0;
      }
      assert m * b >= m;
    }
  }

  lemma MulShift(a: nat, p: nat, b: nat)
    ensures a * p * b == a * (b * p)
  {
  }

  /** Closed form of the delays: `initial * base^i`, capped at `max_delay` from the second delay on. */
  lemma {:induction false} BackoffClosedForm(initial: nat, base: nat, maxDelay: nat, i: nat)
    requires i >= 1
    ensures Backoff(initial, base, maxDelay, i) == Min(initial * Pow(base, i), maxDelay)
  {
    var p := Pow(base, i - 1);
    assert Pow(base, i) == base * p;
    var x := initial * p;
    MulShift(initial, p, base);
    if i == 1 {
      assert p == 1;
    } else {
      BackoffClosedForm(initial, base, maxDelay, i - 1);
      MinScale(x, base, maxDelay);
    }
  }

  /** No delay exceeds `max_delay`, except a first delay that was already larger. */
  lemma {:induction false} BackoffBounded(initial: nat, base: nat, maxDelay: nat, i: nat)
    ensures Backoff(initial, base, maxDelay, i) <= Max(initial, maxDelay)
    ensures i >= 1 ==> Backoff(initial, base, maxDelay, i) <= maxDelay
  {
  }

  /** With the default settings the delays are 1, 2, 4, 8, 16, 32 and then 60 for ever. */
  lemma DefaultDelays()
    ensures Delays(1, 2, 60, 8) == [1, 2, 4, 8, 16, 32, 60, 60]
  {
  }
}
