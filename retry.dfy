/** The scripts' four retry policies, each consuming the outcomes its wrapped
    call would produce on successive attempts. Sleeps are recorded in a ghost
    log; `random.uniform` jitter is an input bounded to its interval.

    - `retry` decorator (Zip_20.py): catches `allowed_exceptions` only,
      sleeps `base_delay * backoff^(attempt-1) + U(0,1)` between attempts,
      re-raises after the last one.
    - `with_retry` (Zip_21.py): catches any `Exception`, sleeps
      `base_sleep * 2^attempt + U(0,2)` between attempts, re-raises after the last.
    - `safe_update` (Zip_20.py): retries only an APIError whose text holds
      "Quota exceeded", sleeping `2^(attempt-1) + U(0,1)` after every such
      failure, and raises RuntimeError once the attempts are used up.
    - the loop of `format_row4_as_date` (Zip_c.py): retries only an APIError
      whose text holds "429" or (lower-cased) "quota", sleeping `2^attempt`,
      and returns normally once the attempts are used up. */
module Retry {

  import opened Outcomes
  import opened Text

  /** Which raised exceptions a policy catches and retries. */
  datatype RetryFilter =
    | AllowedClasses(allowed: set<ExcClass>)
    | AnyException
    | QuotaExceeded
    | RateLimited

  predicate Retries(f: RetryFilter, e: Exc)
  {
    match f
    case AllowedClasses(allowed) => e.cls in allowed
    case AnyException => IsException(e)
    case QuotaExceeded => e.cls == APIError && Contains(e.text, "Quota exceeded")
    case RateLimited => e.cls == APIError && (Contains(e.text, "429") || Contains(Lower(e.text), "quota"))
  }

  /** The outcome is a failure the policy retries. */
  predicate Retried<T>(f: RetryFilter, o: Outcome<T>)
  {
    o.Err? && Retries(f, o.exc)
  }

  /** The first `n` outcomes are all failures the policy retries. */
  predicate AllRetried<T>(os: seq<Outcome<T>>, n: int, f: RetryFilter)
    requires n <= |os|
  {
    forall i :: 0 <= i < n ==> Retried(f, os[i])
  }

  /** Index of the first outcome that ends the retrying (a success or an
      exception the policy does not catch), or |os| if there is none. */
  function StopIndex<T>(os: seq<Outcome<T>>, f: RetryFilter): (k: nat)
    ensures k <= |os|
    ensures forall i :: 0 <= i < k ==> Retried(f, os[i])
    ensures k < |os| ==> !Retried(f, os[k])
  {
    if |os| == 0 || !Retried(f, os[0]) then 0 else 1 + StopIndex(os[1..], f)
  }

  /** How many times a policy allowing `n` attempts calls the wrapped function. */
  function Attempts<T>(os: seq<Outcome<T>>, n: int, f: RetryFilter): (r: nat)
    requires n <= |os|
    ensures n <= 0 ==> r == 0
    ensures n > 0 ==> 1 <= r <= n
  {
    if n <= 0 then 0
    else
      var k := StopIndex(os[..n], f);
      if k < n then k + 1 else n
  }

  /** The call count when attempt `k` (zero-based) is the first one that ends the retrying. */
  lemma {:induction false} AttemptsStopAt<T>(os: seq<Outcome<T>>, n: int, f: RetryFilter, k: nat)
    requires k < n <= |os|
    requires forall i :: 0 <= i < k ==> Retried(f, os[i])
    requires !Retried(f, os[k])
    ensures Attempts(os, n, f) == k + 1
    ensures !AllRetried(os, n, f)
  {
    var s := os[..n];
    assert forall i :: 0 <= i < n ==> s[i] == os[i];
  }

  /** The call count when every allowed attempt fails with a retried exception. */
  lemma AttemptsWhenAllRetried<T>(os: seq<Outcome<T>>, n: int, f: RetryFilter)
    requires n <= |os|
    requires AllRetried(os, n, f)
    ensures Attempts(os, n, f) == if n <= 0 then 0 else n
  {
    if n > 0 {
      var s := os[..n];
      assert forall i :: 0 <= i < n ==> s[i] == os[i];
    }
  }

  function Pow(b: int, e: nat): (r: int)
    ensures b >= 0 ==> r >= 0
  {
    if e == 0 then 1 else b * Pow(b, e - 1)
  }

  /** An exponential wait plus non-negative jitter is a valid `time.sleep` length. */
  lemma WaitNonNegative(base: int, b: int, e: nat, jitter: real)
    requires base >= 0 && b >= 0 && jitter >= 0.0
    ensures (base * Pow(b, e)) as real + jitter >= 0.0
  {
    var p := Pow(b, e);
    assert base * p >= 0;
  }

  /** What the wrapper hands back for the outcome of its last call. */
  function Reraise<T>(o: Outcome<T>): Outcome<Option<T>>
  {
    match o
    case Ok(v) => Ok(Some(v))
    case Err(e) => Err(e)
  }

  /** The exceptions the `retry` decorator catches by default (Zip_20.py line 50). */
  const DefaultAllowed: set<ExcClass> := {RequestException, RuntimeError, APIError}

  /** What `with_retry` ends with: the value or exception of its last call,
      or None when it made no call. */
  function WithRetryResult<T>(os: seq<Outcome<T>>, n: int): Outcome<Option<T>>
    requires n <= |os|
  {
    var calls := Attempts(os, n, AnyException);
    if calls == 0 then Ok(None) else Reraise(os[calls - 1])
  }

  /** `retry(max_attempts, base_delay, backoff, allowed_exceptions)(func)()`,
      Zip_20.py lines 49-71. `outcomes[i]` is what the i-th call of `func`
      does; `jitter[i]` is the `random.uniform(0, 1)` drawn after it. */
  method RetryDecorator<T>(maxAttempts: int, baseDelay: int, backoff: int, allowed: set<ExcClass>,
                           outcomes: seq<Outcome<T>>, jitter: seq<real>)
    returns (result: Outcome<Option<T>>, calls: nat, ghost sleeps: seq<real>)
    requires maxAttempts <= |outcomes| && maxAttempts <= |jitter|
    requires forall i :: 0 <= i < |jitter| ==> 0.0 <= jitter[i] <= 1.0
    requires baseDelay >= 0 && backoff >= 0
    ensures calls == Attempts(outcomes, maxAttempts, AllowedClasses(allowed))
    ensures result == if calls == 0 then Ok(None) else Reraise(outcomes[calls - 1])
    ensures |sleeps| == if calls == 0 then 0 else calls - 1
    ensures forall i :: 0 <= i < |sleeps| ==>
              sleeps[i] == (baseDelay * Pow(backoff, i)) as real + jitter[i]
    ensures forall i :: 0 <= i < |sleeps| ==> sleeps[i] >= 0.0
  {
    ghost var f := AllowedClasses(allowed);
    var attempt := 1;
    calls, sleeps := 0, [];
    while attempt <= maxAttempts
      invariant 1 <= attempt && (attempt == 1 || attempt <= maxAttempts)
      invariant calls == attempt - 1
      invariant forall i :: 0 <= i < attempt - 1 ==> Retried(f, outcomes[i])
      invariant |sleeps| == attempt - 1
      invariant forall i :: 0 <= i < |sleeps| ==>
                  sleeps[i] == (baseDelay * Pow(backoff, i)) as real + jitter[i]
      invariant forall i :: 0 <= i < |sleeps| ==> sleeps[i] >= 0.0
    {
      calls := calls + 1;
      var o := outcomes[attempt - 1];
      if o.Ok? {
        AttemptsStopAt(outcomes, maxAttempts, f, attempt - 1);
        return Ok(Some(o.value)), calls, sleeps;
      }
      var e := o.exc;
      if e.cls !in allowed {
        AttemptsStopAt(outcomes, maxAttempts, f, attempt - 1);
        return Err(e), calls, sleeps;
      }
      ghost var waitTime := (baseDelay * Pow(backoff, attempt - 1)) as real + jitter[attempt - 1];
      WaitNonNegative(baseDelay, backoff, attempt - 1, jitter[attempt - 1]);
      if attempt == maxAttempts {
        AttemptsWhenAllRetried(outcomes, maxAttempts, f);
        return Err(e), calls, sleeps;
      }
      sleeps := sleeps + [waitTime];
      attempt := attempt + 1;
    }
    result := Ok(None);
  }

  /** `with_retry(func, retries=retries, base_sleep=baseSleep)`, Zip_21.py
      lines 42-53. `jitter[i]` is the `random.uniform(0, 2)` drawn after the
      failure of zero-based attempt `i`. */
  method WithRetry<T>(retries: int, baseSleep: int, outcomes: seq<Outcome<T>>, jitter: seq<real>)
    returns (result: Outcome<Option<T>>, calls: nat, ghost sleeps: seq<real>)
    requires retries <= |outcomes| && retries <= |jitter|
    requires forall i :: 0 <= i < |jitter| ==> 0.0 <= jitter[i] <= 2.0
    requires baseSleep >= 0
    ensures calls == Attempts(outcomes, retries, AnyException)
    ensures result == if calls == 0 then Ok(None) else Reraise(outcomes[calls - 1])
    ensures result == WithRetryResult(outcomes, retries)
    ensures |sleeps| == if calls == 0 then 0 else calls - 1
    ensures forall i :: 0 <= i < |sleeps| ==>
              sleeps[i] == (baseSleep * Pow(2, i)) as real + jitter[i]
    ensures forall i :: 0 <= i < |sleeps| ==> sleeps[i] >= 0.0
  {
    calls, sleeps := 0, [];
    for attempt := 0 to if retries < 0 then 0 else retries
      invariant calls == attempt
      invariant 0 < attempt ==> attempt < retries
      invariant forall i :: 0 <= i < attempt ==> Retried(AnyException, outcomes[i])
      invariant |sleeps| == attempt
      invariant forall i :: 0 <= i < |sleeps| ==>
                  sleeps[i] == (baseSleep * Pow(2, i)) as real + jitter[i]
      invariant forall i :: 0 <= i < |sleeps| ==> sleeps[i] >= 0.0
    {
      calls := calls + 1;
      var o := outcomes[attempt];
      if o.Ok? {
        AttemptsStopAt(outcomes, retries, AnyException, attempt);
        return Ok(Some(o.value)), calls, sleeps;
      }
      var e := o.exc;
      if !IsException(e) {
        AttemptsStopAt(outcomes, retries, AnyException, attempt);
        return Err(e), calls, sleeps;
      }
      assert Retried(AnyException, outcomes[attempt]);
      if attempt < retries - 1 {
        ghost var waitTime := (baseSleep * Pow(2, attempt)) as real + jitter[attempt];
        WaitNonNegative(baseSleep, 2, attempt, jitter[attempt]);
        sleeps := sleeps + [waitTime];
      } else {
        AttemptsWhenAllRetried(outcomes, retries, AnyException);
        return Err(e), calls, sleeps;
      }
    }
    result := Ok(None);
  }

  /** The message `safe_update` raises when every attempt hit the quota. */
  const UpdateGaveUp := Exc(RuntimeError, "Failed to update Google Sheets after retries.")

  /** What `safe_update` ends with: the error it gives up with, or the
      outcome of the call that stopped the retrying. */
  function SafeUpdateResult(os: seq<Outcome<()>>, n: int): Outcome<()>
    requires n <= |os|
  {
    if AllRetried(os, n, QuotaExceeded) then Err(UpdateGaveUp) else os[Attempts(os, n, QuotaExceeded) - 1]
  }

  /** `safe_update(range_name, chunk, max_attempts)`, Zip_20.py lines 321-333.
      `outcomes[i]` is what the i-th `ws.update` call does. */
  method SafeUpdate(maxAttempts: int, outcomes: seq<Outcome<()>>, jitter: seq<real>)
    returns (result: Outcome<()>, calls: nat, ghost sleeps: seq<real>)
    requires maxAttempts <= |outcomes| && maxAttempts <= |jitter|
    requires forall i :: 0 <= i < |jitter| ==> 0.0 <= jitter[i] <= 1.0
    ensures calls == Attempts(outcomes, maxAttempts, QuotaExceeded)
    ensures result == if AllRetried(outcomes, maxAttempts, QuotaExceeded) then Err(UpdateGaveUp)
                      else outcomes[calls - 1]
    ensures result == SafeUpdateResult(outcomes, maxAttempts)
    ensures |sleeps| == if AllRetried(outcomes, maxAttempts, QuotaExceeded) then calls else calls - 1
    ensures forall i :: 0 <= i < |sleeps| ==> sleeps[i] == Pow(2, i) as real + jitter[i]
  {
    calls, sleeps := 0, [];
    for attempt := 1 to if maxAttempts < 0 then 1 else maxAttempts + 1
      invariant calls == attempt - 1
      invariant forall i :: 0 <= i < attempt - 1 ==> Retried(QuotaExceeded, outcomes[i])
      invariant |sleeps| == attempt - 1
      invariant forall i :: 0 <= i < |sleeps| ==> sleeps[i] == Pow(2, i) as real + jitter[i]
    {
      calls := calls + 1;
      var o := outcomes[attempt - 1];
      if o.Ok? {
        AttemptsStopAt(outcomes, maxAttempts, QuotaExceeded, attempt - 1);
        return o, calls, sleeps;
      }
      var e := o.exc;
      if e.cls == APIError && Contains(e.text, "Quota exceeded") {
        assert Retried(QuotaExceeded, outcomes[attempt - 1]);
        ghost var wait := Pow(2, attempt - 1) as real + jitter[attempt - 1];
        sleeps := sleeps + [wait];
      } else {
        AttemptsStopAt(outcomes, maxAttempts, QuotaExceeded, attempt - 1);
        return o, calls, sleeps;
      }
    }
    AttemptsWhenAllRetried(outcomes, maxAttempts, QuotaExceeded);
    result := Err(UpdateGaveUp);
  }

  /** The retry loop of `format_row4_as_date`, Zip_c.py lines 248-261.
      `outcomes[i]` is what the i-th `format_cell_range` call does. */
  method RateLimitedRetry(maxRetries: int, outcomes: seq<Outcome<()>>)
    returns (result: Outcome<()>, calls: nat, ghost sleeps: seq<real>)
    requires maxRetries <= |outcomes|
    ensures calls == Attempts(outcomes, maxRetries, RateLimited)
    ensures result == if AllRetried(outcomes, maxRetries, RateLimited) then Ok(())
                      else outcomes[calls - 1]
    ensures |sleeps| == if AllRetried(outcomes, maxRetries, RateLimited) then calls else calls - 1
    ensures forall i :: 0 <= i < |sleeps| ==> sleeps[i] == Pow(2, i + 1) as real
  {
    calls, sleeps := 0, [];
    for attempt := 1 to if maxRetries < 0 then 1 else maxRetries + 1
      invariant calls == attempt - 1
      invariant forall i :: 0 <= i < attempt - 1 ==> Retried(RateLimited, outcomes[i])
      invariant |sleeps| == attempt - 1
      invariant forall i :: 0 <= i < |sleeps| ==> sleeps[i] == Pow(2, i + 1) as real
    {
      calls := calls + 1;
      var o := outcomes[attempt - 1];
      if o.Ok? {
        AttemptsStopAt(outcomes, maxRetries, RateLimited, attempt - 1);
        return o, calls, sleeps;
      }
      var e := o.exc;
      if e.cls == APIError {
        var errText := e.text;
        if Contains(errText, "429") || Contains(Lower(errText), "quota") {
          ghost var wait := Pow(2, attempt) as real;
          sleeps := sleeps + [wait];
          continue;
        }
      }
      AttemptsStopAt(outcomes, maxRetries, RateLimited, attempt - 1);
      return o, calls, sleeps;
    }
    AttemptsWhenAllRetried(outcomes, maxRetries, RateLimited);
    result := Ok(());
  }
}
