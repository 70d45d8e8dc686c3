/** withRetry: repeated calls with exponential backoff. */
module Retry {
  import opened Rounding

  // What one call of the wrapped function does: returns, fails with an HTTP status, or
  // throws something that is not an ApiError.
  datatype Outcome<T> =
    | Value(value: T)
    | HttpError(status: int)
    | OtherError

  // NoError: lastError before any attempt.
  datatype Result<T> =
    | Returned(value: T)
    | Thrown(error: Outcome<T>)
    | ThrownUndefined

  datatype Options = Options(maxRetries: int, baseDelay: real, maxDelay: real, retryableStatuses: seq<int>)

  const Defaults: Options := Options(3, 1000.0, 10000.0, [502, 503, 504, 408, 429, 0])

  predicate Retryable<T>(o: Options, r: Outcome<T>)
  {
    r.OtherError? || (r.HttpError? && r.status in o.retryableStatuses)
  }

  // The calls end with this one.
  predicate Final<T>(o: Options, r: Outcome<T>, attempt: int)
  {
    r.Value? || !Retryable(o, r) || attempt >= o.maxRetries
  }

  function ResultOf<T>(r: Outcome<T>): Result<T>
  {
    if r.Value? then Returned(r.value) else Thrown(r)
  }

  function Delay(o: Options, attempt: nat): real
  {
    Min(o.baseDelay * Pow2(attempt) as real, o.maxDelay)
  }

  ghost predicate Sane(o: Options)
  {
    o.baseDelay >= 0.0 && o.maxDelay >= 0.0
  }

  // The delay starts at the base, doubles with every retry and stays at the cap once it is
  // reached.
  lemma DelayDoubles(o: Options, attempt: nat)
    requires Sane(o)
    ensures Delay(o, 0) == Min(o.baseDelay, o.maxDelay)
    ensures Delay(o, attempt + 1) == Min(2.0 * Delay(o, attempt), o.maxDelay)
    ensures Delay(o, attempt) == o.maxDelay ==> Delay(o, attempt + 1) == o.maxDelay
  {
    var x := o.baseDelay * Pow2(attempt) as real;
    assert o.baseDelay * Pow2(attempt + 1) as real == 2.0 * x;
  }

  // The unjittered delays of the first n retries.
  function Backoff(o: Options, n: nat): real
  {
    if n == 0 then 0.0 else Backoff(o, n - 1) + Delay(o, n - 1)
  }

  lemma DelayNonNegative(o: Options, attempt: nat)
    requires Sane(o)
    ensures 0.0 <= Delay(o, attempt) <= o.maxDelay
  {
  }

  // n retries have slept their delays and at most a fifth more, up to rounding.
  ghost predicate SleptWithin(o: Options, n: nat, slept: int)
  {
    Backoff(o, n) - n as real * 0.5 <= slept as real <= 1.2 * Backoff(o, n) + n as real * 0.5
  }

  lemma SleepOnce(o: Options, n: nat, slept: int, random: real)
    requires Sane(o) && 0.0 <= random < 1.0 && SleptWithin(o, n, slept)
    ensures SleptWithin(o, n + 1, slept + Jittered(Delay(o, n), random))
  {
    DelayNonNegative(o, n);
    JitterBounds(Delay(o, n), random);
    assert Backoff(o, n + 1) == Backoff(o, n) + Delay(o, n);
    assert (n + 1) as real * 0.5 == n as real * 0.5 + 0.5;
  }

  // calls(k) is what call k does and random(k) the random number drawn after it.
  method WithRetry<T>(calls: nat -> Outcome<T>, random: nat -> real, o: Options := Defaults)
    returns (result: Result<T>, made: nat, slept: int)
    requires forall k :: 0.0 <= random(k) < 1.0
    // Without retries below zero, the result is that of the first call that is final, and
    // the throw behind the loop is never reached.
    ensures o.maxRetries >= 0 ==>
      && 1 <= made <= o.maxRetries + 1
      && Final(o, calls(made - 1), made - 1)
      && (forall k :: 0 <= k < made - 1 ==> !Final(o, calls(k), k))
      && result == ResultOf(calls(made - 1))
    ensures o.maxRetries < 0 <==> result == ThrownUndefined
    ensures o.maxRetries < 0 ==> made == 0
    ensures Sane(o) ==> SleptWithin(o, if made == 0 then 0 else made - 1, slept)
  {
    slept, made := 0, 0;
    var attempt := 0;
    while attempt <= o.maxRetries
      invariant attempt == made && (made == 0 || made <= o.maxRetries)
      invariant forall k :: 0 <= k < made ==> !Final(o, calls(k), k)
      invariant Sane(o) ==> SleptWithin(o, made, slept)
      decreases o.maxRetries - attempt
    {
      var r := calls(attempt);
      made := made + 1;
      if r.Value? {
        return Returned(r.value), made, slept;
      }
      if r.HttpError? && r.status !in o.retryableStatuses {
        return Thrown(r), made, slept;
      }
      if attempt >= o.maxRetries {
        return Thrown(r), made, slept;
      }
      var totalDelay := Jittered(Delay(o, attempt), random(attempt));
      if Sane(o) { SleepOnce(o, attempt, slept, random(attempt)); }
      slept := slept + totalDelay;
      attempt := attempt + 1;
    }
    return ThrownUndefined, made, slept;
  }

  /******* What that determines *******/

  // The whole wait is bounded by the retries alone.
  lemma {:induction false} BackoffBound(o: Options, n: nat)
    requires Sane(o)
    ensures 0.0 <= Backoff(o, n) <= n as real * o.maxDelay
  {
    if n > 0 {
      BackoffBound(o, n - 1);
      DelayNonNegative(o, n - 1);
      assert n as real * o.maxDelay == (n - 1) as real * o.maxDelay + o.maxDelay;
    }
  }

  // Which calls are final, case by case: any that returns; an HTTP error whose status is not
  // to be retried; and any failure at all once the retries are used up.
  lemma FinalIff<T>(o: Options, value: T, status: int, attempt: int)
    ensures Final(o, Value(value), attempt)
    ensures Final<T>(o, HttpError(status), attempt) <==> status !in o.retryableStatuses || attempt >= o.maxRetries
    ensures Final<T>(o, OtherError, attempt) <==> attempt >= o.maxRetries
  {
  }

  // By default: three retries, of network failures and of the statuses that may pass, after
  // one, two and four seconds.
  lemma ByDefault<T>(status: int, attempt: int)
    ensures Final<T>(Defaults, HttpError(status), attempt) <==>
      attempt >= 3 || status !in {0, 408, 429, 502, 503, 504}
    ensures Final<T>(Defaults, OtherError, attempt) <==> attempt >= 3
    ensures Delay(Defaults, 0) == 1000.0 && Delay(Defaults, 1) == 2000.0 && Delay(Defaults, 2) == 4000.0
    ensures Backoff(Defaults, 3) == 7000.0
  {
    DelayDoubles(Defaults, 0);
    DelayDoubles(Defaults, 1);
    assert Backoff(Defaults, 1) == 1000.0 && Backoff(Defaults, 2) == 3000.0;
  }
}
