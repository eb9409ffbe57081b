/** The retry handler: a bounded loop with capped exponential back-off and cancellation. */
module Retry {
  import opened Backoff
  import opened Errors
  import opened Options
  import opened Config

  /** The environment of one call: what the operation returns on its i-th call, whether the
      context is seen done before the i-th attempt and during the i-th wait, and its error. */
  datatype Environment = Environment(
    outcome: nat -> Error,
    doneBefore: nat -> bool,
    doneDuring: nat -> bool,
    contextError: Error)

  /** What one call did: its result, how often it called the operation, the waits it requested. */
  datatype Report = Report(err: Error, calls: nat, waits: seq<int>)

  const EXHAUSTED := "max retries exceeded"

  // ---------------------------------------------------------------- specification

  function LastError(env: Environment, calls: nat): Error {
    if calls == 0 then Nil else env.outcome(calls - 1)
  }

  /** The operation failed on all calls but the last, no cancellation was seen before any of them,
      and none during the first `passed` waits. */
  ghost predicate WentOn(env: Environment, r: Report, passed: nat) {
    && (forall i: nat :: i < r.calls ==> !env.doneBefore(i))
    && (forall i: nat :: i + 1 < r.calls ==> env.outcome(i) != Nil)
    && (forall k: nat :: k < passed ==> !env.doneDuring(k))
  }

  ghost predicate Succeeded(env: Environment, r: Report) {
    && r.calls >= 1 && |r.waits| == r.calls - 1 && WentOn(env, r, |r.waits|)
    && env.outcome(r.calls - 1) == Nil && r.err == Nil
  }

  ghost predicate CancelledBefore(env: Environment, maxRetries: int, r: Report) {
    && r.calls <= maxRetries && |r.waits| == r.calls && WentOn(env, r, |r.waits|)
    && (r.calls >= 1 ==> env.outcome(r.calls - 1) != Nil)
    && env.doneBefore(r.calls) && r.err == env.contextError
  }

  ghost predicate CancelledDuring(env: Environment, maxRetries: int, r: Report) {
    && 1 <= r.calls <= maxRetries && |r.waits| == r.calls && WentOn(env, r, |r.waits| - 1)
    && env.outcome(r.calls - 1) != Nil
    && env.doneDuring(r.calls - 1) && r.err == env.contextError
  }

  ghost predicate Exhausted(env: Environment, maxRetries: int, r: Report) {
    && r.calls == (if maxRetries < 0 then 0 else maxRetries + 1)
    && |r.waits| == (if maxRetries < 0 then 0 else maxRetries) && WentOn(env, r, |r.waits|)
    && (r.calls >= 1 ==> env.outcome(r.calls - 1) != Nil)
    && r.err == WrapError(LastError(env, r.calls), EXHAUSTED)
  }

  /** The specification of DoWithRetry. */
  ghost predicate Specified(env: Environment, maxRetries: int, backoff: int, r: Report) {
    && (|| Succeeded(env, r) || CancelledBefore(env, maxRetries, r)
        || CancelledDuring(env, maxRetries, r) || Exhausted(env, maxRetries, r))
    && (r.calls >= 1 ==> r.calls <= maxRetries + 1)
    && FollowBackoff(backoff, r.waits)
  }

  /** The specification leaves no choice: it determines the result, the calls and the waits. */
  lemma SpecifiedIsUnique(env: Environment, maxRetries: int, backoff: int, r1: Report, r2: Report)
    requires Specified(env, maxRetries, backoff, r1) && Specified(env, maxRetries, backoff, r2)
    ensures r1 == r2
  {
    if r1.calls <= r2.calls {
      CallsAgree(env, maxRetries, backoff, r1, r2);
    } else {
      CallsAgree(env, maxRetries, backoff, r2, r1);
    }
    assert r1.waits == r2.waits;
  }

  lemma CallsAgree(env: Environment, maxRetries: int, backoff: int, r1: Report, r2: Report)
    requires Specified(env, maxRetries, backoff, r1) && Specified(env, maxRetries, backoff, r2)
    requires r1.calls <= r2.calls
    ensures r1.calls == r2.calls && |r1.waits| == |r2.waits| && r1.err == r2.err
  {
  }

  // ---------------------------------------------------------------- what it promises

  /** At most maxRetries + 1 calls, none after a success or a seen cancellation; nil exactly when
      the last call succeeded; otherwise the context's error, or an error that unwraps to that of
      the last attempt. */
  lemma Promises(env: Environment, maxRetries: int, backoff: int, r: Report)
    requires Specified(env, maxRetries, backoff, r) && env.contextError != Nil
    ensures maxRetries >= 0 ==> r.calls <= maxRetries + 1
    ensures forall i: nat :: i + 1 < r.calls ==> env.outcome(i) != Nil && !env.doneBefore(i + 1) && !env.doneDuring(i)
    ensures r.err == Nil <==> r.calls >= 1 && env.outcome(r.calls - 1) == Nil
    ensures r.err != Nil ==>
      || (r.err == env.contextError && (env.doneBefore(r.calls) || (r.calls >= 1 && env.doneDuring(r.calls - 1))))
      || (&& r.err.WithContext? && Unwrap(r.err) == LastError(env, r.calls)
          && (maxRetries >= 0 ==> r.calls == maxRetries + 1))
  {
  }

  /** The first wait is the configured back-off, uncapped, and the k-th is min(b * 2^k, 30s). */
  lemma WaitsClosedForm(env: Environment, maxRetries: int, backoff: int, r: Report)
    requires Specified(env, maxRetries, backoff, r) && 0 < backoff < TWO_62
    ensures r.waits != [] ==> r.waits[0] == backoff
    ensures forall k: nat :: 1 <= k < |r.waits| ==> r.waits[k] == Min(backoff * Pow2(k), CAP)
  {
    forall k: nat | 1 <= k < |r.waits| ensures r.waits[k] == Min(backoff * Pow2(k), CAP) {
      ClosedForm(backoff, k);
    }
  }

  /** There are at most maxRetries waits, and all together they are at most b + 30s * (maxRetries - 1),
      for every back-off and every retry count. */
  lemma WaitBound(env: Environment, maxRetries: int, backoff: int, r: Report)
    requires Specified(env, maxRetries, backoff, r)
    ensures |r.waits| <= if maxRetries < 0 then 0 else maxRetries
    ensures r.waits != [] ==> SumOf(r.waits) <= backoff + CAP * (maxRetries - 1)
  {
    if r.waits != [] {
      WaitsTotal(backoff, r.waits);
      TotalBound(backoff, |r.waits|);
      CapGrows(|r.waits| - 1, maxRetries - 1);
    }
  }

  lemma CapGrows(m: int, n: int)
    requires m <= n
    ensures CAP * m <= CAP * n
  {
  }

  // ---------------------------------------------------------------- the handler

  class RetryHandler {
    const config: RabbitMQ

    constructor (config: RabbitMQ)
      ensures this.config == config
    {
      this.config := config;
    }

    /** The settings of the first producer, or the defaults. */
    method Settings() returns (maxRetries: int, backoff: int)
      requires config.producers != [] ==> config.producers[0] != null
      ensures config.producers == [] ==> maxRetries == DEFAULT_MAX_RETRIES && backoff == 100 * MILLISECOND
      ensures config.producers != [] ==>
        var p := config.producers[0].fields;
        && maxRetries == p.maxRetries
        && backoff == (if p.retryBackoff.Some? then p.retryBackoff.value else 100 * MILLISECOND)
    {
      maxRetries, backoff := DEFAULT_MAX_RETRIES, 100 * MILLISECOND;
      if |config.producers| > 0 {
        maxRetries := config.producers[0].fields.maxRetries;
        if config.producers[0].fields.retryBackoff.Some? {
          backoff := config.producers[0].fields.retryBackoff.value;
        }
      }
    }

    /** After a successful normalisation the loop runs with at least one retry and a positive
        first wait. */
    method SettingsAfterNormalisation(ghost v: ConfigValue) returns (maxRetries: int, backoff: int)
      requires Check(v).None? && config.Shows(Normal(v))
      ensures maxRetries >= 1 && backoff > 0
    {
      if config.producers != [] {
        Sufficient(v, 0);
        assert Normal(v).producers[0] == if config.producers[0] == null then None else Some(config.producers[0].fields);
      }
      maxRetries, backoff := Settings();
    }

    method DoWithRetry(env: Environment) returns (r: Report)
      requires config.producers != [] ==> config.producers[0] != null
      ensures config.producers == [] ==> Specified(env, DEFAULT_MAX_RETRIES, 100 * MILLISECOND, r)
      ensures config.producers != [] ==>
        var p := config.producers[0].fields;
        Specified(env, p.maxRetries, if p.retryBackoff.Some? then p.retryBackoff.value else 100 * MILLISECOND, r)
    {
      var maxRetries, backoff := Settings();
      r := RetryLoop(env, maxRetries, backoff);
    }
  }

  method DoubleBackoff(backoff: int) returns (doubled: int)
    ensures doubled == NextBackoff(backoff)
  {
    doubled := Wrap64(backoff * 2);
    if doubled > CAP {
      doubled := CAP;
    }
  }

  method RetryLoop(env: Environment, maxRetries: int, firstBackoff: int) returns (r: Report)
    ensures Specified(env, maxRetries, firstBackoff, r)
  {
    var lastErr := Nil;
    var backoff := firstBackoff;
    var waits: seq<int> := [];
    var attempt: nat := 0;
    while attempt <= maxRetries
      invariant if maxRetries < 0 then attempt == 0 else attempt <= maxRetries
      invariant lastErr == LastError(env, attempt)
      invariant WentOn(env, Report(Nil, attempt, waits), |waits|)
      invariant attempt >= 1 ==> env.outcome(attempt - 1) != Nil
      invariant |waits| == attempt
      invariant backoff == WaitAt(firstBackoff, attempt)
      invariant FollowBackoff(firstBackoff, waits)
      decreases maxRetries - attempt
    {
      if env.doneBefore(attempt) {
        return Report(env.contextError, attempt, waits);
      }
      var err := env.outcome(attempt);
      if err == Nil {
        return Report(Nil, attempt + 1, waits);
      }
      lastErr := err;
      if attempt == maxRetries {
        return Report(WrapError(lastErr, EXHAUSTED), attempt + 1, waits);
      }
      waits := waits + [backoff];
      if env.doneDuring(attempt) {
        return Report(env.contextError, attempt + 1, waits);
      }
      backoff := DoubleBackoff(backoff);
      attempt := attempt + 1;
    }
    return Report(WrapError(lastErr, EXHAUSTED), attempt, waits);
  }
}
