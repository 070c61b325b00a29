/**
 * The relay HTTP client of src/config/relayer.ts: its response interceptor
 * re-issues a request that failed with a network error code, counting the
 * retries in the request's `_retryCount` and waiting a capped exponential
 * delay before each one. The network is a parameter: `net(k)` is what the
 * k-th attempt of the request yields (the first attempt is attempt 0). The
 * request interceptor only logs and returns its input, so it is the identity
 * here and is not written out.
 */
module RelayClient {

  /** A rejected request as the HTTP client reports it: `error.code` and `error.message`. */
  datatype ClientError = ClientError(code: string, message: string)

  /** What one attempt yields: a response the client accepts, or a rejection. */
  datatype Attempt<+R> = Responded(response: R) | Failed(error: ClientError)

  /** `RELAYER_MAX_RETRIES` when the environment does not set it. */
  const DefaultMaxRetries: nat := 3

  /** The cap on the delay before a retry, in milliseconds. */
  const MaxDelay: nat := 10000

  /** The network error codes that trigger a retry. */
  predicate IsRetryable(e: ClientError) {
    e.code == "ECONNABORTED" || e.code == "ETIMEDOUT" || e.code == "ENOTFOUND" || e.code == "ECONNREFUSED"
  }

  function Pow2(n: nat): nat {
    if n == 0 then 1 else 2 * Pow2(n - 1)
  }

  /** `Math.min(1000 * Math.pow(2, retryCount), 10000)`: the wait before retry number `retryCount`. */
  function RetryDelay(retryCount: nat): nat {
    if 1000 * Pow2(retryCount) < MaxDelay then 1000 * Pow2(retryCount) else MaxDelay
  }

  /** How a request ends: the result handed to the caller, the final `_retryCount`, the delays waited. */
  datatype Course<+R> = Course(result: Attempt<R>, retries: nat, delays: seq<nat>)

  /** The response interceptor, from the attempt whose `_retryCount` is `retryCount` onwards. */
  function Dispatch<R>(net: nat -> Attempt<R>, maxRetries: nat, retryCount: nat): Course<R>
    decreases maxRetries - retryCount
  {
    match net(retryCount)
    case Responded(r) => Course(Responded(r), retryCount, [])
    case Failed(e) =>
      if IsRetryable(e) && retryCount < maxRetries then
        var rest := Dispatch(net, maxRetries, retryCount + 1);
        Course(rest.result, rest.retries, [RetryDelay(retryCount + 1)] + rest.delays)
      else
        Course(Failed(e), retryCount, [])
  }

  /**
   * One request through the client: the counter starts at 0 and is incremented
   * before each retry; a response, a non-retryable error, or a retryable one once
   * the budget is spent, ends the request.
   */
  method Send<R>(net: nat -> Attempt<R>, maxRetries: nat) returns (result: Attempt<R>, retryCount: nat, delays: seq<nat>)
    ensures Course(result, retryCount, delays) == Dispatch(net, maxRetries, 0)
  {
    retryCount := 0;
    delays := [];
    result := net(0);
    while result.Failed? && IsRetryable(result.error) && retryCount < maxRetries
      invariant retryCount <= maxRetries
      invariant result == net(retryCount)
      invariant var rest := Dispatch(net, maxRetries, retryCount);
                Dispatch(net, maxRetries, 0) == Course(rest.result, rest.retries, delays + rest.delays)
      decreases maxRetries - retryCount
    {
      ghost var rest := Dispatch(net, maxRetries, retryCount + 1);
      assert delays + ([RetryDelay(retryCount + 1)] + rest.delays) == (delays + [RetryDelay(retryCount + 1)]) + rest.delays;
      retryCount := retryCount + 1;
      delays := delays + [RetryDelay(retryCount)];
      result := net(retryCount);
    }
  }

  /**
   * The course of a request from attempt `k`: the caller receives exactly what the
   * last attempt yielded (a response unchanged, or the same error); every earlier
   * attempt failed with a retryable code; the counter ends between `k` and the
   * budget; and one delay, following the backoff, precedes each retry.
   */
  lemma {:induction false} DispatchCourse<R>(net: nat -> Attempt<R>, maxRetries: nat, k: nat)
    ensures var c := Dispatch(net, maxRetries, k);
            && c.result == net(c.retries)
            && k <= c.retries && (k <= maxRetries ==> c.retries <= maxRetries)
            && (k > maxRetries ==> c.retries == k)
            && (forall j :: k <= j < c.retries ==> net(j).Failed? && IsRetryable(net(j).error))
            && (c.result.Failed? && IsRetryable(c.result.error) ==> c.retries >= maxRetries)
            && |c.delays| == c.retries - k
            && (forall i :: 0 <= i < |c.delays| ==> c.delays[i] == RetryDelay(k + i + 1))
    decreases maxRetries - k
  {
    var c := Dispatch(net, maxRetries, k);
    if net(k).Failed? && IsRetryable(net(k).error) && k < maxRetries {
      DispatchCourse(net, maxRetries, k + 1);
      var rest := Dispatch(net, maxRetries, k + 1);
      assert c.delays == [RetryDelay(k + 1)] + rest.delays;
      forall i | 0 <= i < |c.delays| ensures c.delays[i] == RetryDelay(k + i + 1) {
        if i > 0 {
          assert c.delays[i] == rest.delays[i - 1];
        }
      }
    }
  }

  /** A request is attempted at most `maxRetries + 1` times. */
  lemma AttemptsBounded<R>(net: nat -> Attempt<R>, maxRetries: nat)
    ensures Dispatch(net, maxRetries, 0).retries + 1 <= maxRetries + 1
  {
    DispatchCourse(net, maxRetries, 0);
  }

  /** A first attempt that responds, or fails with any other code, is handed back at once, with no retry and no wait. */
  lemma NonRetryableRejectedAtOnce<R>(net: nat -> Attempt<R>, maxRetries: nat)
    requires net(0).Responded? || !IsRetryable(net(0).error)
    ensures Dispatch(net, maxRetries, 0) == Course(net(0), 0, [])
  {
  }

  lemma {:induction false} Pow2Monotone(a: nat, b: nat)
    requires a <= b
    ensures Pow2(a) <= Pow2(b)
    decreases b
  {
    if a < b {
      Pow2Monotone(a, b - 1);
    }
  }

  /** The backoff never decreases from one retry to the next and never exceeds ten seconds. */
  lemma RetryDelayMonotone(m: nat, n: nat)
    requires m <= n
    ensures RetryDelay(m) <= RetryDelay(n) <= MaxDelay
  {
    Pow2Monotone(m, n);
  }

  /** With the default budget of 3 the waits are 2, 4 and 8 seconds; from retry 4 on the cap applies. */
  lemma DefaultSchedule(n: nat)
    ensures RetryDelay(1) == 2000 && RetryDelay(2) == 4000 && RetryDelay(3) == 8000
    ensures n >= 4 ==> RetryDelay(n) == MaxDelay
  {
    assert Pow2(4) == 16;
    if n >= 4 {
      Pow2Monotone(4, n);
    }
  }
}
