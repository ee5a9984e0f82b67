/** The attempt loop of RetryTransport as a function of what the inner transport
    answers: `inner(k)` is the response of the k-th inner call of one top-level
    call (k = 0 is the first attempt). */
module RetryLoop {
  import opened Options
  import opened Http
  import opened RetryPolicy

  /** What one top-level call observably produces: the response handed back and the
      durations passed to sleep, in order. */
  datatype Outcome = Outcome(response: Response, sleeps: seq<real>)

  /** The loop from retry index `i` on, with `maxAttempts - i` retries left: the
      response at index `i` is returned unless it is retried, and a retry sleeps for
      the wait that response calls for and goes on at `i + 1`. */
  function RunFrom(cfg: Config, verb: Method, inner: nat -> Response, env: Env, i: nat): Outcome
    requires i <= cfg.maxAttempts
    decreases cfg.maxAttempts - i
  {
    var response := inner(i);
    if !ShouldRetry(cfg, verb, response.status, cfg.maxAttempts - i) then Outcome(response, [])
    else
      var rest := RunFrom(cfg, verb, inner, env, i + 1);
      var sleeps := [ComputeWait(cfg, response.retryAfter, i, env)] + rest.sleeps;
      Outcome(rest.response, sleeps)
  }

  /** The loop from retry index `i` makes `|o.sleeps|` retries (so `1 + |o.sleeps|`
      inner calls) within the budget, and returns the first response it does not
      retry: a non-retryable one, or the last one once the budget is spent. */
  lemma {:induction false} RunFromShape(cfg: Config, verb: Method, inner: nat -> Response, env: Env, i: nat)
    requires i <= cfg.maxAttempts
    decreases cfg.maxAttempts - i
    ensures var o := RunFrom(cfg, verb, inner, env, i);
      i + |o.sleeps| <= cfg.maxAttempts &&
      o.response == inner(i + |o.sleeps|) &&
      (i + |o.sleeps| < cfg.maxAttempts ==> !Retryable(cfg, verb, o.response.status))
  {
    if ShouldRetry(cfg, verb, inner(i).status, cfg.maxAttempts - i) {
      RunFromShape(cfg, verb, inner, env, i + 1);
    }
  }

  /** Every retry the loop makes is on a retryable response and sleeps for exactly
      the wait that response calls for. */
  lemma {:induction false} RunFromRetriesRetryable(cfg: Config, verb: Method, inner: nat -> Response, env: Env, i: nat)
    requires i <= cfg.maxAttempts
    decreases cfg.maxAttempts - i
    ensures var o := RunFrom(cfg, verb, inner, env, i);
      forall j :: i <= j < i + |o.sleeps| ==>
        Retryable(cfg, verb, inner(j).status) &&
        o.sleeps[j - i] == ComputeWait(cfg, inner(j).retryAfter, j, env)
  {
    var o := RunFrom(cfg, verb, inner, env, i);
    if ShouldRetry(cfg, verb, inner(i).status, cfg.maxAttempts - i) {
      RunFromRetriesRetryable(cfg, verb, inner, env, i + 1);
      var rest := RunFrom(cfg, verb, inner, env, i + 1);
      assert o.sleeps == [ComputeWait(cfg, inner(i).retryAfter, i, env)] + rest.sleeps;
    }
  }

  /** One turn of the loop: a retried response costs its wait and leaves the rest
      to the next retry index; any other response ends the call. */
  lemma RunFromStep(cfg: Config, verb: Method, inner: nat -> Response, env: Env, i: nat)
    requires i <= cfg.maxAttempts
    ensures ShouldRetry(cfg, verb, inner(i).status, cfg.maxAttempts - i) ==>
      i < cfg.maxAttempts &&
      RunFrom(cfg, verb, inner, env, i) ==
        Outcome(RunFrom(cfg, verb, inner, env, i + 1).response,
                [ComputeWait(cfg, inner(i).retryAfter, i, env)] + RunFrom(cfg, verb, inner, env, i + 1).sleeps)
    ensures !ShouldRetry(cfg, verb, inner(i).status, cfg.maxAttempts - i) ==>
      RunFrom(cfg, verb, inner, env, i) == Outcome(inner(i), [])
  {
  }

  /** After `i` retries that slept `done`, the rest of the loop from retry index
      `i` completes the whole call. */
  ghost predicate Resumes(cfg: Config, verb: Method, inner: nat -> Response, env: Env, done: seq<real>, i: nat) {
    i <= cfg.maxAttempts &&
    Run(cfg, verb, inner, env) ==
      Outcome(RunFrom(cfg, verb, inner, env, i).response, done + RunFrom(cfg, verb, inner, env, i).sleeps)
  }

  lemma ResumesStart(cfg: Config, verb: Method, inner: nat -> Response, env: Env)
    ensures Resumes(cfg, verb, inner, env, [], 0)
  {
    assert [] + Run(cfg, verb, inner, env).sleeps == Run(cfg, verb, inner, env).sleeps;
  }

  /** The invariant carried over one retry. */
  lemma ResumesStep(cfg: Config, verb: Method, inner: nat -> Response, env: Env, done: seq<real>, i: nat)
    requires Resumes(cfg, verb, inner, env, done, i)
    requires ShouldRetry(cfg, verb, inner(i).status, cfg.maxAttempts - i)
    ensures Resumes(cfg, verb, inner, env, done + [ComputeWait(cfg, inner(i).retryAfter, i, env)], i + 1)
  {
    RunFromStep(cfg, verb, inner, env, i);
    var rest := RunFrom(cfg, verb, inner, env, i + 1);
    var w := ComputeWait(cfg, inner(i).retryAfter, i, env);
    assert done + ([w] + rest.sleeps) == (done + [w]) + rest.sleeps;
  }

  /** The loop leaves at the first response it does not retry. */
  lemma ResumesEnd(cfg: Config, verb: Method, inner: nat -> Response, env: Env, done: seq<real>, i: nat)
    requires Resumes(cfg, verb, inner, env, done, i)
    requires !ShouldRetry(cfg, verb, inner(i).status, cfg.maxAttempts - i)
    ensures Run(cfg, verb, inner, env) == Outcome(inner(i), done)
  {
    RunFromStep(cfg, verb, inner, env, i);
    assert done + [] == done;
  }

  /** One top-level call with a fresh budget of `maxAttempts` retries. */
  function Run(cfg: Config, verb: Method, inner: nat -> Response, env: Env): Outcome {
    RunFrom(cfg, verb, inner, env, 0)
  }

  /** A first response that is not retryable (a success, a status outside the
      retryable set, or a method outside the retryable set) is returned as it is,
      with no sleep. */
  lemma FirstNotRetryable(cfg: Config, verb: Method, inner: nat -> Response, env: Env)
    requires !Retryable(cfg, verb, inner(0).status)
    ensures Run(cfg, verb, inner, env) == Outcome(inner(0), [])
  {
  }

  /** A method outside the retryable set is never retried, whatever the status. */
  lemma MethodNeverRetried(cfg: Config, verb: Method, inner: nat -> Response, env: Env)
    requires verb !in cfg.retryableMethods
    ensures Run(cfg, verb, inner, env) == Outcome(inner(0), [])
  {
    FirstNotRetryable(cfg, verb, inner, env);
  }

  /** A loop that meets retryable responses to the end sleeps exactly `maxAttempts`
      times and returns the last, still retryable, response. */
  lemma Exhaustion(cfg: Config, verb: Method, inner: nat -> Response, env: Env)
    requires forall k :: 0 <= k <= cfg.maxAttempts ==> Retryable(cfg, verb, inner(k).status)
    ensures |Run(cfg, verb, inner, env).sleeps| == cfg.maxAttempts
    ensures Run(cfg, verb, inner, env).response == inner(cfg.maxAttempts)
  {
    RunFromShape(cfg, verb, inner, env, 0);
  }

  /** When the first non-retryable response is the n-th one and n is within budget,
      the loop sleeps n times and returns it. */
  lemma StopsAtFirstNonRetryable(cfg: Config, verb: Method, inner: nat -> Response, env: Env, n: nat)
    requires n <= cfg.maxAttempts
    requires forall k :: 0 <= k < n ==> Retryable(cfg, verb, inner(k).status)
    requires !Retryable(cfg, verb, inner(n).status)
    ensures |Run(cfg, verb, inner, env).sleeps| == n
    ensures Run(cfg, verb, inner, env).response == inner(n)
  {
    RunFromShape(cfg, verb, inner, env, 0);
    RunFromRetriesRetryable(cfg, verb, inner, env, 0);
  }

  /** The k-th sleep of a call follows the k-th response, a retryable one, and lasts
      the wait that response calls for. */
  lemma SleepAt(cfg: Config, verb: Method, inner: nat -> Response, env: Env, k: nat)
    requires k < |Run(cfg, verb, inner, env).sleeps|
    ensures Retryable(cfg, verb, inner(k).status)
    ensures Run(cfg, verb, inner, env).sleeps[k] == ComputeWait(cfg, inner(k).retryAfter, k, env)
  {
    RunFromRetriesRetryable(cfg, verb, inner, env, 0);
  }

  /** Every sleep is non-negative, and a sleep before retry k on a response without a
      usable Retry-After stays under `backoff_factor * 2^k` and under the maximum
      wait. */
  lemma SleepsBounded(cfg: Config, verb: Method, inner: nat -> Response, env: Env)
    requires WellFormed(cfg) && RandomInUnitInterval(env)
    ensures var sleeps := Run(cfg, verb, inner, env).sleeps;
      forall k :: 0 <= k < |sleeps| ==>
        sleeps[k] >= 0.0 &&
        (NoUsableHeader(inner(k).retryAfter, k, env) ==>
          sleeps[k] <= cfg.backoffFactor * Pow2(k) as real && sleeps[k] <= cfg.maxBackoffWait)
  {
    var o := Run(cfg, verb, inner, env);
    forall k | 0 <= k < |o.sleeps|
      ensures o.sleeps[k] >= 0.0
      ensures NoUsableHeader(inner(k).retryAfter, k, env) ==>
        o.sleeps[k] <= cfg.backoffFactor * Pow2(k) as real && o.sleeps[k] <= cfg.maxBackoffWait
    {
      SleepAt(cfg, verb, inner, env, k);
      WaitNonNegative(cfg, inner(k).retryAfter, k, env);
      if NoUsableHeader(inner(k).retryAfter, k, env) {
        BackoffWaitBounds(cfg, inner(k).retryAfter, k, env);
      }
    }
  }

  /** A sleep before retry k on a response whose Retry-After is the number n of
      seconds lasts exactly n. */
  lemma SleepsVerbatim(cfg: Config, verb: Method, inner: nat -> Response, env: Env, k: nat, n: nat)
    requires k < |Run(cfg, verb, inner, env).sleeps|
    requires inner(k).retryAfter == Some(ShowNat(n))
    ensures Run(cfg, verb, inner, env).sleeps[k] == n as real
  {
    SleepAt(cfg, verb, inner, env, k);
    NumericRetryAfterVerbatim(cfg, n, k, env);
  }

  /** `a` answers like `b` except that some responses carry a Retry-After value that
      is neither delay-seconds nor a date where `b`'s carry none. */
  ghost predicate SameButInvalidHeaders(a: nat -> Response, b: nat -> Response, env: Env) {
    forall k :: a(k).status == b(k).status &&
      (a(k).retryAfter == b(k).retryAfter ||
        (b(k).retryAfter.None? && a(k).retryAfter.Some? &&
         !IsDelaySeconds(a(k).retryAfter.value) && env.parseDate(a(k).retryAfter.value).None?))
  }

  /** Invalid Retry-After values change nothing: the loop returns the same response
      status and sleeps exactly the same durations as without the header. */
  lemma {:induction false} InvalidHeadersChangeNothing(
    cfg: Config, verb: Method, a: nat -> Response, b: nat -> Response, env: Env, i: nat)
    requires i <= cfg.maxAttempts
    requires SameButInvalidHeaders(a, b, env)
    ensures RunFrom(cfg, verb, a, env, i).sleeps == RunFrom(cfg, verb, b, env, i).sleeps
    ensures RunFrom(cfg, verb, a, env, i).response.status == RunFrom(cfg, verb, b, env, i).response.status
    decreases cfg.maxAttempts - i
  {
    assert a(i).status == b(i).status;
    if ShouldRetry(cfg, verb, a(i).status, cfg.maxAttempts - i) {
      if a(i).retryAfter != b(i).retryAfter {
        InvalidRetryAfterActsAsAbsent(cfg, a(i).retryAfter.value, i, env);
      }
      InvalidHeadersChangeNothing(cfg, verb, a, b, env, i + 1);
    }
  }
}
