/** The test functions of the retry transport, each as a method that builds the
    fake transport, makes the same calls, and promises what the test asserts. */
module Scenarios {
  import opened Options
  import opened Http
  import opened RetryPolicy
  import opened RetryLoop
  import opened TestDoubles
  import opened Transport

  const Example: Url := "https://example.com"
  const Fail: Url := "https://example.com/fail"
  const Fail1: Url := "https://example.com/fail1"
  const Fail2: Url := "https://example.com/fail2"

  /** The `mock_transport` fixture with a RetryTransport around it. */
  method NewTransport(statusCodeMap: map<Url, StatusCodes>, config: Config) returns (t: RetryTransport)
    ensures fresh(t) && fresh(t.inner) && fresh(t.sleeper)
    ensures t.inner.statusCodeMap == statusCodeMap && t.config == config && t.sleeper.calls == []
  {
    var sleeper := new SleepMock();
    var inner := new MockTransport(statusCodeMap);
    t := new RetryTransport(inner, sleeper, config);
  }

  /** A script whose every reply is retryable answers retryably on every call. */
  lemma ScriptAlwaysRetryable(cfg: Config, verb: Method, codes: seq<Entry>)
    requires |codes| > 0
    requires forall e :: e in codes ==> Retryable(cfg, verb, e.status)
    ensures forall k :: Retryable(cfg, verb, ScriptedFeed(codes, 0)(k).status)
  {
    forall k ensures Retryable(cfg, verb, ScriptedFeed(codes, 0)(k).status) {
      ScriptedFeedAt(codes, 0, k);
    }
  }

  /** A URL whose script is a single always-retryable reply: the call exhausts the
      budget and returns that reply. */
  lemma ExhaustsOnSingleReply(cfg: Config, verb: Method, e: Entry, env: Env)
    requires Retryable(cfg, verb, e.status)
    ensures |Run(cfg, verb, ScriptedFeed([e], 0), env).sleeps| == cfg.maxAttempts
    ensures Run(cfg, verb, ScriptedFeed([e], 0), env).response.status == e.status
  {
    ScriptAlwaysRetryable(cfg, verb, [e]);
    Exhaustion(cfg, verb, ScriptedFeed([e], 0), env);
    ScriptedFeedAt([e], 0, cfg.maxAttempts);
  }

  /** A URL scripted `[a, b]` with `a` retryable and `b` not: one sleep, then `b`. */
  lemma OneRetryThenDone(cfg: Config, verb: Method, a: Entry, b: Entry, env: Env)
    requires cfg.maxAttempts >= 1
    requires Retryable(cfg, verb, a.status) && !Retryable(cfg, verb, b.status)
    ensures |Run(cfg, verb, ScriptedFeed([a, b], 0), env).sleeps| == 1
    ensures Run(cfg, verb, ScriptedFeed([a, b], 0), env).response.status == b.status
  {
    ScriptedFeedAt([a, b], 0, 0);
    ScriptedFeedAt([a, b], 0, 1);
    StopsAtFirstNonRetryable(cfg, verb, ScriptedFeed([a, b], 0), env, 1);
  }

  /** A URL whose first reply is not retryable: no sleep, that reply is returned. */
  lemma NoRetryOnFirst(cfg: Config, verb: Method, codes: seq<Entry>, env: Env)
    requires |codes| > 0 && !Retryable(cfg, verb, codes[0].status)
    ensures Run(cfg, verb, ScriptedFeed(codes, 0), env).sleeps == []
    ensures Run(cfg, verb, ScriptedFeed(codes, 0), env).response.status == codes[0].status
  {
    ScriptedFeedAt(codes, 0, 0);
    FirstNotRetryable(cfg, verb, ScriptedFeed(codes, 0), env);
  }

  /** test_successful_request: an unmapped URL answers 200 and nothing sleeps. */
  method SuccessfulRequest(env: Env) returns (status: int, sleepCount: nat)
    ensures status == 200 && sleepCount == 0
  {
    var t := NewTransport(map[], DefaultConfig);
    UnmappedFeedAt(0);
    FirstNotRetryable(DefaultConfig, GET, UnmappedFeed(), env);
    var response := t.HandleRequest(Request(GET, Example), env);
    status, sleepCount := response.status, |t.sleeper.calls|;
  }

  /** test_failed_request: an endpoint that always answers 429 costs the default
      ten sleeps and the 429 is returned. */
  method FailedRequest(env: Env) returns (status: int, sleepCount: nat)
    ensures status == 429 && sleepCount == 10
  {
    var e := Entry(429, None);
    var gen := new StatusCodes([e]);
    var t := NewTransport(map[Fail := gen], DefaultConfig);
    ExhaustsOnSingleReply(DefaultConfig, GET, e, env);
    var response := t.HandleRequest(Request(GET, Fail), env);
    status, sleepCount := response.status, |t.sleeper.calls|;
  }

  /** test_unretryable_status_code: a 403 is returned at once. */
  method UnretryableStatusCode(env: Env) returns (status: int, sleepCount: nat)
    ensures status == 403 && sleepCount == 0
  {
    var codes := [Entry(403, None), Entry(200, None)];
    var gen := new StatusCodes(codes);
    var t := NewTransport(map[Fail := gen], DefaultConfig);
    NoRetryOnFirst(DefaultConfig, GET, codes, env);
    var response := t.HandleRequest(Request(GET, Fail), env);
    status, sleepCount := response.status, |t.sleeper.calls|;
  }

  /** test_multiple_failures: the budget is per call, so `[502, 200]` costs one sleep
      and a separate always-502 call costs a fresh ten. */
  method MultipleFailures(env: Env) returns (status1: int, status2: int, sleepCount: nat)
    ensures status1 == 200 && status2 == 502 && sleepCount == 11
  {
    var gen1 := new StatusCodes([Entry(502, None), Entry(200, None)]);
    var gen2 := new StatusCodes([Entry(502, None)]);
    var t := NewTransport(map[Fail1 := gen1, Fail2 := gen2], DefaultConfig);
    OneRetryThenDone(DefaultConfig, GET, Entry(502, None), Entry(200, None), env);
    ExhaustsOnSingleReply(DefaultConfig, GET, Entry(502, None), env);
    var response1 := t.HandleRequest(Request(GET, Fail1), env);
    var response2 := t.HandleRequest(Request(GET, Fail2), env);
    status1, status2, sleepCount := response1.status, response2.status, |t.sleeper.calls|;
  }

  /** test_custom_retryable_status_codes: `[500]` replaces the default set, so 500 is
      retried until 200 while 502 is returned at once; one sleep in all. */
  method CustomRetryableStatusCodes(env: Env) returns (status1: int, status2: int, sleepCount: nat)
    ensures status1 == 200 && status2 == 502 && sleepCount == 1
  {
    var cfg := MakeConfig(None, None, None, None, Some([500]));
    var codes2 := [Entry(502, None), Entry(200, None)];
    var gen1 := new StatusCodes([Entry(500, None), Entry(200, None)]);
    var gen2 := new StatusCodes(codes2);
    var t := NewTransport(map[Fail1 := gen1, Fail2 := gen2], cfg);
    OneRetryThenDone(cfg, GET, Entry(500, None), Entry(200, None), env);
    NoRetryOnFirst(cfg, GET, codes2, env);
    var response1 := t.HandleRequest(Request(GET, Fail1), env);
    var response2 := t.HandleRequest(Request(GET, Fail2), env);
    status1, status2, sleepCount := response1.status, response2.status, |t.sleeper.calls|;
  }

  /** test_custom_retryable_methods: with only POST retryable, a GET on a 502
      endpoint gets the 502 with no sleep. */
  method CustomRetryableMethods(env: Env) returns (status: int, sleepCount: nat)
    ensures status == 502 && sleepCount == 0
  {
    var cfg := MakeConfig(None, None, None, Some([POST]), None);
    var codes := [Entry(502, None), Entry(200, None)];
    var gen := new StatusCodes(codes);
    var t := NewTransport(map[Fail := gen], cfg);
    NoRetryOnFirst(cfg, GET, codes, env);
    var response := t.HandleRequest(Request(GET, Fail), env);
    status, sleepCount := response.status, |t.sleeper.calls|;
  }

  /** test_async_custom_retryable_methods: with only POST retryable, a GET on an
      always-429 endpoint gets the 429 with no sleep. */
  method NonRetryableMethodOn429(env: Env) returns (status: int, sleepCount: nat)
    ensures status == 429 && sleepCount == 0
  {
    var cfg := MakeConfig(None, None, None, Some([POST]), None);
    var codes := [Entry(429, None)];
    var gen := new StatusCodes(codes);
    var t := NewTransport(map[Fail := gen], cfg);
    NoRetryOnFirst(cfg, GET, codes, env);
    var response := t.HandleRequest(Request(GET, Fail), env);
    status, sleepCount := response.status, |t.sleeper.calls|;
  }

  /** test_custom_max_attempts: with `max_attempts=5` an always-502 endpoint costs
      exactly five sleeps. */
  method CustomMaxAttempts(env: Env) returns (status: int, sleepCount: nat)
    ensures status == 502 && sleepCount == 5
  {
    var cfg := MakeConfig(Some(5), None, None, None, None);
    var gen := new StatusCodes([Entry(502, None)]);
    var t := NewTransport(map[Fail := gen], cfg);
    ExhaustsOnSingleReply(cfg, GET, Entry(502, None), env);
    var response := t.HandleRequest(Request(GET, Fail), env);
    status, sleepCount := response.status, |t.sleeper.calls|;
  }

  /** The configuration of the backoff tests and the bound they check: every sleep
      of an always-502 endpoint without a header is at most `2^attempt * 2`, or is
      the maximum wait. */
  lemma BackoffTestBound(env: Env)
    requires RandomInUnitInterval(env)
    ensures var sleeps := Run(MakeConfig(None, Some(2.0), Some(10.0), None, None), GET,
                              ScriptedFeed([Entry(502, None)], 0), env).sleeps;
      forall attempt :: 0 <= attempt < |sleeps| ==>
        sleeps[attempt] <= Pow2(attempt) as real * 2.0 || sleeps[attempt] == 10.0
  {
    var cfg := MakeConfig(None, Some(2.0), Some(10.0), None, None);
    PlainScriptBackoff(cfg, GET, 502, env);
    var sleeps := Run(cfg, GET, ScriptedFeed([Entry(502, None)], 0), env).sleeps;
    forall attempt | 0 <= attempt < |sleeps|
      ensures sleeps[attempt] <= Pow2(attempt) as real * 2.0
    {
      assert cfg.backoffFactor * Pow2(attempt) as real == Pow2(attempt) as real * 2.0;
    }
  }

  /** test_backoff: with `backoff_factor=2` and `max_backoff_wait=10`, every sleep
      before retry `attempt` is at most `2^attempt * 2`, or is the maximum wait. */
  method Backoff(env: Env) returns (status: int, sleeps: seq<real>)
    requires RandomInUnitInterval(env)
    ensures status == 502 && |sleeps| == 10
    ensures forall attempt :: 0 <= attempt < |sleeps| ==>
      sleeps[attempt] <= Pow2(attempt) as real * 2.0 || sleeps[attempt] == 10.0
  {
    var cfg := MakeConfig(None, Some(2.0), Some(10.0), None, None);
    var gen := new StatusCodes([Entry(502, None)]);
    var t := NewTransport(map[Fail := gen], cfg);
    ExhaustsOnSingleReply(cfg, GET, Entry(502, None), env);
    var response := t.HandleRequest(Request(GET, Fail), env);
    status, sleeps := response.status, t.sleeper.calls;
    BackoffTestBound(env);
  }

  /** A single-reply script with an invalid Retry-After sleeps exactly like the same
      script without the header. */
  lemma InvalidHeaderScript(cfg: Config, verb: Method, status: int, h: string, env: Env)
    requires !IsDelaySeconds(h) && env.parseDate(h).None?
    ensures Run(cfg, verb, ScriptedFeed([Entry(status, Some(h))], 0), env).sleeps ==
            Run(cfg, verb, ScriptedFeed([Entry(status, None)], 0), env).sleeps
  {
    var a, b := ScriptedFeed([Entry(status, Some(h))], 0), ScriptedFeed([Entry(status, None)], 0);
    forall k ensures a(k).status == b(k).status &&
      (a(k).retryAfter == b(k).retryAfter ||
        (b(k).retryAfter.None? && a(k).retryAfter.Some? &&
         !IsDelaySeconds(a(k).retryAfter.value) && env.parseDate(a(k).retryAfter.value).None?))
    {
      ScriptedFeedAt([Entry(status, Some(h))], 0, k);
      ScriptedFeedAt([Entry(status, None)], 0, k);
    }
    InvalidHeadersChangeNothing(cfg, verb, a, b, env, 0);
  }

  /** A single-reply script without a header sleeps under `backoff_factor * 2^k`
      before retry k. */
  lemma PlainScriptBackoff(cfg: Config, verb: Method, status: int, env: Env)
    requires WellFormed(cfg) && RandomInUnitInterval(env)
    ensures var sleeps := Run(cfg, verb, ScriptedFeed([Entry(status, None)], 0), env).sleeps;
      forall k :: 0 <= k < |sleeps| ==> 0.0 <= sleeps[k] <= cfg.backoffFactor * Pow2(k) as real
  {
    var feed := ScriptedFeed([Entry(status, None)], 0);
    SleepsBounded(cfg, verb, feed, env);
    forall k | 0 <= k < |Run(cfg, verb, feed, env).sleeps|
      ensures NoUsableHeader(feed(k).retryAfter, k, env)
    {
      ScriptedFeedAt([Entry(status, None)], 0, k);
    }
  }

  /** test_invalid_retry_after: a Retry-After of "invalid" (neither delay-seconds
      nor a date) leaves the sleeps exactly as without the header, hence under the
      same backoff bound. */
  method InvalidRetryAfter(env: Env) returns (status: int, sleeps: seq<real>)
    requires RandomInUnitInterval(env) && env.parseDate("invalid").None?
    ensures status == 502 && |sleeps| == 10
    ensures sleeps == Run(MakeConfig(None, Some(2.0), Some(10.0), None, None), GET,
                          ScriptedFeed([Entry(502, None)], 0), env).sleeps
    ensures forall attempt :: 0 <= attempt < |sleeps| ==>
      sleeps[attempt] <= Pow2(attempt) as real * 2.0 || sleeps[attempt] == 10.0
  {
    var cfg := MakeConfig(None, Some(2.0), Some(10.0), None, None);
    var gen := new StatusCodes([Entry(502, Some("invalid"))]);
    var t := NewTransport(map[Fail := gen], cfg);
    ExhaustsOnSingleReply(cfg, GET, Entry(502, Some("invalid")), env);
    assert !IsDelaySeconds("invalid") by {
      assert !IsDigit("invalid"[0]);
    }
    InvalidHeaderScript(cfg, GET, 502, "invalid", env);
    BackoffTestBound(env);
    var response := t.HandleRequest(Request(GET, Fail), env);
    status, sleeps := response.status, t.sleeper.calls;
  }

  /** test_retry_after_numeric: Retry-After values "5" then "2" are slept verbatim,
      and the 200 that follows is returned. */
  method RetryAfterNumeric(env: Env) returns (status: int, sleeps: seq<real>)
    ensures status == 200 && sleeps == [5.0, 2.0]
  {
    var codes := [Entry(429, Some(ShowNat(5))), Entry(429, Some(ShowNat(2))), Entry(200, None)];
    assert ShowNat(5) == "5" && ShowNat(2) == "2";
    var gen := new StatusCodes(codes);
    var t := NewTransport(map[Fail := gen], DefaultConfig);
    ghost var feed := ScriptedFeed(codes, 0);
    ScriptedFeedAt(codes, 0, 0);
    ScriptedFeedAt(codes, 0, 1);
    ScriptedFeedAt(codes, 0, 2);
    StopsAtFirstNonRetryable(DefaultConfig, GET, feed, env, 2);
    SleepsVerbatim(DefaultConfig, GET, feed, env, 0, 5);
    SleepsVerbatim(DefaultConfig, GET, feed, env, 1, 2);
    var response := t.HandleRequest(Request(GET, Fail), env);
    status, sleeps := response.status, t.sleeper.calls;
  }

  /** test_retry_after_http_date: two dates in the `%a, %d %b %Y %H:%M:%S -0500`
      form, made at time `created` and naming instants 5 and 30 seconds later (to
      the whole second, so up to one second earlier), each read less than a second
      after `created`. The sleeps
      fall strictly between `expected - 2` and `expected`, and the 200 that follows
      is returned. The date parser covers the variant without a zone offset too. */
  method RetryAfterHttpDate(env: Env, h5: string, h30: string, created: real)
    returns (status: int, sleeps: seq<real>)
    requires |h5| > 0 && !IsDelaySeconds(h5) && |h30| > 0 && !IsDelaySeconds(h30)
    requires env.parseDate(h5).Some? && created + 4.0 < env.parseDate(h5).value <= created + 5.0
    requires env.parseDate(h30).Some? && created + 29.0 < env.parseDate(h30).value <= created + 30.0
    requires created < env.now(0) < created + 1.0 && created < env.now(1) < created + 1.0
    ensures status == 200 && |sleeps| == 2
    ensures 5.0 - 2.0 < sleeps[0] < 5.0 && 30.0 - 2.0 < sleeps[1] < 30.0
  {
    var codes := [Entry(429, Some(h5)), Entry(429, Some(h30)), Entry(200, None)];
    var gen := new StatusCodes(codes);
    var t := NewTransport(map[Fail := gen], DefaultConfig);
    ghost var feed := ScriptedFeed(codes, 0);
    ScriptedFeedAt(codes, 0, 0);
    ScriptedFeedAt(codes, 0, 1);
    ScriptedFeedAt(codes, 0, 2);
    StopsAtFirstNonRetryable(DefaultConfig, GET, feed, env, 2);
    SleepAt(DefaultConfig, GET, feed, env, 0);
    SleepAt(DefaultConfig, GET, feed, env, 1);
    HttpDateWait(DefaultConfig, h5, 0, env);
    HttpDateWait(DefaultConfig, h30, 1, env);
    var response := t.HandleRequest(Request(GET, Fail), env);
    status, sleeps := response.status, t.sleeper.calls;
  }
}
