/** RetryTransport wrapped around the fake inner transport, with the patched sleep. */
module Transport {
  import opened Http
  import opened RetryPolicy
  import opened RetryLoop
  import opened TestDoubles

  class RetryTransport {
    const inner: MockTransport
    const sleeper: SleepMock
    const config: Config

    constructor (inner: MockTransport, sleeper: SleepMock, config: Config)
      ensures this.inner == inner && this.sleeper == sleeper && this.config == config
    {
      this.inner := inner;
      this.sleeper := sleeper;
      this.config := config;
    }

    /** One top-level call. The retry budget starts afresh at `maxAttempts`; the
        loop calls the inner transport, returns the response it does not retry,
        and otherwise sleeps for the computed wait, spends one retry and calls
        again. The returned response and the recorded sleeps are those of `Run`
        on what the inner transport was going to answer, and the URL's generator
        has served one more reply than there were sleeps. */
    method HandleRequest(request: Request, env: Env) returns (response: Response)
      requires inner.Valid()
      modifies inner.Streams(request.url), sleeper
      ensures var o := Run(config, request.verb, inner.FeedFrom(request.url, old(inner.Served(request.url))), env);
        response == o.response && sleeper.calls == old(sleeper.calls) + o.sleeps &&
        (request.url in inner.statusCodeMap ==>
          inner.statusCodeMap[request.url].served ==
            old(inner.statusCodeMap[request.url].served) + 1 + |o.sleeps|)
    {
      ghost var start := old(inner.Served(request.url));
      ghost var feed := inner.FeedFrom(request.url, start);
      ghost var slept: seq<real> := [];
      var retriesLeft := config.maxAttempts;
      var attempt: nat := 0;
      response := inner.HandleRequest(request);
      inner.FeedFromAt(request.url, start, 0);
      ResumesStart(config, request.verb, feed, env);
      while ShouldRetry(config, request.verb, response.status, retriesLeft)
        invariant attempt + retriesLeft == config.maxAttempts
        invariant response == feed(attempt)
        invariant request.url in inner.statusCodeMap ==>
          inner.Served(request.url) == start + attempt + 1
        invariant sleeper.calls == old(sleeper.calls) + slept && |slept| == attempt
        invariant Resumes(config, request.verb, feed, env, slept, attempt)
        decreases retriesLeft
      {
        var wait := ComputeWait(config, response.retryAfter, attempt, env);
        ResumesStep(config, request.verb, feed, env, slept, attempt);
        sleeper.Sleep(wait);
        slept := slept + [wait];
        retriesLeft := retriesLeft - 1;
        attempt := attempt + 1;
        response := inner.HandleRequest(request);
        inner.FeedFromAt(request.url, start, attempt);
      }
      ResumesEnd(config, request.verb, feed, env, slept, attempt);
    }
  }
}
