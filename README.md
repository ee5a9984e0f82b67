# RetryTransport of httpx-retry, modelled in Dafny

httpx-retry wraps an HTTP transport and re-sends a request whose response has a
retryable status. Between attempts it sleeps, either for the time the server's
`Retry-After` header asks for or for an exponential backoff with full jitter.
Retries stop when a response is not retryable or when the retry budget
(`max_attempts`) is spent. The last response is then returned as it is; running
out of retries is not an error.

The behaviour is the one the repository's test suite `tests/test_retry_transport.py`
pins down. The implementation module `httpx_retry/retry_transport.py` is not part of
this model. Where the tests leave the policy open, the model makes its own choices:
the wait formula, the defaults for the backoff factor (0.1) and the maximum wait (120),
the retryable methods other than GET, and the retryable statuses 503 and 504. No test
pins any of these.

The model has seven modules:

- `Options`, `Http`: the option type, request methods, `Request(verb, url)` and
  `Response(status, retryAfter)`. A response shows only what the retry logic reads:
  its status and its `Retry-After` value.
- `RetryPolicy` (`retry_policy.dfy`): the configuration and its defaults.
  - The defaults are 10 retries, the retryable methods HEAD, GET, PUT, DELETE,
    OPTIONS and TRACE, and the retryable statuses 429, 502, 503 and 504. The tests
    pin 10 retries, GET, 429 and 502, and that 403 is not retryable; the comment at
    line 170 states that 500 is not in the default set. The other methods and 503
    and 504 are the model's choice.
  - `MakeConfig` models the constructor's keyword arguments. Any option given
    replaces its default.
  - The retry decision `ShouldRetry` holds when retries remain, the method is
    retryable and the status is retryable.
  - The parser for a numeric `Retry-After` accepts delay-seconds, `1*DIGIT` in
    section 10.2.3 of RFC 9110.
  - `ComputeWait` gives the wait before retry `i`:
    - a numeric header gives its number of seconds;
    - an HTTP-date gives `max(0, date - now)`;
    - anything else gives `random(i) * min(backoff_factor * 2^i, max_backoff_wait)`.
- `RetryLoop` (`retry_loop.dfy`): the attempt loop as a function `Run`. It works over
  any inner transport, given as `inner: nat -> Response`, the answer to the k-th
  inner call. Lemmas give the number of sleeps and the returned response exactly.
- `TestDoubles` (`test_doubles.dfy`): the three test doubles, as classes.
  - The `status_codes` generator is the class `StatusCodes`. Its `Next` advances a
    counter.
  - `MockTransport` keeps a generator per URL and answers 200 for any other URL.
  - The patched `time.sleep` is `SleepMock`, which records its arguments.
- `Transport` (`retry_transport.dfy`): the class `RetryTransport`. Its
  `HandleRequest` is the imperative `while` loop. It is proved to return the response
  that `Run` says, and to record exactly `Run`'s sleeps.
- `Scenarios` (`scenarios.dfy`): one method per synchronous test function except
  `test_retry_after_http_date_no_tz`, plus `NonRetryableMethodOn429` for the async
  test at lines 372-384. Each builds the fixture, makes the test's calls and
  promises the test's assertions, proved from the lemmas above. The other async
  tests and the no-zone date test are covered as "## Left out" says.

The collaborators that cannot be seen are parameters of type `RetryPolicy.Env`:

- the random source `random(i)`, the draw for retry `i`, taken in `[0, 1]`;
- the clock `now(i)`, the time at which the wait for retry `i` is computed;
- the HTTP-date parser `parseDate`.

## Model

| member | source | states |
|---|---|---|
| `RetryPolicy.MakeConfig` | tests/test_retry_transport.py:169-187 | each keyword given replaces its default outright; a given status or method list becomes the whole retryable set, not an addition to the default one |
| `RetryPolicy.DigitsValueDefined` | tests/test_retry_transport.py:271-285 | the value of a digit string is defined exactly when every character is a digit |
| `RetryPolicy.ParseDelaySecondsDefined` | tests/test_retry_transport.py:245-285 | a Retry-After value parses as a number of seconds exactly when it is a non-empty run of digits ("5" does, "invalid" does not) |
| `RetryPolicy.ParseShowNat` | tests/test_retry_transport.py:271-285 | parsing inverts the decimal spelling of every number of seconds |
| `RetryPolicy.Retryable` | tests/test_retry_transport.py:138-148 | a response is of the retryable kind exactly when its method is in `retryableMethods` and its status is in `retryStatusCodes` |
| `RetryPolicy.ShouldRetry` | tests/test_retry_transport.py:169-203 | a response is retried exactly when retries remain and it is `Retryable` |
| `RetryPolicy.ParseDelaySeconds` | tests/test_retry_transport.py:271-285 | a Retry-After value is read as a number of seconds only when it is a non-empty digit string (its properties: `ParseDelaySecondsDefined`, `ParseShowNat`, `LeadingZeroIgnored`) |
| `RetryPolicy.HeaderWait` | tests/test_retry_transport.py:245-315 | a Retry-After gives its number of seconds, else `max(0, date - now(i))` for a date, else no wait |
| `RetryPolicy.ComputeWait` | tests/test_retry_transport.py:218-315 | the wait is the header's wait when it has one, otherwise `random(i) * min(backoff_factor * 2^i, max_backoff_wait)` (its properties: `BackoffWaitBounds`, `NumericRetryAfterWaits`, `InvalidRetryAfterActsAsAbsent`, `HttpDateWait`, `WaitNonNegative`) |
| `RetryPolicy.BackoffCeiling` | tests/test_retry_transport.py:237-242 | the ceiling is `min(backoff_factor * 2^i, max_backoff_wait)`: at most each of the two and equal to one of them |
| `RetryPolicy.BackoffWaitBounds` | tests/test_retry_transport.py:237-242 | without a usable header the wait lies in `[0, ceiling]`, so under `backoff_factor * 2^i` and under `max_backoff_wait` |
| `RetryPolicy.NumericRetryAfterVerbatim` | tests/test_retry_transport.py:271-285 | a numeric Retry-After is the wait exactly, whatever the random draw |
| `RetryPolicy.InvalidRetryAfterActsAsAbsent` | tests/test_retry_transport.py:264-268 | a Retry-After that is neither seconds nor a date gives the same wait as no header |
| `RetryPolicy.HttpDateWait` | tests/test_retry_transport.py:288-315 | an HTTP-date Retry-After waits `date - now` when the date is ahead, 0 when it is past |
| `RetryPolicy.WaitNonNegative` | tests/test_retry_transport.py:218-242 | every wait is non-negative when the backoff parameters and the random draw are |
| `RetryPolicy.NumericRetryAfterWaits` | tests/test_retry_transport.py:271-285 | any Retry-After value in the delay-seconds form is waited for exactly its number of seconds, whatever the random draw |
| `RetryPolicy.LeadingZeroIgnored` | tests/test_retry_transport.py:271-285 | a leading zero does not change the value of a delay-seconds header, so "05" waits as long as "5" |
| `RetryLoop.RunFrom` | tests/test_retry_transport.py:125-166 | the loop from retry index `i`: the response at `i` is returned unless `ShouldRetry` holds with `maxAttempts - i` retries left; a retry sleeps `ComputeWait` for that response and index and goes on at `i + 1` (its properties: `RunFromShape`, `RunFromRetriesRetryable`) |
| `RetryLoop.Run` | tests/test_retry_transport.py:125-166 | one top-level call is the loop from index 0, a fresh budget of `maxAttempts` retries per call |
| `RetryLoop.RunFromShape` | tests/test_retry_transport.py:125-135 | the loop stays within the budget, returns the response of inner call number `1 + sleeps`, and stops early only on a response that is not retryable |
| `RetryLoop.RunFromRetriesRetryable` | tests/test_retry_transport.py:237-242 | every retry is made on a retryable response, and sleeps exactly that response's wait for its retry index |
| `RetryLoop.ResumesStep` | tests/test_retry_transport.py:151-166 | after a retry, the sleeps so far plus the extra wait, followed by what the loop still does from the next index, are the whole call |
| `RetryLoop.ResumesEnd` | tests/test_retry_transport.py:138-166 | when the loop leaves at index i, the call returns the i-th response and exactly the sleeps made so far |
| `RetryLoop.FirstNotRetryable` | tests/test_retry_transport.py:138-148 | a first response that is not retryable (200, or 403 outside the set) is returned with no sleep |
| `RetryLoop.MethodNeverRetried` | tests/test_retry_transport.py:190-203 | a method outside the retryable set gets its first response, whatever its status, with no sleep |
| `RetryLoop.Exhaustion` | tests/test_retry_transport.py:125-135 | when every response is retryable, the loop sleeps exactly `max_attempts` times and returns the last still-retryable response |
| `RetryLoop.StopsAtFirstNonRetryable` | tests/test_retry_transport.py:151-160 | when the first non-retryable response is the n-th one and n is within budget, the loop sleeps n times and returns it |
| `RetryLoop.SleepAt` | tests/test_retry_transport.py:237-242 | the k-th recorded sleep follows the k-th response, a retryable one, and lasts that response's wait |
| `RetryLoop.SleepsBounded` | tests/test_retry_transport.py:218-242 | every sleep is non-negative; before retry k without a usable header it is at most `backoff_factor * 2^k` and at most `max_backoff_wait` |
| `RetryLoop.SleepsVerbatim` | tests/test_retry_transport.py:271-285 | a sleep on a response with a numeric Retry-After lasts exactly that many seconds |
| `RetryLoop.InvalidHeadersChangeNothing` | tests/test_retry_transport.py:245-268 | invalid Retry-After values leave the sleeps and the returned status exactly as without the header |
| `TestDoubles.ToResponse` | tests/test_retry_transport.py:28-32 | the response keeps the reply's status; it has a Retry-After header exactly when the reply's value is present and non-empty |
| `TestDoubles.StickyAt` | tests/test_retry_transport.py:60-66 | the k-th reply of a script is its k-th entry while there is one, and its last entry after that |
| `TestDoubles.ScriptReplay` | tests/test_retry_transport.py:60-66 | a fresh script yields its replies in order, then repeats the last one for ever |
| `TestDoubles.StatusCodes.constructor` | tests/test_retry_transport.py:60-63 | a new generator holds the given list and has served nothing |
| `TestDoubles.StatusCodes.Next` | tests/test_retry_transport.py:64-66 | `next` gives the listed replies in order, then the last one on every later call, and advances by one; an empty list has no reply to give |
| `TestDoubles.MockTransport.constructor` | tests/test_retry_transport.py:16-17 | the transport keeps the given URL-to-generator map |
| `TestDoubles.MockTransport.Answer` | tests/test_retry_transport.py:19-32 | the reply for a URL once `served` replies are used up: the generator's next reply as a response, or 200 with no header for a URL without one |
| `TestDoubles.MockTransport.HandleRequest` | tests/test_retry_transport.py:19-32 | a mapped URL advances only its own generator and answers its next reply; any other URL answers 200 with no header |
| `TestDoubles.SleepMock.constructor` | tests/test_retry_transport.py:90-92 | the patched sleep starts with no recorded call |
| `TestDoubles.SleepMock.Sleep` | tests/test_retry_transport.py:90-92 | each call appends its duration to the recorded calls |
| `Transport.RetryTransport.constructor` | tests/test_retry_transport.py:117 | the transport keeps its inner transport, its sleep and its configuration |
| `Transport.RetryTransport.HandleRequest` | tests/test_retry_transport.py:125-135 | with a fresh budget per call, the response and the sleeps appended to the recorder are those of `Run` on what the inner transport was about to answer; the URL's generator serves one more reply than there were sleeps |
| `Scenarios.NewTransport` | tests/test_retry_transport.py:89-99 | the fixture: a fresh mock transport over the given map, a fresh sleep recorder with no calls, wrapped in a RetryTransport |
| `Scenarios.ScriptAlwaysRetryable` | tests/test_retry_transport.py:60-66 | a script whose every reply is retryable answers retryably on every call, past its end too |
| `Scenarios.ExhaustsOnSingleReply` | tests/test_retry_transport.py:125-135 | a single always-retryable reply costs exactly `max_attempts` sleeps and is returned |
| `Scenarios.OneRetryThenDone` | tests/test_retry_transport.py:151-160 | a script `[retryable, not retryable]` costs one sleep and returns the second reply |
| `Scenarios.NoRetryOnFirst` | tests/test_retry_transport.py:138-148 | a script whose first reply is not retryable costs no sleep and returns that reply |
| `Scenarios.InvalidHeaderScript` | tests/test_retry_transport.py:245-268 | a reply with an invalid Retry-After sleeps exactly like the same reply without one |
| `Scenarios.PlainScriptBackoff` | tests/test_retry_transport.py:218-242 | a header-less reply's sleep before retry k lies in `[0, backoff_factor * 2^k]` |
| `Scenarios.BackoffTestBound` | tests/test_retry_transport.py:218-242 | with `backoff_factor=2` and `max_backoff_wait=10`, every sleep of an always-502 endpoint without a header is at most `2^attempt * 2` or equals 10 |
| `Scenarios.SuccessfulRequest` | tests/test_retry_transport.py:115-122 | an unmapped URL returns 200 and nothing sleeps |
| `Scenarios.FailedRequest` | tests/test_retry_transport.py:125-135 | an always-429 endpoint returns 429 after exactly 10 sleeps |
| `Scenarios.UnretryableStatusCode` | tests/test_retry_transport.py:138-148 | a 403 is returned with no sleep |
| `Scenarios.MultipleFailures` | tests/test_retry_transport.py:151-166 | `[502, 200]` returns 200, a separate always-502 call returns 502, and 11 sleeps are recorded in all |
| `Scenarios.CustomRetryableStatusCodes` | tests/test_retry_transport.py:169-187 | with `retry_status_codes=[500]`, 500 is retried to 200 and 502 is returned at once; 1 sleep in all |
| `Scenarios.CustomRetryableMethods` | tests/test_retry_transport.py:190-203 | with `retryable_methods=[POST]`, a GET on a 502 endpoint returns 502 with no sleep |
| `Scenarios.NonRetryableMethodOn429` | tests/test_retry_transport.py:372-384 | with `retryable_methods=[POST]`, a GET on an always-429 endpoint returns 429 with no sleep |
| `Scenarios.CustomMaxAttempts` | tests/test_retry_transport.py:206-215 | with `max_attempts=5`, an always-502 endpoint returns 502 after exactly 5 sleeps |
| `Scenarios.Backoff` | tests/test_retry_transport.py:218-242 | with `backoff_factor=2` and `max_backoff_wait=10`, 10 sleeps are recorded and each is at most `2^attempt * 2` or equal to 10 |
| `Scenarios.InvalidRetryAfter` | tests/test_retry_transport.py:245-268 | with Retry-After "invalid", the sleeps equal those of the header-less endpoint and keep the same bound |
| `Scenarios.RetryAfterNumeric` | tests/test_retry_transport.py:271-285 | Retry-After "5" then "2" gives the sleeps `[5, 2]` exactly and returns the final 200 |
| `Scenarios.RetryAfterHttpDate` | tests/test_retry_transport.py:288-315 | dates 5 and 30 seconds ahead, read within a second, give sleeps strictly inside `(3, 5)` and `(28, 30)`, then the 200 is returned |

## Left out

- The async variant is not modelled: `MockAsyncTransport`, `astatus_codes`, `asyncio.sleep` and the async tests at lines 346-384. An async loop would run the same steps with a suspending sleep. The async tests check the same outcomes as sync tests (200; 429 after 10 sleeps; 429 with no sleep). `Scenarios.SuccessfulRequest`, `Scenarios.FailedRequest` and `Scenarios.NonRetryableMethodOn429` state those outcomes.
- httpx's `Client`, `Request` and `Response` are foreign code and are not modelled. A request is a method and a URL string. A response is a status and one `Retry-After` value. Header names are not modelled, so case-insensitive header lookup is not either.
- The pytest fixtures, `monkeypatch` and `MagicMock` are reduced to the
  `SleepMock` recorder. Only the recorded durations are modelled.
- Parsing HTTP-dates is left to the injected `parseDate`. That covers dates in the `%a, %d %b %Y %H:%M:%S -0500` form of lines 289-292 and the form without a zone of the test at lines 318-343. `datetime.now` becomes the injected clock `now(i)`. The clock is indexed by retry only, so two top-level calls with the same `env` read the same `now(i)` at equal retry indexes. The real clock moves on between calls. The scenarios with two calls assert only statuses and sleep counts, which do not depend on that.
- Randomness becomes the injected `random(i)`, per retry index. Two top-level calls with the same `env` therefore draw the same `random(i)` at equal retry indexes, where the real source would differ. The counts the two-call scenarios assert do not depend on the draws. Durations are exact reals, so floating-point rounding is not modelled.
- `RetryPolicy.ParseDelaySeconds`: accepts only whole seconds (delay-seconds of RFC 9110). A fractional value such as "1.5" falls back to backoff, although fractional values exist in practice. No test uses one.
- The defaults for `backoff_factor` (0.1) and `max_backoff_wait` (120), the retryable methods other than GET, and the statuses 503 and 504 are the model's choices. No test pins them.
- Transport exceptions are not modelled. The tests never raise one. Retrying on an exception is not part of this behaviour.
- `Transport.RetryTransport` holds a `MockTransport`. The real class wraps any transport. `RetryLoop.Run` states the loop for any inner transport, given as a function from call index to response.
- `TestDoubles.StatusCodes.Next`: requires a non-empty list. On an empty list Python raises `IndexError` at `codes[-1]`, and no test builds one.
