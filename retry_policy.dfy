/** The pure part of RetryTransport: its configuration, the decision whether a
    response is retried, and the wait before the next attempt. */
module RetryPolicy {
  import opened Options
  import opened Http

  /** The configuration fixed when a RetryTransport is built. `maxAttempts` counts
      retries, not the first attempt. */
  datatype Config = Config(
    maxAttempts: nat,
    backoffFactor: real,
    maxBackoffWait: real,
    retryableMethods: set<Method>,
    retryStatusCodes: set<int>)

  const DefaultMaxAttempts: nat := 10
  const DefaultBackoffFactor: real := 0.1
  const DefaultMaxBackoffWait: real := 120.0
  const DefaultRetryableMethods: set<Method> := {HEAD, GET, PUT, DELETE, OPTIONS, TRACE}
  const DefaultRetryStatusCodes: set<int> := {429, 502, 503, 504}

  const DefaultConfig: Config := Config(
    DefaultMaxAttempts, DefaultBackoffFactor, DefaultMaxBackoffWait,
    DefaultRetryableMethods, DefaultRetryStatusCodes)

  /** The collections a caller passes are taken as sets. */
  function SetOf<T(!new)>(xs: seq<T>): (s: set<T>)
    ensures forall x :: x in s <==> x in xs
  {
    set x | x in xs
  }

  /** The keyword arguments of the RetryTransport constructor: every option that is
      given replaces its default outright; a given method or status list is the whole
      retryable set, not an addition to the default one. */
  function MakeConfig(
    maxAttempts: Option<nat>,
    backoffFactor: Option<real>,
    maxBackoffWait: Option<real>,
    retryableMethods: Option<seq<Method>>,
    retryStatusCodes: Option<seq<int>>): (c: Config)
    ensures c.maxAttempts == (if maxAttempts.Some? then maxAttempts.value else DefaultMaxAttempts)
    ensures c.backoffFactor == (if backoffFactor.Some? then backoffFactor.value else DefaultBackoffFactor)
    ensures c.maxBackoffWait == (if maxBackoffWait.Some? then maxBackoffWait.value else DefaultMaxBackoffWait)
    ensures forall m :: m in c.retryableMethods <==>
      (if retryableMethods.Some? then m in retryableMethods.value else m in DefaultRetryableMethods)
    ensures forall s :: s in c.retryStatusCodes <==>
      (if retryStatusCodes.Some? then s in retryStatusCodes.value else s in DefaultRetryStatusCodes)
  {
    Config(
      if maxAttempts.Some? then maxAttempts.value else DefaultMaxAttempts,
      if backoffFactor.Some? then backoffFactor.value else DefaultBackoffFactor,
      if maxBackoffWait.Some? then maxBackoffWait.value else DefaultMaxBackoffWait,
      if retryableMethods.Some? then SetOf(retryableMethods.value) else DefaultRetryableMethods,
      if retryStatusCodes.Some? then SetOf(retryStatusCodes.value) else DefaultRetryStatusCodes)
  }

  /** Durations are non-negative only when the two backoff parameters are. */
  predicate WellFormed(cfg: Config) {
    cfg.backoffFactor >= 0.0 && cfg.maxBackoffWait >= 0.0
  }

  // ---------------------------------------------------------------------------
  // Retry decision

  /** The method and the status are both of the retryable kind. */
  predicate Retryable(cfg: Config, verb: Method, status: int) {
    verb in cfg.retryableMethods && status in cfg.retryStatusCodes
  }

  /** A response is retried only when retries remain and it is retryable. */
  predicate ShouldRetry(cfg: Config, verb: Method, status: int, retriesLeft: nat) {
    retriesLeft > 0 && Retryable(cfg, verb, status)
  }

  // ---------------------------------------------------------------------------
  // Retry-After as delay-seconds (section 10.2.3 of RFC 9110: 1*DIGIT)

  predicate IsDigit(c: char) {
    '0' <= c <= '9'
  }

  function DigitValue(c: char): (d: nat)
    requires IsDigit(c)
    ensures d < 10
  {
    c as int - '0' as int
  }

  function DigitChar(d: nat): (c: char)
    requires d < 10
    ensures IsDigit(c) && DigitValue(c) == d
  {
    ('0' as int + d) as char
  }

  /** A header value in the delay-seconds form: one or more decimal digits. */
  predicate IsDelaySeconds(s: string) {
    |s| > 0 && forall i :: 0 <= i < |s| ==> IsDigit(s[i])
  }

  /** The decimal value of a string of digits, read from the last digit back;
      `None` as soon as a character is not a digit. */
  function DigitsValue(s: string): Option<nat>
    decreases |s|
  {
    if s == [] then Some(0)
    else
      var prefix := DigitsValue(s[..|s| - 1]);
      if prefix.Some? && IsDigit(s[|s| - 1]) then Some(10 * prefix.value + DigitValue(s[|s| - 1]))
      else None
  }

  /** A string has a decimal value exactly when every character is a digit. */
  lemma {:induction false} DigitsValueDefined(s: string)
    ensures DigitsValue(s).Some? <==> forall i :: 0 <= i < |s| ==> IsDigit(s[i])
    decreases |s|
  {
    if s != [] {
      var prefix := s[..|s| - 1];
      DigitsValueDefined(prefix);
      assert forall i :: 0 <= i < |prefix| ==> prefix[i] == s[i];
    }
  }

  /** A numeric Retry-After value: its number of seconds, or `None` when the value
      is not in the delay-seconds form (an HTTP-date, or text that is neither). */
  function ParseDelaySeconds(s: string): Option<nat> {
    if s == [] then None else DigitsValue(s)
  }

  /** The parser accepts exactly the delay-seconds form. */
  lemma ParseDelaySecondsDefined(s: string)
    ensures ParseDelaySeconds(s).Some? <==> IsDelaySeconds(s)
  {
    DigitsValueDefined(s);
  }

  /** The canonical decimal spelling of a number of seconds. */
  function ShowNat(n: nat): (s: string)
    ensures IsDelaySeconds(s)
  {
    if n < 10 then [DigitChar(n)] else ShowNat(n / 10) + [DigitChar(n % 10)]
  }

  /** Parsing inverts the decimal spelling. */
  lemma {:induction false} ParseShowNat(n: nat)
    ensures ParseDelaySeconds(ShowNat(n)) == Some(n)
  {
    var s := ShowNat(n);
    if n < 10 {
      assert s[..|s| - 1] == [];
      assert DigitsValue(s[..|s| - 1]) == Some(0);
    } else {
      assert s[..|s| - 1] == ShowNat(n / 10);
      ParseShowNat(n / 10);
    }
  }

  // ---------------------------------------------------------------------------
  // Wait computation

  /** What the waits depend on besides the configuration and the response: the
      random source (`random(i)`, the draw for retry `i`), the clock (`now(i)`, the
      time in seconds when the wait for retry `i` is computed) and the HTTP-date
      parser (`parseDate(h)`, the instant the header names, when it is a date). */
  datatype Env = Env(random: nat -> real, now: nat -> real, parseDate: string -> Option<real>)

  /** The random source draws from the unit interval. */
  ghost predicate RandomInUnitInterval(env: Env) {
    forall i :: 0.0 <= env.random(i) <= 1.0
  }

  function Pow2(i: nat): (p: nat)
    ensures p >= 1
  {
    if i == 0 then 1 else 2 * Pow2(i - 1)
  }

  function Min(a: real, b: real): real {
    if a <= b then a else b
  }

  function Max(a: real, b: real): real {
    if a >= b then a else b
  }

  /** The exponential ceiling before retry `i` (0-based), capped at the maximum wait. */
  function BackoffCeiling(cfg: Config, i: nat): (c: real)
    ensures c <= cfg.backoffFactor * Pow2(i) as real && c <= cfg.maxBackoffWait
    ensures c == cfg.backoffFactor * Pow2(i) as real || c == cfg.maxBackoffWait
  {
    Min(cfg.backoffFactor * Pow2(i) as real, cfg.maxBackoffWait)
  }

  /** The wait a Retry-After value dictates before retry `i`, or `None` when the
      value is neither delay-seconds nor a date. */
  function HeaderWait(header: string, i: nat, env: Env): Option<real> {
    var seconds := ParseDelaySeconds(header);
    if seconds.Some? then Some(seconds.value as real)
    else
      var date := env.parseDate(header);
      if date.Some? then Some(Max(0.0, date.value - env.now(i))) else None
  }

  /** The response's Retry-After gives no usable wait. */
  predicate NoUsableHeader(header: Option<string>, i: nat, env: Env) {
    header.None? || HeaderWait(header.value, i, env).None?
  }

  /** The wait before retry `i`: the one the header dictates when it is usable,
      otherwise full jitter, a draw between 0 and the backoff ceiling. */
  function ComputeWait(cfg: Config, header: Option<string>, i: nat, env: Env): real {
    if header.Some? && HeaderWait(header.value, i, env).Some? then HeaderWait(header.value, i, env).value
    else env.random(i) * BackoffCeiling(cfg, i)
  }

  /** Without a usable header the wait lies between 0 and the ceiling
      `min(backoff_factor * 2^i, max_backoff_wait)`. */
  lemma BackoffWaitBounds(cfg: Config, header: Option<string>, i: nat, env: Env)
    requires WellFormed(cfg) && RandomInUnitInterval(env)
    requires NoUsableHeader(header, i, env)
    ensures 0.0 <= ComputeWait(cfg, header, i, env) <= BackoffCeiling(cfg, i)
    ensures ComputeWait(cfg, header, i, env) <= cfg.backoffFactor * Pow2(i) as real
    ensures ComputeWait(cfg, header, i, env) <= cfg.maxBackoffWait
  {
    var u, c := env.random(i), BackoffCeiling(cfg, i);
    assert 0.0 <= u <= 1.0;
    CeilingNonNegative(cfg, i);
    ScaledWithin(u, c);
    assert ComputeWait(cfg, header, i, env) == u * c;
  }

  lemma CeilingNonNegative(cfg: Config, i: nat)
    requires WellFormed(cfg)
    ensures BackoffCeiling(cfg, i) >= 0.0
  {
    var p := Pow2(i) as real;
    assert p >= 1.0;
    assert cfg.backoffFactor * p >= 0.0;
  }

  /** A fraction of a non-negative quantity lies between 0 and that quantity. */
  lemma ScaledWithin(u: real, c: real)
    requires 0.0 <= u <= 1.0 && c >= 0.0
    ensures 0.0 <= u * c <= c
  {
    assert (1.0 - u) * c >= 0.0;
  }

  /** A numeric Retry-After is slept verbatim, whatever the random draw. */
  lemma NumericRetryAfterVerbatim(cfg: Config, n: nat, i: nat, env: Env)
    ensures ComputeWait(cfg, Some(ShowNat(n)), i, env) == n as real
  {
    ParseShowNat(n);
  }

  /** Any value in the delay-seconds form is slept for its number of seconds,
      whatever the random draw. */
  lemma NumericRetryAfterWaits(cfg: Config, header: string, i: nat, env: Env)
    requires IsDelaySeconds(header)
    ensures ParseDelaySeconds(header).Some?
    ensures ComputeWait(cfg, Some(header), i, env) == ParseDelaySeconds(header).value as real
  {
    ParseDelaySecondsDefined(header);
  }

  /** Leading zeros do not change a digit string's value. */
  lemma {:induction false} DigitsValueLeadingZero(s: string)
    ensures DigitsValue("0" + s) == DigitsValue(s)
    decreases |s|
  {
    if s == [] {
      assert ("0" + s)[..0] == [];
    } else {
      assert ("0" + s)[..|"0" + s| - 1] == "0" + s[..|s| - 1];
      assert ("0" + s)[|"0" + s| - 1] == s[|s| - 1];
      DigitsValueLeadingZero(s[..|s| - 1]);
    }
  }

  /** A delay-seconds value with a leading zero ("05") means what it means without
      it ("5"). */
  lemma LeadingZeroIgnored(s: string)
    requires s != []
    ensures ParseDelaySeconds("0" + s) == ParseDelaySeconds(s)
  {
    DigitsValueLeadingZero(s);
  }

  /** A Retry-After that is neither delay-seconds nor a date gives exactly the wait
      of a response without the header. */
  lemma InvalidRetryAfterActsAsAbsent(cfg: Config, header: string, i: nat, env: Env)
    requires !IsDelaySeconds(header) && env.parseDate(header).None?
    ensures ComputeWait(cfg, Some(header), i, env) == ComputeWait(cfg, None, i, env)
  {
    ParseDelaySecondsDefined(header);
  }

  /** A Retry-After date waits until that instant, and not at all once it is past. */
  lemma HttpDateWait(cfg: Config, header: string, i: nat, env: Env)
    requires !IsDelaySeconds(header) && env.parseDate(header).Some?
    ensures ComputeWait(cfg, Some(header), i, env) >= 0.0
    ensures env.parseDate(header).value >= env.now(i) ==>
      ComputeWait(cfg, Some(header), i, env) == env.parseDate(header).value - env.now(i)
    ensures env.parseDate(header).value < env.now(i) ==> ComputeWait(cfg, Some(header), i, env) == 0.0
  {
    ParseDelaySecondsDefined(header);
  }

  /** Every wait is non-negative when the configuration and the random source are. */
  lemma WaitNonNegative(cfg: Config, header: Option<string>, i: nat, env: Env)
    requires WellFormed(cfg) && RandomInUnitInterval(env)
    ensures ComputeWait(cfg, header, i, env) >= 0.0
  {
    if NoUsableHeader(header, i, env) {
      BackoffWaitBounds(cfg, header, i, env);
    }
  }
}
