/**
 * `getSessionTimeoutMs`: the session timeout read from `SESSION_TIMEOUT_MINUTES`,
 * in milliseconds, with a floor of five minutes and a default of thirty.
 *
 * The environment variable is a parameter (`None` when unset). The result is
 * `None` where JavaScript yields `NaN`: a value `parseInt` cannot read makes the
 * product `NaN`, and `Math.max` passes `NaN` through.
 */
module SessionConfig {
  import opened Wrappers
  import opened JsNumbers

  const MsPerMinute: int := 60 * 1000
  const DefaultTimeoutMs: int := 30 * MsPerMinute
  const MinimumTimeoutMs: int := 5 * MsPerMinute

  function Max(a: int, b: int): int {
    if a >= b then a else b
  }

  /** The timeout for the variable's value; `None` is `NaN`. */
  function GetSessionTimeoutMs(env: Option<string>): (ms: Option<int>)
    ensures env.None? || env == Some("") ==> ms == Some(1800000)
    ensures env.Some? && env.value != "" && ParseInt(env.value).None? ==> ms.None?
    ensures env.Some? && env.value != "" && ParseInt(env.value).Some? ==>
      var minutes := ParseInt(env.value).value;
      && ms.Some?
      && ms.value >= 300000
      && ms.value >= minutes * 60000
      && (ms.value == minutes * 60000 || ms.value == 300000)
  {
    match env
    case Some(minutesText) =>
      if minutesText != "" then
        match ParseInt(minutesText)
        case None => None
        case Some(minutes) => Some(Max(minutes * MsPerMinute, MinimumTimeoutMs))
      else Some(DefaultTimeoutMs)
    case None => Some(DefaultTimeoutMs)
  }

  /** Five minutes and more are taken as they are. */
  lemma ExactAboveFloor(n: int, suffix: string)
    requires n >= 5
    requires suffix == [] || !IsDigit(suffix[0])
    ensures GetSessionTimeoutMs(Some(IntToDecimal(n) + suffix)) == Some(n * 60000)
  {
    ParseIntOfDecimal(n, suffix);
    assert IntToDecimal(n) + suffix != "";
  }

  /** Anything below five minutes, zero and negative values included, becomes five minutes. */
  lemma ClampedBelowFloor(n: int, suffix: string)
    requires n < 5
    requires suffix == [] || !IsDigit(suffix[0])
    ensures GetSessionTimeoutMs(Some(IntToDecimal(n) + suffix)) == Some(300000)
  {
    ParseIntOfDecimal(n, suffix);
    assert IntToDecimal(n) + suffix != "";
  }

  /** A longer configured timeout never gives a shorter session. */
  lemma Monotone(n: int, m: int)
    requires n <= m
    ensures var short, long := GetSessionTimeoutMs(Some(IntToDecimal(n))), GetSessionTimeoutMs(Some(IntToDecimal(m)));
      short.Some? && long.Some? && short.value <= long.value
  {
    ParseIntOfDecimal(n, "");
    ParseIntOfDecimal(m, "");
    assert IntToDecimal(n) + "" == IntToDecimal(n);
    assert IntToDecimal(m) + "" == IntToDecimal(m);
  }

  /** A value that does not start with a number is not defaulted: the result is `NaN`. */
  lemma NonNumericIsNaN(s: string)
    requires s != [] && !IsJsWhiteSpace(s[0])
    requires s[0] != '-' && s[0] != '+' && !IsDigit(s[0])
    ensures GetSessionTimeoutMs(Some(s)).None?
  {
    assert TrimStart(s) == s;
    ParseIntNaN(s);
  }
}
