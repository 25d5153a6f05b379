/**
 * The two JavaScript number conversions the application leans on:
 * `parseInt(text, 10)` (NaN is `None`) and the decimal rendering that
 * template literals and `String(n)` apply to an integer.
 */
module JsNumbers {
  import opened Wrappers

  predicate IsDigit(c: char) { '0' <= c <= '9' }

  predicate AllDigits(s: string) { forall i :: 0 <= i < |s| ==> IsDigit(s[i]) }

  function DigitValue(c: char): (d: nat)
    requires IsDigit(c)
    ensures d < 10
  {
    (c as int) - ('0' as int)
  }

  function DigitChar(d: nat): (c: char)
    requires d < 10
    ensures IsDigit(c) && DigitValue(c) == d
  {
    ((('0' as int) + d) as char)
  }

  /** Decimal rendering of a natural number, without leading zeros. */
  function NatToDecimal(n: nat): (s: string)
    ensures |s| > 0 && AllDigits(s)
    ensures s[0] == '0' ==> n == 0
    decreases n
  {
    if n < 10 then [DigitChar(n)] else NatToDecimal(n / 10) + [DigitChar(n % 10)]
  }

  /** `String(n)` for an integer n. */
  function IntToDecimal(n: int): (s: string)
    ensures |s| > 0
    ensures n < 0 <==> s[0] == '-'
  {
    if n < 0 then "-" + NatToDecimal(-n) else NatToDecimal(n)
  }

  /** The value of a string of decimal digits, most significant first. */
  function DigitsValue(s: string): nat
    requires AllDigits(s)
  {
    if s == [] then 0 else DigitsValue(s[..|s| - 1]) * 10 + DigitValue(s[|s| - 1])
  }

  /** Length of the longest prefix of s made of decimal digits. */
  function DigitPrefixLength(s: string): (k: nat)
    ensures k <= |s| && AllDigits(s[..k])
    ensures k < |s| ==> !IsDigit(s[k])
  {
    if s == [] || !IsDigit(s[0]) then 0
    else
      var k := 1 + DigitPrefixLength(s[1..]);
      assert s[..k] == [s[0]] + s[1..][..k - 1];
      k
  }

  /** The white-space and line-terminator characters `parseInt` skips (ASCII blanks, no-break space, byte-order mark, line and paragraph separators; the other Unicode space separators are not modelled). */
  predicate IsJsWhiteSpace(c: char) {
    c == ' ' || c == '\t' || c == '\n' || c == '\r' || c == '\U{B}' || c == '\U{C}'
    || c == '\U{A0}' || c == '\U{FEFF}' || c == '\U{2028}' || c == '\U{2029}'
  }

  function TrimStart(s: string): (t: string)
    ensures |t| <= |s| && t == s[|s| - |t|..]
    ensures t != [] ==> !IsJsWhiteSpace(t[0])
  {
    if s != [] && IsJsWhiteSpace(s[0]) then TrimStart(s[1..]) else s
  }

  /**
   * `parseInt(s, 10)`: skip leading white space, read an optional sign,
   * then the longest run of decimal digits; no digit at all is NaN (`None`).
   */
  function ParseInt(s: string): Option<int>
  {
    var t := TrimStart(s);
    var negative := t != [] && t[0] == '-';
    var body := if t != [] && (t[0] == '-' || t[0] == '+') then t[1..] else t;
    var k := DigitPrefixLength(body);
    if k == 0 then None
    else
      var v: int := DigitsValue(body[..k]);
      Some(if negative then -v else v)
  }

  /** Reading back the digits of a rendering gives the number. */
  lemma {:induction false} DecimalRoundTrip(n: nat)
    ensures DigitsValue(NatToDecimal(n)) == n
    decreases n
  {
    if n >= 10 {
      var s := NatToDecimal(n);
      DecimalRoundTrip(n / 10);
      assert s[..|s| - 1] == NatToDecimal(n / 10);
    }
  }

  /** Digits followed by anything that does not start with a digit: the prefix is exactly the digits. */
  lemma {:induction false} DigitPrefixOfDigits(d: string, rest: string)
    requires AllDigits(d)
    requires rest == [] || !IsDigit(rest[0])
    ensures DigitPrefixLength(d + rest) == |d|
    decreases |d|
  {
    if d != [] {
      assert (d + rest)[1..] == d[1..] + rest;
      DigitPrefixOfDigits(d[1..], rest);
    } else {
      assert d + rest == rest;
    }
  }

  /** The digits of `s` that `ParseInt` reads once the sign, if any, is taken off. */
  lemma ParseIntOfBody(s: string, body: string, negative: bool)
    requires s != [] && !IsJsWhiteSpace(s[0])
    requires negative ==> s[0] == '-' && body == s[1..]
    requires !negative ==> s[0] != '-' && s[0] != '+' && body == s
    requires DigitPrefixLength(body) > 0
    ensures ParseInt(s) == Some(var v: int := DigitsValue(body[..DigitPrefixLength(body)]); if negative then -v else v)
  {
    assert TrimStart(s) == s;
  }

  /**
   * `parseInt` reads back every integer rendering, also when text that does
   * not start with a digit follows it (`parseInt("12 min") == 12`).
   */
  lemma ParseIntOfDecimal(n: int, suffix: string)
    requires suffix == [] || !IsDigit(suffix[0])
    ensures ParseInt(IntToDecimal(n) + suffix) == Some(n)
  {
    var m: nat := if n < 0 then -n else n;
    var digits := NatToDecimal(m);
    DigitPrefixOfDigits(digits, suffix);
    assert (digits + suffix)[..|digits|] == digits;
    DecimalRoundTrip(m);
    if n < 0 {
      var s := "-" + (digits + suffix);
      assert IntToDecimal(n) + suffix == s;
      assert s[1..] == digits + suffix;
      ParseIntOfBody(s, digits + suffix, true);
    } else {
      assert IntToDecimal(n) + suffix == digits + suffix;
      ParseIntOfBody(digits + suffix, digits + suffix, false);
    }
  }

  /** Text whose first non-blank character (after an optional sign) is not a digit parses to NaN. */
  lemma ParseIntNaN(s: string)
    requires var t := TrimStart(s);
      var body := if t != [] && (t[0] == '-' || t[0] == '+') then t[1..] else t;
      body == [] || !IsDigit(body[0])
    ensures ParseInt(s) == None
  {
  }
}
