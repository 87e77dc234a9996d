/**
 * Decimal text of integers: Python's `f"{n}"` for the counters in mock names and
 * `int(s)` for the limit settings.
 */
module Decimal {
  import opened Wrappers
  import Text

  function DigitChar(d: nat): (c: char)
    requires d < 10
    ensures Text.IsAsciiDigit(c)
  {
    ('0' as int + d) as char
  }

  function DigitValue(c: char): (d: nat)
    requires Text.IsAsciiDigit(c)
    ensures d < 10 && DigitChar(d) == c
  {
    c as int - '0' as int
  }

  /** Python's `str(n)` for a non-negative integer: its digits, most significant first. */
  function NatToString(n: nat): (r: string)
    ensures Text.IsDigits(r)
    ensures r[0] == '0' ==> n == 0 && r == "0"
    decreases n
  {
    if n < 10 then [DigitChar(n)] else NatToString(n / 10) + [DigitChar(n % 10)]
  }

  /** The value of a non-empty run of ASCII digits (leading zeros allowed). */
  function DigitsValue(s: string): nat
    requires Text.IsDigits(s)
    decreases |s|
  {
    if |s| == 1 then DigitValue(s[0])
    else DigitsValue(s[..|s| - 1]) * 10 + DigitValue(s[|s| - 1])
  }

  /** Python's `int(s)` in base 10 over ASCII: surrounding whitespace, an optional
      sign and at least one digit; any other text raises `ValueError`. */
  function ParseInt(s: string): Option<int> {
    var t := Text.Strip(s);
    if Text.IsDigits(t) then Some(DigitsValue(t) as int)
    else if |t| > 1 && t[0] == '+' && Text.IsDigits(t[1..]) then Some(DigitsValue(t[1..]) as int)
    else if |t| > 1 && t[0] == '-' && Text.IsDigits(t[1..]) then Some(-(DigitsValue(t[1..]) as int))
    else None
  }

  /** Reading back the decimal text of `n` gives `n`. */
  lemma {:induction false} DigitsValueOfNatToString(n: nat)
    ensures DigitsValue(NatToString(n)) == n
    decreases n
  {
    if n >= 10 {
      var r := NatToString(n);
      DigitsValueOfNatToString(n / 10);
      assert r[..|r| - 1] == NatToString(n / 10);
    }
  }

  /** `int(str(n)) == n`. */
  lemma ParseIntOfNatToString(n: nat)
    ensures ParseInt(NatToString(n)) == Some(n)
  {
    var r := NatToString(n);
    Text.StripNoop(r);
    DigitsValueOfNatToString(n);
  }

  /** Distinct counters have distinct decimal texts. */
  lemma NatToStringInjective(m: nat, n: nat)
    requires NatToString(m) == NatToString(n)
    ensures m == n
  {
    DigitsValueOfNatToString(m);
    DigitsValueOfNatToString(n);
  }

  /** `int` ignores whitespace around the number. */
  lemma ParseIntIgnoresPadding(pre: string, s: string, post: string)
    requires Text.AllSpace(pre) && Text.AllSpace(post)
    ensures ParseInt(pre + s + post) == ParseInt(s)
  {
    Text.StripPadding(pre, s, post);
  }

  /** A minus sign in front negates: `int("-" + str(n)) == -n`. */
  lemma ParseIntNegative(n: nat)
    ensures ParseInt("-" + NatToString(n)) == Some(-(n as int))
  {
    var r := NatToString(n);
    var t := "-" + r;
    assert t[0] == '-' && t[1..] == r;
    Text.StripNoop(t);
    assert !Text.IsDigits(t) by {
      assert !Text.IsAsciiDigit(t[0]);
    }
    DigitsValueOfNatToString(n);
  }

  /** Text made only of whitespace is not a number. */
  lemma ParseIntBlank(s: string)
    requires Text.AllSpace(s)
    ensures ParseInt(s) == None
  {
    Text.StripPadding(s, "", []);
    assert s + "" + [] == s;
    Text.StripNoop("");
  }
}
