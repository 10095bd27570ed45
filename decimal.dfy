/** Decimal rendering and reading of numbers, as Python's `str(int)` and `int(str)` do for ASCII digits. */
module Decimal {
  import opened Wrappers

  predicate IsDigit(c: char)
  {
    '0' <= c <= '9'
  }

  predicate AllDigits(s: string)
  {
    forall i :: 0 <= i < |s| ==> IsDigit(s[i])
  }

  function DigitValue(c: char): (d: nat)
    requires IsDigit(c)
    ensures d < 10
  {
    c as int - '0' as int
  }

  function DigitChar(d: nat): (c: char)
    requires d < 10
    ensures IsDigit(c) && DigitValue(c) == d
  {
    ('0' as int + d) as char
  }

  /** The number a string of decimal digits denotes (most significant digit first). */
  function DigitsValue(s: string): nat
    requires AllDigits(s)
    decreases |s|
  {
    if s == [] then 0 else 10 * DigitsValue(s[..|s| - 1]) + DigitValue(s[|s| - 1])
  }

  function Pow10(w: nat): (p: nat)
    ensures p >= 1
  {
    if w == 0 then 1 else 10 * Pow10(w - 1)
  }

  /** Python's `str(n)` for a natural number: shortest decimal form, no leading zero. */
  function NatToString(n: nat): (s: string)
    ensures |s| > 0 && AllDigits(s)
    ensures n > 0 ==> s[0] != '0'
    ensures n < 10 <==> |s| == 1
    decreases n
  {
    if n < 10 then [DigitChar(n)] else NatToString(n / 10) + [DigitChar(n % 10)]
  }

  /** Python's `str(i)` for any integer: a minus sign before the magnitude when negative. */
  function IntToString(i: int): (s: string)
    ensures |s| > 0
    ensures s[0] == '-' <==> i < 0
  {
    if i < 0 then "-" + NatToString(-i) else NatToString(i)
  }

  /** `width` digits of `n`, zero-padded on the left, as `strftime` writes `%d`, `%m` and `%Y`. */
  function Digits(n: nat, width: nat): (s: string)
    ensures |s| == width && AllDigits(s)
    decreases width
  {
    if width == 0 then [] else Digits(n / 10, width - 1) + [DigitChar(n % 10)]
  }

  /** Reads a non-empty string of ASCII digits back as a number. */
  function ParseNat(s: string): (r: Option<nat>)
    ensures r.Some? <==> s != [] && AllDigits(s)
  {
    if s != [] && AllDigits(s) then Some(DigitsValue(s)) else None
  }

  /** Reads an optional minus sign followed by digits back as an integer. */
  function ParseInt(s: string): (r: Option<int>)
    ensures r.Some? && r.value < 0 ==> s != [] && s[0] == '-'
  {
    if s != [] && s[0] == '-' then
      match ParseNat(s[1..])
      case Some(n) => Some(-(n as int))
      case None => None
    else
      match ParseNat(s)
      case Some(n) => Some(n)
      case None => None
  }

  lemma {:induction false} DigitsValueAppend(s: string, c: char)
    requires AllDigits(s) && IsDigit(c)
    ensures AllDigits(s + [c]) && DigitsValue(s + [c]) == 10 * DigitsValue(s) + DigitValue(c)
  {
    assert (s + [c])[..|s + [c]| - 1] == s;
  }

  /** Rendering a number and reading it back gives the number. */
  lemma {:induction false} NatRoundTrip(n: nat)
    ensures ParseNat(NatToString(n)) == Some(n)
    decreases n
  {
    if n < 10 {
      DigitsValueAppend([], DigitChar(n));
      assert [] + [DigitChar(n)] == NatToString(n);
    } else {
      NatRoundTrip(n / 10);
      DigitsValueAppend(NatToString(n / 10), DigitChar(n % 10));
    }
  }

  /** `str` of an integer reads back as that integer, sign included. */
  lemma IntRoundTrip(i: int)
    ensures ParseInt(IntToString(i)) == Some(i)
  {
    var s := IntToString(i);
    if i < 0 {
      NatRoundTrip(-i);
      assert s[1..] == NatToString(-i);
      assert ParseNat(s[1..]) == Some(-i);
    } else {
      NatRoundTrip(i);
      assert s == NatToString(i) && s[0] != '-';
      assert ParseNat(s) == Some(i);
    }
  }

  /** Distinct numbers have distinct renderings. */
  lemma NatToStringInjective(m: nat, n: nat)
    requires NatToString(m) == NatToString(n)
    ensures m == n
  {
    NatRoundTrip(m);
    NatRoundTrip(n);
  }

  /** Zero-padded fixed-width digits read back as the number when it fits the width. */
  lemma {:induction false} DigitsRoundTrip(n: nat, width: nat)
    requires n < Pow10(width)
    ensures DigitsValue(Digits(n, width)) == n
    decreases width
  {
    if width > 0 {
      DigitsRoundTrip(n / 10, width - 1);
      DigitsValueAppend(Digits(n / 10, width - 1), DigitChar(n % 10));
    }
  }
}
