/**
 * Decimal rendering of Python integers, as `str(int)` produces it: an optional
 * '-' followed by the digits of the absolute value, without leading zeros.
 * A parser is given as its partner so that the rendering can be shown to
 * lose no information.
 */
module Decimal {
  import opened Wrappers

  predicate IsDigit(c: char) {
    '0' <= c <= '9'
  }

  function DigitValue(c: char): (d: nat)
    requires IsDigit(c)
    ensures d < 10
  {
    c as int - '0' as int
  }

  function DigitChar(d: nat): (c: char)
    requires d < 10
    ensures IsDigit(c) && DigitValue(c) == d
  {
    ('0' as int + d) as char
  }

  predicate AllDigits(s: string) {
    forall i :: 0 <= i < |s| ==> IsDigit(s[i])
  }

  /** The number a digit string denotes, read most significant digit first. */
  function DigitsValue(s: string): nat
    requires AllDigits(s)
    decreases |s|
  {
    if s == [] then 0 else DigitsValue(s[..|s| - 1]) * 10 + DigitValue(s[|s| - 1])
  }

  /** A non-empty digit string without a leading zero (except "0" itself). */
  predicate Canonical(s: string) {
    |s| > 0 && AllDigits(s) && (s[0] == '0' ==> |s| == 1)
  }

  function Pow10(k: nat): (p: nat)
    ensures p >= 1
  {
    if k == 0 then 1 else 10 * Pow10(k - 1)
  }

  function Abs(i: int): nat {
    if i < 0 then -i else i
  }

  /** Digits of a natural number, most significant first. */
  function NatToString(n: nat): string
    decreases n
  {
    if n < 10 then [DigitChar(n)] else NatToString(n / 10) + [DigitChar(n % 10)]
  }

  /** `str(i)` for a Python int. */
  function IntToString(i: int): string {
    if i < 0 then "-" + NatToString(-i) else NatToString(i)
  }

  /** Number of decimal digits of |i|, the count CPython compares with its limit. */
  function DigitCount(i: int): nat {
    |NatToString(Abs(i))|
  }

  /** Reads back what IntToString writes; None for anything else. */
  function ParseInt(s: string): Option<int> {
    if |s| > 0 && s[0] == '-' then
      if Canonical(s[1..]) && s[1..] != "0" then Some(-(DigitsValue(s[1..]) as int)) else None
    else if Canonical(s) then Some(DigitsValue(s))
    else None
  }

  lemma {:induction false} NatToStringCorrect(n: nat)
    ensures Canonical(NatToString(n))
    ensures DigitsValue(NatToString(n)) == n
    decreases n
  {
    if n >= 10 {
      var p := NatToString(n / 10);
      var s := NatToString(n);
      NatToStringCorrect(n / 10);
      assert s == p + [DigitChar(n % 10)];
      assert s[..|s| - 1] == p;
      assert s[0] == p[0];
    }
  }

  lemma {:induction false} PositiveLeading(s: string)
    requires Canonical(s) && s[0] != '0'
    ensures DigitsValue(s) > 0
    decreases |s|
  {
    if |s| > 1 {
      var p := s[..|s| - 1];
      assert p[0] == s[0];
      PositiveLeading(p);
    }
  }

  /** Every canonical digit string is the rendering of the number it denotes. */
  lemma {:induction false} CanonicalIsRendering(s: string)
    requires Canonical(s)
    ensures NatToString(DigitsValue(s)) == s
    decreases |s|
  {
    var p := s[..|s| - 1];
    var c := s[|s| - 1];
    if |s| == 1 {
      assert DigitsValue(s) == DigitsValue(p) * 10 + DigitValue(c);
      assert p == [];
      assert DigitChar(DigitValue(c)) == c;
      assert s == [c];
    } else {
      assert p[0] == s[0];
      PositiveLeading(p);
      CanonicalIsRendering(p);
      var n := DigitsValue(s);
      assert n == DigitsValue(p) * 10 + DigitValue(c);
      assert n / 10 == DigitsValue(p) && n % 10 == DigitValue(c);
      assert DigitChar(DigitValue(c)) == c;
      assert s == p + [c];
    }
  }

  /** Parsing undoes rendering. */
  lemma ParseIntToString(i: int)
    ensures ParseInt(IntToString(i)) == Some(i)
  {
    NatToStringCorrect(Abs(i));
    var s := IntToString(i);
    if i < 0 {
      assert s[1..] == NatToString(-i);
    } else {
      assert s[0] != '-';
    }
  }

  /** Rendering undoes parsing: each integer has exactly one decimal form. */
  lemma StringToIntRoundTrip(s: string, i: int)
    requires ParseInt(s) == Some(i)
    ensures IntToString(i) == s
  {
    if |s| > 0 && s[0] == '-' {
      CanonicalIsRendering(s[1..]);
      PositiveLeading(s[1..]);
      assert s == "-" + s[1..];
    } else {
      CanonicalIsRendering(s);
    }
  }

  /** The digit count of n is within k exactly when n < 10^k. */
  lemma {:induction false} DigitCountBound(n: nat, k: nat)
    requires k >= 1
    ensures |NatToString(n)| <= k <==> n < Pow10(k)
    decreases n
  {
    if n >= 10 {
      if k == 1 {
        assert Pow10(1) == 10;
        assert |NatToString(n)| == |NatToString(n / 10)| + 1;
        assert |NatToString(n / 10)| >= 1;
      } else {
        DigitCountBound(n / 10, k - 1);
        assert |NatToString(n)| == |NatToString(n / 10)| + 1;
        assert n / 10 < Pow10(k - 1) <==> n < Pow10(k);
      }
    } else {
      assert |NatToString(n)| == 1;
    }
  }
}
