/**
  Decimal text of integers as `strconv.Itoa` writes it (an optional minus sign,
  then the digits with no leading zero), and its strict inverse.
 */
module Decimal {
  import opened Wrappers

  predicate IsDigit(c: char) {
    '0' <= c <= '9'
  }

  predicate AllDigits(s: string) {
    forall i :: 0 <= i < |s| ==> IsDigit(s[i])
  }

  /** Canonical text of a natural number: at least one digit, no leading zero. */
  predicate IsCanonicalNat(s: string) {
    && |s| >= 1
    && AllDigits(s)
    && (s[0] == '0' ==> |s| == 1)
  }

  function DigitChar(d: nat): (c: char)
    requires d < 10
    ensures IsDigit(c)
  {
    (('0' as int) + d) as char
  }

  function DigitValue(c: char): (d: nat)
    requires IsDigit(c)
    ensures d < 10
    ensures DigitChar(d) == c
  {
    (c as int) - ('0' as int)
  }

  /** The value of a string of digits, most significant digit first. */
  function DigitsValue(s: string): nat
    requires AllDigits(s)
  {
    if |s| == 0 then 0 else 10 * DigitsValue(s[..|s| - 1]) + DigitValue(s[|s| - 1])
  }

  /** Decimal text of a natural number; only zero is written with a leading '0'. */
  function NatToString(n: nat): (s: string)
    ensures IsCanonicalNat(s)
    ensures s[0] == '0' <==> n == 0
    decreases n
  {
    if n < 10 then [DigitChar(n)] else NatToString(n / 10) + [DigitChar(n % 10)]
  }

  /** `strconv.Itoa`: a minus sign exactly for negative values, then the digits of the magnitude. */
  function IntToString(i: int): (s: string)
    ensures |s| >= 1
    ensures s[0] == '-' <==> i < 0
    ensures i >= 0 ==> IsDigit(s[0])
    ensures forall k :: 1 <= k < |s| ==> IsDigit(s[k])
  {
    if i < 0 then "-" + NatToString(-i) else NatToString(i)
  }

  /** Reads back exactly the texts `IntToString` produces and rejects every other string. */
  function StringToInt(s: string): Option<int> {
    if IsCanonicalNat(s) then Some(DigitsValue(s))
    else if |s| >= 2 && s[0] == '-' && s[1] != '0' && IsCanonicalNat(s[1..]) then Some(0 - DigitsValue(s[1..]))
    else None
  }

  lemma {:induction false} DigitsValueOfNatToString(n: nat)
    ensures DigitsValue(NatToString(n)) == n
    decreases n
  {
    var s := NatToString(n);
    if n < 10 {
      assert s[..|s| - 1] == [];
    } else {
      var p := NatToString(n / 10);
      assert s == p + [DigitChar(n % 10)];
      assert s[..|s| - 1] == p;
      DigitsValueOfNatToString(n / 10);
    }
  }

  lemma {:induction false} DigitsValuePositive(s: string)
    requires |s| >= 1 && AllDigits(s) && s[0] != '0'
    ensures DigitsValue(s) >= 1
    decreases |s|
  {
    if |s| > 1 {
      var p := s[..|s| - 1];
      assert p[0] == s[0];
      DigitsValuePositive(p);
    } else {
      assert s[..0] == [];
    }
  }

  lemma {:induction false} NatToStringOfDigitsValue(s: string)
    requires IsCanonicalNat(s)
    ensures NatToString(DigitsValue(s)) == s
    decreases |s|
  {
    var last := s[|s| - 1];
    if |s| == 1 {
      assert s[..0] == [];
      assert s == [last];
    } else {
      var p := s[..|s| - 1];
      assert p[0] == s[0];
      assert IsCanonicalNat(p);
      DigitsValuePositive(p);
      NatToStringOfDigitsValue(p);
      var n := DigitsValue(s);
      assert n / 10 == DigitsValue(p);
      assert n % 10 == DigitValue(last);
      assert s == p + [last];
    }
  }

  /** `StringToInt` is the exact inverse of `IntToString`: it accepts a text iff `IntToString` writes it. */
  lemma StringToIntInverse(s: string, i: int)
    ensures StringToInt(s) == Some(i) <==> s == IntToString(i)
  {
    if s == IntToString(i) {
      if i < 0 {
        var t := NatToString(-i);
        assert s[1..] == t;
        assert !IsCanonicalNat(s);
        DigitsValueOfNatToString(-i);
      } else {
        DigitsValueOfNatToString(i);
      }
    }
    if StringToInt(s) == Some(i) {
      if IsCanonicalNat(s) {
        NatToStringOfDigitsValue(s);
      } else {
        var t := s[1..];
        DigitsValuePositive(t);
        NatToStringOfDigitsValue(t);
        assert s == "-" + t;
      }
    }
  }

  /** The three status codes the handler logs are written as their three digits. */
  lemma StatusCodeTexts()
    ensures IntToString(404) == "404"
    ensures IntToString(415) == "415"
    ensures IntToString(500) == "500"
  {
  }
}
