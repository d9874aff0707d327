/**
 * The string operations the capture records are built from: Python's
 * `str()` of an integer, `str.zfill`, and the facts about `_`-separated
 * names that make the generated file names and record ids collision-free.
 */
module Text {

  predicate IsDigit(c: char) {
    '0' <= c <= '9'
  }

  predicate AllDigits(s: string) {
    forall i :: 0 <= i < |s| ==> IsDigit(s[i])
  }

  function DigitChar(d: nat): (c: char)
    requires d < 10
    ensures IsDigit(c)
  {
    ('0' as int + d) as char
  }

  function DigitValue(c: char): (d: nat)
    requires IsDigit(c)
    ensures d < 10 && DigitChar(d) == c
  {
    c as int - '0' as int
  }

  /** `str(n)` for a non-negative Python int: its decimal digits, no leading zero. */
  function NatToString(n: nat): (s: string)
    ensures |s| > 0 && AllDigits(s)
    ensures n >= 10 <==> |s| > 1
    ensures |s| > 1 ==> s[0] != '0'
    decreases n
  {
    if n < 10 then [DigitChar(n)]
    else
      var front := NatToString(n / 10);
      assert |front| == 1 ==> front[0] == DigitChar(n / 10) && n / 10 != 0;
      front + [DigitChar(n % 10)]
  }

  /** `str(n)` for any Python int: a minus sign in front of the digits of a negative number. */
  function IntToString(n: int): (s: string)
    ensures |s| > 0
    ensures (s[0] == '-') <==> n < 0
    ensures forall i :: 0 <= i < |s| ==> IsDigit(s[i]) || (i == 0 && s[i] == '-')
    ensures n < 0 ==> |s| > 1 && (|s| > 2 ==> s[1] != '0')
    ensures n >= 0 ==> (|s| > 1 ==> s[0] != '0')
  {
    if n < 0 then "-" + NatToString(-n) else NatToString(n)
  }

  /** The value of a run of decimal digits; leading zeros are allowed. */
  function ParseDigits(s: string): nat
    requires AllDigits(s)
  {
    if s == [] then 0 else 10 * ParseDigits(s[..|s| - 1]) + DigitValue(s[|s| - 1])
  }

  /** The value of an optionally signed decimal numeral, as Python's `int()` reads it. */
  function ParseSigned(s: string): int
    requires IsNumeral(s)
  {
    if |s| > 0 && s[0] == '-' then -(ParseDigits(s[1..]) as int) else ParseDigits(s)
  }

  function Zeros(k: nat): (z: string)
    ensures |z| == k && AllDigits(z)
  {
    seq(k, i => '0')
  }

  /**
   * Python's `s.zfill(width)`: a string at least `width` long is returned
   * unchanged; a shorter one is padded with '0' on the left, after its
   * leading sign if it has one.
   */
  function ZFill(s: string, width: nat): (r: string)
    ensures |r| == if |s| >= width then |s| else width
    ensures |s| >= width ==> r == s
    ensures forall i :: 0 <= i < |r| ==> r[i] in s || r[i] == '0'
  {
    if |s| >= width then s
    else if |s| > 0 && (s[0] == '+' || s[0] == '-') then [s[0]] + Zeros(width - |s|) + s[1..]
    else Zeros(width - |s|) + s
  }

  lemma {:induction false} NatToStringRoundTrip(n: nat)
    ensures ParseDigits(NatToString(n)) == n
    decreases n
  {
    if n >= 10 {
      var s := NatToString(n);
      assert s[..|s| - 1] == NatToString(n / 10);
      NatToStringRoundTrip(n / 10);
    }
  }

  lemma {:induction false} ZerosAreZero(k: nat)
    ensures ParseDigits(Zeros(k)) == 0
  {
    if k > 0 {
      assert Zeros(k)[..k - 1] == Zeros(k - 1);
      ZerosAreZero(k - 1);
    }
  }

  /** Leading zeros do not change the value of a numeral. */
  lemma {:induction false} LeadingZeros(k: nat, s: string)
    requires AllDigits(s)
    ensures AllDigits(Zeros(k) + s)
    ensures ParseDigits(Zeros(k) + s) == ParseDigits(s)
    decreases |s|
  {
    var t := Zeros(k) + s;
    if s == [] {
      assert t == Zeros(k);
      ZerosAreZero(k);
    } else {
      assert t[..|t| - 1] == Zeros(k) + s[..|s| - 1];
      LeadingZeros(k, s[..|s| - 1]);
    }
  }

  /** A numeral `int()` accepts: digits, optionally after a minus sign. */
  predicate IsNumeral(s: string) {
    AllDigits(s) || (|s| > 0 && s[0] == '-' && AllDigits(s[1..]))
  }

  lemma NonNegativeRoundTrip(n: nat, width: nat)
    ensures IsNumeral(ZFill(IntToString(n), width))
    ensures ParseSigned(ZFill(IntToString(n), width)) == n
  {
    var s := NatToString(n);
    NatToStringRoundTrip(n);
    if |s| < width {
      LeadingZeros(width - |s|, s);
      assert ZFill(IntToString(n), width) == Zeros(width - |s|) + s;
    } else {
      assert ZFill(IntToString(n), width) == s;
    }
  }

  /** A minus sign followed by digits reads as the negated value of the digits. */
  lemma ParseNegative(r: string)
    requires |r| > 0 && r[0] == '-' && AllDigits(r[1..])
    ensures IsNumeral(r) && ParseSigned(r) == -(ParseDigits(r[1..]) as int)
  {
  }

  /** Zero-padding a negative numeral puts the zeros after its minus sign. */
  lemma SignedPadShape(d: string, width: nat)
    requires 1 + |d| < width
    ensures var r := ZFill("-" + d, width);
      |r| > 0 && r[0] == '-' && r[1..] == Zeros(width - 1 - |d|) + d
  {
    var s := "-" + d;
    assert s[0] == '-' && s[1..] == d;
    assert ZFill(s, width) == [s[0]] + Zeros(width - |s|) + s[1..];
  }

  /** Padding a minus sign and a run of digits keeps the sign in front and the value. */
  lemma SignedPadRoundTrip(d: string, width: nat)
    requires |d| > 0 && AllDigits(d)
    ensures IsNumeral(ZFill("-" + d, width))
    ensures ParseSigned(ZFill("-" + d, width)) == -(ParseDigits(d) as int)
  {
    var r := ZFill("-" + d, width);
    if 1 + |d| < width {
      SignedPadShape(d, width);
      LeadingZeros(width - 1 - |d|, d);
    } else {
      assert r == "-" + d;
      assert r[1..] == d;
    }
    ParseNegative(r);
  }

  lemma NegativeRoundTrip(n: int, width: nat)
    requires n < 0
    ensures IsNumeral(ZFill(IntToString(n), width))
    ensures ParseSigned(ZFill(IntToString(n), width)) == n
  {
    var d := NatToString(-n);
    assert IntToString(n) == "-" + d;
    NatToStringRoundTrip(-n);
    SignedPadRoundTrip(d, width);
  }

  /**
   * The zero-padded numeral reads back as the number it was made from:
   * padding `str(n)` never loses or changes the value, whatever the width
   * and whatever the sign of `n`.
   */
  lemma ZFillRoundTrip(n: int, width: nat)
    ensures IsNumeral(ZFill(IntToString(n), width))
    ensures ParseSigned(ZFill(IntToString(n), width)) == n
  {
    if n < 0 {
      NegativeRoundTrip(n, width);
    } else {
      NonNegativeRoundTrip(n, width);
    }
  }

  /** Distinct integers give distinct padded numerals. */
  lemma ZFillInjective(m: int, n: int, width: nat)
    requires m != n
    ensures ZFill(IntToString(m), width) != ZFill(IntToString(n), width)
  {
    ZFillRoundTrip(m, width);
    ZFillRoundTrip(n, width);
  }

  /**
   * Two names that start alike and continue with different `_`-free
   * fields, each closed by `_`, are different names.
   */
  lemma SeparatedFieldsDiffer(p: string, a: string, b: string, x: string, y: string)
    requires '_' !in a && '_' !in b && a != b
    ensures p + a + "_" + x != p + b + "_" + y
  {
    var l, r := p + a + "_" + x, p + b + "_" + y;
    if |a| == |b| {
      assert !(forall i :: 0 <= i < |a| ==> a[i] == b[i]);
      var i :| 0 <= i < |a| && a[i] != b[i];
      assert l[|p| + i] == a[i] && r[|p| + i] == b[i];
    } else if |a| < |b| {
      assert l[|p| + |a|] == '_' && r[|p| + |a|] == b[|a|];
      assert b[|a|] in b;
    } else {
      assert r[|p| + |b|] == '_' && l[|p| + |b|] == a[|b|];
      assert a[|b|] in a;
    }
  }

  /** Putting the same text in front of two different strings keeps them different. */
  lemma PrefixKeepsDifference(p: string, a: string, b: string)
    requires a != b
    ensures p + a != p + b
  {
    assert (p + a)[|p|..] == a;
    assert (p + b)[|p|..] == b;
  }

  /** Two strings that agree up to a point and then differ in their next character are different. */
  lemma DifferAfterPrefix(p: string, a: string, b: string)
    requires |a| > 0 && |b| > 0 && a[0] != b[0]
    ensures p + a != p + b
  {
    assert (p + a)[|p|] == a[0] && (p + b)[|p|] == b[0];
  }

  /** `str(n)` and its zero-padded form never contain the `_` separator. */
  lemma PaddedHasNoSeparator(n: int, width: nat)
    ensures '_' !in ZFill(IntToString(n), width)
  {
    var s := IntToString(n);
    var r := ZFill(s, width);
    forall i | 0 <= i < |r| ensures r[i] != '_' {
      if r[i] in s {
        var j :| 0 <= j < |s| && s[j] == r[i];
      }
    }
  }
}
