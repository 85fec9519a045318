/**
  The handful of Python string and integer built-ins the controller relies on:
  `str.isnumeric`, `str.isupper`, `int(...)`, `str(...)`, `str.zfill`,
  clamped slicing and negative list indexing. Characters are restricted to
  ASCII (see README, "Left out").
 */
module PyText {
  import opened Wrappers

  predicate IsDigit(c: char) { '0' <= c <= '9' }

  predicate AllDigits(s: string) { forall i :: 0 <= i < |s| ==> IsDigit(s[i]) }

  /** `s.isnumeric()`: non-empty and made of digits only. */
  predicate IsNumeric(s: string) { |s| > 0 && AllDigits(s) }

  lemma AllDigitsSnoc(s: string, c: char)
    ensures AllDigits(s + [c]) <==> AllDigits(s) && IsDigit(c)
  {
    assert forall i :: 0 <= i < |s| ==> (s + [c])[i] == s[i];
    assert (s + [c])[|s|] == c;
  }

  /** `c.isupper()` for one character. */
  predicate IsUpper(c: char) { 'A' <= c <= 'Z' }

  function DigitValue(c: char): (d: nat)
    requires IsDigit(c)
    ensures d < 10
  {
    c as int - '0' as int
  }

  function DigitChar(d: nat): (c: char)
    requires d < 10
    ensures IsDigit(c) && DigitValue(c) == d
  {
    ('0' as int + d) as char
  }

  /** `int(s)` for a string of decimal digits; leading zeros are allowed. */
  function DigitsValue(s: string): nat
    requires AllDigits(s)
  {
    if s == [] then 0 else DigitsValue(s[..|s| - 1]) * 10 + DigitValue(s[|s| - 1])
  }

  /** `str(n)` for a non-negative integer. */
  function NatToString(n: nat): (s: string)
    ensures IsNumeric(s)
    ensures DigitsValue(s) == n
    ensures |s| > 1 ==> s[0] != '0'
    decreases n
  {
    if n < 10 then
      [DigitChar(n)]
    else
      var p := NatToString(n / 10);
      var s := p + [DigitChar(n % 10)];
      assert s[..|s| - 1] == p;
      s
  }

  /** `str(n)` for any integer. */
  function IntToString(n: int): (s: string)
    ensures |s| >= 1
  {
    if n < 0 then "-" + NatToString(-n) else NatToString(n)
  }

  function Zeros(n: nat): (z: string)
    ensures |z| == n && forall i :: 0 <= i < n ==> z[i] == '0'
  {
    if n == 0 then [] else Zeros(n - 1) + ['0']
  }

  /** `s.zfill(width)`: pad with zeros on the left, after a leading sign. */
  function ZFill(s: string, width: nat): (r: string)
    ensures |r| == if |s| >= width then |s| else width
  {
    if |s| >= width then s
    else if |s| > 0 && (s[0] == '+' || s[0] == '-') then [s[0]] + Zeros(width - |s|) + s[1..]
    else Zeros(width - |s|) + s
  }

  /** Python's `s[i:j]` for non-negative bounds: both ends are clamped to the string. */
  function PySlice(s: string, i: nat, j: nat): (r: string)
    ensures i <= j <= |s| ==> r == s[i..j]
    ensures i <= |s| <= j ==> r == s[i..]
    ensures j <= i || |s| <= i ==> r == []
  {
    var hi := if j <= |s| then j else |s|;
    var lo := if i <= hi then i else hi;
    s[lo..hi]
  }

  /** The element `xs[i]` selects in a Python list of length n, or None for an IndexError. */
  function PyIndex(n: nat, i: int): (r: Option<nat>)
    ensures r.Some? <==> -(n as int) <= i < n
    ensures r.Some? ==> r.value < n
    ensures r.Some? && i >= 0 ==> r.value == i
    ensures r.Some? && i < 0 ==> r.value == n + i
  {
    if 0 <= i < n then Some(i) else if -(n as int) <= i < 0 then Some(n + i) else None
  }

  /** A leading zero does not change the value of a numeral. */
  lemma {:induction false} ZeroPrefix(s: string)
    requires AllDigits(s)
    ensures AllDigits(['0'] + s) && DigitsValue(['0'] + s) == DigitsValue(s)
  {
    if s != [] {
      var t := ['0'] + s;
      assert t[..|t| - 1] == ['0'] + s[..|s| - 1];
      ZeroPrefix(s[..|s| - 1]);
    }
  }

  /** Zero padding, as `zfill` adds it, does not change the value of a numeral. */
  lemma {:induction false} ZerosPrefix(k: nat, s: string)
    requires AllDigits(s)
    ensures AllDigits(Zeros(k) + s) && DigitsValue(Zeros(k) + s) == DigitsValue(s)
  {
    if k > 0 {
      ZeroPrefix(s);
      ZerosPrefix(k - 1, ['0'] + s);
      calc {
        DigitsValue(Zeros(k) + s);
        { assert Zeros(k) + s == Zeros(k - 1) + (['0'] + s); }
        DigitsValue(Zeros(k - 1) + (['0'] + s));
        DigitsValue(['0'] + s);
      }
    } else {
      assert Zeros(k) + s == s;
    }
  }

  function Pow10(k: nat): (p: nat)
    ensures p >= 1
  {
    if k == 0 then 1 else 10 * Pow10(k - 1)
  }

  /** `str(n)` has at most k characters exactly when n is below 10^k. */
  lemma {:induction false} NumeralLength(n: nat, k: nat)
    requires k >= 1
    ensures |NatToString(n)| <= k <==> n < Pow10(k)
  {
    if n >= 10 {
      var q := n / 10;
      assert n == 10 * q + n % 10;
      assert |NatToString(n)| == |NatToString(q)| + 1;
      if k > 1 {
        NumeralLength(q, k - 1);
      } else {
        assert |NatToString(q)| >= 1;
      }
    } else {
      assert |NatToString(n)| == 1;
      if k > 1 {
        assert Pow10(k) == 10 * Pow10(k - 1);
      }
    }
  }

  /** `str(n)` has at most three characters exactly when n is below 1000. */
  lemma ShortNumeral(n: nat)
    ensures |NatToString(n)| <= 3 <==> n < 1000
  {
    NumeralLength(n, 3);
    assert Pow10(3) == 1000;
  }
}
