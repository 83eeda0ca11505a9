/**
 * The few PHP string primitives the code generators rely on: integer-to-string
 * conversion, `str_pad(..., STR_PAD_LEFT)`, `substr($s, $offset)` and `intval($s)`.
 * Strings are sequences of characters; only the ASCII behaviour of these
 * functions matters here.
 */
module PhpStrings {

  predicate IsDigit(c: char) {
    '0' <= c <= '9'
  }

  predicate AllDigits(s: string) {
    forall k :: 0 <= k < |s| ==> IsDigit(s[k])
  }

  function DigitValue(c: char): (d: nat)
    requires IsDigit(c)
    ensures d < 10
  {
    c as int - '0' as int
  }

  function DigitChar(d: nat): (c: char)
    requires d < 10
    ensures IsDigit(c) && DigitValue(c) == d
  {
    ('0' as int + d) as char
  }

  /** Decimal rendering of a natural number, without leading zeros. */
  function NatToString(n: nat): (s: string)
    ensures 1 <= |s| && AllDigits(s)
    ensures 1 < |s| ==> s[0] != '0'
  {
    if n < 10 then [DigitChar(n)] else NatToString(n / 10) + [DigitChar(n % 10)]
  }

  /** PHP's conversion of an integer to a string: a minus sign, then the digits of the magnitude. */
  function IntToString(n: int): (s: string)
    ensures 1 <= |s|
    ensures n >= 0 ==> AllDigits(s)
    ensures n < 0 ==> s[0] == '-'
  {
    if n < 0 then "-" + NatToString(-n) else NatToString(n)
  }

  /** `str_pad($s, $length, $pad, STR_PAD_LEFT)` with a one-character pad: never truncates. */
  function StrPadLeft(s: string, length: nat, pad: char): (r: string)
    ensures |r| == if |s| >= length then |s| else length
    ensures r[|r| - |s|..] == s
    ensures forall k :: 0 <= k < |r| - |s| ==> r[k] == pad
  {
    if |s| >= length then s else Repeat(pad, length - |s|) + s
  }

  /** `n` copies of `c`. */
  function Repeat(c: char, n: nat): (r: string)
    ensures |r| == n && forall k :: 0 <= k < n ==> r[k] == c
  {
    if n == 0 then "" else [c] + Repeat(c, n - 1)
  }

  /** `substr($s, $offset)` for a non-negative offset; past the end it yields "" (PHP 8). */
  function Substr(s: string, offset: nat): (r: string)
    ensures offset <= |s| ==> s[..offset] + r == s
    ensures offset > |s| ==> r == ""
  {
    if offset <= |s| then s[offset..] else ""
  }

  /** The value of a string of decimal digits, read from the left. */
  function DigitsValue(ds: string): nat
    requires AllDigits(ds)
  {
    if ds == [] then 0 else DigitsValue(ds[..|ds| - 1]) * 10 + DigitValue(ds[|ds| - 1])
  }

  /** The number of decimal digits at the start of `s`. */
  function LeadingDigitCount(s: string): (n: nat)
    ensures n <= |s|
    ensures forall k :: 0 <= k < n ==> IsDigit(s[k])
    ensures n < |s| ==> !IsDigit(s[n])
  {
    if s == [] || !IsDigit(s[0]) then 0 else 1 + LeadingDigitCount(s[1..])
  }

  function LeadingDigitsValue(s: string): nat {
    var n := LeadingDigitCount(s);
    assert AllDigits(s[..n]);
    DigitsValue(s[..n])
  }

  /**
   * `intval($s)`: an optional sign, then the longest run of digits; a string that
   * does not start with a number gives 0.
   */
  function IntVal(s: string): (r: int)
    ensures AllDigits(s) ==> r == DigitsValue(s)
    ensures s == [] || !(IsDigit(s[0]) || s[0] == '-' || s[0] == '+') ==> r == 0
  {
    if |s| > 0 && s[0] == '-' then 0 - LeadingDigitsValue(s[1..])
    else if |s| > 0 && s[0] == '+' then LeadingDigitsValue(s[1..])
    else
      assert AllDigits(s) ==> s[..LeadingDigitCount(s)] == s;
      LeadingDigitsValue(s)
  }

  function Pow10(k: nat): (p: nat)
    ensures p >= 1
  {
    if k == 0 then 1 else 10 * Pow10(k - 1)
  }

  /** A number below 10^k is rendered in at most k digits. */
  lemma {:induction false} NatToStringFits(n: nat, k: nat)
    requires 1 <= k && n < Pow10(k)
    ensures |NatToString(n)| <= k
  {
    if n >= 10 {
      assert Pow10(1) == 10;
      assert n / 10 < Pow10(k - 1);
      NatToStringFits(n / 10, k - 1);
    }
  }

  /** Reading back the rendering of `n` gives `n`. */
  lemma {:induction false} NatToStringValue(n: nat)
    ensures DigitsValue(NatToString(n)) == n
  {
    if n >= 10 {
      var s := NatToString(n);
      NatToStringValue(n / 10);
      assert s[..|s| - 1] == NatToString(n / 10);
    }
  }

  /** One leading zero does not change the value of a digit string. */
  lemma {:induction false} LeadingZeroValue(ds: string)
    requires AllDigits(ds)
    ensures AllDigits("0" + ds) && DigitsValue("0" + ds) == DigitsValue(ds)
  {
    var zs := "0" + ds;
    if ds != [] {
      var init := ds[..|ds| - 1];
      LeadingZeroValue(init);
      assert zs[..|zs| - 1] == "0" + init;
    }
  }

  /** Any number of leading zeros does not change the value of a digit string. */
  lemma {:induction false} LeadingZerosValue(k: nat, ds: string)
    requires AllDigits(ds)
    ensures AllDigits(Repeat('0', k) + ds)
    ensures DigitsValue(Repeat('0', k) + ds) == DigitsValue(ds)
  {
    if k > 0 {
      var rest := Repeat('0', k - 1) + ds;
      LeadingZerosValue(k - 1, ds);
      LeadingZeroValue(rest);
      assert Repeat('0', k) + ds == "0" + rest;
    } else {
      assert Repeat('0', k) + ds == ds;
    }
  }

  /** `intval` inverts zero-padded rendering of a natural number, whatever the width. */
  lemma PaddedNatValue(n: nat, width: nat)
    ensures AllDigits(StrPadLeft(NatToString(n), width, '0'))
    ensures IntVal(StrPadLeft(NatToString(n), width, '0')) == n
  {
    var s := NatToString(n);
    NatToStringValue(n);
    if |s| < width {
      LeadingZerosValue(width - |s|, s);
    }
  }

  /** Zero-padding a string of digits gives a string of digits. */
  lemma PadDigits(s: string, width: nat)
    requires AllDigits(s)
    ensures AllDigits(StrPadLeft(s, width, '0'))
  {
    var r := StrPadLeft(s, width, '0');
    forall k | 0 <= k < |r|
      ensures IsDigit(r[k])
    {
      if k >= |r| - |s| {
        assert r[k] == r[|r| - |s|..][k - (|r| - |s|)];
      }
    }
  }

  /** Concatenating strings of digits gives a string of digits. */
  lemma ConcatDigits(a: string, b: string)
    requires AllDigits(a) && AllDigits(b)
    ensures AllDigits(a + b)
  {
    assert forall k :: 0 <= k < |a + b| ==> (a + b)[k] == if k < |a| then a[k] else b[k - |a|];
  }
}
