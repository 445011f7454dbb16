/** Digit runs of a string and their numeric values, as shared by the Python
    regular expression `\d+`, JavaScript's `/(\d+)/` and JavaScript's `parseInt`. */
module Digits {

  /** The digit a letter or figure stands for in radix 36 (0-9, then a-z or
      A-Z for 10-35), or 36 when the character is no digit in any radix. */
  function CharValue(c: char): (v: nat)
    ensures v <= 36
  {
    if '0' <= c <= '9' then (c as int) - ('0' as int)
    else if 'a' <= c <= 'z' then (c as int) - ('a' as int) + 10
    else if 'A' <= c <= 'Z' then (c as int) - ('A' as int) + 10
    else 36
  }

  predicate IsRadixDigit(c: char, radix: nat) {
    CharValue(c) < radix
  }

  /** An ASCII decimal digit: what `\d` matches in a JavaScript regular expression. */
  predicate IsDigit(c: char) {
    '0' <= c <= '9'
  }

  predicate AllRadixDigits(s: string, radix: nat) {
    forall i :: 0 <= i < |s| ==> IsRadixDigit(s[i], radix)
  }

  predicate AllDigits(s: string) {
    forall i :: 0 <= i < |s| ==> IsDigit(s[i])
  }

  predicate NoDigits(s: string) {
    forall i :: 0 <= i < |s| ==> !IsDigit(s[i])
  }

  /** The value of a run of digits, most significant digit first. */
  function Value(s: string, radix: nat): nat
    requires AllRadixDigits(s, radix)
    decreases |s|
  {
    if s == [] then 0
    else radix * Value(s[..|s| - 1], radix) + CharValue(s[|s| - 1])
  }

  function DecimalValue(s: string): nat
    requires AllDigits(s)
  {
    Value(s, 10)
  }

  /** d is the longest run of radix digits at the start of s. */
  ghost predicate IsMaximalDigitPrefix(d: string, s: string, radix: nat) {
    AllRadixDigits(d, radix) && d <= s && (|d| < |s| ==> !IsRadixDigit(s[|d|], radix))
  }

  /** The longest run of radix digits at the start of s (what an anchored `\d+`
      consumes for radix 10). */
  function LeadingDigits(s: string, radix: nat): (r: string)
    ensures IsMaximalDigitPrefix(r, s, radix)
  {
    if s != [] && IsRadixDigit(s[0], radix) then [s[0]] + LeadingDigits(s[1..], radix) else []
  }

  /** There is only one longest digit prefix: any characterisation of it is LeadingDigits. */
  lemma {:induction false} MaximalDigitPrefixUnique(d: string, s: string, radix: nat)
    requires IsMaximalDigitPrefix(d, s, radix)
    ensures d == LeadingDigits(s, radix)
  {
    var e := LeadingDigits(s, radix);
    assert |d| == |e|;
  }

  lemma {:induction false} LeadingDigitsOfDigits(s: string, radix: nat)
    requires AllRadixDigits(s, radix)
    ensures LeadingDigits(s, radix) == s
  {
    MaximalDigitPrefixUnique(s, s, radix);
  }

  /** The index of the first decimal digit of s, or |s| when s has none:
      where an unanchored `/(\d+)/` starts its match. */
  function FirstDigitIndex(s: string): (k: nat)
    ensures k <= |s|
    ensures forall i :: 0 <= i < k ==> !IsDigit(s[i])
    ensures k < |s| ==> IsDigit(s[k])
  {
    if s == [] || IsDigit(s[0]) then 0 else 1 + FirstDigitIndex(s[1..])
  }

  /** The one-character decimal numeral of a digit value. */
  function DigitChar(d: nat): (c: char)
    requires d < 10
    ensures IsDigit(c) && CharValue(c) == d
  {
    ('0' as int + d) as char
  }

  /** The decimal numeral of n without leading zeros, as JavaScript's `String(n)`
      writes it. */
  function DecimalString(n: nat): (r: string)
    ensures |r| >= 1 && AllDigits(r)
    ensures r[0] == '0' ==> n == 0
    ensures DecimalValue(r) == n
  {
    if n < 10 then
      var r := [DigitChar(n)];
      assert r[..0] == [];
      assert Value(r, 10) == CharValue(r[0]);
      r
    else
      var r := DecimalString(n / 10) + [DigitChar(n % 10)];
      assert r[..|r| - 1] == DecimalString(n / 10);
      r
  }
}
