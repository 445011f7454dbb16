/** The JavaScript built-ins the session screens rely on: `String.prototype.trim`
    (only whether its result is empty), `parseInt` without a radix, and `String(n)`
    for an integer n. Characters are Unicode scalar values. */
module JsBuiltins {
  import opened Wrappers
  import opened Digits

  /** WhiteSpace and LineTerminator of ECMAScript: the characters `trim` removes
      and `parseInt` skips. */
  predicate IsWhiteSpace(c: char) {
    || c == '\t' || c == '\n' || c == '\U{B}' || c == '\U{C}' || c == '\r' || c == ' '
    || c == '\U{A0}' || c == '\U{1680}' || ('\U{2000}' <= c <= '\U{200A}')
    || c == '\U{2028}' || c == '\U{2029}' || c == '\U{202F}' || c == '\U{205F}'
    || c == '\U{3000}' || c == '\U{FEFF}'
  }

  /** `s.trim()` is the empty string: s consists of white space only. */
  predicate IsBlank(s: string) {
    forall i :: 0 <= i < |s| ==> IsWhiteSpace(s[i])
  }

  /** s without its leading white space. */
  function TrimStart(s: string): (r: string)
    ensures |r| <= |s| && r == s[|s| - |r|..]
    ensures forall i :: 0 <= i < |s| - |r| ==> IsWhiteSpace(s[i])
    ensures r != [] ==> !IsWhiteSpace(r[0])
  {
    if s != [] && IsWhiteSpace(s[0]) then TrimStart(s[1..]) else s
  }

  lemma TrimStartEmptyIffBlank(s: string)
    ensures TrimStart(s) == [] <==> IsBlank(s)
  {
    var r := TrimStart(s);
    if r != [] {
      assert r[0] == s[|s| - |r|];
    }
  }

  function Signed(negative: bool, v: nat): int {
    if negative then -(v as int) else v
  }

  /** The digits after the sign: radix 16 after a "0x"/"0X" prefix, radix 10
      otherwise; the longest run of digits of that radix is the value, and an
      empty run is NaN (None). */
  function ParseUnsigned(u: string): (r: Option<nat>)
    ensures r.Some? ==> u != [] && IsDigit(u[0])
  {
    if |u| >= 2 && u[0] == '0' && (u[1] == 'x' || u[1] == 'X') then
      var z := LeadingDigits(u[2..], 16);
      if z == [] then None else Some(Value(z, 16))
    else
      var z := LeadingDigits(u, 10);
      if z == [] then None else Some(Value(z, 10))
  }

  /** `parseInt` after the leading white space: one optional sign, then the digits. */
  function ParseSigned(t: string): (r: Option<int>)
    ensures r.Some? ==> |t| >= 1 && (IsDigit(t[0]) || (|t| >= 2 && IsDigit(t[1])))
  {
    var negative := t != [] && t[0] == '-';
    var u := if t != [] && (t[0] == '-' || t[0] == '+') then t[1..] else t;
    match ParseUnsigned(u)
    case None => None
    case Some(v) => Some(Signed(negative, v))
  }

  /** `parseInt(s)`: None stands for NaN. Leading white space is skipped and one
      sign is accepted before the digits. JavaScript's -0 is the integer 0 here:
      both are falsy. */
  function ParseInt(s: string): (r: Option<int>)
    ensures r.Some? ==> !NoDigits(s)
  {
    var t := TrimStart(s);
    assert |t| >= 1 ==> t[0] == s[|s| - |t|];
    assert |t| >= 2 ==> t[1] == s[|s| - |t| + 1];
    ParseSigned(t)
  }

  /** A string without any digit, such as "" or "abc", parses to NaN. */
  lemma ParseIntWithoutDigits(s: string)
    requires NoDigits(s)
    ensures ParseInt(s) == None
  {
  }

  /** `String(n)` for an integer n (no exponent notation). */
  function IntString(n: int): (r: string)
    ensures |r| >= 1 && (r[0] == '-' <==> n < 0)
    ensures n >= 0 ==> AllDigits(r)
  {
    if n < 0 then "-" + DecimalString(-n) else DecimalString(n)
  }

  /** A string starting with something other than white space is its own trim. */
  lemma TrimStartNoLeadingSpace(s: string)
    requires s != [] && !IsWhiteSpace(s[0])
    ensures TrimStart(s) == s
  {
  }

  lemma ParseUnsignedOfDigits(d: string)
    requires d != [] && AllDigits(d)
    ensures ParseUnsigned(d) == Some(Value(d, 10))
  {
    assert !(|d| >= 2 && d[0] == '0' && (d[1] == 'x' || d[1] == 'X')) by {
      if |d| >= 2 {
        assert IsDigit(d[1]);
      }
    }
    LeadingDigitsOfDigits(d, 10);
  }

  /** A non-empty run of decimal digits parses to its value. */
  lemma ParseIntOfDigits(d: string)
    requires d != [] && AllDigits(d)
    ensures ParseInt(d) == Some(Value(d, 10))
  {
    assert IsDigit(d[0]);
    TrimStartNoLeadingSpace(d);
    ParseUnsignedOfDigits(d);
  }

  lemma ParseSignedOfNegatedDigits(d: string)
    requires d != [] && AllDigits(d)
    ensures ParseSigned(['-'] + d) == Some(-(Value(d, 10) as int))
  {
    var t := ['-'] + d;
    assert t[0] == '-' && t[1..] == d;
    ParseUnsignedOfDigits(d);
  }

  /** A minus sign followed by a non-empty run of decimal digits parses to minus its value. */
  lemma ParseIntOfNegatedDigits(d: string)
    requires d != [] && AllDigits(d)
    ensures ParseInt(['-'] + d) == Some(-(Value(d, 10) as int))
  {
    TrimStartNoLeadingSpace(['-'] + d);
    ParseSignedOfNegatedDigits(d);
  }

  /** Reading back what `String(n)` wrote gives n again. */
  lemma IntStringRoundTrip(n: int)
    ensures ParseInt(IntString(n)) == Some(n)
  {
    if n < 0 {
      ParseIntOfNegatedDigits(DecimalString(-n));
    } else {
      ParseIntOfDigits(DecimalString(n));
    }
  }
}
