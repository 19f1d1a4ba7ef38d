/**
 * The few JavaScript string operations the storefront relies on, over `seq<char>`:
 * `trim`, `toLowerCase`, `startsWith`, `includes`, `replace(/\\/g, '/')`, `String(n)`
 * for an integer and `parseInt` without a radix.
 *
 * Case mapping covers ASCII letters only and whitespace is the ASCII set that `\s` and
 * `trim` share; the Unicode rest of both is not modelled.
 */
module Text {
  import opened Wrappers

  predicate IsSpace(c: char) {
    c == ' ' || c == '\t' || c == '\n' || c == '\r' || c == '\U{B}' || c == '\U{C}'
  }

  predicate IsUpper(c: char) { 'A' <= c <= 'Z' }

  predicate IsLower(c: char) { 'a' <= c <= 'z' }

  predicate IsLetter(c: char) { IsUpper(c) || IsLower(c) }

  predicate IsDigit(c: char) { '0' <= c <= '9' }

  function LowerChar(c: char): (r: char)
    ensures !IsUpper(r)
    ensures IsUpper(c) ==> r as int == c as int + 32
    ensures !IsUpper(c) ==> r == c
  {
    if IsUpper(c) then (c as int + 32) as char else c
  }

  /** `s.toLowerCase()` on ASCII letters. */
  function ToLower(s: string): (r: string)
    ensures |r| == |s|
    ensures forall i :: 0 <= i < |s| ==> r[i] == LowerChar(s[i])
  {
    seq(|s|, i requires 0 <= i < |s| => LowerChar(s[i]))
  }

  predicate StartsWith(s: string, prefix: string) {
    |prefix| <= |s| && s[..|prefix|] == prefix
  }

  /** `sub` occurs in `s` starting at position `i`. */
  predicate OccursAt(s: string, sub: string, i: int) {
    0 <= i && i + |sub| <= |s| && s[i..i + |sub|] == sub
  }

  /** `s.includes(sub)`: `sub` occurs in `s` at some position. */
  predicate Contains(s: string, sub: string) {
    exists i | 0 <= i <= |s| - |sub| :: OccursAt(s, sub, i)
  }

  lemma ContainsEmpty(s: string)
    ensures Contains(s, "")
  {
    assert OccursAt(s, "", 0);
  }

  /** `s.replace(/\\/g, '/')`. */
  function ReplaceBackslashes(s: string): (r: string)
    ensures |r| == |s|
    ensures forall i :: 0 <= i < |s| ==> r[i] == (if s[i] == '\\' then '/' else s[i])
    ensures forall i :: 0 <= i < |r| ==> r[i] != '\\'
  {
    seq(|s|, i requires 0 <= i < |s| => if s[i] == '\\' then '/' else s[i])
  }

  function TrimStart(s: string): (r: string)
    ensures |r| <= |s| && r == s[|s| - |r|..]
    ensures forall i :: 0 <= i < |s| - |r| ==> IsSpace(s[i])
    ensures |r| > 0 ==> !IsSpace(r[0])
  {
    if |s| > 0 && IsSpace(s[0]) then TrimStart(s[1..]) else s
  }

  function TrimEnd(s: string): (r: string)
    ensures |r| <= |s| && r == s[..|r|]
    ensures forall i :: |r| <= i < |s| ==> IsSpace(s[i])
    ensures |r| > 0 ==> !IsSpace(r[|r| - 1])
  {
    if |s| > 0 && IsSpace(s[|s| - 1]) then TrimEnd(s[..|s| - 1]) else s
  }

  /** `s.trim()`. */
  function Trim(s: string): string {
    TrimEnd(TrimStart(s))
  }

  /** `!s.trim()`: the string is empty or whitespace only. */
  predicate IsBlank(s: string) {
    |s| == 0 || (IsSpace(s[0]) && IsBlank(s[1..]))
  }

  /** A blank string is whitespace throughout. */
  lemma {:induction false} BlankIffAllSpace(s: string)
    ensures IsBlank(s) <==> forall i :: 0 <= i < |s| ==> IsSpace(s[i])
  {
    if |s| > 0 {
      BlankIffAllSpace(s[1..]);
      assert forall i :: 1 <= i < |s| ==> s[i] == s[1..][i - 1];
    }
  }

  /** `!s.trim()` holds exactly when trimming leaves nothing. */
  lemma {:induction false} BlankIffTrimEmpty(s: string)
    ensures IsBlank(s) <==> Trim(s) == ""
  {
    BlankIffAllSpace(s);
    var t := TrimStart(s);
    if IsBlank(s) {
      assert |t| == 0;
    } else {
      var k :| 0 <= k < |s| && !IsSpace(s[k]);
      assert k >= |s| - |t|;
      assert |t| > 0 && !IsSpace(t[0]);
      assert |TrimEnd(t)| > 0;
    }
  }

  /** Trimming never yields a string with leading or trailing whitespace. */
  lemma TrimmedHasNoOuterSpace(s: string)
    ensures Trim(s) == "" || (!IsSpace(Trim(s)[0]) && !IsSpace(Trim(s)[|Trim(s)| - 1]))
  {
    var t := TrimStart(s);
    var u := TrimEnd(t);
    if |u| > 0 {
      assert u[0] == t[0];
    }
  }

  function DigitChar(d: nat): (c: char)
    requires d < 10
    ensures IsDigit(c)
  {
    ('0' as int + d) as char
  }

  function DigitValue(c: char): (d: nat)
    requires IsDigit(c)
    ensures d < 10
  {
    c as int - '0' as int
  }

  predicate AllDigits(s: string) {
    forall i :: 0 <= i < |s| ==> IsDigit(s[i])
  }

  /** The decimal rendering of a natural number, most significant digit first. */
  function NatToString(n: nat): (r: string)
    ensures |r| > 0 && AllDigits(r)
  {
    if n < 10 then [DigitChar(n)] else NatToString(n / 10) + [DigitChar(n % 10)]
  }

  /** `String(n)` for an integer `n`. */
  function IntToString(n: int): (r: string)
    ensures |r| > 0 && (r[0] == '-' || IsDigit(r[0]))
    ensures n < 0 <==> r[0] == '-'
  {
    if n < 0 then "-" + NatToString(-n) else NatToString(n)
  }

  /** After its first character, `String(n)` is all digits. */
  lemma IntToStringDigits(n: int)
    ensures var r := IntToString(n); forall i :: 0 < i < |r| ==> IsDigit(r[i])
  {
  }

  /** The value of a string of decimal digits, read most significant digit first. */
  function DigitsValue(s: string): nat
    requires AllDigits(s)
  {
    if |s| == 0 then 0 else 10 * DigitsValue(s[..|s| - 1]) + DigitValue(s[|s| - 1])
  }

  /** The longest prefix of `s` made of decimal digits. */
  function LeadingDigits(s: string): (r: string)
    ensures AllDigits(r) && StartsWith(s, r)
    ensures |r| < |s| ==> !IsDigit(s[|r|])
  {
    if |s| > 0 && IsDigit(s[0]) then [s[0]] + LeadingDigits(s[1..]) else ""
  }

  predicate IsHexDigit(c: char) { IsDigit(c) || 'a' <= c <= 'f' || 'A' <= c <= 'F' }

  function HexDigitValue(c: char): (d: nat)
    requires IsHexDigit(c)
    ensures d < 16
    ensures IsDigit(c) ==> d == DigitValue(c)
  {
    if IsDigit(c) then DigitValue(c)
    else if 'a' <= c <= 'f' then c as int - 'a' as int + 10
    else c as int - 'A' as int + 10
  }

  predicate AllHexDigits(s: string) {
    forall i :: 0 <= i < |s| ==> IsHexDigit(s[i])
  }

  /** The value of a string of hexadecimal digits, read most significant digit first. */
  function HexDigitsValue(s: string): nat
    requires AllHexDigits(s)
  {
    if |s| == 0 then 0 else 16 * HexDigitsValue(s[..|s| - 1]) + HexDigitValue(s[|s| - 1])
  }

  /** The longest prefix of `s` made of hexadecimal digits. */
  function LeadingHexDigits(s: string): (r: string)
    ensures AllHexDigits(r) && StartsWith(s, r)
    ensures |r| < |s| ==> !IsHexDigit(s[|r|])
  {
    if |s| > 0 && IsHexDigit(s[0]) then [s[0]] + LeadingHexDigits(s[1..]) else ""
  }

  /** A `0x` or `0X` prefix, which switches `parseInt` without a radix to base 16. */
  predicate HasHexPrefix(u: string) {
    |u| >= 2 && u[0] == '0' && (u[1] == 'x' || u[1] == 'X')
  }

  /**
   * The number read after the sign: base 16 after a `0x`/`0X` prefix, base 10 otherwise,
   * as many digits of that base as follow; `None` when there is none.
   */
  function Magnitude(u: string): (r: Option<nat>)
    ensures r.None? <==> (if HasHexPrefix(u) then LeadingHexDigits(u[2..]) else LeadingDigits(u)) == ""
    ensures !HasHexPrefix(u) && r.Some? ==> r.value == DigitsValue(LeadingDigits(u))
    ensures HasHexPrefix(u) && r.Some? ==> r.value == HexDigitsValue(LeadingHexDigits(u[2..]))
  {
    if HasHexPrefix(u) then
      var digits := LeadingHexDigits(u[2..]);
      if digits == "" then None else Some(HexDigitsValue(digits))
    else
      var digits := LeadingDigits(u);
      if digits == "" then None else Some(DigitsValue(digits))
  }

  /**
   * `parseInt(s)` without a radix: skip leading whitespace, take an optional sign, then
   * read the magnitude; `None` stands for `NaN`.
   */
  function ParseInt(s: string): (r: Option<int>)
    ensures r.None? <==> Magnitude(UnsignedPart(TrimStart(s))).None?
    ensures r.Some? ==> r.value == Magnitude(UnsignedPart(TrimStart(s))).value || -r.value == Magnitude(UnsignedPart(TrimStart(s))).value
    ensures r.Some? && r.value < 0 ==> TrimStart(s)[0] == '-'
  {
    var t := TrimStart(s);
    var magnitude := Magnitude(UnsignedPart(t));
    if magnitude.None? then None
    else
      var m: int := magnitude.value;
      if |t| > 0 && t[0] == '-' then Some(-m) else Some(m)
  }

  /** What `parseInt` returns for a string that starts with a digit. */
  lemma ParseIntOfNumeral(u: string)
    requires |u| > 0 && IsDigit(u[0])
    ensures ParseInt(u) == Magnitude(u)
  {
    assert TrimStart(u) == u by {
      assert !IsSpace(u[0]);
    }
    assert UnsignedPart(u) == u;
  }

  /** The hexadecimal prefix is honoured: `parseInt("0x1A")` is 26. */
  lemma ParseIntHex()
    ensures ParseInt("0x1A") == Some(26)
  {
    var u := "0x1A";
    ParseIntOfNumeral(u);
    assert HasHexPrefix(u) && u[2..] == "1A";
    HexDigits1A();
  }

  lemma HexDigits1A()
    ensures LeadingHexDigits("1A") == "1A" && HexDigitsValue("1A") == 26
  {
    assert "1A"[1..] == "A";
    assert "1A"[..1] == "1";
  }

  /** A bare `0x` prefix reads no digit: `parseInt("0x")` is `NaN`. */
  lemma ParseIntBareHexPrefix()
    ensures ParseInt("0x") == None
  {
    var u := "0x";
    ParseIntOfNumeral(u);
    assert HasHexPrefix(u);
    assert LeadingHexDigits(u[2..]) == "" by {
      assert |u[2..]| == 0;
    }
  }

  /** Decimal reading stops at the first non-digit: `parseInt("12px")` is 12. */
  lemma ParseIntStopsAtNonDigit()
    ensures ParseInt("12px") == Some(12)
  {
    var u := "12px";
    ParseIntOfNumeral(u);
    assert !HasHexPrefix(u);
    Digits12px();
  }

  lemma Digits12px()
    ensures LeadingDigits("12px") == "12" && DigitsValue("12") == 12
  {
    assert "12px"[1..] == "2px" && "2px"[1..] == "px";
    assert "12"[..1] == "1";
  }

  /** What follows an optional leading sign. */
  function UnsignedPart(t: string): (r: string)
    ensures |r| <= |t|
  {
    if |t| > 0 && (t[0] == '-' || t[0] == '+') then t[1..] else t
  }

  lemma {:induction false} NatToStringValue(n: nat)
    ensures DigitsValue(NatToString(n)) == n
  {
    if n >= 10 {
      NatToStringValue(n / 10);
      var s := NatToString(n);
      assert s[..|s| - 1] == NatToString(n / 10);
    }
  }

  lemma {:induction false} LeadingDigitsOfDigits(s: string)
    requires AllDigits(s)
    ensures LeadingDigits(s) == s
  {
    if |s| > 0 {
      LeadingDigitsOfDigits(s[1..]);
    }
  }

  /** Rendering an integer and parsing it back gives the integer. */
  lemma ParseIntToString(n: int)
    ensures ParseInt(IntToString(n)) == Some(n)
  {
    var s := IntToString(n);
    var m: nat := if n < 0 then -n else n;
    var digits := NatToString(m);
    assert TrimStart(s) == s by {
      assert !IsSpace(s[0]);
    }
    assert UnsignedPart(s) == digits;
    assert !HasHexPrefix(digits) by {
      assert |digits| >= 2 ==> IsDigit(digits[1]);
    }
    assert LeadingDigits(digits) == digits by {
      LeadingDigitsOfDigits(digits);
    }
    assert DigitsValue(digits) == m by {
      NatToStringValue(m);
    }
  }

  /** `String(a) === String(b)` on integers is the same as `a === b`. */
  lemma IntToStringInjective(a: int, b: int)
    ensures IntToString(a) == IntToString(b) <==> a == b
  {
    if IntToString(a) == IntToString(b) {
      ParseIntToString(a);
      ParseIntToString(b);
    }
  }
}
