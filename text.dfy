/**
 * The JavaScript string behaviour the views rely on, written out by hand:
 * truthiness of an optional string, `toLowerCase` (ASCII letters only),
 * `includes`, `trim`, a digit test, `String(n)` for integers and `parseInt(s, 10)`.
 */
module Text {
  import opened Wrappers

  /** A possibly-null string is truthy when present and non-empty. */
  predicate Truthy(s: Option<string>) {
    s.Some? && s.value != ""
  }

  /** `s || fallback` for a possibly-null string: the string when truthy, else the fallback. */
  function OrElse(s: Option<string>, fallback: string): (r: string)
    ensures Truthy(s) ==> r == s.value
    ensures !Truthy(s) ==> r == fallback
    ensures r == "" <==> fallback == "" && !Truthy(s)
  {
    if Truthy(s) then s.value else fallback
  }

  // ---------------------------------------------------------------- case

  function ToLowerChar(c: char): char {
    if 'A' <= c <= 'Z' then (c as int + 32) as char else c
  }

  /** `s.toLowerCase()` restricted to the ASCII alphabet. */
  function Lower(s: string): (r: string)
    ensures |r| == |s|
    ensures forall i :: 0 <= i < |s| ==> r[i] == ToLowerChar(s[i])
  {
    seq(|s|, i requires 0 <= i < |s| => ToLowerChar(s[i]))
  }

  /** Lower-casing a lower-cased string changes nothing. */
  lemma LowerIdempotent(s: string)
    ensures Lower(Lower(s)) == Lower(s)
  {
  }

  // ---------------------------------------------------------------- includes

  /** `sub` occurs in `s` starting at index `i`. */
  ghost predicate OccursAt(s: string, sub: string, i: int) {
    0 <= i && i + |sub| <= |s| && s[i..i + |sub|] == sub
  }

  /** `s.includes(sub)` */
  predicate Includes(s: string, sub: string)
    decreases |s|
  {
    if |sub| > |s| then false
    else s[..|sub|] == sub || (|s| > 0 && Includes(s[1..], sub))
  }

  /** An occurrence at `i` is found by `Includes` after `i` steps. */
  lemma {:induction false} OccursImpliesIncludes(s: string, sub: string, i: int)
    requires OccursAt(s, sub, i)
    ensures Includes(s, sub)
    decreases i
  {
    if s[..|sub|] != sub {
      assert i > 0;
      assert s[1..][i - 1..i - 1 + |sub|] == s[i..i + |sub|];
      OccursImpliesIncludes(s[1..], sub, i - 1);
    }
  }

  /** Whatever `Includes` finds is an occurrence. */
  lemma {:induction false} IncludesImpliesOccurs(s: string, sub: string)
    requires Includes(s, sub)
    ensures exists i :: OccursAt(s, sub, i)
    decreases |s|
  {
    if s[..|sub|] == sub {
      assert OccursAt(s, sub, 0);
    } else {
      IncludesImpliesOccurs(s[1..], sub);
      var i :| OccursAt(s[1..], sub, i);
      assert s[i + 1..i + 1 + |sub|] == s[1..][i..i + |sub|];
      assert OccursAt(s, sub, i + 1);
    }
  }

  /** `Includes` holds exactly when `sub` occurs somewhere in `s`. */
  lemma IncludesIffOccurs(s: string, sub: string)
    ensures Includes(s, sub) <==> exists i :: OccursAt(s, sub, i)
  {
    if Includes(s, sub) {
      IncludesImpliesOccurs(s, sub);
    }
    forall i | OccursAt(s, sub, i) ensures Includes(s, sub) {
      OccursImpliesIncludes(s, sub, i);
    }
  }

  /** Every string includes the empty string. */
  lemma IncludesEmpty(s: string)
    ensures Includes(s, "")
  {
  }

  // ---------------------------------------------------------------- trim

  /** The characters `String.prototype.trim` removes: WhiteSpace and LineTerminator. */
  predicate IsJsWhitespace(c: char) {
    c == '\t' || c == '\n' || c == '\U{000B}' || c == '\U{000C}' || c == '\r' || c == ' '
    || c == '\U{00A0}' || c == '\U{1680}' || ('\U{2000}' <= c <= '\U{200A}')
    || c == '\U{2028}' || c == '\U{2029}' || c == '\U{202F}' || c == '\U{205F}'
    || c == '\U{3000}' || c == '\U{FEFF}'
  }

  /** Every character of `s` is white space (so the empty string is blank). */
  predicate IsBlank(s: string) {
    forall i :: 0 <= i < |s| ==> IsJsWhitespace(s[i])
  }

  function TrimStart(s: string): (r: string)
    ensures |r| <= |s| && r == s[|s| - |r|..]
    ensures r != [] ==> !IsJsWhitespace(r[0])
    decreases |s|
  {
    if s != [] && IsJsWhitespace(s[0]) then TrimStart(s[1..]) else s
  }

  function TrimEnd(s: string): (r: string)
    ensures |r| <= |s| && r == s[..|r|]
    ensures r != [] ==> !IsJsWhitespace(r[|r| - 1])
    decreases |s|
  {
    if s != [] && IsJsWhitespace(s[|s| - 1]) then TrimEnd(s[..|s| - 1]) else s
  }

  /** `s.trim()` */
  function Trim(s: string): string {
    TrimEnd(TrimStart(s))
  }

  lemma {:induction false} TrimStartEmptyIffBlank(s: string)
    ensures TrimStart(s) == [] <==> IsBlank(s)
    decreases |s|
  {
    if s != [] && IsJsWhitespace(s[0]) {
      TrimStartEmptyIffBlank(s[1..]);
      assert IsBlank(s) <==> IsBlank(s[1..]) by {
        if IsBlank(s[1..]) {
          forall i | 0 <= i < |s| ensures IsJsWhitespace(s[i]) {
            if i > 0 { assert s[i] == s[1..][i - 1]; }
          }
        } else {
          var j :| 0 <= j < |s[1..]| && !IsJsWhitespace(s[1..][j]);
          assert !IsJsWhitespace(s[j + 1]);
        }
      }
    }
  }

  lemma {:induction false} TrimEndOfBlank(s: string)
    requires IsBlank(s)
    ensures TrimEnd(s) == []
    decreases |s|
  {
    if s != [] {
      TrimEndOfBlank(s[..|s| - 1]);
    }
  }

  lemma {:induction false} TrimEndKeepsNonBlank(s: string)
    requires !IsBlank(s)
    ensures TrimEnd(s) != []
    decreases |s|
  {
    if s != [] && IsJsWhitespace(s[|s| - 1]) {
      var t := s[..|s| - 1];
      assert !IsBlank(t) by {
        var i :| 0 <= i < |s| && !IsJsWhitespace(s[i]);
        assert i < |s| - 1 && t[i] == s[i];
      }
      TrimEndKeepsNonBlank(t);
    }
  }

  /** `!s.trim()` holds exactly for the blank strings. */
  lemma TrimEmptyIffBlank(s: string)
    ensures Trim(s) == [] <==> IsBlank(s)
  {
    TrimStartEmptyIffBlank(s);
    var t := TrimStart(s);
    if IsBlank(s) {
      TrimEndOfBlank(t);
    } else {
      assert !IsBlank(t) by { assert t != [] && !IsJsWhitespace(t[0]); }
      TrimEndKeepsNonBlank(t);
    }
  }

  // ---------------------------------------------------------------- digits

  predicate IsAsciiDigit(c: char) {
    '0' <= c <= '9'
  }

  predicate AllDigits(s: string) {
    forall i :: 0 <= i < |s| ==> IsAsciiDigit(s[i])
  }

  /** `/[0-9]/.test(s)` */
  predicate ContainsDigit(s: string) {
    exists i :: 0 <= i < |s| && IsAsciiDigit(s[i])
  }

  function DigitChar(d: nat): (c: char)
    requires d < 10
    ensures IsAsciiDigit(c)
  {
    ('0' as int + d) as char
  }

  function DigitValue(c: char): (d: nat)
    requires IsAsciiDigit(c)
    ensures d < 10
  {
    c as int - '0' as int
  }

  // ---------------------------------------------------------------- String(n)

  /** The decimal rendering of a natural number, no leading zeros. */
  function NatToString(n: nat): (r: string)
    ensures |r| > 0 && AllDigits(r)
    decreases n
  {
    if n < 10 then [DigitChar(n)] else NatToString(n / 10) + [DigitChar(n % 10)]
  }

  /** `String(i)` (equivalently a template-literal interpolation) for an integer. */
  function IntToString(i: int): string {
    if i < 0 then "-" + NatToString(-i) else NatToString(i)
  }

  // ---------------------------------------------------------------- parseInt

  /** The value of a string of decimal digits, most significant first. */
  function DigitsValue(d: string): nat
    requires AllDigits(d)
    decreases |d|
  {
    if d == [] then 0 else DigitsValue(d[..|d| - 1]) * 10 + DigitValue(d[|d| - 1])
  }

  /** The length of the longest prefix of `s` made of decimal digits. */
  function DigitPrefixLength(s: string): (k: nat)
    ensures k <= |s| && AllDigits(s[..k])
    ensures k < |s| ==> !IsAsciiDigit(s[k])
    decreases |s|
  {
    if s != [] && IsAsciiDigit(s[0]) then
      var k := 1 + DigitPrefixLength(s[1..]);
      assert s[..k] == [s[0]] + s[1..][..k - 1];
      k
    else 0
  }

  /** The value of the leading run of digits; `None` when there is none. */
  function ParseDigits(body: string): (r: Option<nat>)
    ensures r.None? <==> body == [] || !IsAsciiDigit(body[0])
  {
    var k := DigitPrefixLength(body);
    if k == 0 then None else Some(DigitsValue(body[..k]))
  }

  /** An optional sign, then the digits. */
  function ParseSigned(t: string): Option<int> {
    var negative := t != [] && t[0] == '-';
    var body := if t != [] && (t[0] == '-' || t[0] == '+') then t[1..] else t;
    match ParseDigits(body)
    case None => None
    case Some(v) => Some(if negative then -(v as int) else v)
  }

  /** `parseInt(s, 10)`; `None` is NaN. */
  function ParseInt10(s: string): Option<int> {
    ParseSigned(TrimStart(s))
  }

  lemma {:induction false} DigitPrefixOfDigits(s: string)
    requires AllDigits(s)
    ensures DigitPrefixLength(s) == |s|
    decreases |s|
  {
    if s != [] {
      DigitPrefixOfDigits(s[1..]);
    }
  }

  lemma {:induction false} DigitsValueOfNatToString(n: nat)
    ensures DigitsValue(NatToString(n)) == n
    decreases n
  {
    var r := NatToString(n);
    if n >= 10 {
      DigitsValueOfNatToString(n / 10);
      assert r[..|r| - 1] == NatToString(n / 10);
    }
  }

  /** A whole string of digits is read as its value. */
  lemma ParseDigitsOfDigits(d: string)
    requires d != [] && AllDigits(d)
    ensures ParseDigits(d) == Some(DigitsValue(d))
  {
    DigitPrefixOfDigits(d);
    assert d[..|d|] == d;
  }

  /** A digit is neither white space nor a sign. */
  lemma DigitIsNotBlankOrSign(c: char)
    requires IsAsciiDigit(c)
    ensures !IsJsWhitespace(c) && c != '-' && c != '+'
  {
  }

  /** Nothing is trimmed from a string that starts with a non-blank character. */
  lemma TrimStartKeeps(s: string)
    requires s != [] && !IsJsWhitespace(s[0])
    ensures TrimStart(s) == s
  {
  }

  /** A non-empty string of digits is read as its value. */
  lemma ParseUnsignedDigits(s: string)
    requires s != [] && AllDigits(s)
    ensures ParseInt10(s) == Some(DigitsValue(s) as int)
  {
    DigitIsNotBlankOrSign(s[0]);
    TrimStartKeeps(s);
    ParseDigitsOfDigits(s);
    assert ParseSigned(s) == Some(DigitsValue(s) as int);
  }

  /** A minus sign followed by a non-empty string of digits is read as the negated value. */
  lemma ParseNegatedDigits(s: string, d: string)
    requires d != [] && AllDigits(d) && s == "-" + d
    ensures ParseInt10(s) == Some(-(DigitsValue(d) as int))
  {
    TrimStartKeeps(s);
    assert s[1..] == d;
    ParseDigitsOfDigits(d);
    assert ParseSigned(s) == Some(-(DigitsValue(d) as int));
  }

  /** `String(i)` of a non-negative integer reads back as itself. */
  lemma ParseNonNegative(i: int)
    requires i >= 0
    ensures ParseInt10(IntToString(i)) == Some(i)
  {
    var s := IntToString(i);
    assert s == NatToString(i);
    DigitsValueOfNatToString(i);
    ParseUnsignedDigits(s);
  }

  /** `String(i)` of a negative integer, a minus sign and the digits of `-i`, reads back as itself. */
  lemma ParseNegative(i: int)
    requires i < 0
    ensures ParseInt10(IntToString(i)) == Some(i)
  {
    var m: nat := -i;
    var s := IntToString(i);
    assert s == "-" + NatToString(m);
    DigitsValueOfNatToString(m);
    ParseNegatedDigits(s, NatToString(m));
  }

  /** Reading back what `String(i)` wrote gives `i` again. */
  lemma ParseIntOfIntToString(i: int)
    ensures ParseInt10(IntToString(i)) == Some(i)
  {
    if i < 0 {
      ParseNegative(i);
    } else {
      ParseNonNegative(i);
    }
  }
}
