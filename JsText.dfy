/**
 * The few JavaScript string operations the dashboard relies on, with the
 * behaviour the ECMAScript standard gives them: `toLowerCase` (ASCII letters
 * only), `includes`, `trim`, `split(sep)[0]`, the template-literal rendering
 * of an integer and `parseInt` without a radix.
 */
module JsText {

  datatype Option<T> = None | Some(value: T)

  /** A string value is "truthy" in JavaScript iff it is non-empty; a missing one is falsy. */
  predicate Truthy(o: Option<string>) {
    o.Some? && o.value != ""
  }

  // ---------------------------------------------------------------------
  // toLowerCase, restricted to ASCII letters

  function LowerChar(c: char): (r: char)
    ensures 'A' <= c <= 'Z' ==> r as int == c as int + 32
    ensures !('A' <= c <= 'Z') ==> r == c
  {
    if 'A' <= c <= 'Z' then (c as int + 32) as char else c
  }

  function ToLower(s: string): (r: string)
    ensures |r| == |s|
    ensures forall i :: 0 <= i < |s| ==> r[i] == LowerChar(s[i])
  {
    if s == [] then [] else [LowerChar(s[0])] + ToLower(s[1..])
  }

  lemma ToLowerIdempotent(s: string)
    ensures ToLower(ToLower(s)) == ToLower(s)
  {
  }

  // ---------------------------------------------------------------------
  // String.prototype.includes

  predicate StartsWith(s: string, prefix: string) {
    |prefix| <= |s| && s[..|prefix|] == prefix
  }

  /** `s.includes(search)`: some position of `s` starts an occurrence of `search`. */
  predicate Includes(s: string, search: string)
    decreases |s|
  {
    StartsWith(s, search) || (|s| > 0 && Includes(s[1..], search))
  }

  predicate OccursAt(s: string, search: string, i: int) {
    0 <= i && i + |search| <= |s| && s[i..i + |search|] == search
  }

  /** `Includes` agrees with the definition by occurrence positions. */
  lemma {:induction false} IncludesIffOccurs(s: string, search: string)
    ensures Includes(s, search) <==> exists i :: OccursAt(s, search, i)
    decreases |s|
  {
    if StartsWith(s, search) {
      assert OccursAt(s, search, 0);
    } else if |s| > 0 {
      IncludesIffOccurs(s[1..], search);
      if Includes(s[1..], search) {
        var i :| OccursAt(s[1..], search, i);
        assert s[1..][i..i + |search|] == s[i + 1..i + 1 + |search|];
        assert OccursAt(s, search, i + 1);
      }
      if i :| OccursAt(s, search, i) {
        assert i != 0;
        assert s[1..][i - 1..i - 1 + |search|] == s[i..i + |search|];
        assert OccursAt(s[1..], search, i - 1);
      }
    }
  }

  // ---------------------------------------------------------------------
  // String.prototype.trim (WhiteSpace and LineTerminator code points)

  predicate IsJsWhitespace(c: char) {
    c == '\t' || c == '\n' || c == '\U{000B}' || c == '\U{000C}' || c == '\r'
    || c == ' ' || c == '\U{00A0}' || c == '\U{1680}' || ('\U{2000}' <= c <= '\U{200A}')
    || c == '\U{2028}' || c == '\U{2029}' || c == '\U{202F}' || c == '\U{205F}'
    || c == '\U{3000}' || c == '\U{FEFF}'
  }

  predicate IsBlank(s: string) {
    forall i :: 0 <= i < |s| ==> IsJsWhitespace(s[i])
  }

  function TrimStart(s: string): (r: string)
    ensures |r| <= |s| && r == s[|s| - |r|..]
    ensures IsBlank(s[..|s| - |r|])
    ensures |r| > 0 ==> !IsJsWhitespace(r[0])
  {
    if |s| > 0 && IsJsWhitespace(s[0]) then TrimStart(s[1..]) else s
  }

  function TrimEnd(s: string): (r: string)
    ensures |r| <= |s| && r == s[..|r|]
    ensures IsBlank(s[|r|..])
    ensures |r| > 0 ==> !IsJsWhitespace(r[|r| - 1])
  {
    if |s| > 0 && IsJsWhitespace(s[|s| - 1]) then TrimEnd(s[..|s| - 1]) else s
  }

  function Trim(s: string): string {
    TrimEnd(TrimStart(s))
  }

  /** `s.trim() !== ''` holds exactly when `s` has a character that is not white space. */
  lemma TrimEmptyIffBlank(s: string)
    ensures Trim(s) == "" <==> IsBlank(s)
  {
    var t := TrimStart(s);
    if Trim(s) == "" {
      assert t[0..] == t;
      assert s == s[..|s| - |t|] + t;
    }
  }

  // ---------------------------------------------------------------------
  // s.split(sep)[0]

  /** The part of `s` before the first `sep`, or all of `s` when there is none. */
  function FirstToken(s: string, sep: char): (r: string)
    ensures StartsWith(s, r)
    ensures sep !in r
    ensures |r| < |s| ==> s[|r|] == sep
  {
    if |s| == 0 || s[0] == sep then "" else [s[0]] + FirstToken(s[1..], sep)
  }

  lemma {:induction false} FirstTokenOfConcat(a: string, b: string, sep: char)
    requires sep !in a
    requires |b| > 0 && b[0] == sep
    ensures FirstToken(a + b, sep) == a
  {
    if |a| > 0 {
      assert (a + b)[1..] == a[1..] + b;
      FirstTokenOfConcat(a[1..], b, sep);
    } else {
      assert a + b == b;
    }
  }

  // ---------------------------------------------------------------------
  // Template-literal rendering of an integer: `${n}`

  function DigitChar(d: nat): (c: char)
    requires d < 10
    ensures '0' <= c <= '9' && c as int - '0' as int == d
  {
    (d + '0' as int) as char
  }

  function NatToString(n: nat): (r: string)
    ensures |r| >= 1
    ensures forall i :: 0 <= i < |r| ==> '0' <= r[i] <= '9'
    ensures r[0] == '0' ==> n == 0
    decreases n
  {
    if n < 10 then [DigitChar(n)] else NatToString(n / 10) + [DigitChar(n % 10)]
  }

  function IntToString(n: int): (r: string)
    ensures |r| >= 1 && ' ' !in r
  {
    if n < 0 then "-" + NatToString(-n) else NatToString(n)
  }

  // ---------------------------------------------------------------------
  // parseInt(string) with no radix argument

  /** The value of an alphanumeric digit (0-9, then a/A = 10 onwards), or -1. */
  function DigitValue(c: char): int {
    if '0' <= c <= '9' then c as int - '0' as int
    else if 'a' <= c <= 'z' then c as int - 'a' as int + 10
    else if 'A' <= c <= 'Z' then c as int - 'A' as int + 10
    else -1
  }

  predicate IsDigitIn(c: char, radix: nat) {
    0 <= DigitValue(c) < radix
  }

  /** The longest prefix of `s` made of digits of the given radix. */
  function DigitPrefix(s: string, radix: nat): (r: string)
    ensures StartsWith(s, r)
    ensures forall i :: 0 <= i < |r| ==> IsDigitIn(r[i], radix)
    ensures |r| < |s| ==> !IsDigitIn(s[|r|], radix)
  {
    if |s| > 0 && IsDigitIn(s[0], radix) then [s[0]] + DigitPrefix(s[1..], radix) else ""
  }

  function DigitsValue(ds: string, radix: nat): nat
    requires forall i :: 0 <= i < |ds| ==> IsDigitIn(ds[i], radix)
  {
    if |ds| == 0 then 0
    else
      var init := ds[..|ds| - 1];
      assert forall i :: 0 <= i < |init| ==> init[i] == ds[i];
      assert IsDigitIn(ds[|ds| - 1], radix);
      var d := DigitValue(ds[|ds| - 1]);
      var v := DigitsValue(init, radix);
      ProductNonNegative(v, radix);
      v * radix + d
  }

  lemma ProductNonNegative(a: nat, b: nat)
    ensures a * b >= 0
  {
  }

  /**
   * `parseInt(s)`: leading white space is skipped, then an optional sign, then
   * an optional `0x`/`0X` prefix that switches to radix 16; the longest run of
   * digits that follows is the value. None stands for NaN (no digit at all).
   */
  function ParseInt(s: string): Option<int> {
    var t := TrimStart(s);
    if |t| > 0 && t[0] == '-' then
      match ParseUnsigned(t[1..])
      case None => None
      case Some(v) => Some(-v)
    else if |t| > 0 && t[0] == '+' then ParseUnsigned(t[1..])
    else ParseUnsigned(t)
  }

  /** The part of `parseInt` after the sign: radix prefix, then the digit run. */
  function ParseUnsigned(u: string): Option<int> {
    var hex := |u| >= 2 && u[0] == '0' && (u[1] == 'x' || u[1] == 'X');
    var radix := if hex then 16 else 10;
    var ds := DigitPrefix(if hex then u[2..] else u, radix);
    if ds == "" then None else Some(DigitsValue(ds, radix))
  }

  lemma {:induction false} DigitPrefixOfDigits(s: string, radix: nat)
    requires forall i :: 0 <= i < |s| ==> IsDigitIn(s[i], radix)
    ensures DigitPrefix(s, radix) == s
  {
    if |s| > 0 {
      DigitPrefixOfDigits(s[1..], radix);
    }
  }

  /** The digit run stops at the first character that is not a digit. */
  lemma {:induction false} DigitPrefixOfConcat(ds: string, rest: string, radix: nat)
    requires forall i :: 0 <= i < |ds| ==> IsDigitIn(ds[i], radix)
    requires |rest| > 0 && !IsDigitIn(rest[0], radix)
    ensures DigitPrefix(ds + rest, radix) == ds
  {
    if |ds| > 0 {
      assert (ds + rest)[1..] == ds[1..] + rest;
      DigitPrefixOfConcat(ds[1..], rest, radix);
    } else {
      assert ds + rest == rest;
    }
  }

  lemma {:induction false} DigitsValueOfNatToString(n: nat)
    ensures DigitsValue(NatToString(n), 10) == n
    decreases n
  {
    var s := NatToString(n);
    if n >= 10 {
      DigitsValueOfNatToString(n / 10);
      assert s[..|s| - 1] == NatToString(n / 10);
    }
  }

  /** The unsigned digits of a natural number parse back to it in radix 10. */
  lemma DigitsOfNatToString(m: nat)
    ensures DigitPrefix(NatToString(m), 10) == NatToString(m)
    ensures DigitsValue(NatToString(m), 10) == m
  {
    var digits := NatToString(m);
    assert forall i :: 0 <= i < |digits| ==> IsDigitIn(digits[i], 10);
    DigitPrefixOfDigits(digits, 10);
    DigitsValueOfNatToString(m);
  }

  lemma ParseUnsignedOfNatToString(m: nat)
    ensures ParseUnsigned(NatToString(m)) == Some(m)
  {
    var digits := NatToString(m);
    DigitsOfNatToString(m);
    if digits[0] == '0' {
      assert m == 0 && |digits| == 1;
    }
  }

  lemma TrimStartOfIntToString(n: int)
    ensures TrimStart(IntToString(n)) == IntToString(n)
  {
    var s := IntToString(n);
    if n < 0 {
      assert s[0] == '-';
    } else {
      assert '0' <= s[0] <= '9';
    }
    assert !IsJsWhitespace(s[0]);
    TrimStartUnchanged(s);
  }

  lemma TrimStartUnchanged(s: string)
    requires |s| > 0 && !IsJsWhitespace(s[0])
    ensures TrimStart(s) == s
  {
  }

  /** Parsing the rendering of an integer gives that integer back. */
  lemma ParseIntOfIntToString(n: int)
    ensures ParseInt(IntToString(n)) == Some(n)
  {
    var m: nat := if n < 0 then -n else n;
    ParseUnsignedOfNatToString(m);
    TrimStartOfIntToString(n);
    var s := IntToString(n);
    if n < 0 {
      assert s[1..] == NatToString(m);
    }
  }
}
