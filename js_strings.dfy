/** String primitives of the JavaScript runtime that the screenshot assertions
    rely on: `String.prototype.substr`, prefix tests, and the global
    `parseInt` called without a radix. Strings are sequences of Unicode
    scalar values. */
module JsStrings {

  datatype Option<+T> = None | Some(value: T)

  function Min(a: int, b: int): (m: int) { if a <= b then a else b }
  function Max(a: int, b: int): (m: int) { if a <= b then b else a }

  /** `s.substr(start, length)`: a negative start counts from the end and is
      clamped at 0, the length is clamped to what is left of the string. */
  function Substr(s: string, start: int, length: int): (r: string)
    ensures |r| <= |s|
    ensures |r| == Min(Max(length, 0), |s| - (if start < 0 then Max(|s| + start, 0) else Min(start, |s|)))
    ensures var from := if start < 0 then Max(|s| + start, 0) else Min(start, |s|);
      from + |r| <= |s| && r == s[from..from + |r|]
  {
    var from := if start < 0 then Max(|s| + start, 0) else Min(start, |s|);
    var to := Min(from + Max(length, 0), |s|);
    s[from..to]
  }

  predicate StartsWith(s: string, p: string) {
    |p| <= |s| && s[..|p|] == p
  }

  /** The characters `parseInt` skips before the number: the ECMAScript
      WhiteSpace (including every space separator) and LineTerminator sets. */
  predicate IsJsWhitespace(c: char) {
    c == '\t' || c == '\n' || c == '\U{000B}' || c == '\U{000C}' || c == '\r' ||
    c == ' ' || c == '\U{00A0}' || c == '\U{1680}' ||
    ('\U{2000}' <= c <= '\U{200A}') ||
    c == '\U{2028}' || c == '\U{2029}' || c == '\U{202F}' || c == '\U{205F}' ||
    c == '\U{3000}' || c == '\U{FEFF}'
  }

  function SkipWhitespace(s: string): (r: string)
    ensures |r| <= |s| && r == s[|s| - |r|..]
    ensures r == [] || !IsJsWhitespace(r[0])
    ensures forall i :: 0 <= i < |s| - |r| ==> IsJsWhitespace(s[i])
  {
    if s != [] && IsJsWhitespace(s[0]) then SkipWhitespace(s[1..]) else s
  }

  predicate IsDecimalDigit(c: char) { '0' <= c <= '9' }

  predicate IsHexDigit(c: char) {
    IsDecimalDigit(c) || ('a' <= c <= 'f') || ('A' <= c <= 'F')
  }

  /** Digit of radix 16 (when `hex`) or radix 10. */
  predicate IsDigit(c: char, hex: bool) {
    if hex then IsHexDigit(c) else IsDecimalDigit(c)
  }

  function DigitValue(c: char): (v: nat)
    requires IsHexDigit(c)
    ensures v < 16
    ensures IsDecimalDigit(c) ==> v < 10
  {
    if IsDecimalDigit(c) then c as int - '0' as int
    else if 'a' <= c <= 'f' then c as int - 'a' as int + 10
    else c as int - 'A' as int + 10
  }

  /** The longest prefix of `s` made of digits of the radix. */
  function DigitRun(s: string, hex: bool): (r: string)
    ensures |r| <= |s| && r == s[..|r|]
    ensures forall i :: 0 <= i < |r| ==> IsDigit(r[i], hex)
    ensures |r| < |s| ==> !IsDigit(s[|r|], hex)
  {
    if s != [] && IsDigit(s[0], hex) then [s[0]] + DigitRun(s[1..], hex) else []
  }

  /** The number a digit string denotes, most significant digit first. */
  function DigitsValue(ds: string, hex: bool): (v: nat)
    requires forall i :: 0 <= i < |ds| ==> IsDigit(ds[i], hex)
  {
    if ds == [] then 0
    else
      assert IsDigit(ds[|ds| - 1], hex);
      DigitsValue(ds[..|ds| - 1], hex) * (if hex then 16 else 10) + DigitValue(ds[|ds| - 1])
  }

  /** What follows an optional leading sign. */
  function Unsigned(t: string): (u: string)
    ensures u == t || (t != [] && u == t[1..])
  {
    if |t| > 0 && (t[0] == '-' || t[0] == '+') then t[1..] else t
  }

  /** Whether the digits are hexadecimal: the text starts with `0x` or `0X`. */
  predicate HasHexPrefix(u: string) {
    |u| >= 2 && u[0] == '0' && (u[1] == 'x' || u[1] == 'X')
  }

  /** `parseInt(s)` with no radix, `None` standing for NaN: skip leading
      whitespace, read an optional sign, switch to radix 16 after `0x` or
      `0X`, then read the longest run of digits; no digit at all is NaN.
      A number is read only when a decimal digit follows the whitespace and
      the optional sign, and it is negative only after a `-`. */
  function ParseInt(s: string): (r: Option<int>)
    ensures r.Some? ==> var t := SkipWhitespace(s);
      t != [] && (IsDecimalDigit(t[0]) || (|t| > 1 && (t[0] == '-' || t[0] == '+') && IsDecimalDigit(t[1])))
    ensures r.Some? && r.value < 0 ==> SkipWhitespace(s)[0] == '-'
  {
    var t := SkipWhitespace(s);
    var u := Unsigned(t);
    var hex := HasHexPrefix(u);
    var ds := DigitRun(if hex then u[2..] else u, hex);
    if ds == [] then None
    else
      assert u != [] && IsDecimalDigit(u[0]) by {
        if !hex { assert IsDigit(ds[0], false); }
      }
      Some(if |t| > 0 && t[0] == '-' then -(DigitsValue(ds, hex) as int) else DigitsValue(ds, hex))
  }

  /** The decimal rendering of a natural number, as a tool prints it. */
  function Decimal(n: nat): (r: string)
    ensures |r| > 0
    ensures forall i :: 0 <= i < |r| ==> IsDecimalDigit(r[i])
    ensures r[0] == '0' ==> n == 0
  {
    if n < 10 then [(48 + n) as char] else Decimal(n / 10) + [(48 + n % 10) as char]
  }

  lemma {:induction false} DecimalValue(n: nat)
    ensures DigitsValue(Decimal(n), false) == n
  {
    var r := Decimal(n);
    if n >= 10 {
      DecimalValue(n / 10);
      assert r[..|r| - 1] == Decimal(n / 10);
    }
  }

  lemma {:induction false} SkipWhitespacePrefix(ws: string, x: string)
    requires forall i :: 0 <= i < |ws| ==> IsJsWhitespace(ws[i])
    requires x == [] || !IsJsWhitespace(x[0])
    ensures SkipWhitespace(ws + x) == x
  {
    if ws != [] {
      assert (ws + x)[1..] == ws[1..] + x;
      SkipWhitespacePrefix(ws[1..], x);
    }
  }

  lemma DigitRunStops(ds: string, tail: string, hex: bool)
    requires forall i :: 0 <= i < |ds| ==> IsDigit(ds[i], hex)
    requires tail == [] || !IsDigit(tail[0], hex)
    ensures DigitRun(ds + tail, hex) == ds
  {
    var s := ds + tail;
    var r := DigitRun(s, hex);
    assert r == s[..|ds|];
  }

  /** `parseInt` of a string that, after its whitespace, is an unsigned
      decimal number with no hex prefix. */
  lemma ParseUnsigned(s: string, d: string)
    requires SkipWhitespace(s) != [] && IsDecimalDigit(SkipWhitespace(s)[0])
    requires !HasHexPrefix(SkipWhitespace(s))
    requires DigitRun(SkipWhitespace(s), false) == d
    ensures d != [] && ParseInt(s) == Some(DigitsValue(d, false))
  {
    assert Unsigned(SkipWhitespace(s)) == SkipWhitespace(s);
  }

  /** Whatever whitespace precedes it and whatever follows it (short of
      another digit, or an `x` that would turn a lone `0` into a hex
      prefix), `parseInt` reads back the decimal rendering of `n`. */
  lemma ParseDecimal(ws: string, n: nat, tail: string)
    requires forall i :: 0 <= i < |ws| ==> IsJsWhitespace(ws[i])
    requires tail == [] || !IsDecimalDigit(tail[0])
    requires n == 0 ==> tail == [] || (tail[0] != 'x' && tail[0] != 'X')
    ensures ParseInt(ws + Decimal(n) + tail) == Some(n)
  {
    var d := Decimal(n);
    var u := d + tail;
    assert ws + d + tail == ws + u;
    SkipWhitespacePrefix(ws, u);
    assert u[0] == d[0];
    assert !HasHexPrefix(u) by {
      if n == 0 {
        assert d == "0";
        assert |u| >= 2 ==> u[1] == tail[0];
      }
    }
    DigitRunStops(d, tail, false);
    ParseUnsigned(ws + u, d);
    DecimalValue(n);
  }

  /** An output with no decimal digit at all is NaN, whatever letters it
      holds: a hex prefix needs a leading `0`. */
  lemma ParseNoDigits(s: string)
    requires forall i :: 0 <= i < |s| ==> !IsDecimalDigit(s[i])
    ensures ParseInt(s) == None
  {
    var t := SkipWhitespace(s);
    var u := Unsigned(t);
    assert u == s[|s| - |u|..];
    assert u != [] ==> !IsDecimalDigit(u[0]) && !HasHexPrefix(u);
  }
}
