/**
 * String operations of the JavaScript runtime used by the transport, written
 * out: `String.prototype.trim`, `toUpperCase` on ASCII letters, and the
 * decimal rendering of a non-negative integer.
 */
module Strings {

  /** ECMAScript WhiteSpace and LineTerminator code points, which `trim` removes. */
  predicate IsWhitespace(c: char) {
    || c == '\t' || c == '\n' || c == '\U{000B}' || c == '\U{000C}' || c == '\r'
    || c == ' ' || c == '\U{00A0}' || c == '\U{1680}'
    || ('\U{2000}' <= c <= '\U{200A}')
    || c == '\U{2028}' || c == '\U{2029}' || c == '\U{202F}' || c == '\U{205F}'
    || c == '\U{3000}' || c == '\U{FEFF}'
  }

  /** Every character of `s` is whitespace (the empty string included). */
  predicate AllWhitespace(s: string) {
    forall i :: 0 <= i < |s| ==> IsWhitespace(s[i])
  }

  /** The characters of `s` at positions `lo` up to `hi` are all whitespace. */
  predicate WhitespaceBetween(s: string, lo: int, hi: int)
    requires 0 <= lo <= hi <= |s|
  {
    forall i :: lo <= i < hi ==> IsWhitespace(s[i])
  }

  /** `s` with its leading whitespace removed. */
  function TrimStart(s: string): (r: string)
    ensures |r| <= |s| && r == s[|s| - |r|..]
    ensures r == [] || !IsWhitespace(r[0])
    ensures WhitespaceBetween(s, 0, |s| - |r|)
  {
    if s != [] && IsWhitespace(s[0]) then TrimStart(s[1..]) else s
  }

  /** `s` with its trailing whitespace removed. */
  function TrimEnd(s: string): (r: string)
    ensures |r| <= |s| && r == s[..|r|]
    ensures r == [] || !IsWhitespace(r[|r| - 1])
    ensures WhitespaceBetween(s, |r|, |s|)
  {
    if s != [] && IsWhitespace(s[|s| - 1]) then TrimEnd(s[..|s| - 1]) else s
  }

  /** `s.trim()`: `s` without its leading and trailing whitespace. */
  function Trim(s: string): string {
    TrimEnd(TrimStart(s))
  }

  /**
   * What `trim` keeps neither starts nor ends with whitespace, and it is
   * empty exactly when `s` is all whitespace.
   */
  lemma {:induction false} TrimShape(s: string)
    ensures var r := Trim(s); r == [] || (!IsWhitespace(r[0]) && !IsWhitespace(r[|r| - 1]))
    ensures Trim(s) == [] <==> AllWhitespace(s)
  {
    var t := TrimStart(s);
    TrimEnds(s, t, TrimEnd(t));
  }

  /** `s.trim()` is a slice of `s`, and what it drops on either side is whitespace. */
  lemma {:induction false} TrimIsSlice(s: string)
    ensures var k := |s| - |TrimStart(s)|; var r := Trim(s);
      && k + |r| <= |s| && (forall i :: 0 <= i < |r| ==> r[i] == s[k + i])
      && WhitespaceBetween(s, 0, k) && WhitespaceBetween(s, k + |r|, |s|)
  {
    var t := TrimStart(s);
    var r := TrimEnd(t);
    TrimSlices(s, t, r);
    assert Trim(s) == r;
  }

  /** What `TrimStart` and then `TrimEnd` promise, combined into one slice of `s`. */
  lemma {:induction false} TrimSlices(s: string, t: string, r: string)
    requires |t| <= |s| && t == s[|s| - |t|..] && WhitespaceBetween(s, 0, |s| - |t|)
    requires |r| <= |t| && r == t[..|r|] && WhitespaceBetween(t, |r|, |t|)
    ensures var k := |s| - |t|;
      && k + |r| <= |s| && (forall i :: 0 <= i < |r| ==> r[i] == s[k + i])
      && WhitespaceBetween(s, 0, k) && WhitespaceBetween(s, k + |r|, |s|)
  {
    var k := |s| - |t|;
    forall i | k + |r| <= i < |s| ensures IsWhitespace(s[i]) {
      assert s[i] == t[i - k];
    }
  }

  /** The ends of `TrimEnd(TrimStart(s))`, and when it is empty. */
  lemma {:induction false} TrimEnds(s: string, t: string, r: string)
    requires |t| <= |s| && t == s[|s| - |t|..] && WhitespaceBetween(s, 0, |s| - |t|)
    requires t == [] || !IsWhitespace(t[0])
    requires |r| <= |t| && r == t[..|r|] && WhitespaceBetween(t, |r|, |t|)
    requires r == [] || !IsWhitespace(r[|r| - 1])
    ensures r == [] || (!IsWhitespace(r[0]) && !IsWhitespace(r[|r| - 1]))
    ensures r == [] <==> AllWhitespace(s)
  {
    var k := |s| - |t|;
    assert r == [] ==> t == [];
    assert r != [] ==> r[0] == t[0] && t[0] == s[k];
  }

  /** Trimming a trimmed string changes nothing. */
  lemma {:induction false} TrimIdempotent(s: string)
    ensures Trim(Trim(s)) == Trim(s)
  {
    var r := Trim(s);
    TrimShape(s);
    assert TrimStart(r) == r;
    assert TrimEnd(r) == r;
  }

  /** `c.toUpperCase()` for an ASCII letter; other characters are kept. */
  function UpperChar(c: char): (u: char)
    ensures 'a' <= c <= 'z' ==> 'A' <= u <= 'Z' && u as int == c as int - 32
    ensures !('a' <= c <= 'z') ==> u == c
  {
    if 'a' <= c <= 'z' then (c as int - 32) as char else c
  }

  /** `s.toUpperCase()` restricted to ASCII letters. */
  function ToUpper(s: string): (r: string)
    ensures |r| == |s|
    ensures forall i :: 0 <= i < |s| ==> r[i] == UpperChar(s[i])
  {
    seq(|s|, i requires 0 <= i < |s| => UpperChar(s[i]))
  }

  predicate IsDigit(c: char) {
    '0' <= c <= '9'
  }

  predicate AllDigits(s: string) {
    forall i :: 0 <= i < |s| ==> IsDigit(s[i])
  }

  /** The number a string of decimal digits denotes. */
  function DecimalValue(s: string): nat
    requires AllDigits(s)
  {
    if s == [] then 0
    else DecimalValue(s[..|s| - 1]) * 10 + (s[|s| - 1] as int - '0' as int)
  }

  function DigitChar(d: nat): (c: char)
    requires d < 10
    ensures IsDigit(c) && c as int - '0' as int == d
  {
    ('0' as int + d) as char
  }

  /**
   * `${n}` for a non-negative integer: its decimal digits without leading
   * zeros, which read back as `n`.
   */
  function NatToDecimal(n: nat): (s: string)
    ensures |s| > 0 && AllDigits(s)
    ensures s[0] == '0' ==> s == "0"
    ensures DecimalValue(s) == n
    decreases n
  {
    if n < 10 then [DigitChar(n)]
    else
      var front := NatToDecimal(n / 10);
      var s := front + [DigitChar(n % 10)];
      assert s[..|s| - 1] == front;
      s
  }
}
