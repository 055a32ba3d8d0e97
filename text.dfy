/**
 * String operations of the JavaScript runtime that the pipeline relies on:
 * `trim()`-emptiness, `includes`, `Array.prototype.join` and the decimal
 * rendering of a non-negative integer inside a template literal.
 */
module Text {

  /** A code point that `String.prototype.trim` removes: ECMAScript WhiteSpace
      (TAB, VT, FF, ZWNBSP and the Unicode space separators) or LineTerminator
      (LF, CR, LS, PS). */
  predicate IsWhitespace(c: char) {
    c == '\t' || c == '\n' || c == '\U{B}' || c == '\U{C}' || c == '\r' ||
    c == ' ' || c == '\U{A0}' || c == '\U{1680}' ||
    ('\U{2000}' <= c <= '\U{200A}') ||
    c == '\U{2028}' || c == '\U{2029}' || c == '\U{202F}' || c == '\U{205F}' ||
    c == '\U{3000}' || c == '\U{FEFF}'
  }

  /** `s.trim()` is the empty string exactly when every code point of `s` is whitespace. */
  predicate IsBlank(s: string) {
    forall i | 0 <= i < |s| :: IsWhitespace(s[i])
  }

  predicate StartsWith(s: string, prefix: string) {
    |prefix| <= |s| && s[..|prefix|] == prefix
  }

  /** `s.includes(sub)` */
  predicate Contains(s: string, sub: string)
    decreases |s|
  {
    StartsWith(s, sub) || (s != [] && Contains(s[1..], sub))
  }

  /** `xs.join(sep)` */
  function JoinWith(xs: seq<string>, sep: string): string
  {
    if |xs| == 0 then ""
    else if |xs| == 1 then xs[0]
    else JoinWith(xs[..|xs| - 1], sep) + sep + xs[|xs| - 1]
  }

  function DigitChar(d: nat): char
    requires d < 10
  {
    "0123456789"[d]
  }

  /** Decimal rendering of a non-negative integer, as `${n}` produces it. */
  function NatToString(n: nat): (s: string)
    ensures |s| >= 1
    ensures forall i :: 0 <= i < |s| ==> '0' <= s[i] <= '9'
  {
    if n < 10 then [DigitChar(n)] else NatToString(n / 10) + [DigitChar(n % 10)]
  }

  /** The value of a string of decimal digits: the inverse of NatToString. */
  function DecimalValue(s: string): nat
    requires forall i :: 0 <= i < |s| ==> '0' <= s[i] <= '9'
  {
    if s == [] then 0
    else 10 * DecimalValue(s[..|s| - 1]) + ((s[|s| - 1] as int) - ('0' as int))
  }

  lemma {:induction false} DecimalRoundTrip(n: nat)
    ensures DecimalValue(NatToString(n)) == n
  {
    var s := NatToString(n);
    if n >= 10 {
      DecimalRoundTrip(n / 10);
      assert s[..|s| - 1] == NatToString(n / 10);
    }
  }

  lemma {:induction false} NatToStringInjective(m: nat, n: nat)
    requires NatToString(m) == NatToString(n)
    ensures m == n
  {
    DecimalRoundTrip(m);
    DecimalRoundTrip(n);
  }

  lemma StartsWithContains(s: string, sub: string)
    requires StartsWith(s, sub)
    ensures Contains(s, sub)
  {
  }

  lemma {:induction false} BlankConcat(a: string, b: string)
    ensures IsBlank(a + b) <==> IsBlank(a) && IsBlank(b)
  {
    if IsBlank(a + b) {
      forall i | 0 <= i < |a| ensures IsWhitespace(a[i]) { assert a[i] == (a + b)[i]; }
      forall i | 0 <= i < |b| ensures IsWhitespace(b[i]) { assert b[i] == (a + b)[|a| + i]; }
    }
  }

  /** When the separator holds a visible character, a join is blank exactly when
      nothing is joined, or a single blank string is. */
  lemma {:induction false} BlankJoin(xs: seq<string>, sep: string)
    requires !IsBlank(sep)
    ensures IsBlank(JoinWith(xs, sep)) <==> |xs| == 0 || (|xs| == 1 && IsBlank(xs[0]))
  {
    if |xs| >= 2 {
      var init := JoinWith(xs[..|xs| - 1], sep);
      BlankConcat(init + sep, xs[|xs| - 1]);
      BlankConcat(init, sep);
    }
  }
}
