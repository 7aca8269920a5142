/** String helpers of index.js: the quote escaping applied to every boilerplate file
    (index.js:21), the ANSI colour wrappers (index.js:25-28), the decimal rendering of
    a step number inside a template literal, and the subset of JavaScript's parseInt
    that the Node version checks rely on (index.js:74, index.js:99). */
module Text {

  // ---------------------------------------------------------------------------
  // escapeQuotes: string.replace(/("|')/gm, `\\$1`)
  // ---------------------------------------------------------------------------

  predicate IsQuote(c: char) {
    c == '"' || c == '\''
  }

  /** Number of double and single quotes in s. */
  function QuoteCount(s: string): nat {
    if s == [] then 0 else (if IsQuote(s[0]) then 1 else 0) + QuoteCount(s[1..])
  }

  /** Puts one backslash in front of every double or single quote. */
  function EscapeQuotes(s: string): string {
    if s == [] then []
    else if IsQuote(s[0]) then ['\\', s[0]] + EscapeQuotes(s[1..])
    else [s[0]] + EscapeQuotes(s[1..])
  }

  /** The escaped text is one character longer per quote. */
  lemma {:induction false} EscapeQuotesLength(s: string)
    ensures |EscapeQuotes(s)| == |s| + QuoteCount(s)
  {
    if s != [] {
      EscapeQuotesLength(s[1..]);
    }
  }

  /** The escaped text never starts with a quote. */
  lemma {:induction false} EscapeQuotesStart(s: string)
    ensures EscapeQuotes(s) != [] ==> !IsQuote(EscapeQuotes(s)[0])
  {
  }

  /** In the escaped text every quote sits right after a backslash. */
  lemma {:induction false} EscapedQuotesFollowBackslash(s: string, i: nat)
    requires i < |EscapeQuotes(s)| && IsQuote(EscapeQuotes(s)[i])
    ensures 0 < i && EscapeQuotes(s)[i - 1] == '\\'
  {
    var rest := EscapeQuotes(s[1..]);
    if IsQuote(s[0]) {
      assert EscapeQuotes(s) == ['\\', s[0]] + rest;
      if i > 1 {
        EscapedQuotesFollowBackslash(s[1..], i - 2);
      }
    } else {
      assert EscapeQuotes(s) == [s[0]] + rest;
      EscapedQuotesFollowBackslash(s[1..], i - 1);
    }
  }

  /** The inverse reading: drop a backslash that stands right before a quote. */
  function UnescapeQuotes(s: string): string {
    if |s| >= 2 && s[0] == '\\' && IsQuote(s[1]) then [s[1]] + UnescapeQuotes(s[2..])
    else if s == [] then []
    else [s[0]] + UnescapeQuotes(s[1..])
  }

  /** Escaping loses nothing: every character of the input, backslashes included,
      is recovered by undoing the escapes. */
  lemma {:induction false} UnescapeEscapeQuotes(s: string)
    ensures UnescapeQuotes(EscapeQuotes(s)) == s
  {
    if s != [] {
      UnescapeEscapeQuotes(s[1..]);
      var rest := EscapeQuotes(s[1..]);
      EscapeQuotesStart(s[1..]);
      if IsQuote(s[0]) {
        assert EscapeQuotes(s) == ['\\', s[0]] + rest;
        assert (['\\', s[0]] + rest)[2..] == rest;
      } else {
        assert EscapeQuotes(s) == [s[0]] + rest;
        assert ([s[0]] + rest)[1..] == rest;
      }
    }
  }

  // ---------------------------------------------------------------------------
  // Console colours (index.js:25-28)
  // ---------------------------------------------------------------------------

  const Reset := "\U{1b}[0m"

  function Red(s: string): string { "\U{1b}[31m" + s + Reset }
  function Green(s: string): string { "\U{1b}[32m" + s + Reset }
  function Yellow(s: string): string { "\U{1b}[33m" + s + Reset }
  function Bold(s: string): string { "\U{1b}[1m" + s + Reset }

  // ---------------------------------------------------------------------------
  // Decimal digits
  // ---------------------------------------------------------------------------

  predicate IsDigit(c: char) {
    '0' <= c <= '9'
  }

  predicate AllDigits(s: string) {
    forall i :: 0 <= i < |s| ==> IsDigit(s[i])
  }

  function DigitChar(d: nat): (c: char)
    requires d < 10
    ensures IsDigit(c)
  {
    ('0' as int + d) as char
  }

  function DigitValue(c: char): (d: nat)
    requires IsDigit(c)
    ensures d < 10 && DigitChar(d) == c
  {
    c as int - '0' as int
  }

  /** How a non-negative integer appears inside a template literal. */
  function NatToString(n: nat): (r: string)
    ensures r != [] && AllDigits(r)
  {
    if n < 10 then [DigitChar(n)] else NatToString(n / 10) + [DigitChar(n % 10)]
  }

  /** Value of a string of decimal digits, most significant first. */
  function DigitsValue(ds: string): nat
    requires AllDigits(ds)
  {
    if ds == [] then 0 else DigitsValue(ds[..|ds| - 1]) * 10 + DigitValue(ds[|ds| - 1])
  }

  lemma {:induction false} DigitsValueOfNatToString(n: nat)
    ensures DigitsValue(NatToString(n)) == n
  {
    if n >= 10 {
      DigitsValueOfNatToString(n / 10);
      var s := NatToString(n);
      assert s[..|s| - 1] == NatToString(n / 10);
    }
  }

  // ---------------------------------------------------------------------------
  // parseInt(string) with no radix
  // ---------------------------------------------------------------------------

  /** A JavaScript number as parseInt produces it: NaN or an integer. */
  datatype ParsedInt = NaN | Int(value: int)

  /** `p < k` on a parsed number: every comparison with NaN is false. */
  predicate LessThan(p: ParsedInt, k: int) {
    p.Int? && p.value < k
  }

  /** `p >= k` on a parsed number: every comparison with NaN is false. */
  predicate AtLeast(p: ParsedInt, k: int) {
    p.Int? && p.value >= k
  }

  predicate IsSpace(c: char) {
    c == ' ' || c == '\t' || c == '\n' || c == '\r' || c == '\U{b}' || c == '\U{c}'
    || c == '\U{a0}' || c == '\U{1680}' || '\U{2000}' <= c <= '\U{200a}'
    || c == '\U{2028}' || c == '\U{2029}' || c == '\U{202f}' || c == '\U{205f}'
    || c == '\U{3000}' || c == '\U{feff}'
  }

  /** Drops leading white space. */
  function TrimStart(s: string): string {
    if s != [] && IsSpace(s[0]) then TrimStart(s[1..]) else s
  }

  /** The longest prefix of s made of decimal digits. */
  function DigitPrefix(s: string): (r: string)
    ensures AllDigits(r) && |r| <= |s|
  {
    if s != [] && IsDigit(s[0]) then [s[0]] + DigitPrefix(s[1..]) else []
  }

  /** parseInt: skip white space, read an optional sign, then as many decimal digits
      as there are; NaN when there are none. */
  function ParseInt(s: string): ParsedInt {
    var t := TrimStart(s);
    var u := SignStripped(t);
    var ds := DigitPrefix(u);
    if ds == [] then NaN
    else if t[0] == '-' then Int(-(DigitsValue(ds) as int))
    else Int(DigitsValue(ds))
  }

  function SignStripped(t: string): (u: string)
    ensures |u| <= |t|
  {
    if t != [] && (t[0] == '+' || t[0] == '-') then t[1..] else t
  }

  /** A decimal rendering read back by parseInt gives the number, whatever
      non-digit text follows it. */
  lemma {:induction false} ParseIntOfNatToString(n: nat, rest: string)
    requires rest == [] || !IsDigit(rest[0])
    ensures ParseInt(NatToString(n) + rest) == Int(n)
  {
    var s := NatToString(n) + rest;
    assert TrimStart(s) == s;
    assert SignStripped(s) == s;
    DigitPrefixOfDigits(NatToString(n), rest);
    DigitsValueOfNatToString(n);
  }

  lemma {:induction false} DigitPrefixOfDigits(ds: string, rest: string)
    requires AllDigits(ds)
    requires rest == [] || !IsDigit(rest[0])
    ensures DigitPrefix(ds + rest) == ds
  {
    if ds != [] {
      DigitPrefixOfDigits(ds[1..], rest);
      assert (ds + rest)[1..] == ds[1..] + rest;
    }
  }
}
