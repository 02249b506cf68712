/**
  The Foundation string operations the core relies on: trimming
  `.whitespacesAndNewlines`, `components(separatedBy:)`, and the decimal
  rendering of an `Int` inside string interpolation.
 */
module Text {

  /** Membership in Foundation's `CharacterSet.whitespacesAndNewlines`:
      the Unicode separators (Zs, Zl, Zp), U+0009 to U+000D and U+0085. */
  predicate IsWhitespaceOrNewline(c: char) {
    ('\t' <= c <= '\r') || c == ' ' || c == '\U{0085}' || c == '\U{00A0}' || c == '\U{1680}'
    || ('\U{2000}' <= c <= '\U{200A}') || c == '\U{2028}' || c == '\U{2029}' || c == '\U{202F}'
    || c == '\U{205F}' || c == '\U{3000}'
  }

  predicate IsBlank(s: string) {
    forall i :: 0 <= i < |s| ==> IsWhitespaceOrNewline(s[i])
  }

  /** Neither end of `s` is whitespace. */
  predicate HasNoOuterWhitespace(s: string) {
    s == [] || (!IsWhitespaceOrNewline(s[0]) && !IsWhitespaceOrNewline(s[|s| - 1]))
  }

  /** `r` is the infix `s[lo..hi]`, and everything outside it is whitespace. */
  predicate IsInfixWithin(s: string, r: string, lo: int, hi: int) {
    && 0 <= lo <= hi <= |s| && r == s[lo..hi]
    && (forall i :: 0 <= i < lo ==> IsWhitespaceOrNewline(s[i]))
    && (forall i :: hi <= i < |s| ==> IsWhitespaceOrNewline(s[i]))
  }

  /** `r` is what remains of `s` once some leading and some trailing whitespace is dropped. */
  predicate StripsOnlyWhitespace(s: string, r: string) {
    exists lo, hi :: 0 <= lo <= hi <= |s| && IsInfixWithin(s, r, lo, hi)
  }

  /** Drops leading whitespace: the result is a suffix of `s`, everything dropped is
      whitespace, and the result does not start with whitespace. */
  function TrimStart(s: string): (r: string)
    ensures |r| <= |s| && r == s[|s| - |r|..]
    ensures r == [] || !IsWhitespaceOrNewline(r[0])
    ensures forall i :: 0 <= i < |s| - |r| ==> IsWhitespaceOrNewline(s[i])
  {
    if s != [] && IsWhitespaceOrNewline(s[0]) then TrimStart(s[1..]) else s
  }

  /** Drops trailing whitespace: the result is a prefix of `s`, everything dropped is
      whitespace, and the result does not end with whitespace. */
  function TrimEnd(s: string): (r: string)
    ensures |r| <= |s| && r == s[..|r|]
    ensures r == [] || !IsWhitespaceOrNewline(r[|r| - 1])
    ensures forall i :: |r| <= i < |s| ==> IsWhitespaceOrNewline(s[i])
  {
    if s != [] && IsWhitespaceOrNewline(s[|s| - 1]) then TrimEnd(s[..|s| - 1]) else s
  }

  /** `trimmingCharacters(in: .whitespacesAndNewlines)`: the infix of `s` between its
      leading and trailing whitespace; empty exactly when `s` is all whitespace. */
  function Trim(s: string): (r: string)
    ensures StripsOnlyWhitespace(s, r)
    ensures HasNoOuterWhitespace(r)
    ensures r == [] <==> IsBlank(s)
  {
    var t := TrimStart(s);
    var r := TrimEnd(t);
    TrimmedInfix(s, t, r);
    r
  }

  lemma TrimmedInfix(s: string, t: string, r: string)
    requires t == TrimStart(s) && r == TrimEnd(t)
    ensures StripsOnlyWhitespace(s, r)
    ensures HasNoOuterWhitespace(r)
    ensures r == [] <==> IsBlank(s)
  {
    var lo := |s| - |t|;
    TrimmedBounds(s, t, r);
    if r != [] {
      assert r[0] == t[0];
      assert s[lo] == t[0];
      assert !IsWhitespaceOrNewline(s[lo]);
    }
  }

  /** A prefix `r` of a suffix `t` of `s`, with only whitespace cut off either side,
      is the infix of `s` at `|s| - |t|` with only whitespace around it. */
  lemma TrimmedBounds(s: string, t: string, r: string)
    requires |t| <= |s| && t == s[|s| - |t|..]
    requires forall i :: 0 <= i < |s| - |t| ==> IsWhitespaceOrNewline(s[i])
    requires |r| <= |t| && r == t[..|r|]
    requires forall i :: |r| <= i < |t| ==> IsWhitespaceOrNewline(t[i])
    ensures IsInfixWithin(s, r, |s| - |t|, |s| - |t| + |r|)
  {
    var lo := |s| - |t|;
    var hi := lo + |r|;
    forall k | 0 <= k < |r| ensures r[k] == s[lo + k] {
      assert r[k] == t[k];
    }
    assert r == s[lo..hi];
    forall i | hi <= i < |s| ensures IsWhitespaceOrNewline(s[i]) {
      assert s[i] == t[i - lo];
    }
  }

  function DigitChar(d: int): (c: char)
    requires 0 <= d < 10
    ensures '0' <= c <= '9' && c as int - '0' as int == d
  {
    ('0' as int + d) as char
  }

  predicate IsDigits(s: string) {
    forall i :: 0 <= i < |s| ==> '0' <= s[i] <= '9'
  }

  /** Decimal digits of a natural number, most significant first, no leading zeros. */
  function NatToString(n: nat): (r: string)
    ensures |r| >= 1 && IsDigits(r)
  {
    if n < 10 then [DigitChar(n)] else NatToString(n / 10) + [DigitChar(n % 10)]
  }

  /** How Swift's string interpolation renders an `Int`. */
  function IntToString(i: int): (r: string)
    ensures |r| >= 1 && ':' !in r
  {
    if i < 0 then "-" + NatToString(-i) else NatToString(i)
  }

  function ParseNat(s: string): nat
    requires IsDigits(s)
  {
    if s == [] then 0 else ParseNat(s[..|s| - 1]) * 10 + (s[|s| - 1] as int - '0' as int)
  }

  function ParseInt(s: string): int
    requires |s| >= 1 && (if s[0] == '-' then IsDigits(s[1..]) else IsDigits(s))
  {
    if s[0] == '-' then -(ParseNat(s[1..]) as int) else ParseNat(s)
  }

  lemma {:induction false} ParseNatToString(n: nat)
    ensures ParseNat(NatToString(n)) == n
  {
    if n >= 10 {
      var r := NatToString(n);
      assert r[..|r| - 1] == NatToString(n / 10);
      ParseNatToString(n / 10);
    }
  }

  /** Reading the rendering back gives the number: the rendering loses nothing. */
  lemma IntToStringRoundTrip(i: int)
    ensures var r := IntToString(i); |r| >= 1 && (if r[0] == '-' then IsDigits(r[1..]) else IsDigits(r)) && ParseInt(r) == i
  {
    var r := IntToString(i);
    if i < 0 {
      assert r[1..] == NatToString(-i);
      ParseNatToString(-i);
    } else {
      ParseNatToString(i);
    }
  }

  lemma IntToStringInjective(a: int, b: int)
    requires IntToString(a) == IntToString(b)
    ensures a == b
  {
    IntToStringRoundTrip(a);
    IntToStringRoundTrip(b);
  }

  /** `components(separatedBy:)` with a one-character separator: the pieces between
      separators, in order; the empty string gives one empty piece. */
  function Components(s: string, sep: char): (r: seq<string>)
    ensures |r| >= 1
    ensures sep !in r[0]
    ensures |r[0]| <= |s| && r[0] == s[..|r[0]|]
    ensures |r[0]| < |s| ==> s[|r[0]|] == sep
  {
    if s == [] then [""]
    else if s[0] == sep then [""] + Components(s[1..], sep)
    else
      var t := Components(s[1..], sep);
      [[s[0]] + t[0]] + t[1..]
  }

  function Join(parts: seq<string>, sep: char): string
    requires |parts| >= 1
  {
    if |parts| == 1 then parts[0] else parts[0] + [sep] + Join(parts[1..], sep)
  }

  /** Joining the pieces with the separator gives the original string back. */
  lemma {:induction false} JoinComponents(s: string, sep: char)
    ensures Join(Components(s, sep), sep) == s
  {
    if s == [] {
    } else if s[0] == sep {
      var t := Components(s[1..], sep);
      assert ([""] + t)[1..] == t;
      JoinComponents(s[1..], sep);
    } else {
      var t := Components(s[1..], sep);
      JoinComponents(s[1..], sep);
      var r := [[s[0]] + t[0]] + t[1..];
      if |t| == 1 {
        assert Join(r, sep) == [s[0]] + t[0];
      } else {
        assert r[1..] == t[1..];
        assert Join(t, sep) == t[0] + [sep] + Join(t[1..], sep);
      }
    }
  }
}
