/**
 * The string helpers the publisher relies on: `StringUtils.isBlank`,
 * `StringUtils.isNotBlank` and `StringUtils.strip` (commons-lang, whitespace
 * as `Character.isWhitespace` defines it), and the decimal rendering of an
 * `int` that `StringBuilder.append(int)` and string concatenation perform.
 */
module Strings {
  import opened Wrappers

  /** `Character.isWhitespace` as of Java 9 (Unicode 8): the Unicode space,
      line and paragraph separators except the non-breaking ones, plus the
      ASCII controls TAB, LF, VT, FF, CR and FS, GS, RS, US. Java 8 and
      earlier also count U+180E, a space separator before Unicode 6.3. */
  predicate IsWhitespace(c: char) {
    c in WhitespaceChars
  }

  const WhitespaceChars: set<char> := {
    ' ', '\t', '\n', '\U{B}', '\U{C}', '\r', '\U{1C}', '\U{1D}', '\U{1E}', '\U{1F}',
    '\U{1680}',
    '\U{2000}', '\U{2001}', '\U{2002}', '\U{2003}', '\U{2004}', '\U{2005}', '\U{2006}',
    '\U{2008}', '\U{2009}', '\U{200A}',
    '\U{2028}', '\U{2029}', '\U{205F}', '\U{3000}'
  }

  predicate AllWhitespace(s: string) {
    forall i :: 0 <= i < |s| ==> IsWhitespace(s[i])
  }

  /** `StringUtils.isBlank`: null, empty, or whitespace only. */
  predicate IsBlank(s: Option<string>) {
    s.None? || AllWhitespace(s.value)
  }

  /** `StringUtils.isNotBlank`. */
  predicate IsNotBlank(s: Option<string>) {
    !IsBlank(s)
  }

  /** How many whitespace characters `s` starts with. */
  function LeadingWhitespace(s: string): (k: nat)
    ensures k <= |s|
    ensures forall i :: 0 <= i < k ==> IsWhitespace(s[i])
    ensures k == |s| || !IsWhitespace(s[k])
  {
    if s != [] && IsWhitespace(s[0]) then 1 + LeadingWhitespace(s[1..]) else 0
  }

  /** How many whitespace characters `s` ends with. */
  function TrailingWhitespace(s: string): (k: nat)
    ensures k <= |s|
    ensures forall i :: |s| - k <= i < |s| ==> IsWhitespace(s[i])
    ensures k == |s| || !IsWhitespace(s[|s| - k - 1])
  {
    if s != [] && IsWhitespace(s[|s| - 1]) then 1 + TrailingWhitespace(s[..|s| - 1]) else 0
  }

  /** Drops leading whitespace: what is dropped is whitespace, what is kept
      is a suffix of `s` that does not start with whitespace. */
  function StripStart(s: string): (r: string)
    ensures |r| <= |s| && r == s[|s| - |r|..]
    ensures AllWhitespace(s[..|s| - |r|])
    ensures r == [] || !IsWhitespace(r[0])
  {
    s[LeadingWhitespace(s)..]
  }

  /** Drops trailing whitespace: what is dropped is whitespace, what is kept
      is a prefix of `s` that does not end with whitespace. */
  function StripEnd(s: string): (r: string)
    ensures |r| <= |s| && r == s[..|r|]
    ensures AllWhitespace(s[|r|..])
    ensures r == [] || !IsWhitespace(r[|r| - 1])
  {
    s[..|s| - TrailingWhitespace(s)]
  }

  /** `StringUtils.strip(str)`: null stays null; otherwise whitespace is
      removed from both ends. Stripping neither creates nor destroys
      blankness, and what remains starts and ends with non-whitespace. */
  function Strip(s: Option<string>): (r: Option<string>)
    ensures r.None? <==> s.None?
    ensures IsBlank(r) <==> IsBlank(s)
    ensures r.Some? ==> NoWhitespaceAtEnds(r.value)
    ensures s.Some? ==> IsTrimmed(r.value, s.value)
  {
    if s.None? then None else Some(StripBoth(s.value))
  }

  /** Whitespace removed from both ends of a non-null string. */
  function StripBoth(s: string): (r: string)
    ensures AllWhitespace(r) <==> AllWhitespace(s)
    ensures NoWhitespaceAtEnds(r)
    ensures IsTrimmed(r, s)
  {
    StripKeepsBlankness(s);
    StripRemovesOnlyEnds(s);
    StripEnd(StripStart(s))
  }

  /** `s` neither starts nor ends with whitespace. */
  predicate NoWhitespaceAtEnds(s: string) {
    s == [] || (!IsWhitespace(s[0]) && !IsWhitespace(s[|s| - 1]))
  }

  /** `r` is `s` with some leading and some trailing whitespace removed,
      and nothing else. */
  ghost predicate IsTrimmed(r: string, s: string) {
    exists i, j :: 0 <= i <= j <= |s| && r == s[i..j] && AllWhitespace(s[..i]) && AllWhitespace(s[j..])
  }

  /** Stripping removes whitespace at the two ends and nothing else. */
  lemma StripRemovesOnlyEnds(s: string)
    ensures IsTrimmed(StripEnd(StripStart(s)), s)
  {
    var front := StripStart(s);
    var r := StripEnd(front);
    var i := |s| - |front|;
    var j := i + |r|;
    assert r == s[i..j];
    assert s[j..] == front[|r|..];
  }

  /** Whatever `StripEnd(StripStart(s))` leaves is all whitespace exactly
      when `s` is, and it starts and ends with non-whitespace. */
  lemma StripKeepsBlankness(s: string)
    ensures AllWhitespace(StripEnd(StripStart(s))) <==> AllWhitespace(s)
    ensures NoWhitespaceAtEnds(StripEnd(StripStart(s)))
  {
    var front := StripStart(s);
    var k := |s| - |front|;
    var r := StripEnd(front);
    if r != [] {
      assert r[0] == front[0];
    }
    if AllWhitespace(s) {
      assert front == [];
    }
    if AllWhitespace(r) {
      assert front == [] by {
        assert front[|r|..] == front;
      }
      assert s == s[..k];
    }
  }

  /** Value of a decimal digit character. */
  function DigitValue(c: char): int {
    c as int - '0' as int
  }

  predicate IsDigits(s: string) {
    forall i :: 0 <= i < |s| ==> '0' <= s[i] <= '9'
  }

  /** Reads a string of decimal digits. */
  function ParseNat(s: string): nat
    requires IsDigits(s)
  {
    if s == [] then 0 else ParseNat(s[..|s| - 1]) * 10 + DigitValue(s[|s| - 1])
  }

  /** Reads an optionally negated string of decimal digits. */
  function ParseInt(s: string): int
    requires s != [] && (if s[0] == '-' then IsDigits(s[1..]) else IsDigits(s))
  {
    var magnitude: int := if s[0] == '-' then ParseNat(s[1..]) else ParseNat(s);
    if s[0] == '-' then -magnitude else magnitude
  }

  /** Decimal digits of `n`, most significant first, no leading zero. */
  function NatToString(n: nat): (s: string)
    ensures s != [] && IsDigits(s)
    ensures s == "0" || s[0] != '0'
    ensures ParseNat(s) == n
  {
    var d := ('0' as int + n % 10) as char;
    if n < 10 then [d]
    else
      var front := NatToString(n / 10);
      assert n == n / 10 * 10 + n % 10;
      assert front != "0" by {
        assert ParseNat(front) != 0;
      }
      assert (front + [d])[..|front|] == front;
      assert (front + [d])[0] == front[0];
      front + [d]
  }

  /** `String.valueOf(int)`: a minus sign for negative numbers, then the
      digits of the magnitude. Reading the text back gives `n`. */
  function IntToString(n: int): (s: string)
    ensures s != [] && (if s[0] == '-' then IsDigits(s[1..]) else IsDigits(s))
    ensures s[0] == '-' <==> n < 0
    ensures var digits := if s[0] == '-' then s[1..] else s;
      digits != [] && (digits == "0" || digits[0] != '0')
    ensures ParseInt(s) == n
  {
    if n < 0 then
      var digits := NatToString(-n);
      assert ("-" + digits)[1..] == digits;
      "-" + digits
    else NatToString(n)
  }

  /** Distinct numbers print differently. */
  lemma IntToStringInjective(a: int, b: int)
    requires IntToString(a) == IntToString(b)
    ensures a == b
  {
    assert ParseInt(IntToString(a)) == a;
  }
}
