/** The string operations the components apply: `toUpperCase`, `trim`, `replace` with a
    string pattern, and the decimal text of an integer inside a template literal. */
module Text {
  import opened Common

  // ---------------------------------------------------------------------------
  // Upper-casing

  predicate IsLowerAscii(c: char) { 'a' <= c <= 'z' }

  /** Upper-case one character; only the ASCII letters are mapped. */
  function UpperChar(c: char): (u: char)
    ensures !IsLowerAscii(u)
    ensures IsLowerAscii(c) ==> u as int == c as int - 32
    ensures !IsLowerAscii(c) ==> u == c
  {
    if IsLowerAscii(c) then (c as int - 32) as char else c
  }

  /** `s.toUpperCase()`: every character upper-cased in place. */
  function Upper(s: string): (r: string)
    ensures |r| == |s|
    ensures forall i :: 0 <= i < |s| ==> r[i] == UpperChar(s[i])
    ensures forall i :: 0 <= i < |r| ==> !IsLowerAscii(r[i])
  {
    seq(|s|, i requires 0 <= i < |s| => UpperChar(s[i]))
  }

  /** `s.charAt(0).toUpperCase() + s.slice(1)`. */
  function Capitalize(s: string): (r: string)
    ensures |r| == |s|
    ensures s != [] ==> r[0] == UpperChar(s[0]) && r[1..] == s[1..]
  {
    if s == [] then [] else [UpperChar(s[0])] + s[1..]
  }

  // ---------------------------------------------------------------------------
  // Trimming

  /** The characters `String.prototype.trim` removes: the ECMAScript WhiteSpace
      (tab, vertical tab, form feed, ZWNBSP and every space separator) and the
      LineTerminator characters. */
  predicate IsWhitespace(c: char)
  {
    || c == '\t' || c == '\n' || c == '\U{B}' || c == '\U{C}' || c == '\r'
    || c == ' ' || c == '\U{A0}' || c == '\U{1680}'
    || ('\U{2000}' <= c <= '\U{200A}')
    || c == '\U{2028}' || c == '\U{2029}' || c == '\U{202F}' || c == '\U{205F}'
    || c == '\U{3000}' || c == '\U{FEFF}'
  }

  /** Drop leading whitespace. */
  function TrimStart(s: string): (r: string)
    ensures |r| <= |s| && r == s[|s| - |r|..]
    ensures forall i :: 0 <= i < |s| - |r| ==> IsWhitespace(s[i])
    ensures r != [] ==> !IsWhitespace(r[0])
  {
    if s != [] && IsWhitespace(s[0]) then TrimStart(s[1..]) else s
  }

  /** Drop trailing whitespace. */
  function TrimEnd(s: string): (r: string)
    ensures |r| <= |s| && r == s[..|r|]
    ensures forall i :: |r| <= i < |s| ==> IsWhitespace(s[i])
    ensures r != [] ==> !IsWhitespace(r[|r| - 1])
  {
    if s != [] && IsWhitespace(s[|s| - 1]) then TrimEnd(s[..|s| - 1]) else s
  }

  /** `s.trim()`: at most as long as `s`, and neither starting nor ending with whitespace. */
  function Trim(s: string): (r: string)
    ensures |r| <= |s|
    ensures r != [] ==> !IsWhitespace(r[0]) && !IsWhitespace(r[|r| - 1])
  {
    var t := TrimStart(s);
    assert TrimEnd(t) != [] ==> TrimEnd(t)[0] == t[0];
    TrimEnd(t)
  }

  predicate IsBlank(s: string)
  {
    forall i :: 0 <= i < |s| ==> IsWhitespace(s[i])
  }

  /** `r` is the part of `s` starting at `lo`, with only whitespace before and after it. */
  predicate BlankAround(s: string, r: string, lo: nat)
  {
    lo + |r| <= |s| && r == s[lo..lo + |r|] && IsBlank(s[..lo]) && IsBlank(s[lo + |r|..])
  }

  /** What `trim` removes is whitespace around a contiguous part of `s`. */
  lemma TrimDropsOnlyWhitespace(s: string)
    ensures exists lo :: BlankAround(s, Trim(s), lo)
  {
    var t := TrimStart(s);
    var lo := |s| - |t|;
    assert t == s[lo..];
    assert Trim(s) == TrimEnd(s[lo..]);
    LeadingBlank(s);
    TrailingBlank(s, lo);
    assert BlankAround(s, Trim(s), lo);
  }

  lemma LeadingBlank(s: string)
    ensures IsBlank(s[..|s| - |TrimStart(s)|])
  {
    var n := |s| - |TrimStart(s)|;
    forall i | 0 <= i < n
      ensures IsWhitespace(s[..n][i])
    {
      assert s[..n][i] == s[i];
    }
  }

  /** Trimming the end of `s[lo..]` keeps a part of `s` followed by whitespace only. */
  lemma TrailingBlank(s: string, lo: nat)
    requires lo <= |s|
    ensures var r := TrimEnd(s[lo..]);
            lo + |r| <= |s| && r == s[lo..lo + |r|] && IsBlank(s[lo + |r|..])
  {
    var t := s[lo..];
    var n := |TrimEnd(t)|;
    var tail := s[lo + n..];
    forall i | 0 <= i < |tail|
      ensures IsWhitespace(tail[i])
    {
      assert tail[i] == t[n + i];
    }
    assert t[..n] == s[lo..lo + n];
  }

  /** `!s.trim()` holds exactly when every character of `s` is whitespace. */
  lemma TrimEmptyIffBlank(s: string)
    ensures Trim(s) == [] <==> IsBlank(s)
  {
    var t := TrimStart(s);
    if t != [] {
      assert !IsWhitespace(s[|s| - |t|]);
      assert TrimEnd(t) != [] by { assert !IsWhitespace(t[0]); }
    }
  }

  // ---------------------------------------------------------------------------
  // First-occurrence replacement

  predicate OccursAt(s: string, pat: string, i: nat)
  {
    i + |pat| <= |s| && s[i..i + |pat|] == pat
  }

  /** The first index at or after `from` where `pat` occurs in `s`. */
  function IndexFrom(s: string, pat: string, from: nat): (r: Option<nat>)
    ensures r.Some? ==> from <= r.value && OccursAt(s, pat, r.value)
    ensures r.Some? ==> forall j :: from <= j < r.value ==> !OccursAt(s, pat, j)
    ensures r.None? ==> forall j :: from <= j ==> !OccursAt(s, pat, j)
    decreases |s| - from
  {
    if from + |pat| > |s| then None
    else if s[from..from + |pat|] == pat then Some(from)
    else IndexFrom(s, pat, from + 1)
  }

  predicate EndsWith(s: string, suffix: string)
  {
    |suffix| <= |s| && s[|s| - |suffix|..] == suffix
  }

  /** `s.replace(pat, rep)` with a string pattern: only the first occurrence is replaced;
      without an occurrence the string is returned as it is. */
  function ReplaceFirst(s: string, pat: string, rep: string): (r: string)
    ensures IndexFrom(s, pat, 0).None? ==> r == s
    ensures IndexFrom(s, pat, 0).Some? ==>
              var i := IndexFrom(s, pat, 0).value;
              && |r| == |s| - |pat| + |rep|
              && r[..i] == s[..i] && r[i..i + |rep|] == rep && r[i + |rep|..] == s[i + |pat|..]
  {
    match IndexFrom(s, pat, 0)
    case None => s
    case Some(i) => s[..i] + rep + s[i + |pat|..]
  }

  /** A pattern whose first character does not occur in `stem` is first found right
      after `stem` when `stem + rest` continues with it. */
  lemma FirstOccurrenceAfterStem(stem: string, rest: string, pat: string)
    requires pat != [] && pat[0] !in stem && pat <= rest
    ensures IndexFrom(stem + rest, pat, 0) == Some(|stem|)
  {
    var s := stem + rest;
    assert OccursAt(s, pat, |stem|) by { assert s[|stem|..|stem| + |pat|] == rest[..|pat|] == pat; }
    forall j | 0 <= j < |stem|
      ensures !OccursAt(s, pat, j)
    {
      assert s[j] == stem[j] != pat[0];
      assert j + |pat| <= |s| ==> s[j..j + |pat|][0] == s[j];
    }
  }

  /** Removing a suffix whose first character does not occur before it gives back the stem. */
  lemma RemoveSuffix(stem: string, suffix: string)
    requires suffix != [] && suffix[0] !in stem
    ensures ReplaceFirst(stem + suffix, suffix, "") == stem
  {
    var s := stem + suffix;
    FirstOccurrenceAfterStem(stem, suffix, suffix);
    assert s[..|stem|] == stem;
    assert s[|stem| + |suffix|..] == [];
  }

  // ---------------------------------------------------------------------------
  // Decimal text of integers, as a template literal `${n}` writes it

  predicate IsDigit(c: char) { '0' <= c <= '9' }

  predicate AllDigits(s: string) { forall i :: 0 <= i < |s| ==> IsDigit(s[i]) }

  function DigitChar(d: nat): (c: char)
    requires d < 10
    ensures IsDigit(c)
  {
    ('0' as int + d) as char
  }

  function DigitValue(c: char): nat
    requires IsDigit(c)
  {
    c as int - '0' as int
  }

  /** The shortest decimal text of `n`. */
  function NatToString(n: nat): (r: string)
    ensures r != [] && AllDigits(r)
    ensures |r| > 1 ==> r[0] != '0'
  {
    if n < 10 then [DigitChar(n)] else NatToString(n / 10) + [DigitChar(n % 10)]
  }

  /** The number a string of decimal digits denotes. */
  function DigitsValue(s: string): nat
    requires AllDigits(s)
  {
    if s == [] then 0 else 10 * DigitsValue(s[..|s| - 1]) + DigitValue(s[|s| - 1])
  }

  /** Reading the decimal text back gives the number. */
  lemma {:induction false} NatToStringRoundTrip(n: nat)
    ensures DigitsValue(NatToString(n)) == n
  {
    if n >= 10 {
      NatToStringRoundTrip(n / 10);
      var r := NatToString(n);
      assert r[..|r| - 1] == NatToString(n / 10);
    }
  }

  /** `${i}` for an integer `i`. */
  function IntToString(i: int): (r: string)
    ensures r != [] && ' ' !in r
  {
    if i < 0 then "-" + NatToString(-i) else NatToString(i)
  }

  /** The partial inverse of `IntToString`: an optional minus sign, then digits. */
  function ParseInt(s: string): Option<int>
  {
    if s != [] && s[0] == '-' then
      (if s[1..] != [] && AllDigits(s[1..]) then Some(0 - DigitsValue(s[1..]) as int) else None)
    else if s != [] && AllDigits(s) then Some(DigitsValue(s))
    else None
  }

  lemma IntToStringRoundTrip(i: int)
    ensures ParseInt(IntToString(i)) == Some(i)
  {
    if i < 0 {
      var digits := NatToString(-i);
      var s := "-" + digits;
      assert s[0] == '-' && s[1..] == digits;
      NatToStringRoundTrip(-i);
      assert ParseInt(s) == Some(0 - DigitsValue(digits) as int);
    } else {
      var s := NatToString(i);
      assert s[0] != '-' by { assert IsDigit(s[0]); }
      NatToStringRoundTrip(i);
      assert ParseInt(s) == Some(DigitsValue(s) as int);
    }
  }
}
