/**
 * The string operations the account service relies on: Python's `str.strip()`,
 * `str.lower()` (ASCII letters only), `str.startswith()` and the `\d` digit class
 * (ASCII digits only).
 */
module Text {

  /** Python's `str.isspace()`: the characters `str.strip()` removes. */
  predicate IsSpace(c: char) {
    || c == ' '
    || ('\t' <= c <= '\r')
    || ('\U{1C}' <= c <= '\U{1F}')
    || c == '\U{85}' || c == '\U{A0}' || c == '\U{1680}'
    || ('\U{2000}' <= c <= '\U{200A}')
    || c == '\U{2028}' || c == '\U{2029}' || c == '\U{202F}' || c == '\U{205F}' || c == '\U{3000}'
  }

  predicate AllSpace(s: string) {
    forall k :: 0 <= k < |s| ==> IsSpace(s[k])
  }

  /** `s.lstrip()`: the suffix of `s` left after dropping its leading whitespace. */
  function StripLeading(s: string): (r: string)
    ensures |r| <= |s| && r == s[|s| - |r|..]
    ensures forall k :: 0 <= k < |s| - |r| ==> IsSpace(s[k])
    ensures r != [] ==> !IsSpace(r[0])
  {
    if s != [] && IsSpace(s[0]) then StripLeading(s[1..]) else s
  }

  /** `s.rstrip()`: the prefix of `s` left after dropping its trailing whitespace. */
  function StripTrailing(s: string): (r: string)
    ensures |r| <= |s| && r == s[..|r|]
    ensures forall k :: |r| <= k < |s| ==> IsSpace(s[k])
    ensures r != [] ==> !IsSpace(r[|r| - 1])
  {
    if s != [] && IsSpace(s[|s| - 1]) then StripTrailing(s[..|s| - 1]) else s
  }

  /** `r` is the infix of `s` starting at `i`, everything around it is whitespace, and `r`
      neither starts nor ends with whitespace. */
  predicate StrippedAt(s: string, r: string, i: int) {
    && 0 <= i && i + |r| <= |s|
    && r == s[i..i + |r|]
    && (forall k :: 0 <= k < i ==> IsSpace(s[k]))
    && (forall k :: i + |r| <= k < |s| ==> IsSpace(s[k]))
    && (r != [] ==> !IsSpace(r[0]) && !IsSpace(r[|r| - 1]))
  }

  /** The declarative meaning of `s.strip()`. */
  ghost predicate IsStripOf(s: string, r: string) {
    exists i :: StrippedAt(s, r, i)
  }

  /** Python's `s.strip()` with no argument. */
  function Strip(s: string): (r: string)
    ensures IsStripOf(s, r)
  {
    var lead := StripLeading(s);
    var r := StripTrailing(lead);
    StrippedFromEnds(s, lead, r);
    r
  }

  /** Dropping leading whitespace and then trailing whitespace leaves a stripped form. */
  lemma StrippedFromEnds(s: string, lead: string, r: string)
    requires |lead| <= |s| && lead == s[|s| - |lead|..]
    requires forall k :: 0 <= k < |s| - |lead| ==> IsSpace(s[k])
    requires lead != [] ==> !IsSpace(lead[0])
    requires |r| <= |lead| && r == lead[..|r|]
    requires forall k :: |r| <= k < |lead| ==> IsSpace(lead[k])
    requires r != [] ==> !IsSpace(r[|r| - 1])
    ensures StrippedAt(s, r, |s| - |lead|)
  {
    var i := |s| - |lead|;
    forall k | i + |r| <= k < |s| ensures IsSpace(s[k]) {
      assert s[k] == lead[k - i];
    }
    assert r != [] ==> r[0] == lead[0];
  }

  lemma StrippedEmptyIffAllSpace(s: string, r: string, i: int)
    requires StrippedAt(s, r, i)
    ensures r == [] <==> AllSpace(s)
  {
    if r != [] {
      assert s[i] == r[0];
    }
  }

  /** Whitespace on both sides of a kept non-empty infix forces where that infix starts. */
  lemma StrippedStartIsFirstNonSpace(s: string, r: string, i: int, j: int)
    requires StrippedAt(s, r, i) && r != [] && 0 <= j <= |s|
    ensures (forall k :: 0 <= k < j ==> IsSpace(s[k])) ==> j <= i
    ensures (forall k :: j <= k < |s| ==> IsSpace(s[k])) ==> i + |r| <= j
  {
    assert s[i] == r[0];
    assert s[i + |r| - 1] == r[|r| - 1];
  }

  /** `strip()` is well defined: at most one string is a stripped form of `s`. */
  lemma {:induction false} StripUnique(s: string, r1: string, r2: string)
    requires IsStripOf(s, r1) && IsStripOf(s, r2)
    ensures r1 == r2
  {
    var i1 :| StrippedAt(s, r1, i1);
    var i2 :| StrippedAt(s, r2, i2);
    StrippedEmptyIffAllSpace(s, r1, i1);
    StrippedEmptyIffAllSpace(s, r2, i2);
    if r1 != [] && r2 != [] {
      StrippedStartIsFirstNonSpace(s, r1, i1, i2);
      StrippedStartIsFirstNonSpace(s, r2, i2, i1);
      StrippedStartIsFirstNonSpace(s, r1, i1, i2 + |r2|);
      StrippedStartIsFirstNonSpace(s, r2, i2, i1 + |r1|);
    }
  }

  /** To compute `Strip(s)` it is enough to exhibit one stripped form of `s`. */
  lemma StripIs(s: string, r: string, i: int)
    requires StrippedAt(s, r, i)
    ensures Strip(s) == r
  {
    StripUnique(s, Strip(s), r);
  }

  /** A string with no whitespace at either end is its own stripped form. */
  lemma StripUnpadded(s: string)
    requires s != [] ==> !IsSpace(s[0]) && !IsSpace(s[|s| - 1])
    ensures Strip(s) == s
  {
    assert s[0..|s|] == s;
    StripIs(s, s, 0);
  }

  /** Whitespace appended after a string does not change what stripping keeps. */
  lemma StrippedAtAppendSpace(s: string, r: string, i: int, c: char)
    requires StrippedAt(s, r, i) && IsSpace(c)
    ensures StrippedAt(s + [c], r, i)
  {
    var t := s + [c];
    assert t[i..i + |r|] == s[i..i + |r|];
    forall k | 0 <= k < i ensures IsSpace(t[k]) {
      assert t[k] == s[k];
    }
    forall k | i + |r| <= k < |t| ensures IsSpace(t[k]) {
      if k < |s| {
        assert t[k] == s[k];
      }
    }
  }

  /** Whitespace prepended before a string does not change what stripping keeps. */
  lemma StrippedAtPrependSpace(s: string, r: string, i: int, c: char)
    requires StrippedAt(s, r, i) && IsSpace(c)
    ensures StrippedAt([c] + s, r, i + 1)
  {
    var t := [c] + s;
    assert t[i + 1..i + 1 + |r|] == s[i..i + |r|];
    forall k | 0 <= k < i + 1 ensures IsSpace(t[k]) {
      if k > 0 {
        assert t[k] == s[k - 1];
      }
    }
    forall k | i + 1 + |r| <= k < |t| ensures IsSpace(t[k]) {
      assert t[k] == s[k - 1];
    }
  }

  /** Stripping ignores one more whitespace character in front. */
  lemma StripPrependSpace(s: string, c: char)
    requires IsSpace(c)
    ensures Strip([c] + s) == Strip(s)
  {
    var r := Strip(s);
    var i :| StrippedAt(s, r, i);
    StrippedAtPrependSpace(s, r, i, c);
    StripIs([c] + s, r, i + 1);
  }

  /** Stripping ignores one more whitespace character at the end. */
  lemma StripAppendSpace(s: string, c: char)
    requires IsSpace(c)
    ensures Strip(s + [c]) == Strip(s)
  {
    var r := Strip(s);
    var i :| StrippedAt(s, r, i);
    StrippedAtAppendSpace(s, r, i, c);
    StripIs(s + [c], r, i);
  }

  /** Stripping ignores any run of whitespace at the end. */
  lemma {:induction false} StripAppendSpaces(s: string, w: string)
    requires AllSpace(w)
    ensures Strip(s + w) == Strip(s)
    decreases |w|
  {
    if w == [] {
      assert s + w == s;
    } else {
      var rest := w[..|w| - 1];
      assert AllSpace(rest);
      assert s + w == (s + rest) + [w[|w| - 1]];
      StripAppendSpace(s + rest, w[|w| - 1]);
      StripAppendSpaces(s, rest);
    }
  }

  /** Stripping ignores any run of whitespace in front. */
  lemma {:induction false} StripPrependSpaces(w: string, s: string)
    requires AllSpace(w)
    ensures Strip(w + s) == Strip(s)
    decreases |w|
  {
    if w == [] {
      assert w + s == s;
    } else {
      var rest := w[1..];
      assert AllSpace(rest);
      assert w + s == [w[0]] + (rest + s);
      StripPrependSpace(rest + s, w[0]);
      StripPrependSpaces(rest, s);
    }
  }

  /** Whitespace padding on either side never changes the stripped form. */
  lemma {:induction false} StripPadded(before: string, s: string, after: string)
    requires AllSpace(before) && AllSpace(after)
    ensures Strip(before + s + after) == Strip(s)
  {
    assert before + s + after == before + (s + after);
    StripPrependSpaces(before, s + after);
    StripAppendSpaces(s, after);
  }

  /** `c.lower()` for an ASCII letter; every other character is left as it is. */
  function LowerChar(c: char): char {
    if 'A' <= c <= 'Z' then (c as int + 32) as char else c
  }

  /** `s.lower()`, restricted to ASCII case mapping. */
  function Lower(s: string): (r: string)
    ensures |r| == |s|
    ensures forall k :: 0 <= k < |s| ==> r[k] == LowerChar(s[k])
  {
    if s == [] then [] else [LowerChar(s[0])] + Lower(s[1..])
  }

  /** Case-insensitive equality, stated character by character. */
  predicate EqualsIgnoringCase(a: string, b: string) {
    |a| == |b| && forall k :: 0 <= k < |a| ==> LowerChar(a[k]) == LowerChar(b[k])
  }

  /** Comparing `t.lower()` with a lower-case word is case-insensitive comparison with it. */
  lemma LowerEqualsIff(t: string, word: string)
    requires IsLowerCase(word)
    ensures Lower(t) == word <==> EqualsIgnoringCase(t, word)
  {
    if EqualsIgnoringCase(t, word) {
      forall k | 0 <= k < |t| ensures Lower(t)[k] == word[k] {
        assert LowerChar(word[k]) == word[k];
      }
    }
  }

  /** A word that `lower()` leaves as it is. */
  predicate IsLowerCase(word: string) {
    forall k :: 0 <= k < |word| ==> LowerChar(word[k]) == word[k]
  }

  /** `s.startswith(prefix)`. */
  predicate StartsWith(s: string, prefix: string) {
    |prefix| <= |s| && s[..|prefix|] == prefix
  }

  predicate IsAsciiDigit(c: char) {
    '0' <= c <= '9'
  }

  /** `s` contains U+0000. */
  predicate HasNullCharacter(s: string) {
    exists k :: 0 <= k < |s| && s[k] == '\0'
  }

  lemma DigitIsNotSpace(c: char)
    requires IsAsciiDigit(c)
    ensures !IsSpace(c)
  {
  }

  predicate AllDigits(s: string) {
    forall k :: 0 <= k < |s| ==> IsAsciiDigit(s[k])
  }
}
