/**
 * The two pieces of Python string behaviour the core relies on:
 * the substring test `needle in haystack` used to classify startup errors,
 * and `str.strip()` applied to a transcription reply.
 */
module Text {

  /** Python's `needle in haystack` on strings (true for an empty needle). */
  predicate Contains(haystack: string, needle: string)
    decreases |haystack|
  {
    needle <= haystack || (haystack != [] && Contains(haystack[1..], needle))
  }

  /** `needle` occurs at position `i` of `haystack`. */
  ghost predicate OccursAt(haystack: string, needle: string, i: int)
  {
    0 <= i && i + |needle| <= |haystack| && haystack[i..i + |needle|] == needle
  }

  /** Every occurrence found by `Contains` is an occurrence at some position. */
  lemma {:induction false} ContainsHasOccurrence(haystack: string, needle: string) returns (i: nat)
    requires Contains(haystack, needle)
    ensures OccursAt(haystack, needle, i)
    decreases |haystack|
  {
    if needle <= haystack {
      i := 0;
    } else {
      var j := ContainsHasOccurrence(haystack[1..], needle);
      i := j + 1;
      assert haystack[i..i + |needle|] == haystack[1..][j..j + |needle|];
    }
  }

  /** An occurrence at any position makes `Contains` true. */
  lemma {:induction false} OccurrenceIsContained(haystack: string, needle: string, i: nat)
    requires OccursAt(haystack, needle, i)
    ensures Contains(haystack, needle)
    decreases i
  {
    if i > 0 {
      assert haystack[1..][i - 1..i - 1 + |needle|] == haystack[i..i + |needle|];
      OccurrenceIsContained(haystack[1..], needle, i - 1);
    }
  }

  /** The recursive test agrees with the positional definition of a substring. */
  lemma ContainsIff(haystack: string, needle: string)
    ensures Contains(haystack, needle) <==> exists i :: OccursAt(haystack, needle, i)
  {
    if Contains(haystack, needle) {
      var i := ContainsHasOccurrence(haystack, needle);
    }
    forall i | OccursAt(haystack, needle, i) ensures Contains(haystack, needle) {
      OccurrenceIsContained(haystack, needle, i);
    }
  }

  /** A needle longer than the haystack never occurs in it. */
  lemma {:induction false} ContainsNeedsRoom(haystack: string, needle: string)
    requires Contains(haystack, needle)
    ensures |needle| <= |haystack|
    decreases |haystack|
  {
    if !(needle <= haystack) {
      ContainsNeedsRoom(haystack[1..], needle);
    }
  }

  /** The characters for which Python's `str.isspace()` is true. */
  predicate IsSpace(c: char)
  {
    c == ' ' || ('\t' <= c <= '\r') || ('\U{1C}' <= c <= '\U{1F}')
    || c == '\U{85}' || c == '\U{A0}' || c == '\U{1680}'
    || ('\U{2000}' <= c <= '\U{200A}')
    || c == '\U{2028}' || c == '\U{2029}' || c == '\U{202F}' || c == '\U{205F}'
    || c == '\U{3000}'
  }

  ghost predicate AllSpace(s: string)
  {
    forall k :: 0 <= k < |s| ==> IsSpace(s[k])
  }

  function TrimLeft(s: string): string
  {
    if s != [] && IsSpace(s[0]) then TrimLeft(s[1..]) else s
  }

  function TrimRight(s: string): string
  {
    if s != [] && IsSpace(s[|s| - 1]) then TrimRight(s[..|s| - 1]) else s
  }

  /** Python's `str.strip()` with no argument. */
  function Strip(s: string): string
  {
    TrimRight(TrimLeft(s))
  }

  lemma {:induction false} TrimLeftSlice(s: string) returns (i: nat)
    ensures i <= |s| && TrimLeft(s) == s[i..]
    ensures AllSpace(s[..i])
    ensures TrimLeft(s) != [] ==> !IsSpace(TrimLeft(s)[0])
  {
    if s != [] && IsSpace(s[0]) {
      var j := TrimLeftSlice(s[1..]);
      i := j + 1;
      assert s[1..][j..] == s[i..];
      assert forall k :: 1 <= k < i ==> s[..i][k] == s[1..][..j][k - 1];
    } else {
      i := 0;
    }
  }

  lemma {:induction false} TrimRightSlice(s: string) returns (j: nat)
    ensures j <= |s| && TrimRight(s) == s[..j]
    ensures AllSpace(s[j..])
    ensures TrimRight(s) != [] ==> !IsSpace(TrimRight(s)[|TrimRight(s)| - 1])
    decreases |s|
  {
    if s != [] && IsSpace(s[|s| - 1]) {
      var t := s[..|s| - 1];
      j := TrimRightSlice(t);
      assert t[..j] == s[..j];
      assert s[j..] == t[j..] + [s[|s| - 1]];
    } else {
      j := |s|;
    }
  }

  /**
   * `Strip(s)` is the slice of `s` left after removing the whitespace run at
   * each end, and it neither starts nor ends with whitespace.
   */
  lemma StripIsTrimmedSlice(s: string) returns (i: nat, j: nat)
    ensures i <= j <= |s| && Strip(s) == s[i..j]
    ensures AllSpace(s[..i]) && AllSpace(s[j..])
    ensures Strip(s) != [] ==> !IsSpace(Strip(s)[0]) && !IsSpace(Strip(s)[|Strip(s)| - 1])
  {
    i := TrimLeftSlice(s);
    var t := s[i..];
    var k := TrimRightSlice(t);
    j := i + k;
    assert t[..k] == s[i..j];
    assert forall m :: 0 <= m < |s| - j ==> s[j..][m] == t[k..][m];
    if Strip(s) != [] {
      assert Strip(s)[0] == TrimLeft(s)[0];
    }
  }

  /** A reply strips to nothing exactly when it is entirely whitespace. */
  lemma StripEmptyIff(s: string)
    ensures Strip(s) == [] <==> AllSpace(s)
  {
    var i, j := StripIsTrimmedSlice(s);
    if Strip(s) == [] {
      assert i == j;
      forall k | 0 <= k < |s| ensures IsSpace(s[k]) {
        if k < i { assert s[..i][k] == s[k]; } else { assert s[j..][k - j] == s[k]; }
      }
    } else {
      assert s[i] == Strip(s)[0];
    }
  }

  /** The stripped text is a substring of the original, without whitespace at either end. */
  lemma StripWithin(s: string)
    ensures Contains(s, Strip(s))
    ensures Strip(s) != [] ==> !IsSpace(Strip(s)[0]) && !IsSpace(Strip(s)[|Strip(s)| - 1])
  {
    var i, j := StripIsTrimmedSlice(s);
    OccurrenceIsContained(s, Strip(s), i);
  }
}
