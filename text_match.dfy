/**
 * Kotlin's `text.contains(word, ignoreCase = true)`, as the worker uses it to
 * test the page text for the keyword.
 *
 * Kotlin scans the start positions 0..|text| in order and returns the first
 * one where `regionMatches` succeeds; two characters match when they are
 * equal, or their upper-case forms are equal, or the lower-case forms of
 * their upper-case forms are equal. The case mapping here is ASCII only.
 */
module TextMatch {

  function UpperChar(c: char): (u: char)
  {
    if 'a' <= c <= 'z' then (c as int - 32) as char else c
  }

  function LowerChar(c: char): (l: char)
  {
    if 'A' <= c <= 'Z' then (c as int + 32) as char else c
  }

  /** Kotlin's `Char.equals(other, ignoreCase = true)`. */
  predicate CharEqualsIgnoreCase(a: char, b: char)
  {
    a == b || UpperChar(a) == UpperChar(b) || LowerChar(UpperChar(a)) == LowerChar(UpperChar(b))
  }

  /** `word` matches `text` from position `i` on, character by character. */
  predicate RegionMatches(text: string, i: int, word: string)
  {
    0 <= i && i + |word| <= |text| &&
    forall k :: 0 <= k < |word| ==> CharEqualsIgnoreCase(text[i + k], word[k])
  }

  /**
   * Kotlin's `indexOf(word, from, ignoreCase = true)`: the first match at or
   * after `from`, or -1. Positions count `char`s (Unicode scalar values), not
   * UTF-16 code units as in Kotlin.
   */
  function IndexOfIgnoreCase(text: string, word: string, from: nat): (r: int)
    decreases |text| + 1 - from
    ensures r == -1 || (from <= r <= |text| && RegionMatches(text, r, word))
    ensures r == -1 ==> forall i :: from <= i ==> !RegionMatches(text, i, word)
    ensures r != -1 ==> forall i :: from <= i < r ==> !RegionMatches(text, i, word)
  {
    if from > |text| then -1
    else if RegionMatches(text, from, word) then from
    else IndexOfIgnoreCase(text, word, from + 1)
  }

  /** Kotlin's `contains(word, ignoreCase = true)`. */
  function ContainsIgnoreCase(text: string, word: string): (b: bool)
    ensures b <==> exists i :: RegionMatches(text, i, word)
  {
    IndexOfIgnoreCase(text, word, 0) >= 0
  }

  // An independent reference: fold both strings to lower case, then look
  // for an exact substring.

  function Lower(s: string): (t: string)
    ensures |t| == |s|
    ensures forall k :: 0 <= k < |s| ==> t[k] == LowerChar(s[k])
  {
    if s == [] then [] else [LowerChar(s[0])] + Lower(s[1..])
  }

  predicate OccursAt(text: string, i: int, word: string)
  {
    0 <= i && i + |word| <= |text| && text[i..i + |word|] == word
  }

  /** With ASCII case mapping, Kotlin's character test is "same lower-case form". */
  lemma CharEqualsIgnoreCaseIffSameLower(a: char, b: char)
    ensures CharEqualsIgnoreCase(a, b) <==> LowerChar(a) == LowerChar(b)
  {
  }

  /** One start position: a case-insensitive region match is an exact match of the folded strings. */
  lemma RegionMatchesIffFoldedOccurs(text: string, i: int, word: string)
    ensures RegionMatches(text, i, word) <==> OccursAt(Lower(text), i, Lower(word))
  {
    if 0 <= i && i + |word| <= |text| {
      var lt, lw := Lower(text), Lower(word);
      forall k | 0 <= k < |word|
        ensures CharEqualsIgnoreCase(text[i + k], word[k]) <==> lt[i..i + |word|][k] == lw[k]
      {
        CharEqualsIgnoreCaseIffSameLower(text[i + k], word[k]);
      }
      if RegionMatches(text, i, word) {
        assert lt[i..i + |word|] == lw;
      } else {
        var k :| 0 <= k < |word| && !CharEqualsIgnoreCase(text[i + k], word[k]);
        assert lt[i..i + |word|][k] != lw[k];
      }
    }
  }

  /** The containment test agrees with "the folded keyword is a substring of the folded text". */
  lemma ContainsIgnoreCaseIffFoldedSubstring(text: string, word: string)
    ensures ContainsIgnoreCase(text, word) <==> exists i :: OccursAt(Lower(text), i, Lower(word))
  {
    if ContainsIgnoreCase(text, word) {
      var i :| RegionMatches(text, i, word);
      RegionMatchesIffFoldedOccurs(text, i, word);
    } else {
      forall i ensures !OccursAt(Lower(text), i, Lower(word)) {
        RegionMatchesIffFoldedOccurs(text, i, word);
      }
    }
  }

  /** An empty keyword is contained in every text. */
  lemma EmptyWordAlwaysContained(text: string)
    ensures ContainsIgnoreCase(text, "")
  {
  }

  /** A verbatim occurrence is a match, and so is one differing only in ASCII case. */
  lemma FoldedOccurrenceIsContained(text: string, word: string, i: int)
    requires OccursAt(Lower(text), i, Lower(word))
    ensures ContainsIgnoreCase(text, word)
  {
    RegionMatchesIffFoldedOccurs(text, i, word);
  }

  /** Changing the case of the keyword does not change the outcome. */
  lemma ContainsIgnoresKeywordCase(text: string, word: string)
    ensures ContainsIgnoreCase(text, Lower(word)) == ContainsIgnoreCase(text, word)
  {
    ContainsIgnoreCaseIffFoldedSubstring(text, word);
    ContainsIgnoreCaseIffFoldedSubstring(text, Lower(word));
    LowerIdempotent(word);
  }

  lemma LowerIdempotent(s: string)
    ensures Lower(Lower(s)) == Lower(s)
  {
  }
}
