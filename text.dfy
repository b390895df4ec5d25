/**
 * The few Python string operations the application relies on:
 * `str.lower()`, the substring test `a in b`, `str.endswith`, `str.strip()`
 * and `str.replace` of one character by another. Characters outside ASCII
 * are treated as having no case and as not being whitespace.
 */
module Text {

  /** `c.isspace()` on the ASCII range: tab, line feed, vertical tab, form feed,
      carriage return, the four information separators and space. */
  predicate IsSpace(c: char) {
    9 <= c as int <= 13 || 28 <= c as int <= 32
  }

  /** Every character of `s[lo..hi]` is whitespace. */
  predicate SpaceBetween(s: string, lo: int, hi: int) {
    forall k :: lo <= k < hi && 0 <= k < |s| ==> IsSpace(s[k])
  }

  /** Neither end of `s` is whitespace. */
  predicate IsTrimmed(s: string) {
    s == [] || (!IsSpace(s[0]) && !IsSpace(s[|s| - 1]))
  }

  predicate IsUpper(c: char) {
    'A' <= c <= 'Z'
  }

  function LowerChar(c: char): char {
    if IsUpper(c) then (c as int + 32) as char else c
  }

  /** `s.lower()`: every upper-case letter replaced by its lower-case form. */
  function Lower(s: string): (r: string)
    ensures |r| == |s|
    ensures forall i :: 0 <= i < |s| ==> r[i] == LowerChar(s[i])
    ensures forall i :: 0 <= i < |r| ==> !IsUpper(r[i])
  {
    if s == [] then [] else [LowerChar(s[0])] + Lower(s[1..])
  }

  lemma LowerIdempotent(s: string)
    ensures Lower(Lower(s)) == Lower(s)
  {
  }

  lemma LowerConcat(a: string, b: string)
    ensures Lower(a + b) == Lower(a) + Lower(b)
  {
    assert forall i :: 0 <= i < |a + b| ==> Lower(a + b)[i] == (Lower(a) + Lower(b))[i];
  }

  /** `needle` occurs in `hay` starting at index `i`. */
  ghost predicate OccursAt(hay: string, needle: string, i: int) {
    0 <= i && i + |needle| <= |hay| && hay[i..i + |needle|] == needle
  }

  /** Python's `needle in hay` on strings. */
  function Contains(hay: string, needle: string): (r: bool)
    ensures r <==> exists i :: OccursAt(hay, needle, i)
    decreases |hay|
  {
    if |needle| > |hay| then
      false
    else if hay[..|needle|] == needle then
      assert OccursAt(hay, needle, 0);
      true
    else
      ContainsShift(hay, needle);
      Contains(hay[1..], needle)
  }

  /** When `needle` is not a prefix of `hay`, its occurrences in `hay` are those in `hay[1..]`, shifted by one. */
  lemma ContainsShift(hay: string, needle: string)
    requires |needle| <= |hay| && hay[..|needle|] != needle
    ensures (exists i :: OccursAt(hay, needle, i)) <==> (exists j :: OccursAt(hay[1..], needle, j))
  {
    if i :| OccursAt(hay, needle, i) {
      assert i != 0;
      assert hay[1..][i - 1..i - 1 + |needle|] == hay[i..i + |needle|];
      assert OccursAt(hay[1..], needle, i - 1);
    }
    if j :| OccursAt(hay[1..], needle, j) {
      assert hay[j + 1..j + 1 + |needle|] == hay[1..][j..j + |needle|];
      assert OccursAt(hay, needle, j + 1);
    }
  }

  /** A case-sensitive occurrence is also a case-insensitive one. */
  lemma ContainsLower(hay: string, needle: string)
    ensures Contains(hay, needle) ==> Contains(Lower(hay), Lower(needle))
  {
    if Contains(hay, needle) {
      var i :| OccursAt(hay, needle, i);
      assert Lower(hay)[i..i + |needle|] == Lower(needle) by {
        forall k | 0 <= k < |needle| ensures Lower(hay)[i + k] == Lower(needle)[k] {
          assert hay[i + k] == hay[i..i + |needle|][k];
        }
      }
      assert OccursAt(Lower(hay), Lower(needle), i);
    }
  }

  /** Every string contains the empty string. */
  lemma ContainsEmpty(hay: string)
    ensures Contains(hay, [])
  {
    assert OccursAt(hay, [], 0);
  }

  /** A string that contains `a + b` contains `a`. */
  lemma {:induction false} ContainsPrefix(hay: string, a: string, b: string)
    requires Contains(hay, a + b)
    ensures Contains(hay, a)
  {
    var i :| OccursAt(hay, a + b, i);
    assert hay[i..i + |a|] == (a + b)[..|a|] == a;
    assert OccursAt(hay, a, i);
  }

  /** `s.endswith(suffix)`. */
  function EndsWith(s: string, suffix: string): (r: bool)
    ensures r <==> exists p :: s == p + suffix
  {
    if |suffix| <= |s| && s[|s| - |suffix|..] == suffix then
      assert s == s[..|s| - |suffix|] + suffix;
      true
    else
      NotEndsWith(s, suffix);
      false
  }

  lemma NotEndsWith(s: string, suffix: string)
    requires !(|suffix| <= |s| && s[|s| - |suffix|..] == suffix)
    ensures forall p :: s != p + suffix
  {
    forall p ensures s != p + suffix {
    }
  }

  /** `s.replace(old, new)` for single characters `old` and `new`. */
  function ReplaceChar(s: string, oldChar: char, newChar: char): (r: string)
    ensures |r| == |s|
    ensures forall i :: 0 <= i < |s| ==> r[i] == if s[i] == oldChar then newChar else s[i]
  {
    if s == [] then [] else [if s[0] == oldChar then newChar else s[0]] + ReplaceChar(s[1..], oldChar, newChar)
  }

  /** The first non-whitespace index at or after `from`, or `|s|`. */
  function SkipSpace(s: string, from: nat): (k: nat)
    requires from <= |s|
    ensures from <= k <= |s|
    ensures SpaceBetween(s, from, k)
    ensures k == |s| || !IsSpace(s[k])
    decreases |s| - from
  {
    if from < |s| && IsSpace(s[from]) then SkipSpace(s, from + 1) else from
  }

  /** The end of `s[lo..hi]` once its trailing whitespace is dropped. */
  function SkipSpaceBack(s: string, lo: nat, hi: nat): (k: nat)
    requires lo <= hi <= |s|
    ensures lo <= k <= hi
    ensures SpaceBetween(s, k, hi)
    ensures k == lo || !IsSpace(s[k - 1])
    decreases hi
  {
    if lo < hi && IsSpace(s[hi - 1]) then SkipSpaceBack(s, lo, hi - 1) else hi
  }

  /** `r` is `s[i..i + |r|]` and everything around it is whitespace. */
  ghost predicate StrippedAt(s: string, r: string, i: int) {
    0 <= i && i + |r| <= |s| && s[i..i + |r|] == r && SpaceBetween(s, 0, i) && SpaceBetween(s, i + |r|, |s|)
  }

  /** `s.strip()`: the result is trimmed and only whitespace was removed from either end. */
  function Strip(s: string): (r: string)
    ensures IsTrimmed(r)
    ensures exists i :: StrippedAt(s, r, i)
  {
    var n := SkipSpace(s, 0);
    var m := SkipSpaceBack(s, n, |s|);
    assert StrippedAt(s, s[n..m], n);
    s[n..m]
  }
}
