/** ASCII string helpers shared by the front end (JavaScript `toLowerCase`,
    `includes`, `trim`) and the back end (Python `strip`, `rstrip`). Only the
    ASCII part of each language's rules is modelled. */
module Text {

  /** `toLowerCase` on one character: A..Z become a..z, everything else is kept. */
  function LowerChar(c: char): (r: char)
    ensures 'A' <= c <= 'Z' ==> r as int == c as int + 32
    ensures !('A' <= c <= 'Z') ==> r == c
    ensures !('A' <= r <= 'Z')
  {
    if 'A' <= c <= 'Z' then (c as int + 32) as char else c
  }

  /** `s.toLowerCase()`, character by character. */
  function Lower(s: string): (r: string)
    ensures |r| == |s|
    ensures forall i :: 0 <= i < |s| ==> r[i] == LowerChar(s[i])
  {
    seq(|s|, i requires 0 <= i < |s| => LowerChar(s[i]))
  }

  /** Lower-casing twice is lower-casing once. */
  lemma LowerIdempotent(s: string)
    ensures Lower(Lower(s)) == Lower(s)
  {
    assert forall i :: 0 <= i < |s| ==> Lower(Lower(s))[i] == Lower(s)[i];
  }

  /** `hay.includes(needle)` in JavaScript, `needle in hay` in Python. */
  predicate Contains(hay: string, needle: string)
  {
    exists i | 0 <= i <= |hay| - |needle| :: OccursAt(hay, needle, i)
  }

  /** `needle` sits in `hay` starting at index `i`. */
  predicate OccursAt(hay: string, needle: string, i: int)
  {
    0 <= i <= |hay| - |needle| && hay[i..i + |needle|] == needle
  }

  /** The empty string occurs in every string. */
  lemma ContainsEmpty(hay: string)
    ensures Contains(hay, [])
  {
    assert OccursAt(hay, [], 0);
  }

  /** ASCII white space as JavaScript's `trim` sees it. */
  predicate IsJsSpace(c: char)
  {
    c == ' ' || c == '\t' || c == '\n' || c == '\r' || c == '\U{0B}' || c == '\U{0C}'
  }

  /** ASCII white space as Python's `str.strip` sees it: the JavaScript set plus
      the four separators U+001C..U+001F. */
  predicate IsPySpace(c: char)
  {
    IsJsSpace(c) || '\U{1C}' <= c <= '\U{1F}'
  }

  /** Drops the leading characters that satisfy `isSpace`. */
  function TrimStart(s: string, isSpace: char -> bool): (r: string)
    ensures |r| <= |s| && r == s[|s| - |r|..]
    ensures |r| > 0 ==> !isSpace(r[0])
    ensures forall i :: 0 <= i < |s| - |r| ==> isSpace(s[i])
    decreases |s|
  {
    if |s| > 0 && isSpace(s[0]) then
      var r := TrimStart(s[1..], isSpace);
      assert forall i :: 1 <= i < |s| ==> s[i] == s[1..][i - 1];
      r
    else s
  }

  /** Drops the trailing characters that satisfy `isSpace` (Python `rstrip`). */
  function TrimEnd(s: string, isSpace: char -> bool): (r: string)
    ensures |r| <= |s| && r == s[..|r|]
    ensures |r| > 0 ==> !isSpace(r[|r| - 1])
    ensures forall i :: |r| <= i < |s| ==> isSpace(s[i])
    decreases |s|
  {
    if |s| > 0 && isSpace(s[|s| - 1]) then TrimEnd(s[..|s| - 1], isSpace) else s
  }

  /** `r` is `s` with some white space cut from each end: it occurs in `s` at
      an offset `k`, and everything before `k` and after `r` is white space. */
  predicate DropsOnlySpace(s: string, r: string, isSpace: char -> bool)
  {
    exists k | 0 <= k <= |s| - |r| :: OccursAt(s, r, k) && SpaceOutside(s, k, k + |r|, isSpace)
  }

  /** Every character of `s` before index `lo` and from index `hi` on is white space. */
  predicate SpaceOutside(s: string, lo: int, hi: int, isSpace: char -> bool)
  {
    (forall i :: 0 <= i < lo && i < |s| ==> isSpace(s[i]))
    && (forall i :: hi <= i < |s| && 0 <= i ==> isSpace(s[i]))
  }

  /** Drops white space at both ends (`trim` / `strip`). The result is `s`
      with only white space cut from its two ends, no white space is left at
      either end, and it is empty exactly when every character of `s` is white
      space. */
  function Trim(s: string, isSpace: char -> bool): (r: string)
    ensures Contains(s, r)
    ensures DropsOnlySpace(s, r, isSpace)
    ensures |r| > 0 ==> !isSpace(r[0]) && !isSpace(r[|r| - 1])
    ensures r == [] <==> forall i :: 0 <= i < |s| ==> isSpace(s[i])
  {
    TrimFacts(s, isSpace);
    TrimEnd(TrimStart(s, isSpace), isSpace)
  }

  /** The facts behind `Trim`'s contract, one lemma each. */
  lemma TrimFacts(s: string, isSpace: char -> bool)
    ensures var r := TrimEnd(TrimStart(s, isSpace), isSpace);
      && Contains(s, r)
      && DropsOnlySpace(s, r, isSpace)
      && (|r| > 0 ==> !isSpace(r[0]) && !isSpace(r[|r| - 1]))
      && (r == [] <==> forall i :: 0 <= i < |s| ==> isSpace(s[i]))
  {
    var t := TrimStart(s, isSpace);
    var r := TrimEnd(t, isSpace);
    TrimIsSlice(s, isSpace, t, r);
    TrimDropsSpace(s, isSpace, t, r);
    TrimEnds(s, isSpace, t, r);
    TrimEmpty(s, isSpace, t, r);
  }

  /** The two passes of `Trim` cut out one contiguous slice of `s`. */
  lemma TrimIsSlice(s: string, isSpace: char -> bool, t: string, r: string)
    requires t == TrimStart(s, isSpace) && r == TrimEnd(t, isSpace)
    ensures Contains(s, r)
  {
    PrefixOfSuffix(s, t, r);
  }

  /** What the two passes cut off is white space, before and after the slice. */
  lemma TrimDropsSpace(s: string, isSpace: char -> bool, t: string, r: string)
    requires t == TrimStart(s, isSpace) && r == TrimEnd(t, isSpace)
    ensures DropsOnlySpace(s, r, isSpace)
  {
    var k := |s| - |t|;
    PrefixOfSuffix(s, t, r);
    SuffixCut(s, t, r, isSpace);
    assert OccursAt(s, r, k) && SpaceOutside(s, k, k + |r|, isSpace);
  }

  /** Cutting a white-space tail off a suffix `t` of `s` leaves white space
      in `s` after the kept part. */
  lemma SuffixCut(s: string, t: string, r: string, isSpace: char -> bool)
    requires |t| <= |s| && t == s[|s| - |t|..]
    requires |r| <= |t| && forall i :: |r| <= i < |t| ==> isSpace(t[i])
    ensures forall i :: |s| - |t| + |r| <= i < |s| ==> isSpace(s[i])
  {
    var k := |s| - |t|;
    forall i | k + |r| <= i < |s|
      ensures isSpace(s[i])
    {
      assert s[i] == t[i - k];
    }
  }

  /** `Trim`'s contract pins its result down: any piece of `s` obtained by
      cutting only white space from the ends, and keeping no white space at
      either end, is `Trim`'s result. */
  lemma TrimUnique(s: string, isSpace: char -> bool, r: string)
    requires DropsOnlySpace(s, r, isSpace)
    requires |r| > 0 ==> !isSpace(r[0]) && !isSpace(r[|r| - 1])
    ensures r == Trim(s, isSpace)
  {
    var t := Trim(s, isSpace);
    SameTrimmed(s, isSpace, t, r);
  }

  /** Two pieces of `s` cut that way are equal. */
  lemma SameTrimmed(s: string, isSpace: char -> bool, r1: string, r2: string)
    requires DropsOnlySpace(s, r1, isSpace) && DropsOnlySpace(s, r2, isSpace)
    requires |r1| > 0 ==> !isSpace(r1[0]) && !isSpace(r1[|r1| - 1])
    requires |r2| > 0 ==> !isSpace(r2[0]) && !isSpace(r2[|r2| - 1])
    ensures r1 == r2
  {
    var k1 :| 0 <= k1 <= |s| - |r1| && OccursAt(s, r1, k1) && SpaceOutside(s, k1, k1 + |r1|, isSpace);
    var k2 :| 0 <= k2 <= |s| - |r2| && OccursAt(s, r2, k2) && SpaceOutside(s, k2, k2 + |r2|, isSpace);
    SameCut(s, isSpace, r1, k1, r2, k2);
  }

  /** Two white-space cuts of `s` that keep no white space at their ends are
      the same cut. */
  lemma SameCut(s: string, isSpace: char -> bool, r1: string, k1: int, r2: string, k2: int)
    requires OccursAt(s, r1, k1) && SpaceOutside(s, k1, k1 + |r1|, isSpace)
    requires OccursAt(s, r2, k2) && SpaceOutside(s, k2, k2 + |r2|, isSpace)
    requires |r1| > 0 ==> !isSpace(r1[0]) && !isSpace(r1[|r1| - 1])
    requires |r2| > 0 ==> !isSpace(r2[0]) && !isSpace(r2[|r2| - 1])
    ensures r1 == r2
  {
    if |r1| > 0 && |r2| > 0 {
      assert s[k1] == r1[0] && s[k2] == r2[0];
      assert s[k1 + |r1| - 1] == r1[|r1| - 1] && s[k2 + |r2| - 1] == r2[|r2| - 1];
      assert k1 == k2 && |r1| == |r2|;
    }
  }

  /** A prefix of a suffix of `s` occurs in `s` where the suffix starts. */
  lemma PrefixOfSuffix(s: string, t: string, r: string)
    requires |t| <= |s| && t == s[|s| - |t|..]
    requires |r| <= |t| && r == t[..|r|]
    ensures OccursAt(s, r, |s| - |t|)
  {
    var k := |s| - |t|;
    assert s[k..k + |r|] == s[k..][..|r|];
  }

  /** What `Trim` keeps neither starts nor ends with white space. */
  lemma TrimEnds(s: string, isSpace: char -> bool, t: string, r: string)
    requires t == TrimStart(s, isSpace) && r == TrimEnd(t, isSpace)
    ensures |r| > 0 ==> !isSpace(r[0]) && !isSpace(r[|r| - 1])
  {
    if |r| > 0 {
      assert r[0] == t[0];
    }
  }

  /** `Trim` keeps nothing exactly when every character is white space. */
  lemma TrimEmpty(s: string, isSpace: char -> bool, t: string, r: string)
    requires t == TrimStart(s, isSpace) && r == TrimEnd(t, isSpace)
    ensures r == [] <==> forall i :: 0 <= i < |s| ==> isSpace(s[i])
  {
    if |t| > 0 {
      assert !isSpace(t[0]) && t[0] == s[|s| - |t|];
    }
  }

  /** `!s.trim()` in JavaScript: the string is empty or white space only. */
  predicate IsBlank(s: string)
  {
    forall i :: 0 <= i < |s| ==> IsJsSpace(s[i])
  }

  /** `IsBlank` is `!s.trim()`: trimming a string leaves nothing exactly when
      every character is white space. */
  lemma BlankTrimsToEmpty(s: string)
    ensures IsBlank(s) <==> Trim(s, IsJsSpace) == []
  {
  }
}
