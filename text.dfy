/**
 * The string helpers the pipeline relies on: Python's `str.strip`, the leading
 * marker pattern `^\s*[\d\.\-\*]+\s*`, `str.split(sep)`, `str.rsplit(sep, 1)`,
 * `str.replace(ch, '')` and slicing `s[:n]`. Whitespace and digits are the ASCII ones.
 */
module Text {
  import opened Wrappers

  /** Python's `str.isspace` on ASCII: \t \n \v \f \r, the space, and the separators \x1c-\x1f. */
  predicate IsSpace(ch: char) {
    ('\t' <= ch <= '\r') || ch == ' ' || ('\U{1C}' <= ch <= '\U{1F}')
  }

  /** One character of the class `[\d\.\-\*]`. */
  predicate IsMarker(ch: char) {
    ('0' <= ch <= '9') || ch == '.' || ch == '-' || ch == '*'
  }

  /** Every character of `s` from index `lo` up to `hi` is whitespace. */
  predicate SpacesIn(s: string, lo: int, hi: int) {
    forall k :: lo <= k < hi && 0 <= k < |s| ==> IsSpace(s[k])
  }

  /** Every character of `s` from index `lo` up to `hi` is a marker character. */
  predicate MarkersIn(s: string, lo: int, hi: int) {
    forall k :: lo <= k < hi && 0 <= k < |s| ==> IsMarker(s[k])
  }

  /** The first index at or after `k` whose character is not whitespace, or `|s|`. */
  function SkipSpaces(s: string, k: nat): (e: nat)
    requires k <= |s|
    decreases |s| - k
    ensures k <= e <= |s| && SpacesIn(s, k, e)
    ensures e < |s| ==> !IsSpace(s[e])
  {
    if k < |s| && IsSpace(s[k]) then SkipSpaces(s, k + 1) else k
  }

  /** The first index at or after `k` whose character is not a marker, or `|s|`. */
  function SkipMarkers(s: string, k: nat): (e: nat)
    requires k <= |s|
    decreases |s| - k
    ensures k <= e <= |s| && MarkersIn(s, k, e)
    ensures e < |s| ==> !IsMarker(s[e])
  {
    if k < |s| && IsMarker(s[k]) then SkipMarkers(s, k + 1) else k
  }

  /** The index just after the last non-space character before `k`, or 0. */
  function BackSpaces(s: string, k: nat): (e: nat)
    requires k <= |s|
    ensures e <= k && SpacesIn(s, e, k)
    ensures 0 < e ==> !IsSpace(s[e - 1])
  {
    if 0 < k && IsSpace(s[k - 1]) then BackSpaces(s, k - 1) else k
  }

  /**
   * Python's `s.strip()`: the text from its first to its last non-space
   * character, or the empty text when there is none.
   */
  function Strip(s: string): (r: string)
    ensures r == [] || (!IsSpace(r[0]) && !IsSpace(r[|r| - 1]))
    ensures var k := SkipSpaces(s, 0);
      k + |r| <= |s| && r == s[k..k + |r|] && SpacesIn(s, 0, k) && SpacesIn(s, k + |r|, |s|)
  {
    var a := SkipSpaces(s, 0);
    var b := BackSpaces(s, |s|);
    if b <= a then [] else s[a..b]
  }

  /** Stripping a stripped text changes nothing. */
  lemma StripIdempotent(s: string)
    ensures Strip(Strip(s)) == Strip(s)
  {
    var r := Strip(s);
    if r != [] {
      assert SkipSpaces(r, 0) == 0;
      assert BackSpaces(r, |r|) == |r|;
    }
  }

  /** No character is both whitespace and a marker. */
  lemma SpaceNotMarker(ch: char)
    ensures !(IsSpace(ch) && IsMarker(ch))
  {
  }

  /** The first `n` characters of `s` match `\s*[\d\.\-\*]+\s*` as a whole. */
  ghost predicate MarkerRunPrefix(s: string, n: int) {
    exists i, j :: 0 <= i < j <= n <= |s| && SpacesIn(s, 0, i) && MarkersIn(s, i, j) && SpacesIn(s, j, n)
  }

  /** The text starts, after its leading whitespace, with a marker character. */
  predicate StartsWithMarker(s: string) {
    SkipSpaces(s, 0) < |s| && IsMarker(s[SkipSpaces(s, 0)])
  }

  /** Where the leading whitespace, marker and whitespace runs end, or 0 when the text has no marker there. */
  function MarkerRunEnd(s: string): nat {
    if StartsWithMarker(s) then SkipSpaces(s, SkipMarkers(s, SkipSpaces(s, 0))) else 0
  }

  /**
   * Python's `re.sub(r'^\s*[\d\.\-\*]+\s*', '', s)`: removes the one leading run of
   * whitespace, list-marker characters and whitespace, if the text starts with one.
   */
  function StripLeadingMarker(s: string): (r: string)
    ensures r != s <==> StartsWithMarker(s)
    ensures r == s || r == [] || !IsSpace(r[0])
  {
    s[MarkerRunEnd(s)..]
  }

  /**
   * What StripLeadingMarker removes is exactly one match of the pattern, and
   * what it keeps is the rest of the text.
   */
  lemma StripLeadingMarkerRemovesRun(s: string)
    requires StripLeadingMarker(s) != s
    ensures |StripLeadingMarker(s)| <= |s| && StripLeadingMarker(s) == s[|s| - |StripLeadingMarker(s)|..]
    ensures MarkerRunPrefix(s, |s| - |StripLeadingMarker(s)|)
  {
    var i := SkipSpaces(s, 0);
    var j := SkipMarkers(s, i);
    var e := SkipSpaces(s, j);
    assert MarkerRunEnd(s) == e && |s| - |StripLeadingMarker(s)| == e;
    assert 0 <= i < j <= e <= |s| && SpacesIn(s, 0, i) && MarkersIn(s, i, j) && SpacesIn(s, j, e);
  }

  /** Any match of the pattern at the start of `s` ends no later than the run StripLeadingMarker removes. */
  lemma MatchWithinRemovedRun(s: string, i: int, j: int, n: int)
    requires 0 <= i < j <= n <= |s| && SpacesIn(s, 0, i) && MarkersIn(s, i, j) && SpacesIn(s, j, n)
    ensures StartsWithMarker(s) && n <= MarkerRunEnd(s)
  {
    // The match starts at the first non-space character, its marker run ends
    // at the first non-marker, and its whitespace at the next non-space.
    SpaceNotMarker(s[i]);
    var b := SkipMarkers(s, SkipSpaces(s, 0));
    if j < n {
      SpaceNotMarker(s[j]);
    }
  }

  /**
   * The pattern is greedy: no prefix longer than the removed one matches
   * `\s*[\d\.\-\*]+\s*`, and a text that is left as it is has no match at all.
   */
  lemma StripLeadingMarkerIsLongest(s: string)
    ensures forall n :: |s| - |StripLeadingMarker(s)| < n ==> !MarkerRunPrefix(s, n)
    ensures StripLeadingMarker(s) == s ==> forall n :: !MarkerRunPrefix(s, n)
  {
    forall n | MarkerRunPrefix(s, n)
      ensures StripLeadingMarker(s) != s && n <= |s| - |StripLeadingMarker(s)|
    {
      var i, j :| 0 <= i < j <= n <= |s| && SpacesIn(s, 0, i) && MarkersIn(s, i, j) && SpacesIn(s, j, n);
      MatchWithinRemovedRun(s, i, j, n);
    }
  }

  /** `pat` occurs in `s` starting at index `i`. */
  predicate OccursAt(s: string, pat: string, i: int) {
    0 <= i && i + |pat| <= |s| && s[i..i + |pat|] == pat
  }

  ghost predicate Contains(s: string, pat: string) {
    exists i :: OccursAt(s, pat, i)
  }

  /** The first occurrence of `pat` at or after `k`. */
  function FirstFrom(s: string, pat: string, k: nat): (r: Option<nat>)
    decreases |s| - k
    ensures r.Some? ==> k <= r.value && OccursAt(s, pat, r.value)
    ensures r.Some? ==> forall j :: k <= j < r.value ==> !OccursAt(s, pat, j)
    ensures r.None? ==> forall j :: k <= j ==> !OccursAt(s, pat, j)
  {
    if k + |pat| > |s| then None
    else if s[k..k + |pat|] == pat then Some(k)
    else FirstFrom(s, pat, k + 1)
  }

  /** The last occurrence of `pat` at or before `k`. */
  function LastUpTo(s: string, pat: string, k: int): (r: Option<nat>)
    decreases k + 1
    ensures r.Some? ==> r.value <= k && OccursAt(s, pat, r.value)
    ensures r.Some? ==> forall j :: r.value < j <= k ==> !OccursAt(s, pat, j)
    ensures r.None? ==> forall j :: j <= k ==> !OccursAt(s, pat, j)
  {
    if k < 0 then None
    else if OccursAt(s, pat, k) then Some(k)
    else LastUpTo(s, pat, k - 1)
  }

  /**
   * Python's `s.rsplit(pat, 1)[0] if pat in s else s`: the text before the last
   * occurrence of `pat`, or the whole text when `pat` does not occur.
   */
  function BeforeLast(s: string, pat: string): (r: string)
    ensures |r| <= |s| && r == s[..|r|]
    ensures !Contains(s, pat) ==> r == s
    ensures Contains(s, pat) ==> OccursAt(s, pat, |r|) && forall j :: |r| < j ==> !OccursAt(s, pat, j)
  {
    match LastUpTo(s, pat, |s| - |pat|)
    case None => s
    case Some(j) => s[..j]
  }

  /**
   * Python's `s.split(sep)`: the pieces between non-overlapping occurrences, left
   * to right. The first cut is at the leftmost occurrence (`SplitRest`: the text
   * after it is split the same way).
   */
  function Split(s: string, sep: string): (parts: seq<string>)
    requires |sep| > 0
    decreases |s|
    ensures |parts| >= 1
    ensures |parts| == 1 <==> FirstFrom(s, sep, 0).None?
    ensures |parts| > 1 ==> FirstFrom(s, sep, 0) == Some(|parts[0]|) && parts[0] == s[..|parts[0]|]
  {
    match FirstFrom(s, sep, 0)
    case None => [s]
    case Some(i) => [s[..i]] + Split(s[i + |sep|..], sep)
  }

  /** Python's `sep.join(parts)`. */
  function Join(parts: seq<string>, sep: string): string
    requires |parts| >= 1
  {
    if |parts| == 1 then parts[0] else parts[0] + sep + Join(parts[1..], sep)
  }

  /** Splitting loses nothing: joining the pieces back gives the original text. */
  lemma {:induction false} JoinSplit(s: string, sep: string)
    requires |sep| > 0
    decreases |s|
    ensures Join(Split(s, sep), sep) == s
  {
    var f := FirstFrom(s, sep, 0);
    if f.Some? {
      var i := f.value;
      var rest := s[i + |sep|..];
      var tail := Split(rest, sep);
      JoinSplit(rest, sep);
      assert Split(s, sep) == [s[..i]] + tail;
      assert ([s[..i]] + tail)[1..] == tail;
      assert Join(Split(s, sep), sep) == s[..i] + sep + Join(tail, sep);
      assert s[i..i + |sep|] == sep;
      assert s == s[..i] + s[i..i + |sep|] + rest;
    }
  }

  /** An occurrence inside a prefix is an occurrence in the whole text. */
  lemma OccursInPrefix(s: string, pat: string, n: nat, j: int)
    requires n <= |s| && OccursAt(s[..n], pat, j)
    ensures OccursAt(s, pat, j)
  {
    assert s[..n][j..j + |pat|] == s[j..j + |pat|];
  }

  /** No piece produced by Split contains the separator. */
  lemma {:induction false} SplitPiecesFree(s: string, sep: string)
    requires |sep| > 0
    decreases |s|
    ensures forall k :: 0 <= k < |Split(s, sep)| ==> !Contains(Split(s, sep)[k], sep)
  {
    match FirstFrom(s, sep, 0)
    case None =>
    case Some(i) =>
      var rest := s[i + |sep|..];
      SplitPiecesFree(rest, sep);
      assert Split(s, sep)[1..] == Split(rest, sep);
      forall j | OccursAt(s[..i], sep, j)
        ensures false
      {
        OccursInPrefix(s, sep, i, j);
      }
  }

  /** Exactly one separator in the text, counted as Python's split counts, gives two pieces. */
  lemma SplitTwo(s: string, sep: string)
    requires |sep| > 0 && |Split(s, sep)| == 2
    ensures var parts := Split(s, sep);
      s == parts[0] + sep + parts[1] && !Contains(parts[0], sep) && !Contains(parts[1], sep)
  {
    JoinSplit(s, sep);
    SplitPiecesFree(s, sep);
    var parts := Split(s, sep);
    assert Join(parts, sep) == parts[0] + sep + Join(parts[1..], sep);
    assert parts[1..] == [parts[1]];
  }

  /** A text without the separator splits into itself alone, and only such a text does. */
  lemma SplitOne(s: string, sep: string)
    requires |sep| > 0
    ensures |Split(s, sep)| == 1 <==> !Contains(s, sep)
    ensures !Contains(s, sep) ==> Split(s, sep) == [s]
  {
    match FirstFrom(s, sep, 0)
    case None =>
    case Some(i) =>
      assert OccursAt(s, sep, i);
  }

  /** After the first cut, the rest of the text is split in the same way. */
  lemma SplitRest(s: string, sep: string)
    requires |sep| > 0 && |Split(s, sep)| > 1
    ensures var parts := Split(s, sep);
      |parts[0]| + |sep| <= |s| && parts[1..] == Split(s[|parts[0]| + |sep|..], sep)
  {
    var k := FirstFrom(s, sep, 0).value;
    var tail := Split(s[k + |sep|..], sep);
    var parts := Split(s, sep);
    assert parts == [s[..k]] + tail;
    assert parts[1..] == tail by {
      assert ([s[..k]] + tail)[1..] == tail;
    }
  }

  /** Two non-overlapping occurrences of the separator give at least three pieces. */
  lemma SplitAtLeastThree(s: string, sep: string, i: int, j: int)
    requires |sep| > 0 && OccursAt(s, sep, i) && OccursAt(s, sep, j) && i + |sep| <= j
    ensures |Split(s, sep)| >= 3
  {
    FirstAtOrBefore(s, sep, i);
    var k := FirstFrom(s, sep, 0).value;
    OccursAfterCut(s, sep, k, j);
    SplitOne(s[k + |sep|..], sep);
    SplitCount(s, sep);
  }

  /** An occurrence at `i` puts the first occurrence at or before `i`. */
  lemma FirstAtOrBefore(s: string, sep: string, i: int)
    requires OccursAt(s, sep, i)
    ensures FirstFrom(s, sep, 0).Some? && FirstFrom(s, sep, 0).value <= i
  {
  }

  /** An occurrence past a cut is an occurrence in what follows the cut. */
  lemma OccursAfterCut(s: string, sep: string, k: nat, j: int)
    requires k + |sep| <= j && OccursAt(s, sep, j)
    ensures Contains(s[k + |sep|..], sep)
  {
    var rest := s[k + |sep|..];
    var p := j - (k + |sep|);
    assert rest[p..p + |sep|] == s[j..j + |sep|];
    assert OccursAt(rest, sep, p);
  }

  /** Each cut adds one piece. */
  lemma SplitCount(s: string, sep: string)
    requires |sep| > 0 && FirstFrom(s, sep, 0).Some?
    ensures var k := FirstFrom(s, sep, 0).value;
      k + |sep| <= |s| && |Split(s, sep)| == 1 + |Split(s[k + |sep|..], sep)|
  {
  }

  /** Python's `s.replace(ch, '')`. */
  function RemoveAll(s: string, ch: char): (r: string)
    ensures |r| <= |s|
    ensures forall c :: c in r <==> c in s && c != ch
  {
    if s == [] then [] else (if s[0] == ch then [] else [s[0]]) + RemoveAll(s[1..], ch)
  }

  /** Every other character keeps its number of occurrences, and the removed one has none left. */
  lemma {:induction false} RemoveAllCounts(s: string, ch: char)
    ensures multiset(RemoveAll(s, ch)) == multiset(s)[ch := 0]
  {
    if s != [] {
      var rest := RemoveAll(s[1..], ch);
      RemoveAllCounts(s[1..], ch);
      assert s == [s[0]] + s[1..];
      assert RemoveAll(s, ch) == (if s[0] == ch then [] else [s[0]]) + rest;
    }
  }

  /** Removal works part by part: a concatenation loses the character from each part, in order. */
  lemma {:induction false} RemoveAllConcat(a: string, b: string, ch: char)
    ensures RemoveAll(a + b, ch) == RemoveAll(a, ch) + RemoveAll(b, ch)
  {
    if a == [] {
      assert a + b == b;
    } else {
      var ab := a + b;
      assert ab[1..] == a[1..] + b && ab[0] == a[0];
      var head := if a[0] == ch then [] else [a[0]];
      assert RemoveAll(ab, ch) == head + RemoveAll(a[1..] + b, ch);
      RemoveAllConcat(a[1..], b, ch);
      assert RemoveAll(a, ch) == head + RemoveAll(a[1..], ch);
    }
  }

  /** A single character is dropped when it is the removed one, and kept otherwise. */
  lemma RemoveAllChar(c: char, ch: char)
    ensures RemoveAll([c], ch) == if c == ch then [] else [c]
  {
    assert [c][1..] == [];
  }

  /** Removing a character that does not occur changes nothing; removing it twice is removing it once. */
  lemma {:induction false} RemoveAllIdempotent(s: string, ch: char)
    ensures RemoveAll(RemoveAll(s, ch), ch) == RemoveAll(s, ch)
    ensures ch !in s ==> RemoveAll(s, ch) == s
  {
    if s != [] {
      var tail := RemoveAll(s[1..], ch);
      RemoveAllIdempotent(s[1..], ch);
      if s[0] == ch {
        assert RemoveAll(s, ch) == tail;
      } else {
        assert RemoveAll(s, ch) == [s[0]] + tail;
        assert ([s[0]] + tail)[1..] == tail;
        assert RemoveAll([s[0]] + tail, ch) == [s[0]] + RemoveAll(tail, ch);
      }
    }
  }

  /** Python's `s[:n]`. */
  function Prefix(s: string, n: nat): (r: string)
    ensures |r| <= n && |r| <= |s| && r == s[..|r|]
    ensures |s| <= n ==> r == s
    ensures |s| > n ==> |r| == n
  {
    if |s| <= n then s else s[..n]
  }
}
