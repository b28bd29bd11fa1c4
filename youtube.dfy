/**
 * `extract_video_id`: three regular expressions tried in order, each a choice of literal prefixes
 * followed by the captured run `([^&\n?]*)`. `re.search` finds the leftmost index where some
 * prefix occurs, trying the prefixes of the choice in order at that index.
 */
module YouTube {
  import opened Wrappers
  import opened Text

  /** The prefixes of the three patterns, in the order they are tried. */
  const Patterns: seq<seq<string>> := [
    ["youtube.com/watch?v=", "youtu.be/"],
    ["youtube.com/embed/"],
    ["youtube.com/v/"]
  ]

  /** The characters the capture `[^&\n?]*` cannot contain. */
  predicate IsDelimiter(c: char) {
    c == '&' || c == '\n' || c == '?'
  }

  /** `([^&\n?]*)`: the longest prefix of `s` without a delimiter. */
  function Run(s: string): (r: string)
    ensures StartsWith(s, r)
    ensures forall i :: 0 <= i < |r| ==> !IsDelimiter(r[i])
    ensures |r| == |s| || IsDelimiter(s[|r|])
    decreases |s|
  {
    if s == [] || IsDelimiter(s[0]) then "" else [s[0]] + Run(s[1..])
  }

  /** Some prefix of `alts` occurs at index `i` of `url`. */
  predicate AnyAt(url: string, alts: seq<string>, i: int) {
    exists a | a in alts :: OccursAt(url, a, i)
  }

  /** The first prefix of `alts` that occurs at index `i` of `url`. */
  function AltAt(url: string, alts: seq<string>, i: int): (r: Option<string>)
    ensures r.None? <==> !AnyAt(url, alts, i)
    ensures r.Some? ==> exists m :: (0 <= m < |alts| && r.value == alts[m] && OccursAt(url, alts[m], i) &&
      forall m' :: 0 <= m' < m ==> !OccursAt(url, alts[m'], i))
    decreases |alts|
  {
    if alts == [] then None
    else if OccursAt(url, alts[0], i) then Some(alts[0])
    else
      var r := AltAt(url, alts[1..], i);
      assert forall a :: a in alts[1..] ==> a in alts;
      assert r.Some? ==> forall m' :: 0 <= m' < 1 ==> !OccursAt(url, alts[m'], i);
      r
  }

  /** `re.search` of the pattern with prefixes `alts`, looking at the indices from `i` on. */
  function SearchFrom(url: string, alts: seq<string>, i: nat): Option<string>
    decreases |url| + 1 - i
  {
    if i > |url| then None
    else
      match AltAt(url, alts, i)
      case Some(a) => Some(Run(url[i + |a|..]))
      case None => SearchFrom(url, alts, i + 1)
  }

  /** `re.search(pattern, url)`, giving `match.group(1)` on a match. */
  function Search(url: string, alts: seq<string>): Option<string> {
    SearchFrom(url, alts, 0)
  }

  function ExtractFrom(url: string, k: nat): Option<string>
    requires k <= |Patterns|
    decreases |Patterns| - k
  {
    if k == |Patterns| then None
    else
      match Search(url, Patterns[k])
      case Some(id) => Some(id)
      case None => ExtractFrom(url, k + 1)
  }

  /** `extract_video_id(url)`, with `None` for Python's `None`. */
  function ExtractVideoId(url: string): Option<string> {
    ExtractFrom(url, 0)
  }

  /** Some prefix of `alts` occurs somewhere in `url`. */
  predicate Occurs(url: string, alts: seq<string>) {
    exists a | a in alts :: Contains(url, a)
  }

  lemma {:induction false} SearchFromIff(url: string, alts: seq<string>, i: nat)
    ensures SearchFrom(url, alts, i).Some? <==> exists j :: i <= j <= |url| && AnyAt(url, alts, j)
    decreases |url| + 1 - i
  {
    if i <= |url| && !AnyAt(url, alts, i) {
      SearchFromIff(url, alts, i + 1);
      if exists j :: i <= j <= |url| && AnyAt(url, alts, j) {
        var j :| i <= j <= |url| && AnyAt(url, alts, j);
        assert j != i;
      }
    }
  }

  /** A pattern matches exactly when one of its prefixes occurs somewhere in the URL. */
  lemma SearchIff(url: string, alts: seq<string>)
    ensures Search(url, alts).Some? <==> Occurs(url, alts)
  {
    SearchFromIff(url, alts, 0);
    if Occurs(url, alts) {
      var a :| a in alts && Contains(url, a);
      ContainsIff(url, a);
      var j :| OccursAt(url, a, j);
      assert AnyAt(url, alts, j);
    }
    if exists j :: 0 <= j <= |url| && AnyAt(url, alts, j) {
      var j :| 0 <= j <= |url| && AnyAt(url, alts, j);
      var a :| a in alts && OccursAt(url, a, j);
      ContainsAt(url, a, j);
    }
  }

  /** `j` is the leftmost index from `i` on where a prefix of `alts` occurs. */
  predicate LeftmostFrom(url: string, alts: seq<string>, i: nat, j: int) {
    i <= j <= |url| && AnyAt(url, alts, j) && forall k :: i <= k < j ==> !AnyAt(url, alts, k)
  }

  /** The run captured after the first prefix of `alts` that occurs at index `j`. */
  function Capture(url: string, alts: seq<string>, j: nat): string
    requires AnyAt(url, alts, j)
  {
    var a := AltAt(url, alts, j).value;
    assert OccursAt(url, a, j);
    Run(url[j + |a|..])
  }

  /**
   * A match is at the leftmost index where a prefix occurs; the first prefix that occurs there is
   * the one consumed, and the capture is the run after it.
   */
  lemma {:induction false} SearchFromLeftmost(url: string, alts: seq<string>, i: nat, id: string)
    requires SearchFrom(url, alts, i) == Some(id)
    ensures exists j :: LeftmostFrom(url, alts, i, j) && id == Capture(url, alts, j)
    decreases |url| + 1 - i
  {
    if AltAt(url, alts, i).None? {
      SearchFromLeftmost(url, alts, i + 1, id);
      var j :| LeftmostFrom(url, alts, i + 1, j) && id == Capture(url, alts, j);
      assert LeftmostFrom(url, alts, i, j);
    } else {
      assert LeftmostFrom(url, alts, i, i);
    }
  }

  /** A match of a pattern is at the leftmost index where one of its prefixes occurs. */
  lemma SearchLeftmost(url: string, alts: seq<string>, id: string)
    requires Search(url, alts) == Some(id)
    ensures exists j :: LeftmostFrom(url, alts, 0, j) && id == Capture(url, alts, j)
  {
    SearchFromLeftmost(url, alts, 0, id);
  }

  lemma {:induction false} ExtractFromNone(url: string, k: nat)
    requires k <= |Patterns|
    ensures ExtractFrom(url, k).None? <==> forall m :: k <= m < |Patterns| ==> !Occurs(url, Patterns[m])
    decreases |Patterns| - k
  {
    if k < |Patterns| {
      SearchIff(url, Patterns[k]);
      ExtractFromNone(url, k + 1);
    }
  }

  /** No id is found exactly when no prefix of any pattern occurs in the URL. */
  lemma ExtractNoneIff(url: string)
    ensures ExtractVideoId(url).None? <==> forall m :: 0 <= m < |Patterns| ==> !Occurs(url, Patterns[m])
  {
    ExtractFromNone(url, 0);
  }

  lemma {:induction false} ExtractFromFirst(url: string, k: nat, id: string)
    requires k <= |Patterns| && ExtractFrom(url, k) == Some(id)
    ensures exists m :: (k <= m < |Patterns| && Search(url, Patterns[m]) == Some(id) &&
      forall m' :: k <= m' < m ==> !Occurs(url, Patterns[m']))
    decreases |Patterns| - k
  {
    SearchIff(url, Patterns[k]);
    if Search(url, Patterns[k]).None? {
      ExtractFromFirst(url, k + 1, id);
    }
  }

  /** A found id comes from the first pattern that occurs in the URL. */
  lemma ExtractFirstPattern(url: string, id: string)
    requires ExtractVideoId(url) == Some(id)
    ensures exists m :: (0 <= m < |Patterns| && Search(url, Patterns[m]) == Some(id) &&
      forall m' :: 0 <= m' < m ==> !Occurs(url, Patterns[m']))
  {
    ExtractFromFirst(url, 0, id);
  }

  /** The captured id may be empty: "youtu.be/?x" gives "". */
  lemma EmptyIdExample()
    ensures ExtractVideoId("youtu.be/?x") == Some("")
  {
    var url := "youtu.be/?x";
    assert OccursAt(url, "youtu.be/", 0);
    assert !OccursAt(url, "youtube.com/watch?v=", 0);
    assert AltAt(url, Patterns[0], 0) == Some("youtu.be/");
    assert url[9..] == "?x";
  }

  /** The capture stops at the first delimiter: "youtube.com/watch?v=abc&t=1" gives "abc". */
  lemma WatchIdExample()
    ensures ExtractVideoId("youtube.com/watch?v=abc&t=1") == Some("abc")
  {
    var url := "youtube.com/watch?v=abc&t=1";
    assert OccursAt(url, "youtube.com/watch?v=", 0);
    assert url[20..] == "abc&t=1";
    assert Run("abc&t=1") == "abc" by {
      assert "abc&t=1"[1..] == "bc&t=1";
      assert "bc&t=1"[1..] == "c&t=1";
      assert "c&t=1"[1..] == "&t=1";
    }
  }
}
