/** Segments of collective documents (src/apps/classification/decide.py, find_segments): the pages that match, cut into
  * stretches. What matches is given: the patterns are not part of the model. */
module Segments {
  import opened Wrappers

  datatype Segment = Segment(first: int, last: int)

  ghost predicate Rising(pages: seq<int>) {
    forall i, j :: 0 <= i < j < |pages| ==> pages[i] < pages[j]
  }

  ghost predicate Covered(segments: seq<Segment>, n: int) {
    exists s :: 0 <= s < |segments| && segments[s].first <= n <= segments[s].last
  }

  /** From left to right, none empty, none overlapping another. */
  ghost predicate Apart(segments: seq<Segment>) {
    (forall s :: 0 <= s < |segments| ==> segments[s].first <= segments[s].last)
    && forall s, t :: 0 <= s < t < |segments| ==> segments[s].last < segments[t].first
  }

  // ---------------------------------------------------------------- from one match to the next

  /** Up to the page before the next start. */
  function EndAt(starts: seq<int>, lastPage: int, s: nat): int
    requires s < |starts|
  {
    if s + 1 < |starts| then starts[s + 1] - 1 else lastPage
  }

  function Heads(starts: seq<int>, lastPage: int): (segments: seq<Segment>)
    ensures |segments| == |starts|
  {
    seq(|starts|, s requires 0 <= s < |starts| => Segment(starts[s], EndAt(starts, lastPage, s)))
  }

  /** Single statements within an overall statement: every match opens a segment that runs to the next one, the last one
    * to the last page. */
  lemma HeadsFacts(starts: seq<int>, lastPage: int)
    requires Rising(starts) && forall i :: 0 <= i < |starts| ==> starts[i] <= lastPage
    ensures Apart(Heads(starts, lastPage))
    ensures forall i :: 0 <= i < |starts| ==> Heads(starts, lastPage)[i].first == starts[i]
    ensures forall n :: Covered(Heads(starts, lastPage), n) <==> starts != [] && starts[0] <= n <= lastPage
  {
    var segments := Heads(starts, lastPage);
    forall s, t | 0 <= s < t < |segments| ensures segments[s].last < segments[t].first {
      assert s + 1 == t || starts[s + 1] < starts[t];
    }
    forall s | 0 <= s < |segments| ensures segments[s].first <= segments[s].last {
      assert s + 1 < |starts| ==> starts[s] < starts[s + 1];
    }
    forall n ensures Covered(segments, n) <==> starts != [] && starts[0] <= n <= lastPage {
      HeadsCover(starts, lastPage, segments, n);
    }
  }

  lemma HeadsCover(starts: seq<int>, lastPage: int, segments: seq<Segment>, n: int)
    requires Rising(starts) && (forall i :: 0 <= i < |starts| ==> starts[i] <= lastPage) && |segments| == |starts|
    requires forall s :: 0 <= s < |starts| ==> segments[s] == Segment(starts[s], EndAt(starts, lastPage, s))
    ensures Covered(segments, n) <==> starts != [] && starts[0] <= n <= lastPage
  {
    if s :| 0 <= s < |segments| && segments[s].first <= n <= segments[s].last {
      assert s == 0 || starts[0] < starts[s];
      assert s + 1 < |starts| ==> starts[s + 1] <= lastPage;
    }
    if starts != [] && starts[0] <= n <= lastPage {
      var s := |starts| - 1;
      while starts[s] > n
        invariant 0 <= s < |starts|
        invariant s + 1 < |starts| ==> n < starts[s + 1]
      {
        s := s - 1;
      }
      assert segments[s].first <= n <= segments[s].last;
    }
  }

  method HeadSegments(starts: seq<int>, lastPage: int) returns (segments: seq<Segment>)
    ensures segments == Heads(starts, lastPage)
  {
    segments := [];
    for i := 0 to |starts|
      invariant |segments| == i
      invariant forall s :: 0 <= s < i ==> segments[s] == Segment(starts[s], EndAt(starts, lastPage, s))
    {
      segments := segments + [Segment(starts[i], if i + 1 < |starts| then starts[i + 1] - 1 else lastPage)];
    }
  }

  // ---------------------------------------------------------------- runs of consecutive matches

  function Runs(pages: seq<int>): seq<Segment> {
    if pages == [] then []
    else
      var front, n := Runs(pages[..|pages| - 1]), pages[|pages| - 1];
      var k := |front|;
      if k > 0 && front[k - 1].last == n - 1 then front[k - 1 := Segment(front[k - 1].first, n)] else front + [Segment(n, n)]
  }

  /** Minutes of a meeting: the longest runs of consecutive pages that concern an owner. */
  lemma {:induction false} RunsFacts(pages: seq<int>)
    requires Rising(pages)
    ensures var segments := Runs(pages);
      && Apart(segments) && (segments == [] <==> pages == []) && (pages != [] ==> segments[|segments| - 1].last == pages[|pages| - 1])
      && (forall s, t :: 0 <= s < t < |segments| ==> segments[s].last + 1 < segments[t].first)
      && forall n :: Covered(segments, n) <==> n in pages
    decreases |pages|
  {
    if pages != [] {
      var prior, n := pages[..|pages| - 1], pages[|pages| - 1];
      RunsFacts(prior);
      var front := Runs(prior);
      assert pages == prior + [n];
      assert prior != [] ==> pages[|pages| - 2] < n;
      var segments := Runs(pages);
      if front != [] && front[|front| - 1].last == n - 1 {
        forall m ensures Covered(segments, m) <==> m in pages { Widened(front, segments, n, m); }
      } else {
        forall m ensures Covered(segments, m) <==> m in pages { OneMore(front, segments, n, m); }
      }
    }
  }

  method MinuteSegments(pages: seq<int>) returns (segments: seq<Segment>)
    ensures segments == Runs(pages)
  {
    segments := [];
    for i := 0 to |pages|
      invariant segments == Runs(pages[..i])
    {
      var n, k := pages[i], |segments|;
      assert pages[..i + 1][..i] == pages[..i];
      if k > 0 && segments[k - 1].last == n - 1 {
        segments := segments[k - 1 := segments[k - 1].(last := n)];
      } else {
        segments := segments + [Segment(n, n)];
      }
    }
    assert pages[..|pages|] == pages;
  }

  lemma Widened(segments: seq<Segment>, wider: seq<Segment>, n: int, m: int)
    requires segments != [] && segments[|segments| - 1].last == n - 1 && segments[|segments| - 1].first <= n - 1
    requires wider == segments[|segments| - 1 := Segment(segments[|segments| - 1].first, n)]
    ensures Covered(wider, m) <==> Covered(segments, m) || m == n
  {
    var k := |segments| - 1;
    if s :| 0 <= s < |segments| && segments[s].first <= m <= segments[s].last { assert wider[s].first <= m <= wider[s].last; }
    if m == n { assert wider[k].first <= n <= wider[k].last; }
    if s :| 0 <= s < |wider| && wider[s].first <= m <= wider[s].last {
      if m != n { assert segments[s].first <= m <= segments[s].last; }
    }
  }

  lemma OneMore(segments: seq<Segment>, more: seq<Segment>, n: int, m: int)
    requires more == segments + [Segment(n, n)]
    ensures Covered(more, m) <==> Covered(segments, m) || m == n
  {
    if s :| 0 <= s < |segments| && segments[s].first <= m <= segments[s].last { assert more[s].first <= m <= more[s].last; }
    if m == n { assert more[|segments|].first <= n <= more[|segments|].last; }
    if s :| 0 <= s < |more| && more[s].first <= m <= more[s].last {
      if s < |segments| { assert segments[s].first <= m <= segments[s].last; }
    }
  }

  // ---------------------------------------------------------------- the segments of a document

  /** The pages in ascending order and what was found on them: the head of a single statement, the head of an overall
    * statement, an item of the agenda, a unit, an owner. */
  datatype Hits = Hits(pages: seq<int>, head: (string, int) -> bool, overall: int -> bool, item: int -> bool, unit: int -> bool,
                       owner: int -> bool)

  datatype Stretch = Stretch(pages: (int, int), subfolder: string, documentType: string)

  /** Where the single statements of an overall statement go. */
  function HeadTarget(documentType: string): Option<(string, string)> {
    if documentType == "gesamtjahresabrechnung" then Some(("05", "einzelabrechnung"))
    else if documentType == "gesamtwirtschaftsplan" then Some(("06", "einzelwirtschaftsplan"))
    else None
  }

  function Select(pages: seq<int>, p: int -> bool): (r: seq<int>)
    ensures forall n :: n in r <==> n in pages && p(n)
  {
    if pages == [] then []
    else
      assert pages == pages[..|pages| - 1] + [pages[|pages| - 1]];
      Select(pages[..|pages| - 1], p) + (if p(pages[|pages| - 1]) then [pages[|pages| - 1]] else [])
  }

  predicate Starts(h: Hits, documentType: string, n: int) {
    h.head(documentType, n) && (documentType == "gesamtjahresabrechnung" ==> !h.overall(n))
  }

  predicate Concerns(h: Hits, n: int) { h.item(n) && (h.unit(n) || h.owner(n)) }

  function LastOf(pages: seq<int>): int { if pages == [] then 0 else pages[|pages| - 1] }

  function Labelled(segments: seq<Segment>, subfolder: string, documentType: string): (r: seq<Stretch>)
    ensures |r| == |segments|
  {
    seq(|segments|, s requires 0 <= s < |segments| => Stretch((segments[s].first, segments[s].last), subfolder, documentType))
  }

  function SegmentsOf(h: Hits, documentType: Option<string>): seq<Segment> {
    if documentType.None? then []
    else if HeadTarget(documentType.value).Some?
    then Heads(Select(h.pages, (n: int) => Starts(h, documentType.value, n)), LastOf(h.pages))
    else if documentType.value == "versammlungsprotokoll" then Runs(Select(h.pages, (n: int) => Concerns(h, n)))
    else []
  }

  function TargetOf(documentType: Option<string>): (string, string) {
    if documentType.Some? && HeadTarget(documentType.value).Some? then HeadTarget(documentType.value).value
    else ("07", "beschluss_eigentuemerbezug")
  }

  function Stretches(h: Hits, documentType: Option<string>): seq<Stretch> {
    Labelled(SegmentsOf(h, documentType), TargetOf(documentType).0, TargetOf(documentType).1)
  }

  lemma {:induction false} SelectRises(pages: seq<int>, p: int -> bool)
    requires Rising(pages)
    ensures Rising(Select(pages, p))
  {
    if pages != [] {
      var front, r := pages[..|pages| - 1], Select(pages[..|pages| - 1], p);
      SelectRises(front, p);
      forall i | 0 <= i < |r| ensures r[i] < pages[|pages| - 1] {
        assert r[i] in front;
        var k :| 0 <= k < |front| && front[k] == r[i];
        assert pages[k] < pages[|pages| - 1];
      }
    }
  }

  lemma SelectUpToLast(pages: seq<int>, p: int -> bool, i: nat)
    requires Rising(pages) && i < |Select(pages, p)|
    ensures Select(pages, p)[i] <= LastOf(pages)
  {
    hide Select;
    assert Select(pages, p)[i] in pages;
    var k :| 0 <= k < |pages| && pages[k] == Select(pages, p)[i];
    assert k < |pages| - 1 ==> pages[k] < pages[|pages| - 1];
  }

  lemma FirstSelected(pages: seq<int>, p: int -> bool, n: int)
    requires Rising(pages)
    ensures Select(pages, p) != [] && Select(pages, p)[0] <= n <==> exists k :: k in pages && k <= n && p(k)
  {
    var r := Select(pages, p);
    SelectRises(pages, p);
    hide Select;
    if k :| k in pages && k <= n && p(k) {
      var i :| 0 <= i < |r| && r[i] == k;
      assert i == 0 || r[0] < r[i];
    }
    if r != [] && r[0] <= n { assert r[0] in r; }
  }

  /** Heads among the pages with a property, seen from the pages. */
  lemma HeadsOfPages(pages: seq<int>, p: int -> bool)
    requires Rising(pages)
    ensures var segments := Heads(Select(pages, p), LastOf(pages));
      Apart(segments) && forall n :: Covered(segments, n) <==> n <= LastOf(pages) && exists k :: k in pages && k <= n && p(k)
  {
    hide Heads, Covered, Select, Rising, Apart;
    var segments := Heads(Select(pages, p), LastOf(pages));
    SelectRises(pages, p);
    forall i | 0 <= i < |Select(pages, p)| ensures Select(pages, p)[i] <= LastOf(pages) { SelectUpToLast(pages, p, i); }
    HeadsFacts(Select(pages, p), LastOf(pages));
    forall n ensures Covered(segments, n) <==> n <= LastOf(pages) && exists k :: k in pages && k <= n && p(k) {
      FirstSelected(pages, p, n);
    }
  }

  /** The stretches of a document follow each other without sharing a page; single statements cover everything from the
    * first head on, minutes exactly the pages that concern an owner. */
  lemma StretchesFacts(h: Hits, documentType: Option<string>)
    requires Rising(h.pages)
    ensures Apart(SegmentsOf(h, documentType))
    ensures documentType.Some? && HeadTarget(documentType.value).Some? ==>
      forall n :: Covered(SegmentsOf(h, documentType), n) <==>
                  n <= LastOf(h.pages) && exists k :: k in h.pages && k <= n && Starts(h, documentType.value, k)
    ensures documentType == Some("versammlungsprotokoll") ==>
      forall n :: Covered(SegmentsOf(h, documentType), n) <==> n in h.pages && Concerns(h, n)
  {
    hide Starts, Concerns, Heads, Runs, Covered, Apart, Rising;
    if documentType.Some? && HeadTarget(documentType.value).Some? {
      HeadsOfPages(h.pages, (n: int) => Starts(h, documentType.value, n));
    } else if documentType == Some("versammlungsprotokoll") {
      SelectRises(h.pages, (n: int) => Concerns(h, n));
      RunsFacts(Select(h.pages, (n: int) => Concerns(h, n)));
    } else {
      NoSegments();
    }
  }

  lemma NoSegments()
    ensures Apart([])
  {
  }

  // ---------------------------------------------------------------- told from the pages

  ghost predicate OnStretch(ss: seq<Stretch>, n: int) {
    exists s :: 0 <= s < |ss| && ss[s].pages.0 <= n <= ss[s].pages.1
  }

  ghost predicate Bears(ss: seq<Stretch>, subfolder: string, documentType: string) {
    forall s :: 0 <= s < |ss| ==> ss[s].subfolder == subfolder && ss[s].documentType == documentType
  }

  /** A single statement begins on a page with its head; in an overall account the head of the overall account does not count. */
  ghost predicate Begins(h: Hits, documentType: string, n: int) {
    n in h.pages && h.head(documentType, n) && !(documentType == "gesamtjahresabrechnung" && h.overall(n))
  }

  /** A page of minutes counts when it holds an item of the agenda and names a unit or an owner. */
  ghost predicate Counts(h: Hits, n: int) {
    n in h.pages && h.item(n) && (h.unit(n) || h.owner(n))
  }

  lemma LabelledCover(segments: seq<Segment>, subfolder: string, documentType: string)
    ensures var ss := Labelled(segments, subfolder, documentType);
      && Bears(ss, subfolder, documentType) && (forall n :: OnStretch(ss, n) <==> Covered(segments, n))
      && forall s :: 0 <= s < |ss| ==> ss[s].pages == (segments[s].first, segments[s].last)
  {
    var ss := Labelled(segments, subfolder, documentType);
    forall n ensures OnStretch(ss, n) <==> Covered(segments, n) {
      if s :| 0 <= s < |segments| && segments[s].first <= n <= segments[s].last { assert ss[s].pages.0 <= n <= ss[s].pages.1; }
      if s :| 0 <= s < |ss| && ss[s].pages.0 <= n <= ss[s].pages.1 { assert segments[s].first <= n <= segments[s].last; }
    }
  }

  lemma StartsAre(h: Hits, documentType: string, n: int)
    ensures n in Select(h.pages, (n: int) => Starts(h, documentType, n)) <==> Begins(h, documentType, n)
  {
  }

  /** The single statements of an overall statement: each begins where one begins, and their kind follows from that of the
    * overall statement. */
  lemma StatementsBegin(h: Hits, documentType: string, n: int)
    requires documentType == "gesamtjahresabrechnung" || documentType == "gesamtwirtschaftsplan"
    ensures var ss := Stretches(h, Some(documentType));
      && (if documentType == "gesamtjahresabrechnung" then Bears(ss, "05", "einzelabrechnung") else Bears(ss, "06", "einzelwirtschaftsplan"))
      && ((exists s :: 0 <= s < |ss| && ss[s].pages.0 == n) <==> Begins(h, documentType, n))
  {
    hide Select, Labelled, Begins, OnStretch, Covered;
    var starts := Select(h.pages, (n: int) => Starts(h, documentType, n));
    var segments := Heads(starts, LastOf(h.pages));
    var ss := Stretches(h, Some(documentType));
    LabelledCover(segments, TargetOf(Some(documentType)).0, TargetOf(Some(documentType)).1);
    StartsAre(h, documentType, n);
    if n in starts {
      var i :| 0 <= i < |starts| && starts[i] == n;
      assert ss[i].pages.0 == n;
    }
    if s :| 0 <= s < |ss| && ss[s].pages.0 == n { assert starts[s] in starts; }
  }

  /** They cover every page from the first on which one begins to the last of the document. */
  lemma StatementsCover(h: Hits, documentType: string, n: int)
    requires Rising(h.pages) && (documentType == "gesamtjahresabrechnung" || documentType == "gesamtwirtschaftsplan")
    ensures OnStretch(Stretches(h, Some(documentType)), n) <==>
      (exists k :: Begins(h, documentType, k) && k <= n) && n <= h.pages[|h.pages| - 1]
  {
    hide Select, Labelled, OnStretch, Covered, Heads, Rising;
    var p := (n: int) => Starts(h, documentType, n);
    HeadsOfPages(h.pages, p);
    LabelledCover(Heads(Select(h.pages, p), LastOf(h.pages)), TargetOf(Some(documentType)).0, TargetOf(Some(documentType)).1);
    if k :| k in h.pages && k <= n && p(k) { assert Begins(h, documentType, k); }
    if k :| Begins(h, documentType, k) && k <= n { assert p(k); }
  }

  /** Minutes: exactly the pages that count are covered, and between two segments lies a page that does not. */
  lemma MinutesMean(h: Hits)
    requires Rising(h.pages)
    ensures var ss := Stretches(h, Some("versammlungsprotokoll"));
      && Bears(ss, "07", "beschluss_eigentuemerbezug") && (forall n :: OnStretch(ss, n) <==> Counts(h, n))
      && forall s, t :: 0 <= s < t < |ss| ==> ss[s].pages.1 + 1 < ss[t].pages.0
  {
    hide Runs, Labelled, Rising, Covered;
    var p := (n: int) => Concerns(h, n);
    SelectRises(h.pages, p);
    RunsFacts(Select(h.pages, p));
    LabelledCover(Runs(Select(h.pages, p)), "07", "beschluss_eigentuemerbezug");
  }

  /** No other document has segments. */
  lemma NoOtherSegments(h: Hits, documentType: Option<string>)
    ensures Stretches(h, documentType) != [] ==>
      documentType == Some("gesamtjahresabrechnung") || documentType == Some("gesamtwirtschaftsplan") || documentType == Some("versammlungsprotokoll")
  {
    hide Heads, Runs;
  }

  method FindSegments(h: Hits, documentType: Option<string>) returns (stretches: seq<Stretch>)
    ensures stretches == Stretches(h, documentType)
  {
    hide Heads, Runs;
    if documentType.None? { return []; }
    var segments: seq<Segment> := [];
    if HeadTarget(documentType.value).Some? {
      var starts := PagesWith(h.pages, (n: int) => Starts(h, documentType.value, n));
      segments := HeadSegments(starts, LastOf(h.pages));
    } else if documentType.value == "versammlungsprotokoll" {
      var pages := PagesWith(h.pages, (n: int) => Concerns(h, n));
      segments := MinuteSegments(pages);
    }
    stretches := Labelled(segments, TargetOf(documentType).0, TargetOf(documentType).1);
  }

  method PagesWith(pages: seq<int>, p: int -> bool) returns (r: seq<int>)
    ensures r == Select(pages, p)
  {
    r := [];
    for i := 0 to |pages|
      invariant r == Select(pages[..i], p)
    {
      assert pages[..i + 1][..i] == pages[..i];
      if p(pages[i]) { r := r + [pages[i]]; }
    }
    assert pages[..|pages|] == pages;
  }
}
