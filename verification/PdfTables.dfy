/** Layout of PDF tables (src/apps/imports/pdf_tables.py): rows, columns and cells from word boxes.
  * Coordinates are reals; the median heights enter as the tolerances they yield, the footer pattern as a predicate. */
module PdfTables {

  datatype Word = Word(text: string, x0: real, x1: real, top: real)

  function Center(w: Word): real { (w.x0 + w.x1) / 2.0 }

  /** A merged stretch of the x axis. */
  datatype Span = Span(lo: real, hi: real)

  predicate Proper(words: seq<Word>) {
    forall w :: w in words ==> w.x0 <= w.x1
  }

  // ---------------------------------------------------------------- sorting

  datatype Order = ByTop | ByX | ByLeft

  /** Python's order of the pairs (top, x0) and (x0, x1), and of x0 alone. */
  predicate NotAfter(o: Order, v: Word, w: Word) {
    match o
    case ByTop => v.top < w.top || (v.top == w.top && v.x0 <= w.x0)
    case ByX => v.x0 < w.x0 || (v.x0 == w.x0 && v.x1 <= w.x1)
    case ByLeft => v.x0 <= w.x0
  }

  predicate InOrder(o: Order, s: seq<Word>) {
    forall i, j :: 0 <= i < j < |s| ==> NotAfter(o, s[i], s[j])
  }

  /** Behind everything it may follow, so that equals keep their order. */
  function Insert(o: Order, w: Word, s: seq<Word>): (r: seq<Word>)
    ensures multiset(r) == multiset(s) + multiset{w}
  {
    if s == [] then [w]
    else if NotAfter(o, s[0], w) then assert s == [s[0]] + s[1..]; [s[0]] + Insert(o, w, s[1..])
    else [w] + s
  }

  function Sorted(o: Order, s: seq<Word>): (r: seq<Word>)
    ensures multiset(r) == multiset(s)
  {
    if s == [] then [] else assert s == s[..|s| - 1] + [s[|s| - 1]]; Insert(o, s[|s| - 1], Sorted(o, s[..|s| - 1]))
  }

  lemma SameMembers(a: seq<Word>, b: seq<Word>)
    requires multiset(a) == multiset(b)
    ensures forall w :: w in a <==> w in b
  {
    forall w ensures w in a <==> w in b {
      assert w in multiset(a) <==> w in multiset(b);
    }
  }

  lemma {:induction false} InsertInOrder(o: Order, w: Word, s: seq<Word>)
    requires InOrder(o, s)
    ensures InOrder(o, Insert(o, w, s))
  {
    if s != [] && NotAfter(o, s[0], w) {
      InsertInOrder(o, w, s[1..]);
      var rest := Insert(o, w, s[1..]);
      forall k | 0 <= k < |rest| ensures NotAfter(o, s[0], rest[k]) {
        assert rest[k] in multiset(rest);
        if rest[k] != w { assert rest[k] in s[1..]; }
      }
    }
  }

  lemma {:induction false} SortedInOrder(o: Order, s: seq<Word>)
    ensures InOrder(o, Sorted(o, s))
  {
    if s != [] {
      SortedInOrder(o, s[..|s| - 1]);
      InsertInOrder(o, s[|s| - 1], Sorted(o, s[..|s| - 1]));
    }
  }

  // ---------------------------------------------------------------- chains of near words

  /** The gap between the two words is at most `gap`. */
  predicate Near(v: Word, w: Word, gap: real) {
    w.x0 <= v.x1 + gap && v.x0 <= w.x1 + gap
  }

  ghost predicate Chain(words: seq<Word>, path: seq<Word>, gap: real) {
    && path != [] && (forall k :: 0 <= k < |path| ==> path[k] in words)
    && (forall k :: 0 <= k < |path| - 1 ==> Near(path[k], path[k + 1], gap))
  }

  ghost predicate Connected(words: seq<Word>, v: Word, w: Word, gap: real) {
    exists path :: Chain(words, path, gap) && path[0] == v && path[|path| - 1] == w
  }

  lemma ConnectedSelf(words: seq<Word>, w: Word, gap: real)
    requires w in words
    ensures Connected(words, w, w, gap)
  {
    assert Chain(words, [w], gap);
  }

  lemma ConnectedStep(words: seq<Word>, v: Word, w: Word, x: Word, gap: real)
    requires Connected(words, v, w, gap) && Near(w, x, gap) && x in words
    ensures Connected(words, v, x, gap)
  {
    var path :| Chain(words, path, gap) && path[0] == v && path[|path| - 1] == w;
    assert Chain(words, path + [x], gap);
  }

  lemma ConnectedBack(words: seq<Word>, v: Word, w: Word, gap: real)
    requires Connected(words, v, w, gap)
    ensures Connected(words, w, v, gap)
  {
    var path :| Chain(words, path, gap) && path[0] == v && path[|path| - 1] == w;
    var back := seq(|path|, k requires 0 <= k < |path| => path[|path| - 1 - k]);
    assert Chain(words, back, gap);
  }

  lemma ConnectedAmong(words: seq<Word>, more: seq<Word>, v: Word, w: Word, gap: real)
    requires Connected(words, v, w, gap) && forall x :: x in words ==> x in more
    ensures Connected(more, v, w, gap)
  {
    var path :| Chain(words, path, gap) && path[0] == v && path[|path| - 1] == w;
    assert Chain(more, path, gap);
  }

  // ---------------------------------------------------------------- merging spans

  predicate Within(w: Word, s: Span) { s.lo <= w.x0 && w.x1 <= s.hi }

  /** Spans from left to right, each farther than `gap` from the next. */
  ghost predicate Separated(spans: seq<Span>, gap: real) {
    forall s, t :: 0 <= s < t < |spans| ==> spans[s].hi + gap < spans[t].lo
  }

  ghost predicate Housed(w: Word, spans: seq<Span>) {
    exists s :: 0 <= s < |spans| && Within(w, spans[s])
  }

  ghost predicate Inhabited(words: seq<Word>, span: Span) {
    exists w :: w in words && Within(w, span)
  }

  ghost predicate Together(words: seq<Word>, span: Span, gap: real) {
    forall v, w :: v in words && w in words && Within(v, span) && Within(w, span) ==> Connected(words, v, w, gap)
  }

  /** Every word lies in a span, every span holds a word, and the words of one span are connected. */
  ghost predicate Clustered(words: seq<Word>, spans: seq<Span>, gap: real) {
    && (forall w :: w in words ==> Housed(w, spans))
    && (forall s :: 0 <= s < |spans| ==> Inhabited(words, spans[s]) && Together(words, spans[s], gap))
  }

  ghost predicate EndsAt(words: seq<Word>, spans: seq<Span>) {
    spans != [] ==> exists v :: v in words && v.x1 == spans[|spans| - 1].hi && Within(v, spans[|spans| - 1])
  }

  function Abs(x: real): real { if x >= 0.0 then x else -x }

  function Max(a: real, b: real): real { if a >= b then a else b }

  // ---------------------------------------------------------------- a word that opens a span

  ghost predicate Beyond(spans: seq<Span>, gap: real, w: Word) {
    forall s :: 0 <= s < |spans| ==> spans[s].hi + gap < w.x0
  }

  lemma BeyondAll(words: seq<Word>, spans: seq<Span>, gap: real, w: Word)
    requires gap >= 0.0 && Proper(words) && Separated(spans, gap) && Clustered(words, spans, gap)
    requires spans != [] ==> spans[|spans| - 1].hi + gap < w.x0
    ensures Beyond(spans, gap, w)
  {
    hide Together;
    var n := |spans|;
    forall s | 0 <= s < n ensures spans[s].hi + gap < w.x0 {
      if s < n - 1 {
        assert Inhabited(words, spans[n - 1]);
        assert spans[s].hi + gap < spans[n - 1].lo;
      }
    }
  }

  lemma HousedLeft(spans: seq<Span>, gap: real, w: Word, v: Word)
    requires gap >= 0.0 && Beyond(spans, gap, w) && Housed(v, spans)
    ensures v.x1 < w.x0
  {
    var s :| 0 <= s < |spans| && Within(v, spans[s]);
  }

  lemma HousedStill(spans: seq<Span>, more: seq<Span>, v: Word)
    requires Housed(v, spans) && spans <= more
    ensures Housed(v, more)
  {
    var s :| 0 <= s < |spans| && Within(v, spans[s]);
    assert more[s] == spans[s];
  }

  /** Words added outside a span change nothing about it. */
  lemma SpanKept(words: seq<Word>, w: Word, span: Span, gap: real)
    requires Inhabited(words, span) && Together(words, span, gap) && !Within(w, span)
    ensures Inhabited(words + [w], span) && Together(words + [w], span, gap)
  {
    var all := words + [w];
    var one :| one in words && Within(one, span);
    assert one in all;
    forall v, x | v in all && x in all && Within(v, span) && Within(x, span) ensures Connected(all, v, x, gap) {
      ConnectedAmong(words, all, v, x, gap);
    }
  }

  lemma SpanOfOne(words: seq<Word>, w: Word, gap: real)
    requires w.x0 <= w.x1 && forall v :: v in words ==> v.x1 < w.x0
    requires Proper(words)
    ensures Inhabited(words + [w], Span(w.x0, w.x1)) && Together(words + [w], Span(w.x0, w.x1), gap)
  {
    var all := words + [w];
    assert w in all && Within(w, Span(w.x0, w.x1));
    ConnectedSelf(all, w, gap);
    forall v, x | v in all && x in all && Within(v, Span(w.x0, w.x1)) && Within(x, Span(w.x0, w.x1)) ensures Connected(all, v, x, gap) {
      assert v == w && x == w;
    }
  }

  /** A word too far from the last span opens a new one. */
  lemma NewSpan(words: seq<Word>, spans: seq<Span>, gap: real, w: Word)
    requires gap >= 0.0 && Proper(words) && w.x0 <= w.x1 && Separated(spans, gap) && Clustered(words, spans, gap)
    requires spans != [] ==> spans[|spans| - 1].hi + gap < w.x0
    ensures var next := spans + [Span(w.x0, w.x1)]; Separated(next, gap) && Clustered(words + [w], next, gap) && EndsAt(words + [w], next)
  {
    hide Housed, Inhabited, Together;
    var all, next := words + [w], spans + [Span(w.x0, w.x1)];
    BeyondAll(words, spans, gap, w);
    forall v | v in words ensures v.x1 < w.x0 && Housed(v, next) {
      HousedLeft(spans, gap, w, v);
      HousedStill(spans, next, v);
    }
    LastHoused(next, w);
    SpanOfOne(words, w, gap);
    forall s | 0 <= s < |next| ensures Inhabited(all, next[s]) && Together(all, next[s], gap) {
      if s < |spans| { SpanKept(words, w, spans[s], gap); }
    }
    assert w in all;
  }

  lemma LastHoused(spans: seq<Span>, w: Word)
    requires spans != [] && Within(w, spans[|spans| - 1])
    ensures Housed(w, spans)
  {
  }

  // ---------------------------------------------------------------- a word that widens the last span

  lemma JoinSpan(words: seq<Word>, span: Span, gap: real, w: Word, end: Word)
    requires gap >= 0.0 && w.x0 <= w.x1 && Together(words, span, gap) && end in words && Within(end, span) && end.x1 == span.hi
    requires w.x0 <= span.hi + gap && end.x0 <= w.x0 && end.x0 <= end.x1
    requires forall v :: v in words && Within(v, Span(span.lo, Max(span.hi, w.x1))) ==> Within(v, span)
    ensures Together(words + [w], Span(span.lo, Max(span.hi, w.x1)), gap)
  {
    var all, wide := words + [w], Span(span.lo, Max(span.hi, w.x1));
    assert w in all && Near(end, w, gap);
    ConnectedSelf(all, w, gap);
    forall v | v in words && Within(v, wide) ensures Connected(all, v, w, gap) && Connected(all, w, v, gap) {
      ConnectedAmong(words, all, v, end, gap);
      ConnectedStep(all, v, end, w, gap);
      ConnectedBack(all, v, w, gap);
    }
    forall v, x | v in all && x in all && Within(v, wide) && Within(x, wide) ensures Connected(all, v, x, gap) {
      if v in words && x in words {
        ConnectedAmong(words, all, v, x, gap);
      }
    }
  }

  function Widened(spans: seq<Span>, w: Word): seq<Span>
    requires spans != []
  {
    var last := spans[|spans| - 1];
    spans[|spans| - 1 := Span(last.lo, Max(last.hi, w.x1))]
  }

  lemma LastReached(words: seq<Word>, spans: seq<Span>, gap: real, w: Word)
    requires gap >= 0.0 && Proper(words) && spans != [] && Separated(spans, gap) && Clustered(words, spans, gap)
    requires forall v :: v in words ==> v.x0 <= w.x0
    ensures spans[|spans| - 1].lo <= w.x0
    ensures forall s :: 0 <= s < |spans| - 1 ==> spans[s].hi < spans[|spans| - 1].lo
  {
    hide Together, Housed;
    assert Inhabited(words, spans[|spans| - 1]);
  }

  /** What lies in the widened span lay in the last span before. */
  lemma NothingNewInside(words: seq<Word>, spans: seq<Span>, gap: real, w: Word, v: Word)
    requires gap >= 0.0 && spans != [] && forall s :: 0 <= s < |spans| - 1 ==> spans[s].hi < spans[|spans| - 1].lo
    requires v.x0 <= v.x1 && Housed(v, spans) && Within(v, Widened(spans, w)[|spans| - 1])
    ensures Within(v, spans[|spans| - 1])
  {
    var s :| 0 <= s < |spans| && Within(v, spans[s]);
  }

  lemma HousedWide(spans: seq<Span>, w: Word, v: Word)
    requires spans != [] && Housed(v, spans)
    ensures Housed(v, Widened(spans, w))
  {
    var s :| 0 <= s < |spans| && Within(v, spans[s]);
    assert Within(v, Widened(spans, w)[s]);
  }

  lemma EndWide(words: seq<Word>, spans: seq<Span>, w: Word)
    requires spans != [] && EndsAt(words, spans) && spans[|spans| - 1].lo <= w.x0
    ensures EndsAt(words + [w], Widened(spans, w)) && Within(w, Widened(spans, w)[|spans| - 1]) && w in words + [w]
  {
    var last, next := spans[|spans| - 1], Widened(spans, w);
    var end :| end in words && end.x1 == last.hi && Within(end, last);
    assert end in words + [w] && Within(end, next[|spans| - 1]);
  }

  lemma SeparatedWide(spans: seq<Span>, gap: real, w: Word)
    requires spans != [] && Separated(spans, gap)
    ensures Separated(Widened(spans, w), gap)
  {
  }

  lemma LastTogether(words: seq<Word>, spans: seq<Span>, gap: real, w: Word)
    requires gap >= 0.0 && Proper(words) && w.x0 <= w.x1 && spans != [] && Separated(spans, gap) && Clustered(words, spans, gap)
    requires EndsAt(words, spans) && w.x0 <= spans[|spans| - 1].hi + gap && forall v :: v in words ==> v.x0 <= w.x0
    ensures Together(words + [w], Widened(spans, w)[|spans| - 1], gap)
  {
    hide Together, Housed, Inhabited;
    var last := spans[|spans| - 1];
    var end :| end in words && end.x1 == last.hi && Within(end, last);
    LastReached(words, spans, gap, w);
    forall v | v in words && Within(v, Span(last.lo, Max(last.hi, w.x1))) ensures Within(v, last) {
      NothingNewInside(words, spans, gap, w, v);
    }
    JoinSpan(words, last, gap, w, end);
  }

  /** A word that reaches the last span widens it. */
  lemma WidenSpan(words: seq<Word>, spans: seq<Span>, gap: real, w: Word)
    requires gap >= 0.0 && Proper(words) && w.x0 <= w.x1 && spans != [] && Separated(spans, gap) && Clustered(words, spans, gap)
    requires EndsAt(words, spans) && w.x0 <= spans[|spans| - 1].hi + gap && forall v :: v in words ==> v.x0 <= w.x0
    ensures var next := Widened(spans, w); Separated(next, gap) && Clustered(words + [w], next, gap) && EndsAt(words + [w], next)
  {
    hide Together, Housed, Inhabited, EndsAt;
    var all, next, n := words + [w], Widened(spans, w), |spans| - 1;
    LastReached(words, spans, gap, w);
    SeparatedWide(spans, gap, w);
    EndWide(words, spans, w);
    LastTogether(words, spans, gap, w);
    LastHoused(next, w);
    OneInside(all, w, next[n]);
    forall v | v in words ensures Housed(v, next) { HousedWide(spans, w, v); }
    forall s | 0 <= s < n ensures Inhabited(all, next[s]) && Together(all, next[s], gap) {
      SpanKept(words, w, spans[s], gap);
    }
  }

  lemma OneInside(words: seq<Word>, w: Word, span: Span)
    requires w in words && Within(w, span)
    ensures Inhabited(words, span)
  {
  }

  lemma UpTo(ws: seq<Word>, i: nat)
    requires i < |ws| && InOrder(ByX, ws) && Proper(ws)
    ensures ws[..i + 1] == ws[..i] + [ws[i]] && Proper(ws[..i]) && ws[i].x0 <= ws[i].x1
    ensures forall v :: v in ws[..i] ==> v.x0 <= ws[i].x0
  {
    assert ws[i] in ws;
    forall v | v in ws[..i] ensures v.x0 <= ws[i].x0 {
      var k :| 0 <= k < i && ws[k] == v;
      assert NotAfter(ByX, ws[k], ws[i]);
    }
  }

  // ---------------------------------------------------------------- spans end where words end

  ghost predicate StartsWord(words: seq<Word>, span: Span) {
    exists w :: w in words && Within(w, span) && w.x0 == span.lo
  }

  ghost predicate EndsWord(words: seq<Word>, span: Span) {
    exists w :: w in words && Within(w, span) && w.x1 == span.hi
  }

  /** No span is wider than its words. */
  ghost predicate Tight(words: seq<Word>, spans: seq<Span>) {
    forall s :: 0 <= s < |spans| ==> StartsWord(words, spans[s]) && EndsWord(words, spans[s])
  }

  lemma TightKept(words: seq<Word>, w: Word, span: Span)
    requires StartsWord(words, span) && EndsWord(words, span)
    ensures StartsWord(words + [w], span) && EndsWord(words + [w], span)
  {
    var v :| v in words && Within(v, span) && v.x0 == span.lo;
    var x :| x in words && Within(x, span) && x.x1 == span.hi;
    assert v in words + [w] && x in words + [w];
  }

  lemma NewTight(words: seq<Word>, spans: seq<Span>, w: Word)
    requires Tight(words, spans) && w.x0 <= w.x1
    ensures Tight(words + [w], spans + [Span(w.x0, w.x1)])
  {
    hide StartsWord, EndsWord;
    forall s | 0 <= s < |spans| ensures StartsWord(words + [w], spans[s]) && EndsWord(words + [w], spans[s]) { TightKept(words, w, spans[s]); }
    OneWord(words, w);
  }

  lemma OneWord(words: seq<Word>, w: Word)
    ensures StartsWord(words + [w], Span(w.x0, w.x1)) && EndsWord(words + [w], Span(w.x0, w.x1))
  {
    assert w in words + [w] && Within(w, Span(w.x0, w.x1));
  }

  lemma WideTight(words: seq<Word>, spans: seq<Span>, w: Word)
    requires spans != [] && Tight(words, spans) && spans[|spans| - 1].lo <= w.x0
    ensures Tight(words + [w], Widened(spans, w))
  {
    hide StartsWord, EndsWord;
    var n := |spans| - 1;
    forall s | 0 <= s < n ensures StartsWord(words + [w], spans[s]) && EndsWord(words + [w], spans[s]) { TightKept(words, w, spans[s]); }
    LastTight(words, spans[n], w);
  }

  lemma LastTight(words: seq<Word>, span: Span, w: Word)
    requires StartsWord(words, span) && EndsWord(words, span) && span.lo <= w.x0
    ensures var wide := Span(span.lo, Max(span.hi, w.x1)); StartsWord(words + [w], wide) && EndsWord(words + [w], wide)
  {
    var wide := Span(span.lo, Max(span.hi, w.x1));
    var v :| v in words && Within(v, span) && v.x0 == span.lo;
    var x :| x in words && Within(x, span) && x.x1 == span.hi;
    assert v in words + [w] && Within(v, wide) && x in words + [w] && Within(x, wide) && w in words + [w];
    if w.x1 > span.hi { assert Within(w, wide); }
  }

  method MergeSpans(ws: seq<Word>, gap: real) returns (merged: seq<Span>)
    requires gap >= 0.0 && Proper(ws) && InOrder(ByX, ws)
    ensures Separated(merged, gap) && Clustered(ws, merged, gap) && Tight(ws, merged)
  {
    hide Clustered, Separated, EndsAt, InOrder, Proper, Tight;
    merged := [];
    NoSpans(gap);
    for i := 0 to |ws|
      invariant Separated(merged, gap) && Clustered(ws[..i], merged, gap) && EndsAt(ws[..i], merged) && Tight(ws[..i], merged)
    {
      UpTo(ws, i);
      var w, n := ws[i], |merged|;
      if n > 0 && w.x0 <= merged[n - 1].hi + gap {
        WidenSpan(ws[..i], merged, gap, w);
        LastReached(ws[..i], merged, gap, w);
        WideTight(ws[..i], merged, w);
        merged := merged[n - 1 := Span(merged[n - 1].lo, Max(merged[n - 1].hi, w.x1))];
      } else {
        NewSpan(ws[..i], merged, gap, w);
        NewTight(ws[..i], merged, w);
        merged := merged + [Span(w.x0, w.x1)];
      }
    }
    assert ws[..|ws|] == ws;
  }

  lemma NoSpans(gap: real)
    ensures Separated([], gap) && Clustered([], [], gap) && EndsAt([], []) && Tight([], [])
  {
  }

  // ---------------------------------------------------------------- bounds and columns

  ghost predicate Increasing(bounds: seq<real>) {
    forall s, t :: 0 <= s < t < |bounds| ==> bounds[s] < bounds[t]
  }

  /** bisect_right in an ascending list: how many bounds are not greater. */
  function Column(bounds: seq<real>, x: real): (c: nat)
    ensures c <= |bounds|
  {
    if bounds == [] || x < bounds[0] then 0 else 1 + Column(bounds[1..], x)
  }

  lemma {:induction false} ColumnIs(bounds: seq<real>, x: real, c: nat)
    requires c <= |bounds| && (forall k :: 0 <= k < c ==> bounds[k] <= x) && (c < |bounds| ==> x < bounds[c])
    ensures Column(bounds, x) == c
  {
    if c > 0 { ColumnIs(bounds[1..], x, c - 1); }
  }

  ghost predicate Crosses(w: Word, bound: real) {
    w.x0 <= bound <= w.x1
  }

  /** Bounds that lie in the gaps between spans. */
  ghost predicate Between(bounds: seq<real>, spans: seq<Span>) {
    && |bounds| == (if spans == [] then 0 else |spans| - 1)
    && forall k :: 0 <= k < |bounds| ==> spans[k].hi < bounds[k] < spans[k + 1].lo
  }

  lemma BetweenAll(words: seq<Word>, bounds: seq<real>, spans: seq<Span>, gap: real, s: nat)
    requires gap >= 0.0 && Proper(words) && Separated(spans, gap) && Clustered(words, spans, gap) && Between(bounds, spans) && s < |spans|
    ensures forall k :: 0 <= k < s ==> bounds[k] < spans[s].lo
    ensures forall k :: s <= k < |bounds| ==> spans[s].hi < bounds[k]
  {
    hide Together, Housed;
    forall k | 0 <= k < s ensures bounds[k] < spans[s].lo {
      if k + 1 < s {
        assert Inhabited(words, spans[k + 1]);
        assert spans[k + 1].hi + gap < spans[s].lo;
      }
    }
    forall k | s <= k < |bounds| ensures spans[s].hi < bounds[k] {
      if s < k {
        assert Inhabited(words, spans[k]);
        assert spans[s].hi + gap < spans[k].lo;
      }
    }
  }

  /** A word of a span stands in the column of that span, and no bound crosses it. */
  lemma ColumnOfSpan(words: seq<Word>, bounds: seq<real>, spans: seq<Span>, gap: real, s: nat, w: Word)
    requires gap >= 0.0 && Proper(words) && Separated(spans, gap) && Clustered(words, spans, gap) && Between(bounds, spans) && s < |spans|
    requires w.x0 <= w.x1 && Within(w, spans[s])
    ensures Column(bounds, Center(w)) == s && forall k :: 0 <= k < |bounds| ==> !Crosses(w, bounds[k])
  {
    hide Clustered, Separated, Column;
    BetweenAll(words, bounds, spans, gap, s);
    ColumnIs(bounds, Center(w), s);
  }

  /** Columns are the connected components of the candidate words. */
  ghost predicate Columns(words: seq<Word>, bounds: seq<real>, gap: real) {
    && Increasing(bounds)
    && (forall w, k :: w in words && 0 <= k < |bounds| ==> !Crosses(w, bounds[k]))
    && (forall v, w :: v in words && w in words ==> (Column(bounds, Center(v)) == Column(bounds, Center(w)) <==> Connected(words, v, w, gap)))
    && (words != [] ==> forall c :: 0 <= c <= |bounds| ==> Occupied(words, bounds, c))
  }

  ghost predicate Occupied(words: seq<Word>, bounds: seq<real>, c: nat) {
    exists w :: w in words && Column(bounds, Center(w)) == c
  }

  lemma {:induction false} ConnectedStays(words: seq<Word>, spans: seq<Span>, gap: real, path: seq<Word>, s: nat)
    requires Chain(words, path, gap) && Proper(words) && gap >= 0.0 && Separated(spans, gap) && s < |spans|
    requires (forall w :: w in words ==> Housed(w, spans)) && Within(path[0], spans[s])
    ensures Within(path[|path| - 1], spans[s])
  {
    if |path| > 1 {
      var t :| 0 <= t < |spans| && Within(path[1], spans[t]);
      assert Near(path[0], path[1], gap);
      assert path[0] in words && path[1] in words;
      ConnectedStays(words, spans, gap, path[1..], s);
    }
  }

  lemma SameColumnIff(words: seq<Word>, bounds: seq<real>, spans: seq<Span>, gap: real, v: Word, w: Word)
    requires gap >= 0.0 && Proper(words) && Separated(spans, gap) && Clustered(words, spans, gap) && Between(bounds, spans)
    requires v in words && w in words
    ensures Column(bounds, Center(v)) == Column(bounds, Center(w)) <==> Connected(words, v, w, gap)
  {
    hide Column, Between, Separated, Inhabited;
    assert Housed(v, spans) && Housed(w, spans);
    var s :| 0 <= s < |spans| && Within(v, spans[s]);
    var t :| 0 <= t < |spans| && Within(w, spans[t]);
    ColumnOfSpan(words, bounds, spans, gap, s, v);
    ColumnOfSpan(words, bounds, spans, gap, t, w);
    assert Together(words, spans[s], gap);
    if Connected(words, v, w, gap) {
      var path :| Chain(words, path, gap) && path[0] == v && path[|path| - 1] == w;
      ConnectedStays(words, spans, gap, path, s);
      ColumnOfSpan(words, bounds, spans, gap, s, w);
    }
  }

  lemma NotCrossed(words: seq<Word>, bounds: seq<real>, spans: seq<Span>, gap: real, w: Word)
    requires gap >= 0.0 && Proper(words) && Separated(spans, gap) && Clustered(words, spans, gap) && Between(bounds, spans) && w in words
    ensures forall k :: 0 <= k < |bounds| ==> !Crosses(w, bounds[k])
  {
    hide Column, Separated, Together, Crosses, Between;
    assert Housed(w, spans);
    var s :| 0 <= s < |spans| && Within(w, spans[s]);
    ColumnOfSpan(words, bounds, spans, gap, s, w);
  }

  lemma AllOccupied(words: seq<Word>, bounds: seq<real>, spans: seq<Span>, gap: real, c: nat)
    requires gap >= 0.0 && Proper(words) && Separated(spans, gap) && Clustered(words, spans, gap) && Between(bounds, spans)
    requires c < |spans|
    ensures Occupied(words, bounds, c)
  {
    hide Column, Separated, Together, Between;
    assert Inhabited(words, spans[c]);
    var w :| w in words && Within(w, spans[c]);
    ColumnOfSpan(words, bounds, spans, gap, c, w);
  }

  lemma BoundsIncrease(words: seq<Word>, bounds: seq<real>, spans: seq<Span>, gap: real)
    requires gap >= 0.0 && Proper(words) && Separated(spans, gap) && Clustered(words, spans, gap) && Between(bounds, spans)
    ensures Increasing(bounds)
  {
    hide Separated, Together, Housed;
    forall s, t | 0 <= s < t < |bounds| ensures bounds[s] < bounds[t] {
      BetweenAll(words, bounds, spans, gap, t);
      assert Inhabited(words, spans[t]);
    }
  }

  lemma SomeSpan(words: seq<Word>, spans: seq<Span>, gap: real)
    requires words != [] && Clustered(words, spans, gap)
    ensures spans != []
  {
    hide Together, Inhabited;
    assert words[0] in words && Housed(words[0], spans);
  }

  lemma ColumnsFromSpans(words: seq<Word>, bounds: seq<real>, spans: seq<Span>, gap: real)
    requires gap >= 0.0 && Proper(words) && Separated(spans, gap) && Clustered(words, spans, gap) && Between(bounds, spans)
    ensures Columns(words, bounds, gap)
  {
    hide Column, Separated, Clustered, Crosses, Connected, Increasing, Occupied, Proper;
    forall v, w | v in words && w in words
      ensures Column(bounds, Center(v)) == Column(bounds, Center(w)) <==> Connected(words, v, w, gap)
    {
      SameColumnIff(words, bounds, spans, gap, v, w);
    }
    forall w, k | w in words && 0 <= k < |bounds| ensures !Crosses(w, bounds[k]) { NotCrossed(words, bounds, spans, gap, w); }
    BoundsIncrease(words, bounds, spans, gap);
    if words != [] {
      SomeSpan(words, spans, gap);
      forall c: nat | c <= |bounds| ensures Occupied(words, bounds, c) { AllOccupied(words, bounds, spans, gap, c); }
    }
  }

  // ---------------------------------------------------------------- the candidate rows

  function Flat(rows: seq<seq<Word>>): seq<Word> {
    if rows == [] then [] else rows[0] + Flat(rows[1..])
  }

  function Keep(rows: seq<seq<Word>>, p: seq<Word> -> bool): seq<seq<Word>> {
    if rows == [] then [] else (if p(rows[0]) then [rows[0]] else []) + Keep(rows[1..], p)
  }

  /** Rows that shape the columns: neither empty nor a footer and, if any such remain, not much shorter than usual. */
  function Candidates(rows: seq<seq<Word>>, footer: seq<Word> -> bool, usual: seq<seq<Word>> -> real): seq<seq<Word>> {
    var some := Keep(rows, (row: seq<Word>) => row != [] && !footer(row));
    var typical := if some == [] then 0.0 else usual(some);
    var long := Keep(some, (row: seq<Word>) => |row| as real >= 0.6 * typical);
    if long == [] then some else long
  }

  lemma SameColumns(a: seq<Word>, b: seq<Word>, bounds: seq<real>, gap: real)
    requires (forall w :: w in a <==> w in b) && Columns(a, bounds, gap)
    ensures Columns(b, bounds, gap)
  {
    hide Column, Connected;
    forall v, w | v in b && w in b ensures Connected(a, v, w, gap) <==> Connected(b, v, w, gap) {
      if Connected(a, v, w, gap) { ConnectedAmong(a, b, v, w, gap); }
      if Connected(b, v, w, gap) { ConnectedAmong(b, a, v, w, gap); }
    }
    if b != [] {
      assert b[0] in a;
      forall c: nat | c <= |bounds| ensures Occupied(b, bounds, c) { assert Occupied(a, bounds, c); }
    }
  }

  /** No word of the column ends further right, none begins further left. */
  ghost predicate Rightmost(words: seq<Word>, bounds: seq<real>, c: nat, v: Word) {
    v in words && Column(bounds, Center(v)) == c && forall x :: x in words && Column(bounds, Center(x)) == c ==> x.x1 <= v.x1
  }

  ghost predicate Leftmost(words: seq<Word>, bounds: seq<real>, c: nat, v: Word) {
    v in words && Column(bounds, Center(v)) == c && forall x :: x in words && Column(bounds, Center(x)) == c ==> v.x0 <= x.x0
  }

  /** Every bound stands halfway between the right edge of one column and the left edge of the next. */
  ghost predicate Halfway(words: seq<Word>, bounds: seq<real>) {
    forall k :: 0 <= k < |bounds| ==> HalfwayAt(words, bounds, k)
  }

  ghost predicate HalfwayAt(words: seq<Word>, bounds: seq<real>, k: nat)
    requires k < |bounds|
  {
    exists v, w :: Rightmost(words, bounds, k, v) && Leftmost(words, bounds, k + 1, w) && bounds[k] == (v.x1 + w.x0) / 2.0
  }

  lemma ColumnIsSpan(words: seq<Word>, bounds: seq<real>, spans: seq<Span>, gap: real, s: nat, w: Word)
    requires gap >= 0.0 && Proper(words) && Separated(spans, gap) && Clustered(words, spans, gap) && Between(bounds, spans)
    requires w in words && s < |spans|
    ensures Column(bounds, Center(w)) == s <==> Within(w, spans[s])
  {
    hide Column, Separated, Together, Inhabited, Between;
    assert Housed(w, spans);
    var t :| 0 <= t < |spans| && Within(w, spans[t]);
    ColumnOfSpan(words, bounds, spans, gap, t, w);
    if Within(w, spans[s]) { ColumnOfSpan(words, bounds, spans, gap, s, w); }
  }

  lemma EdgeOf(words: seq<Word>, bounds: seq<real>, spans: seq<Span>, gap: real, s: nat)
    requires gap >= 0.0 && Proper(words) && Separated(spans, gap) && Clustered(words, spans, gap) && Between(bounds, spans) && Tight(words, spans)
    requires s < |spans|
    ensures exists v :: Rightmost(words, bounds, s, v) && v.x1 == spans[s].hi
    ensures exists v :: Leftmost(words, bounds, s, v) && v.x0 == spans[s].lo
  {
    hide Column, Separated, Clustered, Between, Proper;
    var v :| v in words && Within(v, spans[s]) && v.x1 == spans[s].hi by { assert EndsWord(words, spans[s]); }
    var w :| w in words && Within(w, spans[s]) && w.x0 == spans[s].lo by { assert StartsWord(words, spans[s]); }
    forall x | x in words ensures Column(bounds, Center(x)) == s <==> Within(x, spans[s]) { ColumnIsSpan(words, bounds, spans, gap, s, x); }
    assert Rightmost(words, bounds, s, v) && Leftmost(words, bounds, s, w);
  }

  lemma HalfwayBounds(words: seq<Word>, bounds: seq<real>, spans: seq<Span>, gap: real)
    requires gap >= 0.0 && Proper(words) && Separated(spans, gap) && Clustered(words, spans, gap) && Between(bounds, spans) && Tight(words, spans)
    requires forall j :: 0 <= j < |bounds| ==> bounds[j] == (spans[j].hi + spans[j + 1].lo) / 2.0
    ensures Halfway(words, bounds)
  {
    hide Separated, Clustered, Proper, Tight, Rightmost, Leftmost;
    forall k | 0 <= k < |bounds| ensures HalfwayAt(words, bounds, k) {
      EdgeOf(words, bounds, spans, gap, k);
      EdgeOf(words, bounds, spans, gap, k + 1);
    }
  }

  lemma SameHalfway(a: seq<Word>, b: seq<Word>, bounds: seq<real>)
    requires (forall w :: w in a <==> w in b) && Halfway(a, bounds)
    ensures Halfway(b, bounds)
  {
    hide Column;
    forall k | 0 <= k < |bounds| ensures HalfwayAt(b, bounds, k) {
      assert HalfwayAt(a, bounds, k);
      var v, w :| Rightmost(a, bounds, k, v) && Leftmost(a, bounds, k + 1, w) && bounds[k] == (v.x1 + w.x0) / 2.0;
      assert Rightmost(b, bounds, k, v) && Leftmost(b, bounds, k + 1, w);
    }
  }

  /** A row with words that is no footer. */
  ghost predicate Shown(rows: seq<seq<Word>>, footer: seq<Word> -> bool, row: seq<Word>) {
    row in rows && row != [] && !footer(row)
  }

  lemma LongRows(shown: seq<seq<Word>>, typical: real)
    ensures var long := Keep(shown, (row: seq<Word>) => |row| as real >= 0.6 * typical);
      (forall row :: row in long <==> row in shown && |row| as real >= 0.6 * typical)
      && (long == [] <==> forall row :: row in shown ==> |row| as real < 0.6 * typical)
  {
    hide Keep;
    var p := (row: seq<Word>) => |row| as real >= 0.6 * typical;
    forall row ensures row in Keep(shown, p) <==> row in shown && |row| as real >= 0.6 * typical { KeepMember(shown, p, row); }
    if Keep(shown, p) != [] { assert Keep(shown, p)[0] in Keep(shown, p); }
  }

  /** The rows that shape the columns: of those shown the ones that reach six tenths of the usual length, or all of them if
    * none does. */
  lemma CandidatesAre(rows: seq<seq<Word>>, footer: seq<Word> -> bool, usual: seq<seq<Word>> -> real) returns (shown: seq<seq<Word>>, typical: real)
    ensures forall row :: row in shown <==> Shown(rows, footer, row)
    ensures shown != [] ==> typical == usual(shown)
    ensures forall row :: row in Candidates(rows, footer, usual) <==>
      row in shown && (|row| as real >= 0.6 * typical || forall other :: other in shown ==> |other| as real < 0.6 * typical)
  {
    hide Keep;
    var p := (row: seq<Word>) => row != [] && !footer(row);
    shown := Keep(rows, p);
    typical := if shown == [] then 0.0 else usual(shown);
    forall row ensures row in shown <==> Shown(rows, footer, row) { KeepMember(rows, p, row); }
    LongRows(shown, typical);
  }

  method ColumnBounds(rows: seq<seq<Word>>, footer: seq<Word> -> bool, usual: seq<seq<Word>> -> real, gap: real) returns (bounds: seq<real>)
    requires gap >= 0.0 && Proper(Flat(rows))
    ensures Columns(Flat(Candidates(rows, footer, usual)), bounds, gap) && Halfway(Flat(Candidates(rows, footer, usual)), bounds)
  {
    hide Columns, Separated, Clustered, InOrder, Sorted, Candidates, Tight, Halfway;
    var words := Flat(Candidates(rows, footer, usual));
    CandidatesProper(rows, footer, usual);
    var ws := Sorted(ByX, words);
    SortedInOrder(ByX, words);
    SameMembers(ws, words);
    var merged := MergeSpans(ws, gap);
    bounds := [];
    for k := 0 to if |merged| == 0 then 0 else |merged| - 1
      invariant |bounds| == k && forall j :: 0 <= j < k ==> bounds[j] == (merged[j].hi + merged[j + 1].lo) / 2.0
    {
      bounds := bounds + [(merged[k].hi + merged[k + 1].lo) / 2.0];
    }
    MidpointsBetween(merged, bounds, gap);
    ColumnsFromSpans(ws, bounds, merged, gap);
    SameColumns(ws, words, bounds, gap);
    HalfwayBounds(ws, bounds, merged, gap);
    SameHalfway(ws, words, bounds);
  }

  lemma MidpointsBetween(spans: seq<Span>, bounds: seq<real>, gap: real)
    requires gap >= 0.0 && Separated(spans, gap) && |bounds| == (if spans == [] then 0 else |spans| - 1)
    requires forall j :: 0 <= j < |bounds| ==> bounds[j] == (spans[j].hi + spans[j + 1].lo) / 2.0
    ensures Between(bounds, spans)
  {
    forall k | 0 <= k < |bounds| ensures spans[k].hi < bounds[k] < spans[k + 1].lo {
      assert spans[k].hi + gap < spans[k + 1].lo;
    }
  }

  lemma {:induction false} FlatMember(rows: seq<seq<Word>>, w: Word)
    ensures w in Flat(rows) <==> exists i :: 0 <= i < |rows| && w in rows[i]
  {
    if rows != [] {
      FlatMember(rows[1..], w);
      if i :| 0 <= i < |rows[1..]| && w in rows[1..][i] { assert w in rows[i + 1]; }
      if i :| 0 < i < |rows| && w in rows[i] { assert rows[1..][i - 1] == rows[i]; }
    }
  }

  lemma {:induction false} KeepMember(rows: seq<seq<Word>>, p: seq<Word> -> bool, row: seq<Word>)
    ensures row in Keep(rows, p) <==> row in rows && p(row)
  {
    if rows != [] { KeepMember(rows[1..], p, row); }
  }

  /** A candidate is one of the rows. */
  lemma CandidateIsRow(rows: seq<seq<Word>>, footer: seq<Word> -> bool, usual: seq<seq<Word>> -> real, row: seq<Word>)
    requires row in Candidates(rows, footer, usual)
    ensures row in rows && row != [] && !footer(row)
  {
    var p := (row: seq<Word>) => row != [] && !footer(row);
    var some := Keep(rows, p);
    KeepMember(rows, p, row);
    var typical := if some == [] then 0.0 else usual(some);
    KeepMember(some, (row: seq<Word>) => |row| as real >= 0.6 * typical, row);
  }

  lemma CandidatesProper(rows: seq<seq<Word>>, footer: seq<Word> -> bool, usual: seq<seq<Word>> -> real)
    requires Proper(Flat(rows))
    ensures Proper(Flat(Candidates(rows, footer, usual)))
  {
    hide Candidates;
    forall w | w in Flat(Candidates(rows, footer, usual)) ensures w.x0 <= w.x1 {
      FlatMember(Candidates(rows, footer, usual), w);
      var i :| 0 <= i < |Candidates(rows, footer, usual)| && w in Candidates(rows, footer, usual)[i];
      CandidateIsRow(rows, footer, usual, Candidates(rows, footer, usual)[i]);
      FlatMember(rows, w);
    }
  }

  // ---------------------------------------------------------------- cells

  /** The words of a row that stand in column c, in their order. */
  function InColumn(row: seq<Word>, bounds: seq<real>, c: nat): seq<Word> {
    if row == [] then []
    else InColumn(row[..|row| - 1], bounds, c) + (if Column(bounds, Center(row[|row| - 1])) == c then [row[|row| - 1]] else [])
  }

  method BuildCells(rows: seq<seq<Word>>, bounds: seq<real>) returns (cells: seq<seq<seq<Word>>>)
    ensures |cells| == |rows|
    ensures forall i :: 0 <= i < |rows| ==> |cells[i]| == |bounds| + 1
    ensures forall i, c :: 0 <= i < |rows| && 0 <= c <= |bounds| ==> cells[i][c] == InColumn(rows[i], bounds, c)
  {
    cells := [];
    for i := 0 to |rows|
      invariant |cells| == i && forall j :: 0 <= j < i ==> |cells[j]| == |bounds| + 1
      invariant forall j, c :: 0 <= j < i && 0 <= c <= |bounds| ==> cells[j][c] == InColumn(rows[j], bounds, c)
    {
      var row := RowCells(rows[i], bounds);
      cells := cells + [row];
    }
  }

  method RowCells(row: seq<Word>, bounds: seq<real>) returns (cells: seq<seq<Word>>)
    ensures |cells| == |bounds| + 1 && forall c :: 0 <= c <= |bounds| ==> cells[c] == InColumn(row, bounds, c)
  {
    hide Column;
    cells := seq(|bounds| + 1, c => []);
    for i := 0 to |row|
      invariant |cells| == |bounds| + 1 && forall c :: 0 <= c <= |bounds| ==> cells[c] == InColumn(row[..i], bounds, c)
    {
      assert row[..i + 1][..i] == row[..i];
      var idx := Column(bounds, Center(row[i]));
      cells := cells[idx := cells[idx] + [row[i]]];
    }
    assert row[..|row|] == row;
  }

  function CellsBelow(row: seq<Word>, bounds: seq<real>, n: nat): seq<Word> {
    if n == 0 then [] else CellsBelow(row, bounds, n - 1) + InColumn(row, bounds, n - 1)
  }

  /** Every word of every row stands in exactly one cell. */
  lemma {:induction false} CellsHoldRow(row: seq<Word>, bounds: seq<real>)
    ensures multiset(CellsBelow(row, bounds, |bounds| + 1)) == multiset(row)
    decreases |row|
  {
    hide InColumn, CellsBelow, Center;
    if row == [] {
      NoCells(bounds, |bounds| + 1);
    } else {
      var front, last := row[..|row| - 1], row[|row| - 1];
      CellsHoldRow(front, bounds);
      OneMoreWord(row, bounds, |bounds| + 1);
      assert row == front + [last];
    }
  }

  lemma {:induction false} NoCells(bounds: seq<real>, n: nat)
    ensures CellsBelow([], bounds, n) == []
  {
    if n > 0 { NoCells(bounds, n - 1); }
  }

  lemma InColumnMore(row: seq<Word>, bounds: seq<real>, c: nat)
    requires row != []
    ensures InColumn(row, bounds, c) == InColumn(row[..|row| - 1], bounds, c)
            + (if Column(bounds, Center(row[|row| - 1])) == c then [row[|row| - 1]] else [])
  {
    hide Column;
  }

  lemma BagStep(a: seq<Word>, a0: seq<Word>, x: seq<Word>, b0: seq<Word>, y: seq<Word>)
    requires multiset(a) == multiset(a0) + multiset(x)
    ensures multiset(a + (b0 + y)) == multiset(a0 + b0) + multiset(x) + multiset(y)
  {
  }

  lemma {:induction false} OneMoreWord(row: seq<Word>, bounds: seq<real>, n: nat)
    requires row != []
    ensures var front, last := row[..|row| - 1], row[|row| - 1];
      multiset(CellsBelow(row, bounds, n))
      == multiset(CellsBelow(front, bounds, n)) + multiset(if Column(bounds, Center(last)) < n then [last] else [])
  {
    hide Column, InColumn, Center;
    var front, last := row[..|row| - 1], row[|row| - 1];
    var c := Column(bounds, Center(last));
    if n > 0 {
      OneMoreWord(row, bounds, n - 1);
      InColumnMore(row, bounds, n - 1);
      var x, y := if c < n - 1 then [last] else [], if c == n - 1 then [last] else [];
      BagStep(CellsBelow(row, bounds, n - 1), CellsBelow(front, bounds, n - 1), x, InColumn(front, bounds, n - 1), y);
      assert x + y == if c < n then [last] else [];
      assert multiset(x + y) == multiset(x) + multiset(y);
    }
  }

  /** Columns do not decrease along the row. */
  ghost predicate Rising(row: seq<Word>, bounds: seq<real>) {
    forall i, j :: 0 <= i < j < |row| ==> Column(bounds, Center(row[i])) <= Column(bounds, Center(row[j]))
  }

  lemma {:induction false} EmptyBeyond(row: seq<Word>, bounds: seq<real>, c: nat)
    requires forall w :: w in row ==> Column(bounds, Center(w)) < c
    ensures InColumn(row, bounds, c) == []
  {
    hide Column;
    if row != [] {
      assert row[|row| - 1] in row;
      EmptyBeyond(row[..|row| - 1], bounds, c);
    }
  }

  lemma {:induction false} CellsOfPrefix(row: seq<Word>, bounds: seq<real>, n: nat)
    requires row != [] && Rising(row, bounds)
    ensures CellsBelow(row, bounds, n)
            == CellsBelow(row[..|row| - 1], bounds, n) + (if Column(bounds, Center(row[|row| - 1])) < n then [row[|row| - 1]] else [])
  {
    hide Column, InColumn, Center;
    var front, last := row[..|row| - 1], row[|row| - 1];
    if n > 0 {
      CellsOfPrefix(row, bounds, n - 1);
      InColumnMore(row, bounds, n - 1);
      if Column(bounds, Center(last)) < n - 1 {
        forall w | w in front ensures Column(bounds, Center(w)) < n - 1 {
          var i :| 0 <= i < |front| && front[i] == w;
          assert row[i] == w;
        }
        EmptyBeyond(front, bounds, n - 1);
      }
    }
  }

  lemma {:induction false} CellHoldsItsColumn(row: seq<Word>, bounds: seq<real>, c: nat)
    ensures forall w :: w in InColumn(row, bounds, c) ==> Column(bounds, Center(w)) == c
  {
    hide Column, Center;
    if row != [] { CellHoldsItsColumn(row[..|row| - 1], bounds, c); }
  }

  /** Cells one after the other never go back to an earlier column. */
  lemma {:induction false} CellsRise(row: seq<Word>, bounds: seq<real>, n: nat)
    ensures Rising(CellsBelow(row, bounds, n), bounds)
    ensures forall w :: w in CellsBelow(row, bounds, n) ==> Column(bounds, Center(w)) < n
  {
    hide Column, Center, InColumn;
    if n > 0 {
      CellsRise(row, bounds, n - 1);
      CellHoldsItsColumn(row, bounds, n - 1);
      var cells, cell := CellsBelow(row, bounds, n - 1), InColumn(row, bounds, n - 1);
      forall i, j | 0 <= i < j < |cells + cell|
        ensures Column(bounds, Center((cells + cell)[i])) <= Column(bounds, Center((cells + cell)[j]))
      {
        if i < |cells| { assert cells[i] in cells; } else { assert cell[i - |cells|] in cell; }
        if j >= |cells| { assert cell[j - |cells|] in cell; }
      }
    }
  }

  lemma {:induction false} CellsOfRising(row: seq<Word>, bounds: seq<real>)
    requires Rising(row, bounds)
    ensures CellsBelow(row, bounds, |bounds| + 1) == row
    decreases |row|
  {
    hide Column;
    if row == [] {
      NoCells(bounds, |bounds| + 1);
    } else {
      CellsOfRising(row[..|row| - 1], bounds);
      CellsOfPrefix(row, bounds, |bounds| + 1);
    }
  }

  /** The cells one after the other are the row exactly when its columns never go back. */
  lemma CellsSpellRowIff(row: seq<Word>, bounds: seq<real>)
    ensures CellsBelow(row, bounds, |bounds| + 1) == row <==> Rising(row, bounds)
  {
    hide CellsBelow, Rising;
    CellsRise(row, bounds, |bounds| + 1);
    if Rising(row, bounds) { CellsOfRising(row, bounds); }
  }

  /** A long word over a short one: sorted by their left edges, yet the centre of the second lies in an earlier column. */
  lemma OverlappingWords()
    ensures var v, w := Word("Summe", 0.0, 12.0, 0.0), Word("7", 1.0, 2.0, 0.0);
      InOrder(ByLeft, [v, w]) && Proper([v, w]) && CellsBelow([v, w], [5.0], 2) != [v, w]
  {
    var v, w := Word("Summe", 0.0, 12.0, 0.0), Word("7", 1.0, 2.0, 0.0);
    assert Column([5.0], Center(v)) == 1 && Column([5.0], Center(w)) == 0;
    assert [v, w][0] == v && [v, w][1] == w;
    CellsSpellRowIff([v, w], [5.0]);
  }

  lemma {:induction false} ColumnBack(bounds: seq<real>, x: real)
    requires Increasing(bounds)
    ensures var c := Column(bounds, x); (forall k :: 0 <= k < c ==> bounds[k] <= x) && (c < |bounds| ==> x < bounds[c])
  {
    if bounds != [] && bounds[0] <= x {
      ColumnBack(bounds[1..], x);
      forall k | 0 < k < Column(bounds, x) ensures bounds[k] <= x { assert bounds[k] == bounds[1..][k - 1]; }
    }
  }

  /** A cell holds the words of its row whose middle lies between the bounds of its column. */
  lemma CellMeans(row: seq<Word>, bounds: seq<real>, c: nat, w: Word)
    requires Increasing(bounds) && c <= |bounds|
    ensures w in InColumn(row, bounds, c) <==>
      w in row && (c > 0 ==> 2.0 * bounds[c - 1] <= w.x0 + w.x1) && (c < |bounds| ==> w.x0 + w.x1 < 2.0 * bounds[c])
  {
    hide Column, InColumn;
    CellMember(row, bounds, c, w);
    ColumnBack(bounds, Center(w));
    if (c > 0 ==> bounds[c - 1] <= Center(w)) && (c < |bounds| ==> Center(w) < bounds[c]) {
      ColumnIs(bounds, Center(w), c);
    }
  }

  lemma {:induction false} CellMember(row: seq<Word>, bounds: seq<real>, c: nat, w: Word)
    ensures w in InColumn(row, bounds, c) <==> w in row && Column(bounds, Center(w)) == c
  {
    hide Column, Center;
    if row != [] {
      CellMember(row[..|row| - 1], bounds, c, w);
      assert row == row[..|row| - 1] + [row[|row| - 1]];
    }
  }

  /** Rows that shape the columns, sorted from left to right, rise. */
  lemma CandidateRises(words: seq<Word>, row: seq<Word>, bounds: seq<real>, gap: real)
    requires Columns(words, bounds, gap) && Proper(words) && InOrder(ByLeft, row) && forall w :: w in row ==> w in words
    ensures Rising(row, bounds)
  {
    hide Column, Connected, Occupied;
    forall i, j | 0 <= i < j < |row| ensures Column(bounds, Center(row[i])) <= Column(bounds, Center(row[j])) {
      var v, w := row[i], row[j];
      assert v in words && w in words && NotAfter(ByLeft, v, w);
      ColumnBack(bounds, Center(v));
      ColumnBack(bounds, Center(w));
      var c := Column(bounds, Center(w));
      assert c < |bounds| ==> !Crosses(v, bounds[c]) && !Crosses(w, bounds[c]);
    }
  }

  // ---------------------------------------------------------------- rows

  ghost predicate StartsAt(row: seq<Word>, head: real) {
    exists w :: w in row && w.top == head
  }

  /** Rows from top to bottom: each spans at most `tol` below its first word, the next one starts farther down. */
  ghost predicate Lines(rows: seq<seq<Word>>, heads: seq<real>, tol: real) {
    && |heads| == |rows|
    && (forall i :: 0 <= i < |rows| ==> rows[i] != [] && forall w :: w in rows[i] ==> heads[i] <= w.top <= heads[i] + tol)
    && (forall i :: 0 <= i < |rows| ==> StartsAt(rows[i], heads[i]))
    && (forall i, j :: 0 <= i < j < |rows| ==> heads[i] + tol < heads[j])
  }

  lemma {:induction false} FlatPlus(rows: seq<seq<Word>>, row: seq<Word>)
    ensures Flat(rows + [row]) == Flat(rows) + row
  {
    if rows == [] {
      assert rows + [row] == [row] && Flat([row][1..]) == [];
    } else {
      assert (rows + [row])[1..] == rows[1..] + [row];
      FlatPlus(rows[1..], row);
    }
  }

  lemma FlatLast(rows: seq<seq<Word>>, w: Word)
    requires rows != []
    ensures Flat(rows[|rows| - 1 := rows[|rows| - 1] + [w]]) == Flat(rows) + [w]
  {
    var n := |rows| - 1;
    assert rows == rows[..n] + [rows[n]];
    assert rows[n := rows[n] + [w]] == rows[..n] + [rows[n] + [w]];
    FlatPlus(rows[..n], rows[n]);
    FlatPlus(rows[..n], rows[n] + [w]);
  }

  method GroupRows(words: seq<Word>, tol: real) returns (rows: seq<seq<Word>>, ghost heads: seq<real>)
    requires tol >= 0.0
    ensures multiset(Flat(rows)) == multiset(words)
    ensures Lines(rows, heads, tol) && forall i :: 0 <= i < |rows| ==> InOrder(ByLeft, rows[i])
  {
    hide Sorted, Lines;
    var ordered := Sorted(ByTop, words);
    SortedInOrder(ByTop, words);
    var lines;
    lines, heads := PlaceWords(ordered, tol);
    rows := SortRows(lines);
    SortedLines(lines, rows, heads, tol);
  }

  method PlaceWords(ordered: seq<Word>, tol: real) returns (lines: seq<seq<Word>>, ghost heads: seq<real>)
    requires tol >= 0.0 && InOrder(ByTop, ordered)
    ensures Flat(lines) == ordered && Lines(lines, heads, tol)
  {
    hide Lines, Flat, InOrder;
    lines, heads := [], [];
    NoLines(tol);
    for i := 0 to |ordered|
      invariant Flat(lines) == ordered[..i] && Lines(lines, heads, tol) && |heads| == |lines|
      invariant forall k :: 0 <= k < |lines| ==> lines[k] != [] && lines[k][0].top == heads[k]
      invariant lines != [] && i < |ordered| ==> heads[|heads| - 1] <= ordered[i].top
    {
      var w, n := ordered[i], |lines|;
      assert ordered[..i + 1] == ordered[..i] + [w];
      NextLower(ordered, i);
      if n > 0 && Abs(w.top - lines[n - 1][0].top) <= tol {
        FlatLast(lines, w);
        WiderLine(lines, heads, tol, w);
        lines := lines[n - 1 := lines[n - 1] + [w]];
      } else {
        FlatPlus(lines, [w]);
        NewLine(lines, heads, tol, w);
        lines := lines + [[w]];
        heads := heads + [w.top];
      }
    }
    assert ordered[..|ordered|] == ordered;
  }

  lemma NoLines(tol: real)
    ensures Lines([], [], tol) && Flat([]) == []
  {
  }

  lemma NextLower(ordered: seq<Word>, i: nat)
    requires InOrder(ByTop, ordered) && i < |ordered|
    ensures i + 1 < |ordered| ==> ordered[i].top <= ordered[i + 1].top
  {
    assert i + 1 < |ordered| ==> NotAfter(ByTop, ordered[i], ordered[i + 1]);
  }

  method SortRows(lines: seq<seq<Word>>) returns (rows: seq<seq<Word>>)
    ensures |rows| == |lines| && multiset(Flat(rows)) == multiset(Flat(lines))
    ensures forall k :: 0 <= k < |rows| ==> rows[k] == Sorted(ByLeft, lines[k]) && InOrder(ByLeft, rows[k])
  {
    hide InOrder, Flat, Sorted;
    rows := [];
    for k := 0 to |lines|
      invariant |rows| == k && forall j :: 0 <= j < k ==> rows[j] == Sorted(ByLeft, lines[j]) && InOrder(ByLeft, rows[j])
      invariant multiset(Flat(rows)) == multiset(Flat(lines[..k]))
    {
      SortedInOrder(ByLeft, lines[k]);
      FlatPlus(rows, Sorted(ByLeft, lines[k]));
      FlatPlus(lines[..k], lines[k]);
      assert lines[..k + 1] == lines[..k] + [lines[k]];
      rows := rows + [Sorted(ByLeft, lines[k])];
    }
    assert lines[..|lines|] == lines;
  }

  lemma WiderLine(lines: seq<seq<Word>>, heads: seq<real>, tol: real, w: Word)
    requires lines != [] && Lines(lines, heads, tol) && heads[|heads| - 1] <= w.top <= heads[|heads| - 1] + tol
    ensures Lines(lines[|lines| - 1 := lines[|lines| - 1] + [w]], heads, tol)
  {
    var next := lines[|lines| - 1 := lines[|lines| - 1] + [w]];
    forall i | 0 <= i < |next| ensures StartsAt(next[i], heads[i]) {
      var v :| v in lines[i] && v.top == heads[i];
      assert v in next[i];
    }
  }

  lemma NewLine(lines: seq<seq<Word>>, heads: seq<real>, tol: real, w: Word)
    requires tol >= 0.0 && Lines(lines, heads, tol) && (lines != [] ==> heads[|heads| - 1] + tol < w.top)
    ensures Lines(lines + [[w]], heads + [w.top], tol)
  {
    var next, tops := lines + [[w]], heads + [w.top];
    forall i | 0 <= i < |next| ensures StartsAt(next[i], tops[i]) {
      if i < |lines| {
        var v :| v in lines[i] && v.top == heads[i];
        assert v in next[i];
      } else {
        assert w in next[i];
      }
    }
    forall i, j | 0 <= i < j < |next| ensures tops[i] + tol < tops[j] {
      if j == |lines| && i < |lines| - 1 { assert heads[i] + tol < heads[|heads| - 1]; }
    }
  }

  lemma SortedLines(lines: seq<seq<Word>>, rows: seq<seq<Word>>, heads: seq<real>, tol: real)
    requires Lines(lines, heads, tol) && |rows| == |lines| && forall k :: 0 <= k < |rows| ==> multiset(rows[k]) == multiset(lines[k])
    ensures Lines(rows, heads, tol)
  {
    forall i | 0 <= i < |rows|
      ensures rows[i] != [] && (forall w :: w in rows[i] ==> heads[i] <= w.top <= heads[i] + tol) && StartsAt(rows[i], heads[i])
    {
      SameMembers(rows[i], lines[i]);
      var w :| w in lines[i] && w.top == heads[i];
      assert w in rows[i];
    }
  }
}
