/** Masking of sensitive text (src/objektakte/masking.py, mask_text): which matches are taken, and how the text is
  * spliced. The patterns enter as the match lists they yield; matches are not empty. */
module Masking {

  /** A match of a pattern: `fit` is false for an IBAN whose compact form is too short or too long. */
  datatype Match = Match(kind: string, start: nat, end: nat, fit: bool, replacement: string)

  predicate InText(text: string, m: Match) { m.start < m.end <= |text| }

  predicate Overlap(a: Match, b: Match) { a.start < b.end && b.start < a.end }

  predicate Overlaps(spans: seq<Match>, m: Match) {
    exists i :: 0 <= i < |spans| && Overlap(spans[i], m)
  }

  // ---------------------------------------------------------------- which matches are taken

  /** First come, first served, over all patterns in their order. */
  function Taken(found: seq<Match>): seq<Match> {
    if found == [] then []
    else
      var before, m := Taken(found[..|found| - 1]), found[|found| - 1];
      if m.fit && !Overlaps(before, m) then before + [m] else before
  }

  ghost predicate Disjoint(spans: seq<Match>) {
    forall i, j :: 0 <= i < j < |spans| ==> !Overlap(spans[i], spans[j])
  }

  /** The spans taken are disjoint; a fitting match that was not taken overlaps one that came before it. */
  lemma {:induction false} TakenFacts(found: seq<Match>)
    ensures Disjoint(Taken(found))
    ensures forall m :: m in Taken(found) ==> m in found && m.fit
    ensures forall i :: 0 <= i < |found| && found[i].fit && found[i] !in Taken(found) ==> Overlaps(Taken(found[..i]), found[i])
  {
    if found != [] {
      var front := found[..|found| - 1];
      TakenFacts(front);
      forall i | 0 <= i < |found| && found[i].fit && found[i] !in Taken(found) ensures Overlaps(Taken(found[..i]), found[i]) {
        if i < |front| {
          assert front[i] == found[i] && front[..i] == found[..i];
        } else {
          assert found[..i] == front;
        }
      }
    }
  }

  /** Order of the patterns, match lists one after the other. */
  function Flat(patterns: seq<seq<Match>>): seq<Match> {
    if patterns == [] then [] else Flat(patterns[..|patterns| - 1]) + patterns[|patterns| - 1]
  }

  // ---------------------------------------------------------------- splicing

  /** Spans from left to right, within the text. */
  ghost predicate LeftToRight(spans: seq<Match>, from: nat, length: nat)
    decreases |spans|
  {
    if spans == [] then from <= length
    else from <= spans[0].start <= spans[0].end && LeftToRight(spans[1..], spans[0].end, length)
  }

  /** The text from `from` on with every span replaced. */
  function Splice(text: string, from: nat, spans: seq<Match>): string
    requires LeftToRight(spans, from, |text|)
    decreases |spans|
  {
    if spans == [] then text[from..]
    else SpanInText(spans, from, |text|);
         text[from..spans[0].start] + spans[0].replacement + Splice(text, spans[0].end, spans[1..])
  }

  lemma {:induction false} SpanInText(spans: seq<Match>, from: nat, length: nat)
    requires LeftToRight(spans, from, length)
    ensures from <= length && (spans != [] ==> spans[0].end <= length)
    decreases |spans|
  {
    if spans != [] { SpanInText(spans[1..], spans[0].end, length); }
  }

  /** Putting the original slices back: the masked text is read from `at` on, `from` is the place in the original. */
  function Restore(masked: string, from: nat, spans: seq<Match>, slices: seq<string>): string
    requires |slices| == |spans|
    decreases |spans|
  {
    if spans == [] then masked
    else
      var s := spans[0];
      if s.start < from || s.start - from + |s.replacement| > |masked| then masked
      else masked[..s.start - from] + slices[0] + Restore(masked[s.start - from + |s.replacement|..], s.end, spans[1..], slices[1..])
  }

  function Slices(text: string, spans: seq<Match>): (r: seq<string>)
    ensures |r| == |spans|
  {
    seq(|spans|, i requires 0 <= i < |spans| => if spans[i].start <= spans[i].end <= |text| then text[spans[i].start..spans[i].end] else "")
  }

  /** Masking loses nothing but the masked slices: with them the text comes back. */
  lemma {:induction false} RestoreSplice(text: string, from: nat, spans: seq<Match>)
    requires LeftToRight(spans, from, |text|)
    ensures from <= |text| && Restore(Splice(text, from, spans), from, spans, Slices(text, spans)) == text[from..]
    decreases |spans|
  {
    SpanInText(spans, from, |text|);
    if spans != [] {
      hide Restore, Slices;
      var s := spans[0];
      SpanInText(spans[1..], s.end, |text|);
      RestoreSplice(text, s.end, spans[1..]);
      RestoreOne(from, spans, Slices(text, spans), text[from..s.start], Splice(text, s.end, spans[1..]));
      SlicesOf(text, spans);
      Whole(text, from, s.start, s.end);
    } else {
      hide Slices;
    }
  }

  lemma RestoreOne(from: nat, spans: seq<Match>, slices: seq<string>, head: string, tail: string)
    requires spans != [] && |slices| == |spans| && from + |head| == spans[0].start
    ensures Restore(head + spans[0].replacement + tail, from, spans, slices)
            == head + slices[0] + Restore(tail, spans[0].end, spans[1..], slices[1..])
  {
    Pieces(head, spans[0].replacement, tail);
  }

  lemma SlicesOf(text: string, spans: seq<Match>)
    requires spans != [] && spans[0].start <= spans[0].end <= |text|
    ensures Slices(text, spans)[0] == text[spans[0].start..spans[0].end] && Slices(text, spans)[1..] == Slices(text, spans[1..])
  {
  }

  lemma Pieces(a: string, b: string, c: string)
    ensures (a + b + c)[..|a|] == a && (a + b + c)[|a| + |b|..] == c
  {
  }

  lemma Whole(text: string, i: nat, j: nat, k: nat)
    requires i <= j <= k <= |text|
    ensures text[i..] == text[i..j] + text[j..k] + text[k..]
  {
  }

  // ---------------------------------------------------------------- sorting the spans

  function Insert(m: Match, s: seq<Match>): (r: seq<Match>)
    ensures multiset(r) == multiset(s) + multiset{m}
  {
    if s == [] then [m]
    else if m.start < s[0].start then [m] + s
    else assert s == [s[0]] + s[1..]; [s[0]] + Insert(m, s[1..])
  }

  function ByStart(s: seq<Match>): (r: seq<Match>)
    ensures multiset(r) == multiset(s)
  {
    if s == [] then [] else assert s == s[..|s| - 1] + [s[|s| - 1]]; Insert(s[|s| - 1], ByStart(s[..|s| - 1]))
  }

  predicate Ascending(s: seq<Match>) {
    forall i, j :: 0 <= i < j < |s| ==> s[i].start <= s[j].start
  }

  lemma {:induction false} InsertAscending(m: Match, s: seq<Match>)
    requires Ascending(s)
    ensures Ascending(Insert(m, s))
  {
    if s != [] && s[0].start <= m.start {
      InsertAscending(m, s[1..]);
      var rest := Insert(m, s[1..]);
      forall k | 0 <= k < |rest| ensures s[0].start <= rest[k].start {
        assert rest[k] in multiset(rest);
        if rest[k] != m { assert rest[k] in s[1..]; }
      }
    }
  }

  lemma {:induction false} ByStartAscending(s: seq<Match>)
    ensures Ascending(ByStart(s))
  {
    if s != [] {
      ByStartAscending(s[..|s| - 1]);
      InsertAscending(s[|s| - 1], ByStart(s[..|s| - 1]));
    }
  }

  ghost predicate Apart(m: Match, s: seq<Match>) {
    forall i :: 0 <= i < |s| ==> !Overlap(s[i], m)
  }

  lemma {:induction false} InsertDisjoint(m: Match, s: seq<Match>)
    requires Disjoint(s) && Apart(m, s)
    ensures Disjoint(Insert(m, s))
  {
    if s != [] && s[0].start <= m.start {
      InsertDisjoint(m, s[1..]);
      var rest := Insert(m, s[1..]);
      forall k | 0 <= k < |rest| ensures !Overlap(s[0], rest[k]) {
        assert rest[k] in multiset(rest);
        if rest[k] != m {
          assert rest[k] in s[1..];
          var i :| 0 <= i < |s[1..]| && s[1..][i] == rest[k];
          assert !Overlap(s[0], s[i + 1]);
        }
      }
    }
  }

  lemma {:induction false} ByStartDisjoint(s: seq<Match>)
    requires Disjoint(s)
    ensures Disjoint(ByStart(s))
  {
    if s != [] {
      var front, last := s[..|s| - 1], s[|s| - 1];
      ByStartDisjoint(front);
      forall i | 0 <= i < |ByStart(front)| ensures !Overlap(ByStart(front)[i], last) {
        assert ByStart(front)[i] in multiset(front);
        var k :| 0 <= k < |front| && front[k] == ByStart(front)[i];
        assert !Overlap(s[k], s[|s| - 1]);
      }
      InsertDisjoint(last, ByStart(front));
    }
  }

  lemma {:induction false} SortedFromLeft(spans: seq<Match>, from: nat, length: nat)
    requires Ascending(spans) && Disjoint(spans) && from <= length
    requires forall i :: 0 <= i < |spans| ==> from <= spans[i].start < spans[i].end <= length
    ensures LeftToRight(spans, from, length)
    decreases |spans|
  {
    if spans != [] {
      forall i | 0 <= i < |spans[1..]| ensures spans[0].end <= spans[1..][i].start {
        assert spans[1..][i] == spans[i + 1] && !Overlap(spans[0], spans[i + 1]);
      }
      SortedFromLeft(spans[1..], spans[0].end, length);
    }
  }

  /** The spans of a text: in order, disjoint, inside. */
  lemma SpansFit(text: string, found: seq<Match>)
    requires forall m :: m in found ==> InText(text, m)
    ensures LeftToRight(ByStart(Taken(found)), 0, |text|)
  {
    var taken := Taken(found);
    TakenFacts(found);
    ByStartAscending(taken);
    ByStartDisjoint(taken);
    forall i | 0 <= i < |ByStart(taken)| ensures InText(text, ByStart(taken)[i]) {
      assert ByStart(taken)[i] in multiset(taken);
    }
    SortedFromLeft(ByStart(taken), 0, |text|);
  }

  // ---------------------------------------------------------------- what comes out

  lemma {:induction false} FlatIs(patterns: seq<seq<Match>>, p: nat, i: nat)
    requires p < |patterns| && i < |patterns[p]|
    ensures |Flat(patterns[..p])| + i < |Flat(patterns)| && Flat(patterns)[|Flat(patterns[..p])| + i] == patterns[p][i]
    ensures Flat(patterns)[..|Flat(patterns[..p])| + i] == Flat(patterns[..p]) + patterns[p][..i]
    decreases |patterns|
  {
    var n := |patterns| - 1;
    if p < n {
      FlatIs(patterns[..n], p, i);
      assert patterns[..n][..p] == patterns[..p];
    }
  }

  lemma {:induction false} FlatFrom(patterns: seq<seq<Match>>, m: Match) returns (p: nat, i: nat)
    requires m in Flat(patterns)
    ensures p < |patterns| && i < |patterns[p]| && patterns[p][i] == m
    decreases |patterns|
  {
    var n := |patterns| - 1;
    if m in Flat(patterns[..n]) {
      p, i := FlatFrom(patterns[..n], m);
    } else {
      p := n;
      i :| 0 <= i < |patterns[n]| && patterns[n][i] == m;
    }
  }

  lemma AllInText(text: string, patterns: seq<seq<Match>>)
    requires forall p, i :: 0 <= p < |patterns| && 0 <= i < |patterns[p]| ==> patterns[p][i].start < patterns[p][i].end <= |text|
    ensures forall m :: m in Flat(patterns) ==> InText(text, m)
  {
    hide Flat;
    forall m | m in Flat(patterns) ensures InText(text, m) { var p, i := FlatFrom(patterns, m); }
  }

  /** A match before place `i` of pattern `p`: of an earlier pattern, or of the same one further ahead. */
  ghost predicate Sooner(patterns: seq<seq<Match>>, p: nat, i: nat, m: Match) {
    || (exists q, j :: 0 <= q < p && q < |patterns| && 0 <= j < |patterns[q]| && patterns[q][j] == m)
    || (p < |patterns| && exists j :: 0 <= j < i && j < |patterns[p]| && patterns[p][j] == m)
  }

  /** Every fitting match of every pattern is masked, or shares a character with a masked one that came sooner; nothing
    * else is masked. */
  lemma EveryMatchCounts(patterns: seq<seq<Match>>, p: nat, i: nat)
    requires p < |patterns| && i < |patterns[p]| && patterns[p][i].fit
    ensures var m, hits := patterns[p][i], ByStart(Taken(Flat(patterns)));
      m in hits || exists t :: t in hits && Sooner(patterns, p, i, t) && t.start < m.end && m.start < t.end
  {
    hide Flat, Taken, ByStart;
    var all, k := Flat(patterns), |Flat(patterns[..p])| + i;
    FlatIs(patterns, p, i);
    TakenFacts(all);
    var hits := ByStart(Taken(all));
    forall m ensures m in Taken(all) <==> m in hits { assert m in multiset(hits) <==> m in multiset(Taken(all)); }
    if all[k] !in Taken(all) {
      var before := Taken(all[..k]);
      var x :| 0 <= x < |before| && Overlap(before[x], all[k]);
      var t := before[x];
      assert t in before;
      TakenFacts(all[..k]);
      TakenMonotone(all, k);
      assert t in Flat(patterns[..p]) + patterns[p][..i];
      if t in Flat(patterns[..p]) {
        var q, j := FlatFrom(patterns[..p], t);
        assert patterns[q][j] == t;
      } else {
        var j :| 0 <= j < i && patterns[p][..i][j] == t;
        assert patterns[p][j] == t;
      }
    }
  }

  lemma {:induction false} TakenMonotone(found: seq<Match>, k: nat)
    requires k <= |found|
    ensures forall m :: m in Taken(found[..k]) ==> m in Taken(found)
    decreases |found|
  {
    if k < |found| {
      TakenMonotone(found[..|found| - 1], k);
      assert found[..|found| - 1][..k] == found[..k];
    } else {
      assert found[..k] == found;
    }
  }

  /** How far the first `k` replacements move what follows them. */
  function Drift(spans: seq<Match>, k: nat): int
    requires k <= |spans|
  {
    if k == 0 then 0 else Drift(spans, k - 1) + |spans[k - 1].replacement| - (spans[k - 1].end - spans[k - 1].start)
  }

  lemma {:induction false} DriftTail(spans: seq<Match>, k: nat)
    requires 1 <= k <= |spans|
    ensures Drift(spans, k) == |spans[0].replacement| - (spans[0].end - spans[0].start) + Drift(spans[1..], k - 1)
  {
    if k > 1 { DriftTail(spans, k - 1); }
  }

  /** Replacement `k` stands in full where its span begins, moved by the replacements before it. */
  ghost predicate ShowsReplacement(out: string, from: nat, spans: seq<Match>, k: nat)
    requires k < |spans|
  {
    var at, rep := spans[k].start - from + Drift(spans, k), spans[k].replacement;
    0 <= at && at + |rep| <= |out| && forall i :: 0 <= i < |rep| ==> out[at + i] == rep[i]
  }

  /** A character after `k` spans and before the next one stands where it stood, moved by the replacements before it. */
  ghost predicate ShowsText(text: string, out: string, from: nat, spans: seq<Match>, k: nat, x: nat)
    requires k <= |spans| && x < |text|
  {
    (if k == 0 then from <= x else spans[k - 1].end <= x) && (k < |spans| ==> x < spans[k].start) ==>
      0 <= x - from + Drift(spans, k) < |out| && out[x - from + Drift(spans, k)] == text[x]
  }

  lemma {:induction false} SpliceShows(text: string, from: nat, spans: seq<Match>)
    requires LeftToRight(spans, from, |text|)
    ensures var out := Splice(text, from, spans);
      && |out| == |text| - from + Drift(spans, |spans|)
      && (forall k :: 0 <= k < |spans| ==> ShowsReplacement(out, from, spans, k))
      && (forall k, x :: 0 <= k <= |spans| && 0 <= x < |text| ==> ShowsText(text, out, from, spans, k, x))
    decreases |spans|
  {
    if spans == [] {
      PlainText(text, from);
    } else {
      hide ShowsReplacement, ShowsText;
      SpanInText(spans, from, |text|);
      var s, out, tail := spans[0], Splice(text, from, spans), Splice(text, spans[0].end, spans[1..]);
      SpliceShows(text, s.end, spans[1..]);
      DriftTail(spans, |spans|);
      Placed(text[from..s.start], s.replacement, tail);
      assert out == text[from..s.start] + s.replacement + tail;
      assert EndsWith(out, tail);
      forall k | 0 <= k < |spans| ensures ShowsReplacement(out, from, spans, k) { ReplacementShown(out, tail, from, spans, k); }
      forall k, x | 0 <= k <= |spans| && 0 <= x < |text| ensures ShowsText(text, out, from, spans, k, x) { TextShown(text, out, tail, from, spans, k, x); }
    }
  }

  lemma PlainText(text: string, from: nat)
    requires from <= |text|
    ensures forall x :: 0 <= x < |text| ==> ShowsText(text, text[from..], from, [], 0, x)
  {
  }

  lemma Placed(a: string, b: string, c: string)
    ensures forall i :: 0 <= i < |a| ==> (a + b + c)[i] == a[i]
    ensures forall i :: 0 <= i < |b| ==> (a + b + c)[|a| + i] == b[i]
    ensures forall i :: 0 <= i < |c| ==> (a + b + c)[|a| + |b| + i] == c[i]
  {
  }

  /** The tail stands at the end of the text put together. */
  ghost predicate EndsWith(out: string, tail: string) {
    |tail| <= |out| && forall i :: |out| - |tail| <= i < |out| ==> out[i] == tail[i - (|out| - |tail|)]
  }

  lemma ReplacementShown(out: string, tail: string, from: nat, spans: seq<Match>, k: nat)
    requires k < |spans| && from <= spans[0].start <= spans[0].end && EndsWith(out, tail)
    requires |out| == spans[0].start - from + |spans[0].replacement| + |tail|
    requires forall i :: 0 <= i < |spans[0].replacement| ==> out[spans[0].start - from + i] == spans[0].replacement[i]
    requires k > 0 ==> ShowsReplacement(tail, spans[0].end, spans[1..], k - 1)
    ensures ShowsReplacement(out, from, spans, k)
  {
    hide EndsWith;
    if k > 0 {
      DriftTail(spans, k);
      var skip, rep, at := |out| - |tail|, spans[k].replacement, spans[k].start - from + Drift(spans, k);
      forall i | 0 <= i < |rep| ensures out[at + i] == rep[i] { AtEnd(out, tail, at + i); }
    }
  }

  lemma AtEnd(out: string, tail: string, i: int)
    requires EndsWith(out, tail) && |out| - |tail| <= i < |out|
    ensures out[i] == tail[i - (|out| - |tail|)]
  {
  }

  lemma TextShown(text: string, out: string, tail: string, from: nat, spans: seq<Match>, k: nat, x: nat)
    requires spans != [] && k <= |spans| && x < |text| && from <= spans[0].start <= spans[0].end <= |text| && EndsWith(out, tail)
    requires |out| == spans[0].start - from + |spans[0].replacement| + |tail|
    requires forall i :: 0 <= i < spans[0].start - from ==> out[i] == text[from + i]
    requires k > 0 ==> ShowsText(text, tail, spans[0].end, spans[1..], k - 1, x)
    ensures ShowsText(text, out, from, spans, k, x)
  {
    hide EndsWith;
    if k > 0 {
      DriftTail(spans, k);
      var i := x - from + Drift(spans, k);
      if |out| - |tail| <= i < |out| { AtEnd(out, tail, i); }
    } else if from <= x < spans[0].start {
      assert out[x - from] == text[from + (x - from)];
    }
  }

  // ---------------------------------------------------------------- the function itself

  method TakeMatches(patterns: seq<seq<Match>>) returns (spans: seq<Match>)
    ensures spans == Taken(Flat(patterns))
  {
    spans := [];
    for p := 0 to |patterns|
      invariant spans == Taken(Flat(patterns[..p]))
    {
      assert patterns[..p + 1][..p] == patterns[..p];
      var matches := patterns[p];
      assert Flat(patterns[..p]) + matches[..0] == Flat(patterns[..p]);
      for i := 0 to |matches|
        invariant spans == Taken(Flat(patterns[..p]) + matches[..i])
      {
        var seen := Flat(patterns[..p]) + matches[..i + 1];
        assert seen[..|seen| - 1] == Flat(patterns[..p]) + matches[..i];
        if matches[i].fit && !Overlaps(spans, matches[i]) {
          spans := spans + [matches[i]];
        }
      }
      assert matches[..|matches|] == matches;
    }
    assert patterns[..|patterns|] == patterns;
  }

  method MaskText(text: string, patterns: seq<seq<Match>>) returns (masked: string, hits: seq<Match>)
    requires forall p, i :: 0 <= p < |patterns| && 0 <= i < |patterns[p]| ==> patterns[p][i].start < patterns[p][i].end <= |text|
    ensures hits == ByStart(Taken(Flat(patterns))) && LeftToRight(hits, 0, |text|)
    ensures masked == Splice(text, 0, hits) && |masked| == |text| + Drift(hits, |hits|)
    ensures forall k :: 0 <= k < |hits| ==> ShowsReplacement(masked, 0, hits, k)
    ensures forall k, x :: 0 <= k <= |hits| && 0 <= x < |text| ==> ShowsText(text, masked, 0, hits, k, x)
    ensures Restore(masked, 0, hits, Slices(text, hits)) == text
  {
    hide Flat, Taken, ByStart, LeftToRight, ShowsReplacement, ShowsText, Restore;
    var spans := TakeMatches(patterns);
    hits := ByStart(spans);
    AllInText(text, patterns);
    SpansFit(text, Flat(patterns));
    masked := Assemble(text, hits);
    SpliceShows(text, 0, hits);
    RestoreSplice(text, 0, hits);
    assert text[0..] == text;
  }

  method Assemble(text: string, spans: seq<Match>) returns (masked: string)
    requires LeftToRight(spans, 0, |text|)
    ensures masked == Splice(text, 0, spans)
  {
    masked := "";
    var cursor: nat := 0;
    for i := 0 to |spans|
      invariant LeftToRight(spans[i..], cursor, |text|)
      invariant masked + Splice(text, cursor, spans[i..]) == Splice(text, 0, spans)
    {
      SpanInText(spans[i..], cursor, |text|);
      var s := spans[i];
      assert spans[i..][1..] == spans[i + 1..];
      masked := masked + text[cursor..s.start] + s.replacement;
      cursor := s.end;
    }
    SpanInText([], cursor, |text|);
    masked := masked + text[cursor..];
  }
}
