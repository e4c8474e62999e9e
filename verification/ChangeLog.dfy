/** The change log read by cursor (adapter.py, list_changes) and a consumer that follows its tokens
  * (src/apps/sync/drive_changes.py, poll). The log keeps one stamp a file, so a page shows the state at the
  * time it is read, not the state at the time of the change. */
module ChangeLog {
  import opened Wrappers
  import opened Drive
  import opened Sorting

  datatype Change = Change(id: Id, removed: bool, node: Option<Entry>)

  /** Either a token for the next page or, on the last page, the cursor for the next poll. */
  datatype Page = Page(changes: seq<Change>, next: Option<nat>, newStart: Option<nat>)

  // ---------------------------------------------------------------- reading

  /** The number of a file's last change, the key the log is sorted by. */
  function Clock(log: map<Id, Stamp>): Id -> real {
    f => if f in log then log[f].number as real else 0.0
  }

  function Since(s: Store, start: nat): set<Id> {
    set f | f in s.log && s.log[f].number >= start
  }

  /** The files changed since `start`, by the number of their last change. */
  function Pending(s: Store, start: nat): (r: seq<Id>)
    ensures forall i :: 0 <= i < |r| ==> r[i] in s.log && s.log[r[i]].number >= start
    ensures forall i, j :: 0 <= i < j < |r| ==> s.log[r[i]].number <= s.log[r[j]].number
    ensures |r| == |Since(s, start)|
  {
    var r := Sorted(Clock(s.log), Since(s, start));
    assert forall i, j :: 0 <= i < j < |r| ==> Before(Clock(s.log), r[i], r[j]);
    r
  }

  function Show(s: Store, f: Id): Change
    requires f in s.log
  {
    if f in s.entries && !s.log[f].removed then Change(f, false, Some(s.entries[f])) else Change(f, true, None)
  }

  function ShowAll(s: Store, fs: seq<Id>): (r: seq<Change>)
    requires forall i :: 0 <= i < |fs| ==> fs[i] in s.log
    ensures |r| == |fs| && forall i :: 0 <= i < |r| ==> r[i] == Show(s, fs[i])
  {
    seq(|fs|, i requires 0 <= i < |fs| => Show(s, fs[i]))
  }

  /** A token is None when it is not numeric. */
  predicate Readable(s: Store, token: Option<nat>) {
    token.Some? && 1 <= token.value <= s.changes + 1
  }

  function StartPageToken(s: Store): nat {
    s.changes + 1
  }

  function Prefix(fs: seq<Id>, size: nat): seq<Id> {
    if |fs| <= size then fs else fs[..size]
  }

  function PageChanges(s: Store, start: nat, size: nat): seq<Change> {
    ShowAll(s, Prefix(Pending(s, start), size))
  }

  /** Where the page ends: the first change it does not show, or one past the last change of the drive. */
  function PageEnd(s: Store, start: nat, size: nat): nat {
    var pending := Pending(s, start);
    if |pending| > size then s.log[pending[size]].number else s.changes + 1
  }

  function ReadPage(s: Store, token: Option<nat>, size: int): Result<Page, Error> {
    if !Readable(s, token) then Err(CursorInvalid)
    else if size < 1 then Err(Permanent)
    else
      var end := PageEnd(s, token.value, size);
      if |Pending(s, token.value)| > size
      then Ok(Page(PageChanges(s, token.value, size), Some(end), None))
      else Ok(Page(PageChanges(s, token.value, size), None, Some(end)))
  }

  method ListChanges(drive: InMemoryDrive, token: Option<nat>, size: int, fault: bool) returns (r: Result<Page, Error>)
    ensures r == if fault then Err(Unavailable) else ReadPage(drive.State(), token, size)
    ensures r.Ok? <==> !fault && token.Some? && 1 <= token.value <= drive.State().changes + 1 && size >= 1
    ensures r == Err(CursorInvalid) <==> !fault && (token.None? || token.value < 1 || token.value > drive.State().changes + 1)
  {
    if fault { return Err(Unavailable); }
    var s := drive.State();
    if token.None? || token.value < 1 || token.value > s.changes + 1 { return Err(CursorInvalid); }
    if size < 1 { return Err(Permanent); }
    var pending := Pending(s, token.value);
    var page, rest := Prefix(pending, size), |pending| > size;
    var changes := Describe(s, page);
    if rest {
      return Ok(Page(changes, Some(s.log[pending[size]].number), None));
    }
    return Ok(Page(changes, None, Some(s.changes + 1)));
  }

  method Describe(s: Store, page: seq<Id>) returns (changes: seq<Change>)
    requires forall i :: 0 <= i < |page| ==> page[i] in s.log
    ensures changes == ShowAll(s, page)
  {
    changes := [];
    for i := 0 to |page|
      invariant |changes| == i
      invariant forall j :: 0 <= j < i ==> changes[j] == Show(s, page[j])
    {
      changes := changes + [Show(s, page[i])];
    }
  }

  // ---------------------------------------------------------------- the consumer

  datatype Mirror = Mirror(files: Entries, cursor: nat)

  function Absorb(files: Entries, changes: seq<Change>): Entries
    decreases |changes|
  {
    if changes == [] then files
    else
      var c := changes[0];
      Absorb(if c.removed || c.node.None? then files - {c.id} else files[c.id := c.node.value], changes[1..])
  }

  /** Cursor after a page: the next page's token or, on the last page, the new start. */
  function Cursor(p: Page, old_: nat): nat {
    if p.next.Some? then p.next.value else if p.newStart.Some? then p.newStart.value else old_
  }

  /** One page, fetched and absorbed; a failed read leaves the consumer as it was. */
  function Consume(s: Store, m: Mirror, size: int, fault: bool): Mirror {
    if fault then m
    else match ReadPage(s, Some(m.cursor), size)
      case Err(_) => m
      case Ok(p) => Mirror(Absorb(m.files, p.changes), Cursor(p, m.cursor))
  }

  function Snapshot(s: Store): Mirror {
    Mirror(s.entries, StartPageToken(s))
  }

  /** Zero for a file the log does not know, like the root folder. */
  function LastChange(s: Store, f: Id): nat {
    if f in s.log then s.log[f].number else 0
  }

  ghost predicate Agree(s: Store, m: Mirror, f: Id) {
    (f in m.files <==> f in s.entries) && (f in s.entries ==> m.files[f] == s.entries[f])
  }

  /** The mirror is right about every file whose last change lies below the cursor. */
  ghost predicate Faithful(s: Store, m: Mirror) {
    && 1 <= m.cursor <= s.changes + 1
    && forall f :: LastChange(s, f) < m.cursor ==> Agree(s, m, f)
  }

  // ---------------------------------------------------------------- one step

  /** A file touched by an operation moves past every cursor handed out so far. */
  lemma MutationKeepsFaithful(s: Store, mut: Mutation, m: Mirror)
    requires Valid(s) && Faithful(s, m)
    ensures Faithful(After(s, mut), m)
  {
    var t := After(s, mut);
    forall f | LastChange(t, f) < m.cursor
      ensures Agree(t, m, f)
    {
      if t != s {
        var e := Edited(s, mut);
        assert f != Target(s, mut);
      }
      assert LastChange(t, f) == LastChange(s, f);
      assert Agree(s, m, f);
    }
  }

  lemma {:induction false} AbsorbAt(s: Store, files: Entries, changes: seq<Change>, f: Id)
    requires forall i :: 0 <= i < |changes| ==> changes[i].id in s.log && changes[i] == Show(s, changes[i].id)
    ensures (exists i :: 0 <= i < |changes| && changes[i].id == f) && f in s.log ==>
              var c := Show(s, f); var r := Absorb(files, changes);
              (f in r <==> c.node.Some?) && (c.node.Some? ==> r[f] == c.node.value)
    ensures !(exists i :: 0 <= i < |changes| && changes[i].id == f) ==>
              var r := Absorb(files, changes);
              (f in r <==> f in files) && (f in files ==> r[f] == files[f])
    decreases |changes|
  {
    if changes != [] {
      var c := changes[0];
      var next := if c.removed || c.node.None? then files - {c.id} else files[c.id := c.node.value];
      AbsorbAt(s, next, changes[1..], f);
      if exists i :: 0 <= i < |changes| && changes[i].id == f {
        var i :| 0 <= i < |changes| && changes[i].id == f;
        if i > 0 { assert changes[1..][i - 1].id == f; }
      }
    }
  }

  /** Numbers are unique, so the listing of pending files is strictly ascending and complete. */
  lemma PendingExact(s: Store, start: nat, f: Id)
    requires Valid(s)
    ensures start <= LastChange(s, f) && f in s.log <==> f in Pending(s, start)
    ensures var r := Pending(s, start); forall i, j :: 0 <= i < j < |r| ==> s.log[r[i]].number < s.log[r[j]].number
  {
    var r := Pending(s, start);
    assert f in r <==> f in Since(s, start);
    SortedHasNoRepeats(Clock(s.log), r);
  }

  /** A page shows exactly the files changed since its cursor and before the cursor it hands out. */
  lemma PageCovers(s: Store, start: nat, size: nat, f: Id)
    requires Valid(s) && 1 <= start <= s.changes + 1
    ensures start <= PageEnd(s, start, size) <= s.changes + 1
    ensures start <= LastChange(s, f) < PageEnd(s, start, size) <==>
            exists i :: 0 <= i < |PageChanges(s, start, size)| && PageChanges(s, start, size)[i].id == f
  {
    hide Pending, Clock, Since;
    var pending := Pending(s, start);
    var changes := PageChanges(s, start, size);
    PendingExact(s, start, f);
    if start <= LastChange(s, f) < PageEnd(s, start, size) {
      var k :| 0 <= k < |pending| && pending[k] == f;
      assert k < size;
      assert changes[k].id == f;
    }
    if i :| 0 <= i < |changes| && changes[i].id == f {
      assert pending[i] == f;
    }
  }

  /** What a page holds: at most as many changes as asked for, each file once, in the order of their last changes, each as
    * the file is now; it names a next page exactly when files are left over, and else the number of the next change. */
  lemma PageHolds(s: Store, start: nat, size: nat)
    requires Valid(s) && 1 <= start <= s.changes + 1 && size >= 1
    ensures ReadPage(s, Some(start), size).Ok?
    ensures var p := ReadPage(s, Some(start), size).value;
      && |p.changes| <= size && (forall i :: 0 <= i < |p.changes| ==> p.changes[i].id in s.log)
      && (forall i, j :: 0 <= i < j < |p.changes| ==> s.log[p.changes[i].id].number < s.log[p.changes[j].id].number)
      && (forall i :: 0 <= i < |p.changes| ==>
            p.changes[i] == if p.changes[i].id in s.entries then Change(p.changes[i].id, false, Some(s.entries[p.changes[i].id]))
                            else Change(p.changes[i].id, true, None))
      && (p.next.Some? <==> |Since(s, start)| > size) && (p.next.None? ==> p.newStart == Some(s.changes + 1))
      && (p.next.Some? ==> p.newStart.None? && |p.changes| == size)
  {
    hide Pending, Clock;
    PendingExact(s, start, 0);
  }

  /** Reading a page, whatever its size, keeps the mirror faithful and never moves the cursor back. */
  lemma ConsumeKeepsFaithful(s: Store, m: Mirror, size: int, fault: bool)
    requires Valid(s) && Faithful(s, m)
    ensures Faithful(s, Consume(s, m, size, fault))
    ensures m.cursor <= Consume(s, m, size, fault).cursor
  {
    if !fault && size >= 1 {
      PageCovers(s, m.cursor, size, 0);
      forall f | LastChange(s, f) < Consume(s, m, size, fault).cursor
        ensures Agree(s, Consume(s, m, size, fault), f)
      {
        ConsumeAt(s, m, size, f);
      }
    }
  }

  lemma ConsumeAt(s: Store, m: Mirror, size: nat, f: Id)
    requires Valid(s) && Faithful(s, m) && size >= 1
    requires LastChange(s, f) < Consume(s, m, size, false).cursor
    ensures Agree(s, Consume(s, m, size, false), f)
  {
    hide Pending, Absorb;
    PageCovers(s, m.cursor, size, f);
    AbsorbAt(s, m.files, PageChanges(s, m.cursor, size), f);
    if LastChange(s, f) < m.cursor {
      assert Agree(s, m, f);
    }
  }

  // ---------------------------------------------------------------- whole runs

  /** What happens between two pages: any operation, or the next read with any page size, failing or not. */
  datatype Step = Mutate(mutation: Mutation) | Read(size: int, fault: bool)

  function Run(s: Store, m: Mirror, steps: seq<Step>): (Store, Mirror)
    decreases |steps|
  {
    if steps == [] then (s, m)
    else match steps[0]
      case Mutate(mut) => Run(After(s, mut), m, steps[1..])
      case Read(size, fault) => Run(s, Consume(s, m, size, fault), steps[1..])
  }

  /** Whatever happens between the pages, a consumer that started from a snapshot stays faithful. */
  lemma {:induction false} MirrorFollows(s: Store, m: Mirror, steps: seq<Step>)
    requires Valid(s) && (m == Snapshot(s) || Faithful(s, m))
    ensures var (t, n) := Run(s, m, steps); Valid(t) && Faithful(t, n)
    decreases |steps|
  {
    if steps != [] {
      match steps[0] {
        case Mutate(mut) =>
          ApplyKeepsValid(s, mut);
          MutationKeepsFaithful(s, mut, m);
          MirrorFollows(After(s, mut), m, steps[1..]);
        case Read(size, fault) =>
          ConsumeKeepsFaithful(s, m, size, fault);
          MirrorFollows(s, Consume(s, m, size, fault), steps[1..]);
      }
    }
  }

  /** Following tokens for up to `pages` pages, as one poll does; true when a page carried a new start. */
  function Poll(s: Store, m: Mirror, size: int, pages: nat): (Mirror, bool)
    decreases pages
  {
    if pages == 0 then (m, false)
    else
      var n := Consume(s, m, size, false);
      match ReadPage(s, Some(m.cursor), size)
      case Err(_) => (m, false)
      case Ok(p) => if p.newStart.Some? then (n, true) else Poll(s, n, size, pages - 1)
  }

  lemma PendingShrinks(s: Store, start: nat, size: nat)
    requires Valid(s) && |Pending(s, start)| > size
    ensures |Pending(s, PageEnd(s, start, size))| == |Pending(s, start)| - size
  {
    hide Pending, PageEnd;
    var pending, next := Pending(s, start), PageEnd(s, start, size);
    var first := set i | 0 <= i < size :: pending[i];
    PendingExact(s, start, 0);
    forall f ensures f in Since(s, next) <==> f in Since(s, start) && f !in first {
      SplitAt(s, start, size, f);
    }
    assert Since(s, next) == Since(s, start) - first && first <= Since(s, start);
    FirstSize(pending, size);
  }

  lemma SplitAt(s: Store, start: nat, size: nat, f: Id)
    requires Valid(s) && |Pending(s, start)| > size
    ensures f in Since(s, PageEnd(s, start, size)) <==>
            f in Since(s, start) && f !in set i | 0 <= i < size :: Pending(s, start)[i]
  {
    hide Pending, Clock;
    var pending := Pending(s, start);
    PendingExact(s, start, f);
    if f in Since(s, start) {
      var k :| 0 <= k < |pending| && pending[k] == f;
      if k < size { assert f in set i | 0 <= i < size :: pending[i]; }
    }
  }

  lemma {:induction false} FirstSize(fs: seq<Id>, n: nat)
    requires n <= |fs| && forall i, j :: 0 <= i < j < |fs| ==> fs[i] != fs[j]
    ensures |set i | 0 <= i < n :: fs[i]| == n
  {
    if n > 0 {
      FirstSize(fs, n - 1);
      assert (set i | 0 <= i < n :: fs[i]) == (set i | 0 <= i < n - 1 :: fs[i]) + {fs[n - 1]};
    }
  }

  predicate Suffice(pages: nat, size: nat, pending: nat) {
    pages > 0 && (pending <= size || Suffice(pages - 1, size, pending - size))
  }

  lemma {:induction false} SufficeIff(pages: nat, size: nat, pending: nat)
    requires size >= 1
    ensures Suffice(pages, size, pending) <==> pages >= 1 && pending <= pages * size
  {
    if pages > 0 && pending > size {
      SufficeIff(pages - 1, size, pending - size);
      assert pages * size == size + (pages - 1) * size;
    } else if pages > 0 {
      assert size <= pages * size;
    }
  }

  lemma PollStep(s: Store, m: Mirror, size: nat, pages: nat)
    requires Faithful(s, m) && size >= 1
    ensures Poll(s, m, size, pages) ==
      if pages == 0 then (m, false)
      else if |Pending(s, m.cursor)| <= size then (Consume(s, m, size, false), true)
      else Poll(s, Consume(s, m, size, false), size, pages - 1)
  {
    hide Pending, PageEnd, PageChanges, Absorb;
  }

  lemma {:induction false} PollBySteps(s: Store, m: Mirror, size: nat, pages: nat)
    requires Valid(s) && Faithful(s, m) && size >= 1
    ensures Faithful(s, Poll(s, m, size, pages).0)
    ensures Poll(s, m, size, pages).1 <==> Suffice(pages, size, |Pending(s, m.cursor)|)
    ensures Poll(s, m, size, pages).1 ==> Poll(s, m, size, pages).0 == Snapshot(s)
    decreases pages
  {
    hide Pending, Consume, Faithful, Valid, Poll;
    PollStep(s, m, size, pages);
    if pages > 0 {
      PageStep(s, m, size);
      if |Pending(s, m.cursor)| > size {
        PollBySteps(s, Consume(s, m, size, false), size, pages - 1);
      }
    }
  }

  /** Once the drive is quiet, a poll ends exactly when its pages suffice for the pending files,
    * and then the mirror is the drive. */
  lemma PollCatchesUp(s: Store, m: Mirror, size: nat, pages: nat)
    requires Valid(s) && Faithful(s, m) && size >= 1
    ensures var (n, done) := Poll(s, m, size, pages);
      && Faithful(s, n)
      && (done <==> pages >= 1 && |Pending(s, m.cursor)| <= pages * size)
      && (done ==> n == Snapshot(s))
  {
    PollBySteps(s, m, size, pages);
    SufficeIff(pages, size, |Pending(s, m.cursor)|);
  }

  lemma PageStep(s: Store, m: Mirror, size: nat)
    requires Valid(s) && Faithful(s, m) && size >= 1
    ensures var n := Consume(s, m, size, false);
      && Faithful(s, n)
      && if |Pending(s, m.cursor)| <= size then n == Snapshot(s)
         else |Pending(s, n.cursor)| == |Pending(s, m.cursor)| - size
  {
    var n := Consume(s, m, size, false);
    ConsumeKeepsFaithful(s, m, size, false);
    if |Pending(s, m.cursor)| <= size {
      Drained(s, n);
    } else {
      PendingShrinks(s, m.cursor, size);
    }
  }

  lemma Drained(s: Store, m: Mirror)
    requires Valid(s) && Faithful(s, m) && m.cursor == s.changes + 1
    ensures m == Snapshot(s)
  {
    forall f ensures f in m.files <==> f in s.entries {
      assert LastChange(s, f) < m.cursor;
      assert Agree(s, m, f);
    }
    forall f | f in s.entries ensures m.files[f] == s.entries[f] {
      assert LastChange(s, f) < m.cursor;
      assert Agree(s, m, f);
    }
    assert m.files == s.entries;
  }
}
