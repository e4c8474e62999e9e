/** Carrying out a sweep (auto_cleanup.py, _execute; the same two loops run in takeover.py, run_cleanup) while any
  * drive call may fail and other users change the drive between the calls. */
module CleanupRun {
  import opened Wrappers
  import opened Drive
  import opened Sorting
  import opened Tree
  import opened CleanupPlan

  /** The surroundings of one run, by call number: what other users do before a call, and which calls fail. */
  datatype World = World(change: (nat, Entries) -> Entries, fails: nat -> bool)

  /** Kinds never change and only folders hold entries; other users may do anything else. */
  ghost predicate Drivelike(es: Entries, isFolder: Id -> bool) {
    forall x :: x in es ==> (IsFolder(es, x) <==> isFolder(x)) && forall p :: p in es[x].parents ==> isFolder(p)
  }

  ghost predicate Respectful(w: World, isFolder: Id -> bool) {
    forall n, es :: Drivelike(es, isFolder) ==> Drivelike(w.change(n, es), isFolder)
  }

  /** A trash call that went through, with the drive right before and right after it. */
  datatype Deed = Deed(before: Entries, item: Id)

  function Trashed(es: Entries, f: Id): Entries
    requires f in es
  {
    es[f := es[f].(trashed := true)]
  }

  datatype Outcome = Outcome(es: Entries, calls: nat, deeds: seq<Deed>, errors: nat)

  function FileStep(o: Outcome, f: Id, w: World): Outcome {
    var es := w.change(o.calls, o.es);
    if w.fails(o.calls) || f !in es then Outcome(es, o.calls + 1, o.deeds, o.errors + 1)
    else Outcome(Trashed(es, f), o.calls + 1, o.deeds + [Deed(es, f)], o.errors)
  }

  /** The live check and the trash call of one folder follow each other without a foreign write between them. */
  function FolderStep(o: Outcome, f: Id, w: World): Outcome {
    var es := w.change(o.calls, o.es);
    if w.fails(o.calls) || ChildSet(es, f) != {} then Outcome(es, o.calls + 1, o.deeds, o.errors + 1)
    else if w.fails(o.calls + 1) || f !in es then Outcome(es, o.calls + 2, o.deeds, o.errors + 1)
    else Outcome(Trashed(es, f), o.calls + 2, o.deeds + [Deed(es, f)], o.errors)
  }

  function TrashFiles(o: Outcome, items: seq<Id>, w: World): Outcome
    decreases |items|
  {
    if items == [] then o else TrashFiles(FileStep(o, items[0], w), items[1..], w)
  }

  function TrashFolders(o: Outcome, items: seq<Id>, w: World): Outcome
    decreases |items|
  {
    if items == [] then o else TrashFolders(FolderStep(o, items[0], w), items[1..], w)
  }

  function Sweep(es: Entries, junk: seq<Id>, folders: seq<Id>, w: World): Outcome {
    TrashFolders(TrashFiles(Outcome(es, 0, [], 0), junk, w), folders, w)
  }

  // ---------------------------------------------------------------- the run itself

  /** Counters of one run; `calls` numbers the drive calls. */
  class SweepRun {
    const drive: InMemoryDrive
    const world: World
    var calls: nat
    var files: nat
    var folders: nat
    var errors: nat
    ghost var deeds: seq<Deed>

    ghost function Now(): Outcome
      reads this, drive
    {
      Outcome(drive.entries, calls, deeds, errors)
    }

    constructor (drive: InMemoryDrive, world: World)
      ensures this.drive == drive && this.world == world
      ensures Now() == Outcome(drive.entries, 0, [], 0) && files == folders == 0
    {
      this.drive, this.world := drive, world;
      calls, files, folders, errors := 0, 0, 0, 0;
      deeds := [];
    }

    /** Other users work on the drive until the next call. */
    method Interlude()
      modifies drive
      ensures drive.entries == world.change(calls, old(drive.entries))
    {
      drive.entries := world.change(calls, drive.entries);
    }

    method TrashFile(f: Id)
      modifies this, drive
      ensures Now() == FileStep(old(Now()), f, world)
      ensures files + errors == old(files) + old(errors) + 1 && folders == old(folders) && calls == old(calls) + 1
    {
      Interlude();
      ghost var before := drive.entries;
      var r := drive.SetTrash(f, true, world.fails(calls));
      calls := calls + 1;
      if r.Ok? {
        files := files + 1;
        deeds := deeds + [Deed(before, f)];
      } else {
        errors := errors + 1;
      }
    }

    method TrashFolder(f: Id)
      modifies this, drive
      ensures Now() == FolderStep(old(Now()), f, world)
      ensures folders + errors == old(folders) + old(errors) + 1 && files == old(files)
      ensures calls == old(calls) + if world.fails(old(calls)) || (exists c :: Child(world.change(old(calls), old(drive.entries)), f, c)) then 1 else 2
    {
      Interlude();
      assert forall c :: Child(drive.entries, f, c) ==> c in ChildSet(drive.entries, f);
      ghost var before := drive.entries;
      if world.fails(calls) || ChildSet(drive.entries, f) != {} {
        calls, errors := calls + 1, errors + 1;
        return;
      }
      var r := drive.SetTrash(f, true, world.fails(calls + 1));
      calls := calls + 2;
      if r.Err? {
        errors := errors + 1;
        return;
      }
      folders := folders + 1;
      deeds := deeds + [Deed(before, f)];
    }

    method RunFiles(items: seq<Id>)
      modifies this, drive
      ensures Now() == TrashFiles(old(Now()), items, world)
      ensures files + errors == old(files) + old(errors) + |items| && folders == old(folders)
    {
      for i := 0 to |items|
        invariant TrashFiles(Now(), items[i..], world) == TrashFiles(old(Now()), items, world)
        invariant files + errors == old(files) + old(errors) + i && folders == old(folders)
      {
        assert items[i..][1..] == items[i + 1..];
        TrashFile(items[i]);
      }
    }

    method RunFolders(items: seq<Id>)
      modifies this, drive
      ensures Now() == TrashFolders(old(Now()), items, world)
      ensures folders + errors == old(folders) + old(errors) + |items| && files == old(files)
    {
      for i := 0 to |items|
        invariant TrashFolders(Now(), items[i..], world) == TrashFolders(old(Now()), items, world)
        invariant folders + errors == old(folders) + old(errors) + i && files == old(files)
      {
        assert items[i..][1..] == items[i + 1..];
        TrashFolder(items[i]);
      }
    }
  }

  method Execute(drive: InMemoryDrive, plan: TreePlan, world: World) returns (run: SweepRun)
    modifies drive
    ensures fresh(run) && run.drive == drive
    ensures run.Now() == Sweep(old(drive.entries), plan.junk, plan.emptyFolders, world)
    ensures run.files + run.folders + run.errors == |plan.junk| + |plan.emptyFolders|
  {
    run := new SweepRun(drive, world);
    run.RunFiles(plan.junk);
    run.RunFolders(plan.emptyFolders);
  }

  // ---------------------------------------------------------------- nothing else is lost

  ghost predicate Top(es: Entries, r: Id) {
    r in es && !es[r].trashed && es[r].parents == []
  }

  /** Live and reachable: neither the entry nor any folder on its way down lies in the trash. */
  ghost predicate Reachable(es: Entries, x: Id) {
    Top(es, x) || exists r :: Top(es, r) && Inside(es, r, x)
  }

  /** Trashing something that holds no live entry takes nothing else along. */
  lemma TrashTakesOnlyItself(es: Entries, f: Id, y: Id)
    requires f in es && (forall c :: !Child(es, f, c)) && y != f && Reachable(es, y)
    ensures Reachable(Trashed(es, f), y)
  {
    var after := Trashed(es, f);
    if !Top(es, y) {
      var r :| Top(es, r) && Inside(es, r, y);
      var p :| Path(es, p) && p[0] == r && p[|p| - 1] == y;
      forall i | 0 <= i < |p| - 1 ensures IsFolder(after, p[i]) && Child(after, p[i], p[i + 1]) {
        assert Child(es, p[i], p[i + 1]);
        if i + 1 < |p| - 1 { assert Child(es, p[i + 1], p[i + 2]); }
      }
      assert Path(after, p) && Child(es, p[0], p[1]);
      assert Top(after, r) && Inside(after, r, y);
    }
  }

  /** The only entry a deed takes out of reach is the listed item itself. */
  ghost predicate Safe(d: Deed, listed: seq<Id>) {
    d.item in d.before && d.item in listed
    && forall y :: Reachable(d.before, y) && !Reachable(Trashed(d.before, d.item), y) ==> y == d.item
  }

  ghost predicate AllSafe(o: Outcome, listed: seq<Id>) {
    forall i :: 0 <= i < |o.deeds| ==> Safe(o.deeds[i], listed)
  }

  lemma NewDeed(o: Outcome, es: Entries, f: Id, listed: seq<Id>)
    requires AllSafe(o, listed) && f in es && f in listed && forall c :: !Child(es, f, c)
    ensures AllSafe(o.(deeds := o.deeds + [Deed(es, f)]), listed)
  {
    forall y | Reachable(es, y) && !Reachable(Trashed(es, f), y) ensures y == f {
      if y != f { TrashTakesOnlyItself(es, f, y); }
    }
    assert Safe(Deed(es, f), listed);
  }

  lemma {:induction false} FilesSafe(o: Outcome, items: seq<Id>, w: World, isFolder: Id -> bool, listed: seq<Id>)
    requires Drivelike(o.es, isFolder) && Respectful(w, isFolder) && AllSafe(o, listed)
    requires forall i :: 0 <= i < |items| ==> items[i] in listed && !isFolder(items[i])
    ensures AllSafe(TrashFiles(o, items, w), listed) && Drivelike(TrashFiles(o, items, w).es, isFolder)
    decreases |items|
  {
    if items != [] {
      var es, f := w.change(o.calls, o.es), items[0];
      assert Drivelike(es, isFolder);
      if !w.fails(o.calls) && f in es {
        NewDeed(o, es, f, listed);
        assert Drivelike(Trashed(es, f), isFolder);
      }
      FilesSafe(FileStep(o, f, w), items[1..], w, isFolder, listed);
    }
  }

  lemma {:induction false} FoldersSafe(o: Outcome, items: seq<Id>, w: World, listed: seq<Id>)
    requires AllSafe(o, listed) && forall i :: 0 <= i < |items| ==> items[i] in listed
    ensures AllSafe(TrashFolders(o, items, w), listed)
    decreases |items|
  {
    if items != [] {
      var es, f := w.change(o.calls, o.es), items[0];
      assert forall c :: Child(es, f, c) ==> c in ChildSet(es, f);
      if !w.fails(o.calls) && ChildSet(es, f) == {} && !w.fails(o.calls + 1) && f in es {
        NewDeed(o, es, f, listed);
      }
      FoldersSafe(FolderStep(o, f, w), items[1..], w, listed);
    }
  }

  /** Whatever calls fail and whatever others do between the calls, every trash call of the run takes out of reach
    * exactly one entry, and that entry stands in one of the plan's lists. */
  lemma SweepTakesOnlyListed(es: Entries, junk: seq<Id>, folders: seq<Id>, w: World, isFolder: Id -> bool)
    requires Drivelike(es, isFolder) && Respectful(w, isFolder)
    requires forall i :: 0 <= i < |junk| ==> !isFolder(junk[i])
    ensures AllSafe(Sweep(es, junk, folders, w), junk + folders)
  {
    var o := Outcome(es, 0, [], 0);
    FilesSafe(o, junk, w, isFolder, junk + folders);
    FoldersSafe(TrashFiles(o, junk, w), folders, w, junk + folders);
  }

  /** Other users may add, rename or restore, but take nothing out of reach themselves. */
  ghost predicate Gentle(w: World, y: Id) {
    forall n, es :: Reachable(es, y) ==> Reachable(w.change(n, es), y)
  }

  lemma {:induction false} FilesSpare(o: Outcome, items: seq<Id>, w: World, isFolder: Id -> bool, y: Id)
    requires Drivelike(o.es, isFolder) && Respectful(w, isFolder) && Gentle(w, y)
    requires Reachable(o.es, y) && y !in items && forall i :: 0 <= i < |items| ==> !isFolder(items[i])
    ensures Reachable(TrashFiles(o, items, w).es, y)
    decreases |items|
  {
    if items != [] {
      var es, f := w.change(o.calls, o.es), items[0];
      assert Drivelike(es, isFolder) && Reachable(es, y);
      if !w.fails(o.calls) && f in es {
        TrashTakesOnlyItself(es, f, y);
        assert Drivelike(Trashed(es, f), isFolder);
      }
      FilesSpare(FileStep(o, f, w), items[1..], w, isFolder, y);
    }
  }

  lemma {:induction false} FoldersSpare(o: Outcome, items: seq<Id>, w: World, y: Id)
    requires Gentle(w, y) && Reachable(o.es, y) && y !in items
    ensures Reachable(TrashFolders(o, items, w).es, y)
    decreases |items|
  {
    if items != [] {
      var es, f := w.change(o.calls, o.es), items[0];
      assert Reachable(es, y);
      assert forall c :: Child(es, f, c) ==> c in ChildSet(es, f);
      if !w.fails(o.calls) && ChildSet(es, f) == {} && !w.fails(o.calls + 1) && f in es {
        TrashTakesOnlyItself(es, f, y);
      }
      FoldersSpare(FolderStep(o, f, w), items[1..], w, y);
    }
  }

  /** An entry outside the plan's lists that nobody else takes away is still live and reachable after the run,
    * so neither it nor any folder above it was trashed. */
  lemma SweepSparesTheRest(es: Entries, junk: seq<Id>, folders: seq<Id>, w: World, isFolder: Id -> bool, y: Id)
    requires Drivelike(es, isFolder) && Respectful(w, isFolder) && Gentle(w, y)
    requires forall i :: 0 <= i < |junk| ==> !isFolder(junk[i])
    requires Reachable(es, y) && y !in junk && y !in folders
    ensures Reachable(Sweep(es, junk, folders, w).es, y)
  {
    var o := Outcome(es, 0, [], 0);
    FilesSpare(o, junk, w, isFolder, y);
    FoldersSpare(TrashFiles(o, junk, w), folders, w, y);
  }

  // ---------------------------------------------------------------- an undisturbed run completes the plan

  ghost predicate Quiet(w: World) {
    (forall n: nat, es: Entries :: w.change(n, es) == es) && (forall n: nat :: !w.fails(n))
  }

  function TrashSet(es: Entries, gone: set<Id>): Entries {
    map x | x in es :: if x in gone then es[x].(trashed := true) else es[x]
  }

  function Ids(items: seq<Id>): set<Id> {
    set x | x in items
  }

  lemma TrashOneMore(es: Entries, gone: set<Id>, f: Id)
    requires f in es
    ensures Trashed(TrashSet(es, gone), f) == TrashSet(es, gone + {f})
  {
  }

  lemma {:induction false} QuietFiles(es: Entries, gone: set<Id>, o: Outcome, items: seq<Id>, w: World)
    requires Quiet(w) && o.es == TrashSet(es, gone) && forall i :: 0 <= i < |items| ==> items[i] in es
    ensures var r := TrashFiles(o, items, w);
      r.es == TrashSet(es, gone + Ids(items)) && r.errors == o.errors && |r.deeds| == |o.deeds| + |items|
    decreases |items|
  {
    if items != [] {
      TrashOneMore(es, gone, items[0]);
      QuietFiles(es, gone + {items[0]}, FileStep(o, items[0], w), items[1..], w);
      assert gone + {items[0]} + Ids(items[1..]) == gone + Ids(items) by { assert items == [items[0]] + items[1..]; }
    } else {
      assert gone + Ids(items) == gone;
    }
  }

  lemma NothingLeft(es: Entries, gone: set<Id>, f: Id, items: seq<Id>)
    requires f in es && forall c :: Child(es, f, c) ==> c in gone || c in items[..0]
    ensures ChildSet(TrashSet(es, gone), f) == {} && f in TrashSet(es, gone)
  {
  }

  lemma OneFolderLess(es: Entries, gone: set<Id>, items: seq<Id>)
    requires items != [] && forall i, c :: 0 <= i < |items| && Child(es, items[i], c) ==> c in gone || c in items[..i]
    ensures forall i, c :: 0 <= i < |items[1..]| && Child(es, items[1..][i], c) ==> c in gone + {items[0]} || c in items[1..][..i]
  {
    hide Child;
    forall i, c | 0 <= i < |items[1..]| && Child(es, items[1..][i], c) ensures c in gone + {items[0]} || c in items[1..][..i] {
      assert Child(es, items[i + 1], c);
      assert items[..i + 1] == [items[0]] + items[1..][..i];
    }
  }

  lemma {:induction false} QuietFolders(es: Entries, gone: set<Id>, o: Outcome, items: seq<Id>, w: World)
    requires Quiet(w) && o.es == TrashSet(es, gone) && forall i :: 0 <= i < |items| ==> items[i] in es
    requires forall i, c :: 0 <= i < |items| && Child(es, items[i], c) ==> c in gone || c in items[..i]
    ensures var r := TrashFolders(o, items, w);
      r.es == TrashSet(es, gone + Ids(items)) && r.errors == o.errors && |r.deeds| == |o.deeds| + |items|
    decreases |items|
  {
    hide Child, Trashed, TrashSet, ChildSet;
    if items != [] {
      var f := items[0];
      NothingLeft(es, gone, f, items);
      TrashOneMore(es, gone, f);
      OneFolderLess(es, gone, items);
      assert TrashFolders(o, items, w) == TrashFolders(FolderStep(o, f, w), items[1..], w);
      QuietFolders(es, gone + {f}, FolderStep(o, f, w), items[1..], w);
      assert gone + {f} + Ids(items[1..]) == gone + Ids(items) by { assert items == [f] + items[1..]; }
    } else {
      assert gone + Ids(items) == gone;
    }
  }

  /** Undisturbed, the sweep trashes exactly what the plan lists: every live check finds the folder empty,
    * because all folders inside it were trashed before it. */
  lemma QuietSweep(es: Entries, pol: Policy, root: Id, allowRoot: bool, plan: TreePlan, w: World)
    requires Quiet(w) && Acyclic(es) && IsFolder(es, root) && Exact(es, pol, root, allowRoot, plan)
    ensures var r := Sweep(es, plan.junk, plan.emptyFolders, w);
      && r.es == TrashSet(es, Ids(plan.junk) + Ids(plan.emptyFolders))
      && r.errors == 0 && |r.deeds| == |plan.junk| + |plan.emptyFolders|
  {
    var o := Outcome(es, 0, [], 0);
    assert TrashSet(es, {}) == es;
    forall i | 0 <= i < |plan.junk| ensures plan.junk[i] in es { assert plan.junk[i] in plan.junk; }
    forall i | 0 <= i < |plan.emptyFolders| ensures plan.emptyFolders[i] in es { assert plan.emptyFolders[i] in plan.emptyFolders; }
    QuietFiles(es, {}, o, plan.junk, w);
    assert {} + Ids(plan.junk) == Ids(plan.junk);
    forall i, c | 0 <= i < |plan.emptyFolders| && Child(es, plan.emptyFolders[i], c)
      ensures c in Ids(plan.junk) || c in plan.emptyFolders[..i]
    {
      HollowChild(es, pol, root, allowRoot, plan, i, c);
    }
    QuietFolders(es, Ids(plan.junk), TrashFiles(o, plan.junk, w), plan.emptyFolders, w);
  }

  lemma HollowChild(es: Entries, pol: Policy, root: Id, allowRoot: bool, plan: TreePlan, i: nat, c: Id)
    requires Acyclic(es) && IsFolder(es, root) && Exact(es, pol, root, allowRoot, plan)
    requires i < |plan.emptyFolders| && Child(es, plan.emptyFolders[i], c)
    ensures c in plan.junk || c in plan.emptyFolders[..i]
  {
    var f := plan.emptyFolders[i];
    assert f in plan.emptyFolders;
    assert Path(es, [f, c]);
    assert Inside(es, f, c);
    if f != root { InsideJoin(es, root, f, c); }
    HollowStep(es, Stays(es, pol), Guarded(es, pol, root), f);
    if IsFolder(es, c) {
      assert c in plan.emptyFolders;
      var k :| 0 <= k < |plan.emptyFolders| && plan.emptyFolders[k] == c;
      assert k < i;
      assert plan.emptyFolders[..i][k] == c;
    }
  }

  // ---------------------------------------------------------------- failing calls

  /** Every item of a run is either trashed by one call that went through or counted as an error. */
  lemma {:induction false} FilesTallied(o: Outcome, items: seq<Id>, w: World)
    ensures var r := TrashFiles(o, items, w); |r.deeds| + r.errors == |o.deeds| + o.errors + |items| && r.calls == o.calls + |items|
    decreases |items|
  {
    if items != [] { FilesTallied(FileStep(o, items[0], w), items[1..], w); }
  }

  lemma {:induction false} FoldersTallied(o: Outcome, items: seq<Id>, w: World)
    ensures var r := TrashFolders(o, items, w); |r.deeds| + r.errors == |o.deeds| + o.errors + |items|
    decreases |items|
  {
    if items != [] { FoldersTallied(FolderStep(o, items[0], w), items[1..], w); }
  }

  lemma EveryItemTallied(es: Entries, junk: seq<Id>, folders: seq<Id>, w: World)
    ensures var r := Sweep(es, junk, folders, w); |r.deeds| + r.errors == |junk| + |folders|
  {
    FilesTallied(Outcome(es, 0, [], 0), junk, w);
    FoldersTallied(TrashFiles(Outcome(es, 0, [], 0), junk, w), folders, w);
  }

  /** Nobody else works on the drive; calls may fail. */
  ghost predicate Alone(w: World) {
    forall n: nat, es: Entries :: w.change(n, es) == es
  }

  /** The items whose call went through; the first of them is tried by call `first`. */
  function WentThrough(items: seq<Id>, w: World, first: nat): set<Id> {
    set i | 0 <= i < |items| && !w.fails(first + i) :: items[i]
  }

  /** Of the files exactly those are trashed whose call went through. */
  lemma {:induction false} FilesUnderFaults(es: Entries, gone: set<Id>, o: Outcome, items: seq<Id>, w: World)
    requires Alone(w) && o.es == TrashSet(es, gone) && forall i :: 0 <= i < |items| ==> items[i] in es
    ensures TrashFiles(o, items, w).es == TrashSet(es, gone + WentThrough(items, w, o.calls))
    decreases |items|
  {
    hide TrashSet, Trashed;
    if items != [] {
      var now := if w.fails(o.calls) then gone else gone + {items[0]};
      TrashOneMore(es, gone, items[0]);
      KnownInTrashSet(es, gone, items[0]);
      FilesUnderFaults(es, now, FileStep(o, items[0], w), items[1..], w);
      OneMoreThrough(items, w, o.calls);
      assert now + WentThrough(items[1..], w, o.calls + 1) == gone + WentThrough(items, w, o.calls);
    } else {
      assert gone + WentThrough(items, w, o.calls) == gone;
    }
  }

  lemma KnownInTrashSet(es: Entries, gone: set<Id>, f: Id)
    ensures f in TrashSet(es, gone) <==> f in es
  {
  }

  lemma OneMoreThrough(items: seq<Id>, w: World, first: nat)
    requires items != []
    ensures WentThrough(items, w, first) == WentThrough(items[1..], w, first + 1) + if w.fails(first) then {} else {items[0]}
  {
    var all, rest := WentThrough(items, w, first), WentThrough(items[1..], w, first + 1);
    forall x | x in all ensures x in rest || (!w.fails(first) && x == items[0]) {
      var i :| 0 <= i < |items| && !w.fails(first + i) && items[i] == x;
      if i > 0 { assert items[1..][i - 1] == x && !w.fails(first + 1 + (i - 1)); }
    }
    forall x | x in rest ensures x in all {
      var i :| 0 <= i < |items[1..]| && !w.fails(first + 1 + i) && items[1..][i] == x;
      assert items[i + 1] == x && !w.fails(first + (i + 1));
    }
    if !w.fails(first) { assert items[0] == items[0] && !w.fails(first + 0); }
  }

  /** A folder trashed by a run holds no live entry afterwards, whatever calls failed. */
  lemma {:induction false} TrashedFoldersAreBare(o: Outcome, items: seq<Id>, w: World, f: Id, c: Id)
    requires Alone(w) && f in o.es && (o.es[f].trashed ==> !Child(o.es, f, c))
    ensures var r := TrashFolders(o, items, w); f in r.es && (r.es[f].trashed ==> !Child(r.es, f, c))
    decreases |items|
  {
    if items != [] {
      var next := FolderStep(o, items[0], w);
      assert f in next.es && (next.es[f].trashed ==> !Child(next.es, f, c)) by {
        assert Child(o.es, f, c) ==> c in ChildSet(o.es, f);
      }
      TrashedFoldersAreBare(next, items[1..], w, f, c);
    }
  }

  // ---------------------------------------------------------------- sweeping twice

  lemma LessInside(es: Entries, gone: set<Id>, f: Id, x: Id)
    requires Inside(TrashSet(es, gone), f, x)
    ensures Inside(es, f, x) && x !in gone
  {
    var after := TrashSet(es, gone);
    var p :| Path(after, p) && p[0] == f && p[|p| - 1] == x;
    forall i | 0 <= i < |p| - 1 ensures IsFolder(es, p[i]) && Child(es, p[i], p[i + 1]) {
      assert Child(after, p[i], p[i + 1]);
    }
    assert Path(es, p);
    assert Child(after, p[|p| - 2], p[|p| - 1]);
  }

  /** What stays or is protected keeps every folder above it. */
  lemma StayingInside(es: Entries, pol: Policy, root: Id, allowRoot: bool, plan: TreePlan, g: Id, x: Id)
    requires Exact(es, pol, root, allowRoot, plan) && Under(es, root, g) && Inside(es, g, x)
    requires x in Stays(es, pol) || x in Guarded(es, pol, root)
    ensures Inside(TrashSet(es, Ids(plan.junk) + Ids(plan.emptyFolders)), g, x)
  {
    var gone := Ids(plan.junk) + Ids(plan.emptyFolders);
    var after := TrashSet(es, gone);
    var p :| Path(es, p) && p[0] == g && p[|p| - 1] == x;
    forall i | 0 <= i < |p| - 1 ensures IsFolder(after, p[i]) && Child(after, p[i], p[i + 1]) {
      assert Child(es, p[i], p[i + 1]);
      Survives(es, pol, root, allowRoot, plan, p, i + 1);
    }
    assert Path(after, p);
  }

  lemma Survives(es: Entries, pol: Policy, root: Id, allowRoot: bool, plan: TreePlan, p: seq<Id>, i: nat)
    requires Exact(es, pol, root, allowRoot, plan) && Path(es, p) && i < |p|
    requires var x := p[|p| - 1]; x in Stays(es, pol) || x in Guarded(es, pol, root)
    ensures p[i] !in plan.junk && p[i] !in plan.emptyFolders
  {
    var x := p[|p| - 1];
    if i < |p| - 1 {
      var q := p[i..];
      assert forall k :: 0 <= k < |q| ==> q[k] == p[i + k];
      assert Path(es, q);
      assert Under(es, p[i], x);
      assert IsFolder(es, p[i]);
    } else {
      assert Under(es, x, x);
    }
  }

  /** After an undisturbed sweep a second plan finds nothing to do: no junk and no hollow folder is left inside the
    * root, and the files that stay are the same. */
  lemma SecondPlanIsEmpty(es: Entries, pol: Policy, root: Id, allowRoot: bool, plan: TreePlan, w: World, again: TreePlan)
    requires Quiet(w) && Acyclic(es) && IsFolder(es, root) && Exact(es, pol, root, allowRoot, plan) && !plan.rootEmpty
    requires Exact(Sweep(es, plan.junk, plan.emptyFolders, w).es, pol, root, allowRoot, again)
    ensures again.junk == [] && again.emptyFolders == []
    ensures forall x: Id, why: Reason :: (x, why) in again.kept <==> (x, why) in plan.kept
  {
    QuietSweep(es, pol, root, allowRoot, plan, w);
    var gone := Ids(plan.junk) + Ids(plan.emptyFolders);
    var after := TrashSet(es, gone);
    if again.junk != [] {
      var x := again.junk[0];
      assert x in again.junk;
      LessInside(es, gone, root, x);
    }
    if again.emptyFolders != [] {
      var f := again.emptyFolders[0];
      assert f in again.emptyFolders;
      if f != root { LessInside(es, gone, root, f); }
      assert f !in plan.emptyFolders;
      StillNotHollow(es, pol, root, allowRoot, plan, f);
    }
    forall x: Id, why: Reason ensures (x, why) in again.kept <==> (x, why) in plan.kept {
      if Inside(after, root, x) { LessInside(es, gone, root, x); }
      if IsKept(es, pol, x) && Inside(es, root, x) { StayingInside(es, pol, root, allowRoot, plan, root, x); }
    }
  }

  lemma StillNotHollow(es: Entries, pol: Policy, root: Id, allowRoot: bool, plan: TreePlan, f: Id)
    requires Acyclic(es) && IsFolder(es, root) && Exact(es, pol, root, allowRoot, plan)
    requires IsFolder(es, f) && Under(es, root, f) && !Hollow(es, Stays(es, pol), Guarded(es, pol, root), f)
    ensures var after := TrashSet(es, Ids(plan.junk) + Ids(plan.emptyFolders));
      !Hollow(after, Stays(after, pol), Guarded(after, pol, root), f)
  {
    var gone := Ids(plan.junk) + Ids(plan.emptyFolders);
    var after := TrashSet(es, gone);
    var x :| Under(es, f, x) && (x in Stays(es, pol) || x in Guarded(es, pol, root));
    if x != f { StayingInside(es, pol, root, allowRoot, plan, f, x); }
    assert Under(after, f, x);
    if x in Guarded(es, pol, root) && x !in pol.protectedIds {
      var p :| p in pol.bookkeeping && IsFolder(es, p) && Inside(es, root, p) && Child(es, p, x);
      YearStays(es, pol, root, allowRoot, plan, p, x);
    }
  }

  lemma YearStays(es: Entries, pol: Policy, root: Id, allowRoot: bool, plan: TreePlan, p: Id, x: Id)
    requires Exact(es, pol, root, allowRoot, plan) && x in Guarded(es, pol, root)
    requires IsFolder(es, p) && Inside(es, root, p) && Child(es, p, x)
    ensures var after := TrashSet(es, Ids(plan.junk) + Ids(plan.emptyFolders));
      Inside(after, root, p) && Child(after, p, x)
  {
    var gone := Ids(plan.junk) + Ids(plan.emptyFolders);
    var after := TrashSet(es, gone);
    var q :| Path(es, q) && q[0] == root && q[|q| - 1] == p;
    var r := q + [x];
    assert Path(es, r) by {
      forall i | 0 <= i < |r| - 1 ensures IsFolder(es, r[i]) && Child(es, r[i], r[i + 1]) {
        if i < |q| - 1 { assert Child(es, q[i], q[i + 1]); }
      }
    }
    forall i | 0 <= i < |q| - 1 ensures IsFolder(after, q[i]) && Child(after, q[i], q[i + 1]) {
      assert Child(es, q[i], q[i + 1]);
      Survives(es, pol, root, allowRoot, plan, r, i + 1);
    }
    assert Path(after, q);
    Survives(es, pol, root, allowRoot, plan, r, |r| - 1);
  }
}
