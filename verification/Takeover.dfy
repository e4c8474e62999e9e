/** Cleaning up a taken-over source folder (src/apps/drive/takeover.py): duplicates go to the trash only while
  * their original is filed and live, and the documents behind them are retired with the file. */
module Takeover {
  import opened Wrappers
  import opened Drive
  import opened Sorting
  import opened Tree
  import opened CleanupPlan
  import opened CleanupRun

  type DocId = nat

  datatype Status = Filed | Duplicate | MovedOut | Failed | Other

  datatype Doc = Doc(objectId: nat, status: Status, driveId: Option<Id>, duplicateOf: Option<DocId>, deleted: bool)

  type Docs = map<DocId, Doc>

  /** The document of a drive file: Drive ids are unique among the documents that are not deleted. */
  ghost predicate Indexed(docs: Docs, byFile: map<Id, DocId>) {
    forall f, d :: (f in byFile && byFile[f] == d) <==> (d in docs && !docs[d].deleted && docs[d].driveId == Some(f))
  }

  /** A reference never dangles. */
  ghost predicate Referenced(docs: Docs) {
    forall d :: d in docs && docs[d].duplicateOf.Some? ==> docs[d].duplicateOf.value in docs
  }

  predicate LiveFile(es: Entries, f: Id) {
    f in es && !es[f].trashed
  }

  predicate OriginalLive(docs: Docs, es: Entries, obj: nat, d: DocId)
    requires d in docs
  {
    match docs[d].duplicateOf
    case None => false
    case Some(o) =>
      && o in docs && !docs[o].deleted && docs[o].objectId == obj
      && docs[o].status != MovedOut && docs[o].status != Failed
      && docs[o].driveId.Some? && LiveFile(es, docs[o].driveId.value)
  }

  /** Asks the drive once for each original. */
  method OriginalReachable(docs: Docs, es: Entries, obj: nat, d: DocId, cache: map<Id, bool>)
    returns (ok: bool, cache': map<Id, bool>)
    requires d in docs && Referenced(docs)
    requires forall f :: f in cache ==> cache[f] == LiveFile(es, f)
    ensures ok == OriginalLive(docs, es, obj, d)
    ensures forall f :: f in cache' ==> cache'[f] == LiveFile(es, f)
  {
    cache' := cache;
    if docs[d].duplicateOf.None? { return false, cache; }
    var o := docs[docs[d].duplicateOf.value];
    if o.deleted || o.objectId != obj || o.status == MovedOut || o.status == Failed || o.driveId.None? {
      return false, cache;
    }
    var f := o.driveId.value;
    if f !in cache {
      cache' := cache[f := f in es && !es[f].trashed];
    }
    ok := cache'[f];
  }

  // ---------------------------------------------------------------- planning

  datatype Setup = Setup(
    obj: nat, byFile: map<Id, DocId>, protectedIds: set<Id>, ignored: string -> bool, limit: nat,
    includeJunk: bool, includeFolders: bool)

  datatype CleanupList = CleanupList(
    duplicates: seq<(Id, DocId)>, junk: seq<Id>, emptyFolders: seq<Id>, rootEmpty: bool, remaining: seq<Id>,
    blocked: bool)

  predicate GoesAsDuplicate(docs: Docs, es: Entries, cfg: Setup, f: Id, d: DocId) {
    && f in cfg.byFile && cfg.byFile[f] == d && d in docs
    && docs[d].objectId == cfg.obj && docs[d].status == Duplicate && OriginalLive(docs, es, cfg.obj, d)
  }

  predicate GoesAsJunk(es: Entries, cfg: Setup, f: Id) {
    IsFile(es, f) && f !in cfg.byFile && es[f].kind != GoogleDoc && cfg.ignored(es[f].name) && cfg.includeJunk
  }

  function Remaining(docs: Docs, es: Entries, cfg: Setup): set<Id> {
    set f | f in es && IsFile(es, f) && !GoesAsJunk(es, cfg, f)
            && !(f in cfg.byFile && GoesAsDuplicate(docs, es, cfg, f, cfg.byFile[f]))
  }

  method SortFiles(docs: Docs, es: Entries, cfg: Setup, files: seq<Visit>)
    returns (duplicates: seq<(Id, DocId)>, junk: seq<Id>, remaining: seq<Id>, keep: map<Id, nat>)
    requires Referenced(docs) && Indexed(docs, cfg.byFile) && forall i :: 0 <= i < |files| ==> IsFile(es, files[i].id)
    ensures forall f: Id, d: DocId :: (f, d) in duplicates <==> GoesAsDuplicate(docs, es, cfg, f, d) && Visited(files, f)
    ensures forall f :: f in junk <==> GoesAsJunk(es, cfg, f) && Visited(files, f)
    ensures forall f :: f in remaining <==> f in Remaining(docs, es, cfg) && Visited(files, f)
    ensures forall p: Id :: Count(keep, p) > 0 <==> Holds(Remaining(docs, es, cfg), files, p)
  {
    duplicates, junk, remaining, keep := [], [], [], map[];
    var cache: map<Id, bool> := map[];
    ghost var stays := Remaining(docs, es, cfg);
    for i := 0 to |files|
      invariant forall f :: f in cache ==> cache[f] == LiveFile(es, f)
      invariant forall f: Id, d: DocId :: (f, d) in duplicates <==> GoesAsDuplicate(docs, es, cfg, f, d) && Visited(files[..i], f)
      invariant forall f :: f in junk <==> GoesAsJunk(es, cfg, f) && Visited(files[..i], f)
      invariant forall f :: f in remaining <==> f in stays && Visited(files[..i], f)
      invariant forall p: Id :: Count(keep, p) > 0 <==> Holds(stays, files[..i], p)
    {
      var f, p := files[i].id, files[i].parent;
      OneMoreFile(stays, files, i);
      if f in cfg.byFile {
        var d := cfg.byFile[f];
        assert d in docs;
        if docs[d].objectId == cfg.obj && docs[d].status == Duplicate {
          var ok;
          ok, cache := OriginalReachable(docs, es, cfg.obj, d, cache);
          if ok {
            duplicates := duplicates + [(f, d)];
            continue;
          }
        }
      } else if es[f].kind != GoogleDoc && cfg.ignored(es[f].name) && cfg.includeJunk {
        junk := junk + [f];
        continue;
      }
      remaining := remaining + [f];
      var n := Count(keep, p) + 1;
      keep := keep[p := n];
      assert forall q: Id :: Count(keep, q) > 0 <==> q == p || Holds(stays, files[..i], q);
    }
    assert files[..|files|] == files;
  }

  function ProtectedFolders(es: Entries, cfg: Setup): set<Id> {
    set x | x in cfg.protectedIds && IsFolder(es, x)
  }

  /** Which files go, and that exactly the folders holding nothing that remains are listed, innermost first. */
  ghost predicate ExactCleanup(docs: Docs, es: Entries, cfg: Setup, root: Id, plan: CleanupList) {
    && (forall f: Id, d: DocId :: (f, d) in plan.duplicates <==> GoesAsDuplicate(docs, es, cfg, f, d) && IsFile(es, f) && Inside(es, root, f))
    && (forall f :: f in plan.junk <==> GoesAsJunk(es, cfg, f) && Inside(es, root, f))
    && (forall f :: f in plan.remaining <==> f in Remaining(docs, es, cfg) && Inside(es, root, f))
    && (cfg.includeFolders ==>
          && (forall x :: x in plan.emptyFolders <==> Hollow(es, Remaining(docs, es, cfg), ProtectedFolders(es, cfg), x) && Under(es, root, x))
          && (plan.rootEmpty <==> root in plan.emptyFolders))
    && (!cfg.includeFolders ==> plan.emptyFolders == [] && !plan.rootEmpty)
    && (forall i, j :: 0 <= i < j < |plan.emptyFolders| ==>
          plan.emptyFolders[i] != plan.emptyFolders[j] && !Inside(es, plan.emptyFolders[i], plan.emptyFolders[j]))
  }

  /** The document of the file: not deleted and with this drive file. */
  ghost predicate IsDocOf(docs: Docs, d: DocId, f: Id) {
    d in docs && !docs[d].deleted && docs[d].driveId == Some(f)
  }

  /** A duplicate may go when it belongs to the object and its original, of the same object, is kept, has not moved out or
    * failed, and lies live in the drive. */
  ghost predicate MayGoAsDuplicate(docs: Docs, es: Entries, obj: nat, d: DocId) {
    d in docs && docs[d].objectId == obj && docs[d].status == Duplicate && docs[d].duplicateOf.Some?
    && var o := docs[d].duplicateOf.value;
       o in docs && !docs[o].deleted && docs[o].objectId == obj && docs[o].status != MovedOut && docs[o].status != Failed
       && docs[o].driveId.Some? && docs[o].driveId.value in es && !es[docs[o].driveId.value].trashed
  }

  /** The file goes with its document as a duplicate, or as junk without any. */
  ghost predicate FileGoes(docs: Docs, es: Entries, cfg: Setup, f: Id) {
    || (exists d :: IsDocOf(docs, d, f) && MayGoAsDuplicate(docs, es, cfg.obj, d))
    || (f in es && (forall d :: !IsDocOf(docs, d, f)) && es[f].kind != GoogleDoc && cfg.ignored(es[f].name) && cfg.includeJunk)
  }

  /** The list told from the documents and the drive: which files go as duplicates, which as junk, which remain, and that
    * the folders that go hold only what goes and no protected folder. */
  lemma ListMeans(docs: Docs, es: Entries, cfg: Setup, root: Id, plan: CleanupList)
    requires Indexed(docs, cfg.byFile) && ExactCleanup(docs, es, cfg, root, plan)
    ensures forall f: Id, d: DocId :: (f, d) in plan.duplicates <==>
      Inside(es, root, f) && IsFile(es, f) && IsDocOf(docs, d, f) && MayGoAsDuplicate(docs, es, cfg.obj, d)
    ensures forall f :: f in plan.junk <==>
      Inside(es, root, f) && IsFile(es, f) && (forall d :: !IsDocOf(docs, d, f)) && es[f].kind != GoogleDoc && cfg.ignored(es[f].name) && cfg.includeJunk
    ensures forall f :: f in plan.remaining <==> Inside(es, root, f) && IsFile(es, f) && !FileGoes(docs, es, cfg, f)
    ensures forall x :: x in plan.emptyFolders <==>
      cfg.includeFolders && Under(es, root, x) && IsFolder(es, x)
      && forall y :: Under(es, x, y) ==> (IsFile(es, y) ==> FileGoes(docs, es, cfg, y)) && (IsFolder(es, y) ==> y !in cfg.protectedIds)
  {
    hide Inside, Under, Child;
    forall f: Id, d: DocId ensures GoesAsDuplicate(docs, es, cfg, f, d) <==> IsDocOf(docs, d, f) && MayGoAsDuplicate(docs, es, cfg.obj, d) {}
    forall f: Id ensures f in Remaining(docs, es, cfg) <==> IsFile(es, f) && !FileGoes(docs, es, cfg, f) {
      RemainsIff(docs, es, cfg, f);
    }
  }

  lemma RemainsIff(docs: Docs, es: Entries, cfg: Setup, f: Id)
    requires Indexed(docs, cfg.byFile)
    ensures f in Remaining(docs, es, cfg) <==> IsFile(es, f) && !FileGoes(docs, es, cfg, f)
    ensures f in cfg.byFile <==> exists d :: IsDocOf(docs, d, f)
  {
    if f in cfg.byFile { assert IsDocOf(docs, cfg.byFile[f], f); }
    if d :| IsDocOf(docs, d, f) { assert f in cfg.byFile && cfg.byFile[f] == d; }
  }

  method PlanCleanup(docs: Docs, es: Entries, key: NameKey, cfg: Setup, root: Id) returns (plan: CleanupList)
    requires Referenced(docs) && Indexed(docs, cfg.byFile) && Acyclic(es) && SingleParent(es)
    ensures plan.blocked <==> !IsFolder(es, root) || es[root].trashed || |FileVisits(es, Walk(es, key, root, {root}))| > cfg.limit
    ensures plan.blocked ==> plan == CleanupList([], [], [], false, [], true)
    ensures !plan.blocked ==> ExactCleanup(docs, es, cfg, root, plan)
  {
    if root !in es || es[root].trashed || es[root].kind != Folder {
      return CleanupList([], [], [], false, [], true);
    }
    var v := Walk(es, key, root, {root});
    WalkTopDown(es, key, root, {root});
    var folders, parentOf, files, over := ReadWalk(es, v, cfg.limit);
    if over {
      return CleanupList([], [], [], false, [], true);
    }
    FilesAre(es, key, root);
    var duplicates, junk, remaining, keep := SortFiles(docs, es, cfg, files);
    var listed, rootEmpty := [], false;
    if cfg.includeFolders {
      ghost var stays, prot := Remaining(docs, es, cfg), ProtectedFolders(es, cfg);
      SurveyHolds(es, key, stays, prot, root, folders, parentOf, keep, cfg.protectedIds);
      listed, rootEmpty := EmptyFolders(es, stays, prot, root, folders, parentOf, keep, cfg.protectedIds, true);
    }
    return CleanupList(duplicates, junk, listed, rootEmpty, remaining, false);
  }

  /** The document to retire with this file, if the file may go as a duplicate. */
  method DuplicateBehind(docs: Docs, es: Entries, cfg: Setup, f: Id, cache: map<Id, bool>)
    returns (d: Option<DocId>, cache': map<Id, bool>)
    requires Referenced(docs) && Indexed(docs, cfg.byFile) && f in es
    requires forall f :: f in cache ==> cache[f] == LiveFile(es, f)
    ensures forall x: DocId :: d == Some(x) <==> IsFile(es, f) && GoesAsDuplicate(docs, es, cfg, f, x)
    ensures forall f :: f in cache' ==> cache'[f] == LiveFile(es, f)
  {
    hide OriginalLive;
    if es[f].kind == Folder || f !in cfg.byFile { return None, cache; }
    var doc := cfg.byFile[f];
    assert doc in docs;
    if docs[doc].status != Duplicate || docs[doc].objectId != cfg.obj { return None, cache; }
    var ok;
    ok, cache' := OriginalReachable(docs, es, cfg.obj, doc, cache);
    d := if ok then Some(doc) else None;
  }

  /** The folder for duplicates: its own files that may go, under the same test. */
  method PlanDuplicateFolder(docs: Docs, es: Entries, key: NameKey, cfg: Setup, folder: Id) returns (listed: seq<(Id, DocId)>)
    requires Referenced(docs) && Indexed(docs, cfg.byFile)
    ensures forall f: Id, d: DocId :: (f, d) in listed <==> Child(es, folder, f) && IsFile(es, f) && GoesAsDuplicate(docs, es, cfg, f, d)
  {
    hide GoesAsDuplicate, Indexed, Referenced, IsFile, LiveFile;
    listed := [];
    var cache: map<Id, bool> := map[];
    var children := ListChildren(es, key, folder);
    for i := 0 to |children|
      invariant forall f :: f in cache ==> cache[f] == LiveFile(es, f)
      invariant forall f: Id, d: DocId :: (f, d) in listed <==> f in children[..i] && IsFile(es, f) && GoesAsDuplicate(docs, es, cfg, f, d)
    {
      var f := children[i];
      assert children[..i + 1] == children[..i] + [f];
      assert Child(es, folder, f);
      var d;
      d, cache := DuplicateBehind(docs, es, cfg, f, cache);
      if d.Some? { listed := listed + [(f, d.value)]; }
    }
    assert children[..|children|] == children;
  }

  // ---------------------------------------------------------------- carrying it out

  /** One file of the plan, with the document to retire when it is a duplicate. */
  datatype Item = Item(file: Id, doc: Option<DocId>)

  datatype State = State(es: Entries, docs: Docs, calls: nat)

  /** Any trash call may fail, and so may the booking after a trash call that went through; other users may change the
    * drive before each call. */
  datatype Faults = Faults(trash: nat -> bool, booking: nat -> bool, change: (nat, Entries) -> Entries)

  function Retire(docs: Docs, d: DocId): Docs {
    if d in docs && !docs[d].deleted then docs[d := docs[d].(deleted := true, driveId := None)] else docs
  }

  function TakeOut(s: State, it: Item, faults: Faults): State {
    var es := faults.change(s.calls, s.es);
    if faults.trash(s.calls) || it.file !in es then State(es, s.docs, s.calls + 1)
    else State(Trashed(es, it.file),
               if it.doc.Some? && !faults.booking(s.calls) then Retire(s.docs, it.doc.value) else s.docs,
               s.calls + 1)
  }

  function TakeOutAll(s: State, items: seq<Item>, faults: Faults): State
    decreases |items|
  {
    if items == [] then s else TakeOutAll(TakeOut(s, items[0], faults), items[1..], faults)
  }

  function Around(faults: Faults): World { World(faults.change, faults.trash) }

  /** The folders follow. */
  function FoldersAfter(s: State, folders: seq<Id>, faults: Faults): Outcome {
    TrashFolders(Outcome(s.es, s.calls, [], 0), folders, Around(faults))
  }

  function CleanUp(s: State, items: seq<Item>, folders: seq<Id>, faults: Faults): State {
    var t := TakeOutAll(s, items, faults);
    t.(es := FoldersAfter(t, folders, faults).es)
  }

  /** The documents a run has retired. */
  function Retired(before: Docs, after: Docs): set<DocId> {
    set d | d in after && after[d].deleted && !(d in before && before[d].deleted)
  }

  ghost predicate OnlyRetired(before: Docs, after: Docs) {
    before.Keys == after.Keys && forall d :: d in before && before[d].deleted ==> after[d].deleted
  }

  lemma NothingRetired(docs: Docs)
    ensures |Retired(docs, docs)| == 0 && OnlyRetired(docs, docs)
  {
    assert Retired(docs, docs) == {};
  }

  lemma OneRetired(docs: Docs, d: DocId)
    requires d in docs && !docs[d].deleted
    ensures |Retired(docs, Retire(docs, d))| == 1 && OnlyRetired(docs, Retire(docs, d))
  {
    assert Retired(docs, Retire(docs, d)) == {d};
  }

  lemma RetiredInTurn(a: Docs, b: Docs, c: Docs)
    requires OnlyRetired(a, b) && OnlyRetired(b, c)
    ensures OnlyRetired(a, c) && |Retired(a, c)| == |Retired(a, b)| + |Retired(b, c)|
  {
    assert Retired(a, c) == Retired(a, b) + Retired(b, c) && Retired(a, b) !! Retired(b, c);
  }

  class CleanupJob {
    const drive: InMemoryDrive
    const faults: Faults
    var docs: Docs
    var calls: nat
    var files: nat
    var folders: nat
    var documents: nat
    var errors: nat
    ghost var unbooked: nat

    function Now(): State
      reads this, drive
    {
      State(drive.entries, docs, calls)
    }

    constructor (drive: InMemoryDrive, docs: Docs, faults: Faults)
      ensures this.drive == drive && this.faults == faults
      ensures Now() == State(drive.entries, docs, 0) && files == folders == documents == errors == unbooked == 0
    {
      this.drive, this.docs, this.faults := drive, docs, faults;
      calls, files, folders, documents, errors, unbooked := 0, 0, 0, 0, 0, 0;
    }

    /** Trashed or reported, and reported as well when the booking failed after the trash call. */
    method TrashItem(it: Item)
      modifies this, drive
      ensures Now() == TakeOut(old(Now()), it, faults)
      ensures files == old(files) + if !faults.trash(old(calls)) && it.file in faults.change(old(calls), old(drive.entries)) then 1 else 0
      ensures unbooked == old(unbooked) + if files > old(files) && faults.booking(old(calls)) then 1 else 0
      ensures files + errors + old(unbooked) == old(files) + old(errors) + 1 + unbooked && folders == old(folders)
      ensures documents == old(documents) + |Retired(old(docs), docs)| && OnlyRetired(old(docs), docs)
    {
      hide Retired, OnlyRetired;
      NothingRetired(docs);
      drive.entries := faults.change(calls, drive.entries);
      var r := drive.SetTrash(it.file, true, faults.trash(calls));
      var n := calls;
      calls := calls + 1;
      if r.Err? {
        errors := errors + 1;
        return;
      }
      files := files + 1;
      if faults.booking(n) {
        errors := errors + 1;
        unbooked := unbooked + 1;
      } else if it.doc.Some? && it.doc.value in docs && !docs[it.doc.value].deleted {
        OneRetired(docs, it.doc.value);
        docs := docs[it.doc.value := docs[it.doc.value].(deleted := true, driveId := None)];
        documents := documents + 1;
      }
    }

    method RunItems(items: seq<Item>)
      modifies this, drive
      ensures Now() == TakeOutAll(old(Now()), items, faults)
      ensures files + errors + old(unbooked) == old(files) + old(errors) + |items| + unbooked && folders == old(folders)
      ensures documents == old(documents) + |Retired(old(docs), docs)| && OnlyRetired(old(docs), docs)
    {
      hide TakeOut, OnlyRetired, Retired;
      ghost var first := docs;
      NothingRetired(docs);
      for i := 0 to |items|
        invariant TakeOutAll(Now(), items[i..], faults) == TakeOutAll(old(Now()), items, faults)
        invariant files + errors + old(unbooked) == old(files) + old(errors) + i + unbooked && folders == old(folders)
        invariant documents == old(documents) + |Retired(first, docs)| && OnlyRetired(first, docs)
      {
        assert items[i..][1..] == items[i + 1..];
        ghost var before := docs;
        TrashItem(items[i]);
        RetiredInTurn(first, before, docs);
      }
    }
  }

  function Items(plan: CleanupList, dubletten: seq<(Id, DocId)>): seq<Item> {
    AsItems(plan.duplicates) + JunkItems(plan.junk) + AsItems(dubletten)
  }

  function AsItems(pairs: seq<(Id, DocId)>): seq<Item> {
    seq(|pairs|, i requires 0 <= i < |pairs| => Item(pairs[i].0, Some(pairs[i].1)))
  }

  function JunkItems(junk: seq<Id>): seq<Item> {
    seq(|junk|, i requires 0 <= i < |junk| => Item(junk[i], None))
  }

  lemma {:induction false} TakeOutParts(s: State, a: seq<Item>, b: seq<Item>, faults: Faults)
    ensures TakeOutAll(s, a + b, faults) == TakeOutAll(TakeOutAll(s, a, faults), b, faults)
    decreases |a|
  {
    if a == [] {
      assert a + b == b;
    } else {
      assert (a + b)[1..] == a[1..] + b;
      TakeOutParts(TakeOut(s, a[0], faults), a[1..], b, faults);
    }
  }

  /** The three lists of files, then the folders with the live check of the sweep. */
  method RunCleanup(drive: InMemoryDrive, docs: Docs, plan: CleanupList, dubletten: seq<(Id, DocId)>, faults: Faults)
    returns (job: CleanupJob)
    modifies drive
    ensures fresh(job) && job.drive == drive
    ensures var t := CleanUp(State(old(drive.entries), docs, 0), Items(plan, dubletten), plan.emptyFolders, faults);
      drive.entries == t.es && job.docs == t.docs
    ensures job.files + job.folders + job.errors
            == |plan.duplicates| + |plan.junk| + |dubletten| + |plan.emptyFolders| + job.unbooked
    ensures job.documents == |Retired(docs, job.docs)|
  {
    job := new CleanupJob(drive, docs, faults);
    ghost var s := job.Now();
    job.RunItems(AsItems(plan.duplicates));
    ghost var docs1 := job.docs;
    job.RunItems(JunkItems(plan.junk));
    ghost var docs2 := job.docs;
    RetiredInTurn(docs, docs1, docs2);
    job.RunItems(AsItems(dubletten));
    RetiredInTurn(docs, docs2, job.docs);
    TakeOutParts(s, AsItems(plan.duplicates) + JunkItems(plan.junk), AsItems(dubletten), faults);
    TakeOutParts(s, AsItems(plan.duplicates), JunkItems(plan.junk), faults);
    var sweep := new SweepRun(drive, Around(faults));
    sweep.calls := job.calls;
    sweep.RunFolders(plan.emptyFolders);
    job.folders, job.errors := job.folders + sweep.folders, job.errors + sweep.errors;
  }

  /** Item `k` lists the document, its trash call found the file, and neither that call nor the booking failed. */
  ghost predicate BookedAt(s: State, items: seq<Item>, faults: Faults, d: DocId, k: nat) {
    k < |items| && items[k].doc == Some(d) && !faults.trash(s.calls + k) && !faults.booking(s.calls + k)
  }

  /** A document is retired only with its own file, by a call and a booking that both went through, and otherwise left as it
    * was; a retired one has no drive file any more. */
  lemma {:induction false} RetiredOnlyIfBooked(s: State, items: seq<Item>, faults: Faults, d: DocId)
    requires d in s.docs
    ensures var t := TakeOutAll(s, items, faults);
      && d in t.docs && (t.docs[d] == s.docs[d] || (!s.docs[d].deleted && t.docs[d] == s.docs[d].(deleted := true, driveId := None)))
      && (t.docs[d] != s.docs[d] ==> exists k: nat :: BookedAt(s, items, faults, d, k))
    decreases |items|
  {
    if items != [] {
      var next := TakeOut(s, items[0], faults);
      RetiredOnlyIfBooked(next, items[1..], faults, d);
      if next.docs[d] != s.docs[d] {
        assert BookedAt(s, items, faults, d, 0);
      } else if TakeOutAll(s, items, faults).docs[d] != s.docs[d] {
        var k: nat :| BookedAt(next, items[1..], faults, d, k);
        assert BookedAt(s, items, faults, d, k + 1);
      }
    }
  }

  // ---------------------------------------------------------------- nothing else is lost

  function FilesOf(items: seq<Item>): (files: seq<Id>)
    ensures |files| == |items| && forall i :: 0 <= i < |items| ==> files[i] == items[i].file
  {
    seq(|items|, i requires 0 <= i < |items| => items[i].file)
  }

  lemma {:induction false} ItemsAreFiles(s: State, items: seq<Item>, faults: Faults, o: Outcome)
    requires o.es == s.es && o.calls == s.calls
    ensures var t := TakeOutAll(s, items, faults); var r := TrashFiles(o, FilesOf(items), Around(faults)); t.es == r.es && t.calls == r.calls
    decreases |items|
  {
    if items != [] {
      assert FilesOf(items)[1..] == FilesOf(items[1..]);
      ItemsAreFiles(TakeOut(s, items[0], faults), items[1..], faults, FileStep(o, items[0].file, Around(faults)));
    }
  }

  lemma {:induction false} DeedsAside(o: Outcome, p: Outcome, folders: seq<Id>, w: World)
    requires o.es == p.es && o.calls == p.calls
    ensures TrashFolders(o, folders, w).es == TrashFolders(p, folders, w).es
    decreases |folders|
  {
    if folders != [] { DeedsAside(FolderStep(o, folders[0], w), FolderStep(p, folders[0], w), folders[1..], w); }
  }

  /** On the drive this clean-up is the sweep of the other one, with the duplicates among the files. */
  lemma CleanUpIsSweep(s: State, items: seq<Item>, folders: seq<Id>, faults: Faults)
    requires s.calls == 0
    ensures CleanUp(s, items, folders, faults).es == Sweep(s.es, FilesOf(items), folders, Around(faults)).es
  {
    var o := Outcome(s.es, 0, [], 0);
    ItemsAreFiles(s, items, faults, o);
    var t := TakeOutAll(s, items, faults);
    DeedsAside(Outcome(t.es, t.calls, [], 0), TrashFiles(o, FilesOf(items), Around(faults)), folders, Around(faults));
  }

  /** Whatever calls fail and whatever others do in between: an entry outside the lists that nobody else takes away is
    * still live and reachable after the run. */
  lemma CleanUpSparesTheRest(s: State, items: seq<Item>, folders: seq<Id>, faults: Faults, isFolder: Id -> bool, y: Id)
    requires s.calls == 0 && Drivelike(s.es, isFolder) && Respectful(Around(faults), isFolder) && Gentle(Around(faults), y)
    requires forall i :: 0 <= i < |items| ==> !isFolder(items[i].file) && items[i].file != y
    requires Reachable(s.es, y) && y !in folders
    ensures Reachable(CleanUp(s, items, folders, faults).es, y)
  {
    CleanUpIsSweep(s, items, folders, faults);
    SweepSparesTheRest(s.es, FilesOf(items), folders, Around(faults), isFolder, y);
  }

  // ---------------------------------------------------------------- no content is lost

  /** A document that still has a live file. */
  ghost predicate Live(s: State, d: DocId) {
    d in s.docs && !s.docs[d].deleted && s.docs[d].driveId.Some? && LiveFile(s.es, s.docs[d].driveId.value)
  }

  /** `k` steps along duplicate_of. */
  function Follow(docs: Docs, d: DocId, k: nat): Option<DocId>
    decreases k
  {
    if k == 0 then Some(d)
    else if d in docs && docs[d].duplicateOf.Some? then Follow(docs, docs[d].duplicateOf.value, k - 1)
    else None
  }

  /** The chain of originals ends in a document whose file is live. */
  ghost predicate Reaches(s: State, d: DocId) {
    exists k :: Follow(s.docs, d, k).Some? && Live(s, Follow(s.docs, d, k).value)
  }

  /** Every item passed the planner's test on the drive and the documents the run starts from. */
  ghost predicate Tested(s: State, cfg: Setup, items: seq<Item>) {
    forall i :: 0 <= i < |items| ==>
      if items[i].doc.Some? then GoesAsDuplicate(s.docs, s.es, cfg, items[i].file, items[i].doc.value)
      else GoesAsJunk(s.es, cfg, items[i].file)
  }

  ghost predicate HasItem(items: seq<Item>, d: DocId) {
    exists i :: 0 <= i < |items| && items[i].doc == Some(d)
  }

  ghost predicate Touched(items: seq<Item>, f: Id) {
    exists i :: 0 <= i < |items| && items[i].file == f
  }

  /** Documents hang on files, and the folder list holds folders only. */
  ghost predicate FilesOnly(s: State, folders: seq<Id>) {
    && (forall d :: d in s.docs && s.docs[d].driveId.Some? ==> !IsFolder(s.es, s.docs[d].driveId.value))
    && (forall i :: 0 <= i < |folders| ==> IsFolder(s.es, folders[i]))
  }

  /** Others keep this file live. */
  ghost predicate Unharmed(faults: Faults, f: Id) {
    forall n: nat, es: Entries :: LiveFile(es, f) ==> LiveFile(faults.change(n, es), f)
  }

  /** Nobody brings this file back. */
  ghost predicate Final(faults: Faults, f: Id) {
    forall n: nat, es: Entries :: !LiveFile(es, f) ==> !LiveFile(faults.change(n, es), f)
  }

  /** Others may add, rename, move and trash whatever they like, except the files of documents off the list. */
  ghost predicate Considerate(s: State, items: seq<Item>, faults: Faults) {
    forall e :: e in s.docs && !HasItem(items, e) && s.docs[e].driveId.Some? ==> Unharmed(faults, s.docs[e].driveId.value)
  }

  ghost predicate NotRestored(items: seq<Item>, faults: Faults) {
    forall i :: 0 <= i < |items| ==> Final(faults, items[i].file)
  }

  lemma TailOfItems(items: seq<Item>, f: Id, d: DocId)
    requires items != []
    ensures Touched(items, f) <==> items[0].file == f || Touched(items[1..], f)
    ensures HasItem(items, d) <==> items[0].doc == Some(d) || HasItem(items[1..], d)
  {
    forall i | 0 < i < |items| ensures items[i] == items[1..][i - 1] {}
    if i :| 0 <= i < |items[1..]| && items[1..][i].file == f { assert items[i + 1].file == f; }
    if i :| 0 <= i < |items[1..]| && items[1..][i].doc == Some(d) { assert items[i + 1].doc == Some(d); }
    if i :| 0 < i < |items| && items[i].file == f { assert items[1..][i - 1].file == f; }
    if i :| 0 < i < |items| && items[i].doc == Some(d) { assert items[1..][i - 1].doc == Some(d); }
  }

  /** What a run does to a document: at most retire it, and only when it is listed. */
  lemma {:induction false} DocumentsAfter(s: State, items: seq<Item>, faults: Faults, d: DocId)
    ensures var t := TakeOutAll(s, items, faults);
      && t.docs.Keys == s.docs.Keys
      && (d in s.docs ==> t.docs[d].duplicateOf == s.docs[d].duplicateOf)
      && (d in s.docs && !HasItem(items, d) ==> t.docs[d] == s.docs[d])
      && (d in s.docs ==> t.docs[d].driveId.None? || t.docs[d].driveId == s.docs[d].driveId)
    decreases |items|
  {
    hide HasItem;
    if items != [] {
      DocumentsAfter(TakeOut(s, items[0], faults), items[1..], faults, d);
      TailOfItems(items, 0, d);
    }
  }

  lemma {:induction false} FileStaysLive(s: State, items: seq<Item>, faults: Faults, f: Id)
    requires LiveFile(s.es, f) && !Touched(items, f) && Unharmed(faults, f)
    ensures LiveFile(TakeOutAll(s, items, faults).es, f)
    decreases |items|
  {
    hide Touched;
    if items != [] {
      TailOfItems(items, f, 0);
      assert LiveFile(faults.change(s.calls, s.es), f);
      FileStaysLive(TakeOut(s, items[0], faults), items[1..], faults, f);
    }
  }

  lemma {:induction false} FileStaysGone(s: State, items: seq<Item>, faults: Faults, f: Id)
    requires Final(faults, f) && (forall n :: !faults.trash(n)) && (Touched(items, f) || !LiveFile(s.es, f))
    ensures !LiveFile(TakeOutAll(s, items, faults).es, f)
    decreases |items|
  {
    hide Touched;
    if items != [] {
      TailOfItems(items, f, 0);
      assert !LiveFile(s.es, f) ==> !LiveFile(faults.change(s.calls, s.es), f);
      FileStaysGone(TakeOut(s, items[0], faults), items[1..], faults, f);
    } else {
      NothingTouched(f);
    }
  }

  lemma NothingTouched(f: Id)
    ensures !Touched([], f)
  {
  }

  lemma {:induction false} FoldersSpareLive(o: Outcome, folders: seq<Id>, faults: Faults, f: Id)
    requires LiveFile(o.es, f) && f !in folders && Unharmed(faults, f)
    ensures LiveFile(TrashFolders(o, folders, Around(faults)).es, f)
    decreases |folders|
  {
    if folders != [] {
      assert LiveFile(faults.change(o.calls, o.es), f);
      FoldersSpareLive(FolderStep(o, folders[0], Around(faults)), folders[1..], faults, f);
    }
  }

  lemma {:induction false} FoldersLeaveGone(o: Outcome, folders: seq<Id>, faults: Faults, f: Id)
    requires !LiveFile(o.es, f) && Final(faults, f)
    ensures !LiveFile(TrashFolders(o, folders, Around(faults)).es, f)
    decreases |folders|
  {
    if folders != [] {
      assert !LiveFile(faults.change(o.calls, o.es), f);
      FoldersLeaveGone(FolderStep(o, folders[0], Around(faults)), folders[1..], faults, f);
    }
  }

  lemma {:induction false} SameChains(s: State, items: seq<Item>, faults: Faults, d: DocId, k: nat)
    ensures Follow(TakeOutAll(s, items, faults).docs, d, k) == Follow(s.docs, d, k)
    decreases k
  {
    DocumentsAfter(s, items, faults, d);
    if k > 0 && d in s.docs && s.docs[d].duplicateOf.Some? {
      SameChains(s, items, faults, s.docs[d].duplicateOf.value, k - 1);
    }
  }

  /** What the run starts from: drive ids unique, references sound, every item tested by the planner. */
  ghost predicate Ready(s: State, cfg: Setup, items: seq<Item>, folders: seq<Id>) {
    Indexed(s.docs, cfg.byFile) && Referenced(s.docs) && Tested(s, cfg, items) && FilesOnly(s, folders)
  }

  /** The run goes for none of the files of a document off its list. */
  lemma FileOffTheList(s: State, cfg: Setup, items: seq<Item>, folders: seq<Id>, e: DocId)
    requires Ready(s, cfg, items, folders) && Live(s, e) && !HasItem(items, e)
    ensures var f := s.docs[e].driveId.value; !Touched(items, f) && f !in folders
  {
    var f := s.docs[e].driveId.value;
    assert f in cfg.byFile && cfg.byFile[f] == e;
    assert forall i :: 0 <= i < |items| && items[i].file == f ==> items[i].doc != Some(e);
  }

  lemma UnlistedStaysLive(s: State, cfg: Setup, items: seq<Item>, folders: seq<Id>, faults: Faults, e: DocId)
    requires Considerate(s, items, faults)
    requires Ready(s, cfg, items, folders) && Live(s, e) && !HasItem(items, e)
    ensures Live(CleanUp(s, items, folders, faults), e)
  {
    hide Ready, TakeOutAll, TrashFolders;
    FileOffTheList(s, cfg, items, folders, e);
    var f, t := s.docs[e].driveId.value, TakeOutAll(s, items, faults);
    FileStaysLive(s, items, faults, f);
    FoldersSpareLive(Outcome(t.es, t.calls, [], 0), folders, faults, f);
    DocumentsAfter(s, items, faults, e);
  }

  lemma OriginalIsLive(s: State, cfg: Setup, items: seq<Item>, d: DocId)
    requires Tested(s, cfg, items) && HasItem(items, d)
    ensures d in s.docs && s.docs[d].duplicateOf.Some? && Live(s, s.docs[d].duplicateOf.value)
  {
    var i :| 0 <= i < |items| && items[i].doc == Some(d);
    assert GoesAsDuplicate(s.docs, s.es, cfg, items[i].file, d);
  }

  ghost predicate Leaves(s: State, items: seq<Item>, d: DocId, k: nat) {
    Follow(s.docs, d, k).Some? && !HasItem(items, Follow(s.docs, d, k).value)
  }

  /** Where a chain first leaves the list there is a live document: the planner tested it as an original. */
  lemma {:induction false} ChainEnd(s: State, cfg: Setup, items: seq<Item>, d: DocId, k: nat) returns (j: nat)
    requires Tested(s, cfg, items) && Live(s, d) && Leaves(s, items, d, k)
    ensures Leaves(s, items, d, j) && Live(s, Follow(s.docs, d, j).value)
    decreases k
  {
    hide Tested, Live;
    if HasItem(items, d) {
      OriginalIsLive(s, cfg, items, d);
      j := ChainEnd(s, cfg, items, s.docs[d].duplicateOf.value, k - 1);
      j := j + 1;
    } else {
      j := 0;
    }
  }

  /** Whatever trash calls and bookings fail, and whatever considerate others do: a live document whose chain leaves the
    * list keeps a live end. */
  lemma LeavingKeepsContent(s: State, cfg: Setup, items: seq<Item>, folders: seq<Id>, faults: Faults, d: DocId, k: nat)
    requires Considerate(s, items, faults)
    requires Ready(s, cfg, items, folders) && Live(s, d) && Leaves(s, items, d, k)
    ensures Reaches(CleanUp(s, items, folders, faults), d)
  {
    hide Live, Considerate, TakeOutAll;
    var j := ChainEnd(s, cfg, items, d, k);
    UnlistedStaysLive(s, cfg, items, folders, faults, Follow(s.docs, d, j).value);
    SameChains(s, items, faults, d, j);
  }

  lemma ListedIsGone(s: State, cfg: Setup, items: seq<Item>, folders: seq<Id>, faults: Faults, e: DocId)
    requires NotRestored(items, faults)
    requires Ready(s, cfg, items, folders) && (forall n :: !faults.trash(n)) && HasItem(items, e)
    ensures !Live(CleanUp(s, items, folders, faults), e)
  {
    hide TakeOutAll, TrashFolders, OriginalLive, Referenced, FilesOnly, Final;
    var i :| 0 <= i < |items| && items[i].doc == Some(e);
    var f, t := items[i].file, TakeOutAll(s, items, faults);
    assert GoesAsDuplicate(s.docs, s.es, cfg, f, e);
    assert Touched(items, f);
    FileStaysGone(s, items, faults, f);
    FoldersLeaveGone(Outcome(t.es, t.calls, [], 0), folders, faults, f);
    DocumentsAfter(s, items, faults, e);
  }

  /** With every trash call going through, a chain that never leaves the list loses its content. */
  lemma StayingLosesContent(s: State, cfg: Setup, items: seq<Item>, folders: seq<Id>, faults: Faults, d: DocId)
    requires NotRestored(items, faults)
    requires Ready(s, cfg, items, folders) && (forall n :: !faults.trash(n)) && forall k :: !Leaves(s, items, d, k)
    ensures !Reaches(CleanUp(s, items, folders, faults), d)
  {
    hide Live, Ready, TakeOutAll, NotRestored;
    var t := CleanUp(s, items, folders, faults);
    forall k: nat | Follow(t.docs, d, k).Some? ensures !Live(t, Follow(t.docs, d, k).value) {
      SameChains(s, items, faults, d, k);
      assert !Leaves(s, items, d, k);
      ListedIsGone(s, cfg, items, folders, faults, Follow(s.docs, d, k).value);
    }
  }

  /** No duplicate's content is lost by a run without failing trash calls exactly when its chain of originals leaves the
    * list, as long as others spare the files off the list and restore none of the listed ones. */
  lemma ContentKeptIff(s: State, cfg: Setup, items: seq<Item>, folders: seq<Id>, faults: Faults, d: DocId)
    requires Considerate(s, items, faults) && NotRestored(items, faults)
    requires Ready(s, cfg, items, folders) && Live(s, d) && forall n :: !faults.trash(n)
    ensures Reaches(CleanUp(s, items, folders, faults), d) <==> exists k :: Leaves(s, items, d, k)
  {
    hide Ready, CleanUp, Considerate, NotRestored;
    if k :| Leaves(s, items, d, k) {
      LeavingKeepsContent(s, cfg, items, folders, faults, d, k);
    } else {
      StayingLosesContent(s, cfg, items, folders, faults, d);
    }
  }

  /** An original is older than its duplicates, so no chain comes back to itself. */
  ghost predicate Ranked(docs: Docs, rank: DocId -> nat) {
    forall d :: d in docs && docs[d].duplicateOf.Some? ==> rank(docs[d].duplicateOf.value) < rank(d)
  }

  lemma {:induction false} RankedLeaves(s: State, cfg: Setup, items: seq<Item>, d: DocId, rank: DocId -> nat)
    requires Tested(s, cfg, items) && Ranked(s.docs, rank)
    ensures exists k :: Leaves(s, items, d, k)
    decreases rank(d)
  {
    if HasItem(items, d) {
      OriginalIsLive(s, cfg, items, d);
      var o := s.docs[d].duplicateOf.value;
      RankedLeaves(s, cfg, items, o, rank);
      var k: nat :| Leaves(s, items, o, k);
      assert Leaves(s, items, d, k + 1);
    } else {
      assert Leaves(s, items, d, 0);
    }
  }

  /** Without cycles among the originals, every document whose chain reached a live file before the run still does,
    * even when originals are themselves duplicates trashed in the same run, and whatever calls fail. */
  lemma NoContentLost(s: State, cfg: Setup, items: seq<Item>, folders: seq<Id>, faults: Faults, rank: DocId -> nat, d: DocId)
    requires Considerate(s, items, faults)
    requires Ready(s, cfg, items, folders) && Ranked(s.docs, rank) && Reaches(s, d)
    ensures Reaches(CleanUp(s, items, folders, faults), d)
  {
    hide Live, Considerate, TakeOutAll;
    var j := LiveEnd(s, cfg, items, rank, d);
    UnlistedStaysLive(s, cfg, items, folders, faults, Follow(s.docs, d, j).value);
    SameChains(s, items, faults, d, j);
  }

  lemma LiveEnd(s: State, cfg: Setup, items: seq<Item>, rank: DocId -> nat, d: DocId) returns (j: nat)
    requires Tested(s, cfg, items) && Ranked(s.docs, rank) && Reaches(s, d)
    ensures Leaves(s, items, d, j) && Live(s, Follow(s.docs, d, j).value)
  {
    hide Live, Tested, Ranked;
    var k: nat :| Follow(s.docs, d, k).Some? && Live(s, Follow(s.docs, d, k).value);
    var e := Follow(s.docs, d, k).value;
    RankedLeaves(s, cfg, items, e, rank);
    var n: nat :| Leaves(s, items, e, n);
    var m := ChainEnd(s, cfg, items, e, n);
    FollowOn(s.docs, d, k, m);
    j := k + m;
  }

  // ---------------------------------------------------------------- and none is out of reach

  /** A document whose file is live together with every folder above it. */
  ghost predicate Held(s: State, d: DocId) {
    d in s.docs && !s.docs[d].deleted && s.docs[d].driveId.Some? && Reachable(s.es, s.docs[d].driveId.value)
  }

  /** What lies in a trashed folder counts as trashed, as in Google Drive: a live file has live folders above it. */
  ghost predicate Grounded(s: State) {
    forall d :: Live(s, d) ==> Held(s, d)
  }

  /** The same with the folders above the file: the sweep and others may take any of the rest away. */
  lemma NothingOutOfReach(s: State, cfg: Setup, items: seq<Item>, folders: seq<Id>, faults: Faults, rank: DocId -> nat,
                          isFolder: Id -> bool, d: DocId)
    requires s.calls == 0 && Drivelike(s.es, isFolder) && Respectful(Around(faults), isFolder)
    requires forall i :: 0 <= i < |items| ==> !isFolder(items[i].file)
    requires forall e :: e in s.docs && !HasItem(items, e) && s.docs[e].driveId.Some? ==> Gentle(Around(faults), s.docs[e].driveId.value)
    requires Ready(s, cfg, items, folders) && Ranked(s.docs, rank) && Grounded(s) && Reaches(s, d)
    ensures var t := CleanUp(s, items, folders, faults); exists k :: Follow(t.docs, d, k).Some? && Held(t, Follow(t.docs, d, k).value)
  {
    hide Live, TakeOutAll, Drivelike, Respectful, Gentle, Reachable, Indexed, Referenced, FilesOnly, Tested;
    var t := CleanUp(s, items, folders, faults);
    var j := LiveEnd(s, cfg, items, rank, d);
    var e := Follow(s.docs, d, j).value;
    assert Held(s, e);
    FileOffTheList(s, cfg, items, folders, e);
    CleanUpSparesTheRest(s, items, folders, faults, isFolder, s.docs[e].driveId.value);
    DocumentsAfter(s, items, faults, e);
    SameChains(s, items, faults, d, j);
    assert Held(t, Follow(t.docs, d, j).value);
  }

  lemma {:induction false} FollowOn(docs: Docs, d: DocId, k: nat, m: nat)
    requires Follow(docs, d, k).Some?
    ensures Follow(docs, d, k + m) == Follow(docs, Follow(docs, d, k).value, m)
    decreases k
  {
    if k > 0 { FollowOn(docs, docs[d].duplicateOf.value, k - 1, m); }
  }

  /** Two documents that name each other as original: the planner accepts both and their content is lost. */
  lemma CycleLosesContent() returns (s: State, cfg: Setup, items: seq<Item>, faults: Faults)
    ensures Ready(s, cfg, items, []) && Live(s, 0) && !Reaches(CleanUp(s, items, [], faults), 0)
  {
    var file := Entry("scan.pdf", Binary, [], false, "x", 1, map[]);
    s := State(map[10 := file, 11 := file],
                   map[0 := Doc(1, Duplicate, Some(10), Some(1), false), 1 := Doc(1, Duplicate, Some(11), Some(0), false)], 0);
    cfg := Setup(1, map[10 := 0, 11 := 1], {}, name => false, 100, true, true);
    items := [Item(10, Some(0)), Item(11, Some(1))];
    faults := Faults(n => false, n => false, (n, es) => es);
    assert items[0].doc == Some(0) && items[1].doc == Some(1);
    forall k ensures !Leaves(s, items, 0, k) {
      Alternates(s.docs, k);
    }
    StayingLosesContent(s, cfg, items, [], faults, 0);
  }

  lemma {:induction false} Alternates(docs: Docs, k: nat)
    requires 0 in docs && 1 in docs && docs[0].duplicateOf == Some(1) && docs[1].duplicateOf == Some(0)
    ensures Follow(docs, 0, k) in {Some(0), Some(1)} && Follow(docs, 1, k) in {Some(0), Some(1)}
  {
    if k > 0 { Alternates(docs, k - 1); }
  }

  // ---------------------------------------------------------------- planned and carried out

  ghost predicate DuplicatesTested(docs: Docs, es: Entries, cfg: Setup, pairs: seq<(Id, DocId)>) {
    forall i :: 0 <= i < |pairs| ==> GoesAsDuplicate(docs, es, cfg, pairs[i].0, pairs[i].1)
  }

  lemma ItemsTested(s: State, cfg: Setup, plan: CleanupList, dubletten: seq<(Id, DocId)>)
    requires DuplicatesTested(s.docs, s.es, cfg, plan.duplicates) && DuplicatesTested(s.docs, s.es, cfg, dubletten)
    requires forall i :: 0 <= i < |plan.junk| ==> GoesAsJunk(s.es, cfg, plan.junk[i])
    ensures Tested(s, cfg, Items(plan, dubletten))
  {
    hide GoesAsDuplicate, GoesAsJunk;
    var items := Items(plan, dubletten);
    var n, m := |plan.duplicates|, |plan.duplicates| + |plan.junk|;
    forall i | 0 <= i < |items|
      ensures if items[i].doc.Some? then GoesAsDuplicate(s.docs, s.es, cfg, items[i].file, items[i].doc.value)
              else GoesAsJunk(s.es, cfg, items[i].file)
    {
      if i < n {
        assert items[i] == Item(plan.duplicates[i].0, Some(plan.duplicates[i].1));
      } else if i < m {
        assert items[i] == Item(plan.junk[i - n], None);
      } else {
        assert items[i] == Item(dubletten[i - m].0, Some(dubletten[i - m].1));
      }
    }
  }

  /** What the planner lists is what a run may start from. */
  lemma PlanIsReady(docs: Docs, es: Entries, cfg: Setup, root: Id, plan: CleanupList, dubletten: seq<(Id, DocId)>)
    requires Referenced(docs) && Indexed(docs, cfg.byFile) && ExactCleanup(docs, es, cfg, root, plan)
    requires DuplicatesTested(docs, es, cfg, dubletten)
    requires forall d :: d in docs && docs[d].driveId.Some? ==> !IsFolder(es, docs[d].driveId.value)
    ensures Ready(State(es, docs, 0), cfg, Items(plan, dubletten), plan.emptyFolders)
  {
    hide GoesAsDuplicate, GoesAsJunk, Items, Referenced, Indexed, Remaining;
    forall i | 0 <= i < |plan.duplicates| ensures GoesAsDuplicate(docs, es, cfg, plan.duplicates[i].0, plan.duplicates[i].1) {
      assert (plan.duplicates[i].0, plan.duplicates[i].1) in plan.duplicates;
    }
    forall i | 0 <= i < |plan.junk| ensures GoesAsJunk(es, cfg, plan.junk[i]) {
      assert plan.junk[i] in plan.junk;
    }
    forall i | 0 <= i < |plan.emptyFolders| ensures IsFolder(es, plan.emptyFolders[i]) {
      assert plan.emptyFolders[i] in plan.emptyFolders;
    }
    ItemsTested(State(es, docs, 0), cfg, plan, dubletten);
  }

  /** Planning and running, whatever calls fail: without cycles among the originals no document loses its content. */
  lemma PlannedRunLosesNothing(docs: Docs, es: Entries, cfg: Setup, root: Id, plan: CleanupList, dubletten: seq<(Id, DocId)>, faults: Faults,
                               rank: DocId -> nat, d: DocId)
    requires Considerate(State(es, docs, 0), Items(plan, dubletten), faults)
    requires Referenced(docs) && Indexed(docs, cfg.byFile) && ExactCleanup(docs, es, cfg, root, plan)
    requires DuplicatesTested(docs, es, cfg, dubletten) && Ranked(docs, rank)
    requires forall d :: d in docs && docs[d].driveId.Some? ==> !IsFolder(es, docs[d].driveId.value)
    requires Reaches(State(es, docs, 0), d)
    ensures Reaches(CleanUp(State(es, docs, 0), Items(plan, dubletten), plan.emptyFolders, faults), d)
  {
    hide ExactCleanup, Reaches, Ready, Items, CleanUp, Considerate;
    PlanIsReady(docs, es, cfg, root, plan, dubletten);
    NoContentLost(State(es, docs, 0), cfg, Items(plan, dubletten), plan.emptyFolders, faults, rank, d);
  }

  // ---------------------------------------------------------------- an undisturbed run cleans up

  ghost predicate Peaceful(faults: Faults) {
    (forall n: nat, es: Entries :: faults.change(n, es) == es) && forall n: nat :: !faults.trash(n) && !faults.booking(n)
  }

  ghost predicate FileIn(pairs: seq<(Id, DocId)>, f: Id) {
    exists i :: 0 <= i < |pairs| && pairs[i].0 == f
  }

  ghost predicate DocIn(pairs: seq<(Id, DocId)>, d: DocId) {
    exists i :: 0 <= i < |pairs| && pairs[i].1 == d
  }

  /** In the trash: the three lists of files and the folders, and nothing else besides what was there. */
  ghost predicate FilesCleaned(es: Entries, plan: CleanupList, dubletten: seq<(Id, DocId)>, after: Entries) {
    && after.Keys == es.Keys
    && forall x :: x in es ==> after[x] == es[x].(trashed := es[x].trashed || FileIn(plan.duplicates, x) || x in plan.junk
                                                             || FileIn(dubletten, x) || x in plan.emptyFolders)
  }

  /** Deleted and without a file: the documents of the two lists of duplicates; the others are as they were. */
  ghost predicate DocsCleaned(docs: Docs, plan: CleanupList, dubletten: seq<(Id, DocId)>, after: Docs) {
    && after.Keys == docs.Keys
    && forall d :: d in docs ==>
         after[d] == if DocIn(plan.duplicates, d) || DocIn(dubletten, d) then docs[d].(deleted := true, driveId := None) else docs[d]
  }

  lemma ListedFiles(plan: CleanupList, dubletten: seq<(Id, DocId)>, x: Id)
    ensures Touched(Items(plan, dubletten), x) <==> FileIn(plan.duplicates, x) || x in plan.junk || FileIn(dubletten, x)
  {
    var items, n, m := Items(plan, dubletten), |plan.duplicates|, |plan.duplicates| + |plan.junk|;
    if i :| 0 <= i < |items| && items[i].file == x {
      if i < n { assert plan.duplicates[i].0 == x; }
      else if i < m { assert plan.junk[i - n] == x; }
      else { assert dubletten[i - m].0 == x; }
    }
    if i :| 0 <= i < n && plan.duplicates[i].0 == x { assert items[i].file == x; }
    if i :| 0 <= i < |plan.junk| && plan.junk[i] == x { assert items[n + i].file == x; }
    if i :| 0 <= i < |dubletten| && dubletten[i].0 == x { assert items[m + i].file == x; }
  }

  lemma ListedDocs(plan: CleanupList, dubletten: seq<(Id, DocId)>, d: DocId)
    ensures HasItem(Items(plan, dubletten), d) <==> DocIn(plan.duplicates, d) || DocIn(dubletten, d)
  {
    var items, n, m := Items(plan, dubletten), |plan.duplicates|, |plan.duplicates| + |plan.junk|;
    if i :| 0 <= i < |items| && items[i].doc == Some(d) {
      if i < n { assert plan.duplicates[i].1 == d; }
      else if i >= m { assert dubletten[i - m].1 == d; }
    }
    if i :| 0 <= i < n && plan.duplicates[i].1 == d { assert items[i].doc == Some(d); }
    if i :| 0 <= i < |dubletten| && dubletten[i].1 == d { assert items[m + i].doc == Some(d); }
  }

  lemma {:induction false} DocumentsRetired(s: State, items: seq<Item>, faults: Faults, d: DocId)
    requires Peaceful(faults) && d in s.docs && forall i :: 0 <= i < |items| ==> items[i].file in s.es
    requires s.docs[d].deleted ==> s.docs[d].driveId.None?
    ensures var t := TakeOutAll(s, items, faults);
      d in t.docs && t.docs[d] == if HasItem(items, d) then s.docs[d].(deleted := true, driveId := None) else s.docs[d]
    decreases |items|
  {
    hide HasItem;
    if items != [] {
      TailOfItems(items, 0, d);
      DocumentsRetired(TakeOut(s, items[0], faults), items[1..], faults, d);
    } else {
      NoItem(d);
    }
  }

  lemma NoItem(d: DocId)
    ensures !HasItem([], d)
  {
  }

  /** What a listed folder holds is listed, its folders before it. */
  lemma ListedChild(docs: Docs, es: Entries, cfg: Setup, root: Id, plan: CleanupList, i: nat, c: Id)
    requires Acyclic(es) && IsFolder(es, root) && ExactCleanup(docs, es, cfg, root, plan)
    requires Indexed(docs, cfg.byFile) && i < |plan.emptyFolders| && Child(es, plan.emptyFolders[i], c)
    ensures FileIn(plan.duplicates, c) || c in plan.junk || c in plan.emptyFolders[..i]
  {
    hide GoesAsDuplicate, GoesAsJunk, Indexed;
    var f := plan.emptyFolders[i];
    assert f in plan.emptyFolders;
    assert Path(es, [f, c]);
    assert Inside(es, f, c);
    if f != root { InsideJoin(es, root, f, c); }
    HollowStep(es, Remaining(docs, es, cfg), ProtectedFolders(es, cfg), f);
    if IsFolder(es, c) {
      assert c in plan.emptyFolders;
      var k :| 0 <= k < |plan.emptyFolders| && plan.emptyFolders[k] == c;
      assert k < i;
      assert plan.emptyFolders[..i][k] == c;
    } else if GoesAsJunk(es, cfg, c) {
      assert c in plan.junk;
    } else {
      var d := cfg.byFile[c];
      assert (c, d) in plan.duplicates;
      var k :| 0 <= k < |plan.duplicates| && plan.duplicates[k] == (c, d);
      assert plan.duplicates[k].0 == c;
    }
  }

  lemma FilesThenFolders(docs: Docs, es: Entries, cfg: Setup, root: Id, plan: CleanupList, dubletten: seq<(Id, DocId)>, faults: Faults)
    requires Peaceful(faults) && Acyclic(es) && IsFolder(es, root) && ExactCleanup(docs, es, cfg, root, plan) && Indexed(docs, cfg.byFile)
    requires forall i :: 0 <= i < |Items(plan, dubletten)| ==> Items(plan, dubletten)[i].file in es
    ensures CleanUp(State(es, docs, 0), Items(plan, dubletten), plan.emptyFolders, faults).es
            == TrashSet(es, Ids(FilesOf(Items(plan, dubletten))) + Ids(plan.emptyFolders))
  {
    hide ExactCleanup, Acyclic, Indexed, Items, TrashFiles, TrashFolders, Child;
    var items, w := Items(plan, dubletten), Around(faults);
    var files, o := FilesOf(items), Outcome(es, 0, [], 0);
    CleanUpIsSweep(State(es, docs, 0), items, plan.emptyFolders, faults);
    assert TrashSet(es, {}) == es;
    QuietFiles(es, {}, o, files, w);
    assert {} + Ids(files) == Ids(files);
    FoldersKnown(docs, es, cfg, root, plan);
    forall i, c | 0 <= i < |plan.emptyFolders| && Child(es, plan.emptyFolders[i], c)
      ensures c in Ids(files) || c in plan.emptyFolders[..i]
    {
      ListedChild(docs, es, cfg, root, plan, i, c);
      ListedFiles(plan, dubletten, c);
      if k :| 0 <= k < |items| && items[k].file == c { assert files[k] == c; }
    }
    QuietFolders(es, Ids(files), TrashFiles(o, files, w), plan.emptyFolders, w);
  }

  lemma FoldersKnown(docs: Docs, es: Entries, cfg: Setup, root: Id, plan: CleanupList)
    requires ExactCleanup(docs, es, cfg, root, plan)
    ensures forall i :: 0 <= i < |plan.emptyFolders| ==> plan.emptyFolders[i] in es
  {
    hide Remaining, ProtectedFolders;
    forall i | 0 <= i < |plan.emptyFolders| ensures plan.emptyFolders[i] in es { assert plan.emptyFolders[i] in plan.emptyFolders; }
  }

  /** A run of the planner's lists that nobody disturbs and no error meets puts exactly the listed files and folders into the
    * trash and retires exactly the documents of the two lists of duplicates. */
  lemma CleanUpCompletes(docs: Docs, es: Entries, cfg: Setup, root: Id, plan: CleanupList, dubletten: seq<(Id, DocId)>, faults: Faults)
    requires Peaceful(faults) && Acyclic(es) && IsFolder(es, root) && ExactCleanup(docs, es, cfg, root, plan) && Indexed(docs, cfg.byFile)
    requires forall i :: 0 <= i < |dubletten| ==> dubletten[i].0 in es
    requires forall d :: d in docs && docs[d].deleted ==> docs[d].driveId.None?
    ensures var t := CleanUp(State(es, docs, 0), Items(plan, dubletten), plan.emptyFolders, faults);
      FilesCleaned(es, plan, dubletten, t.es) && DocsCleaned(docs, plan, dubletten, t.docs)
  {
    hide ExactCleanup, Acyclic, Indexed, Items, TakeOutAll, FileIn, DocIn;
    var items := Items(plan, dubletten);
    var t := CleanUp(State(es, docs, 0), items, plan.emptyFolders, faults);
    forall i | 0 <= i < |items| ensures items[i].file in es {
      ItemsExist(docs, es, cfg, root, plan, dubletten, items[i].file);
      assert Touched(items, items[i].file);
    }
    FilesThenFolders(docs, es, cfg, root, plan, dubletten, faults);
    forall x | x in es
      ensures x in t.es && t.es[x] == es[x].(trashed := es[x].trashed || FileIn(plan.duplicates, x) || x in plan.junk
                                                        || FileIn(dubletten, x) || x in plan.emptyFolders)
    {
      ListedFiles(plan, dubletten, x);
      InFiles(items, x);
    }
    forall d | d in docs
      ensures d in t.docs && t.docs[d] == if DocIn(plan.duplicates, d) || DocIn(dubletten, d) then docs[d].(deleted := true, driveId := None) else docs[d]
    {
      ListedDocs(plan, dubletten, d);
      DocumentsRetired(State(es, docs, 0), items, faults, d);
    }
    DocumentsAfter(State(es, docs, 0), items, faults, 0);
  }

  lemma InFiles(items: seq<Item>, x: Id)
    ensures x in Ids(FilesOf(items)) <==> Touched(items, x)
  {
    if i :| 0 <= i < |items| && items[i].file == x { assert FilesOf(items)[i] == x; }
  }

  lemma ItemsExist(docs: Docs, es: Entries, cfg: Setup, root: Id, plan: CleanupList, dubletten: seq<(Id, DocId)>, x: Id)
    requires ExactCleanup(docs, es, cfg, root, plan) && forall i :: 0 <= i < |dubletten| ==> dubletten[i].0 in es
    ensures Touched(Items(plan, dubletten), x) ==> x in es
  {
    hide Items, GoesAsDuplicate, Remaining, ProtectedFolders;
    ListedFiles(plan, dubletten, x);
    if i :| 0 <= i < |plan.duplicates| && plan.duplicates[i].0 == x { assert (x, plan.duplicates[i].1) in plan.duplicates; }
  }
}
