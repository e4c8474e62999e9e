/** Planning the sweep of a folder tree (src/apps/drive/auto_cleanup.py, plan_tree; the folder part is shared with
  * src/apps/drive/takeover.py, plan_cleanup): which files are junk, which stay, which folders are empty. */
module CleanupPlan {
  import opened Wrappers
  import opened Drive
  import opened Sorting
  import opened Tree

  /** What the database and the configuration contribute to one sweep. Name patterns stay arbitrary predicates. */
  datatype Policy = Policy(
    registered: set<Id>,
    protectedIds: set<Id>,
    bookkeeping: set<Id>,
    ignored: string -> bool,
    isYear: string -> bool,
    limit: nat)

  datatype Blocker = Missing | TooManyFiles

  datatype Reason = HasDocument | IsGoogleDoc | NotRegistered

  datatype TreePlan = TreePlan(
    junk: seq<Id>, emptyFolders: seq<Id>, kept: seq<(Id, Reason)>, totalFiles: nat, rootEmpty: bool,
    blocker: Option<Blocker>)

  // ---------------------------------------------------------------- what a sweep may touch

  predicate IsFile(es: Entries, x: Id) {
    x in es && es[x].kind != Folder
  }

  predicate IsJunk(es: Entries, pol: Policy, x: Id) {
    IsFile(es, x) && x !in pol.registered && es[x].kind != GoogleDoc && pol.ignored(es[x].name)
  }

  predicate IsKept(es: Entries, pol: Policy, x: Id) {
    IsFile(es, x) && !IsJunk(es, pol, x)
  }

  function KeepReason(es: Entries, pol: Policy, x: Id): Reason
    requires x in es
  {
    if x in pol.registered then HasDocument else if es[x].kind == GoogleDoc then IsGoogleDoc else NotRegistered
  }

  /** A year folder directly in a bookkeeping folder below the root belongs to the target structure. */
  ghost predicate YearFolder(es: Entries, pol: Policy, root: Id, x: Id) {
    IsFolder(es, x) && pol.isYear(es[x].name)
    && exists p :: p in pol.bookkeeping && IsFolder(es, p) && Inside(es, root, p) && Child(es, p, x)
  }

  ghost predicate IsProtected(es: Entries, pol: Policy, root: Id, x: Id) {
    IsFolder(es, x) && (x in pol.protectedIds || YearFolder(es, pol, root, x))
  }

  function Stays(es: Entries, pol: Policy): set<Id> {
    set x | x in es && IsKept(es, pol, x)
  }

  ghost function Guarded(es: Entries, pol: Policy, root: Id): set<Id> {
    set x | x in es && IsProtected(es, pol, root, x)
  }

  /** Nothing in the whole subtree stays: no file of `stays`, no folder of `prot`. */
  ghost predicate Hollow(es: Entries, stays: set<Id>, prot: set<Id>, f: Id) {
    IsFolder(es, f) && forall x :: Under(es, f, x) ==> x !in stays && x !in prot
  }

  lemma HollowStep(es: Entries, stays: set<Id>, prot: set<Id>, f: Id)
    requires IsFolder(es, f)
    requires forall x :: x in stays ==> !IsFolder(es, x)
    requires forall x :: x in prot ==> IsFolder(es, x)
    ensures Hollow(es, stays, prot, f) <==>
      && f !in prot
      && (forall c :: Child(es, f, c) ==> c !in stays)
      && (forall c :: Child(es, f, c) && IsFolder(es, c) ==> Hollow(es, stays, prot, c))
  {
    if Hollow(es, stays, prot, f) {
      assert Under(es, f, f);
      forall c, x | Child(es, f, c) && Under(es, c, x) ensures x !in stays && x !in prot {
        InsideTop(es, f, x);
        assert Under(es, f, x);
      }
      forall c | Child(es, f, c) ensures c !in stays {
        assert Under(es, c, c);
      }
    } else {
      var x :| Under(es, f, x) && (x in stays || x in prot);
      if x != f {
        InsideTop(es, f, x);
        var c :| Child(es, f, c) && Under(es, c, x);
        if c != x { InsideTop(es, c, x); }
      }
    }
  }

  // ---------------------------------------------------------------- reading the walk

  function FolderVisits(es: Entries, v: seq<Visit>): seq<Visit> {
    if v == [] then []
    else (if IsFolder(es, v[0].id) then [v[0]] else []) + FolderVisits(es, v[1..])
  }

  function FileVisits(es: Entries, v: seq<Visit>): seq<Visit> {
    if v == [] then []
    else (if IsFolder(es, v[0].id) then [] else [v[0]]) + FileVisits(es, v[1..])
  }

  lemma {:induction false} PartsOf(es: Entries, v: seq<Visit>, x: Visit)
    ensures x in FolderVisits(es, v) <==> x in v && IsFolder(es, x.id)
    ensures x in FileVisits(es, v) <==> x in v && !IsFolder(es, x.id)
  {
    if v != [] {
      PartsOf(es, v[1..], x);
      assert x in v <==> x == v[0] || x in v[1..];
    }
  }

  lemma HeadFirst(es: Entries, v: seq<Visit>, part: seq<Visit>)
    requires v != [] && TopDown(es, v) && TopDown(es, part) && forall x :: x in part ==> x in v[1..]
    ensures TopDown(es, [v[0]] + part)
  {
    forall i, j | 0 <= i < 1 && 0 <= j < |part| ensures Apart(es, [v[0]], part, i, j) {
      assert part[j] in v[1..];
      var k :| 0 <= k < |v[1..]| && v[1..][k] == part[j];
      assert v[k + 1] == part[j];
    }
    Join(es, [v[0]], part);
  }

  lemma {:induction false} PartsTopDown(es: Entries, v: seq<Visit>)
    requires TopDown(es, v)
    ensures TopDown(es, FolderVisits(es, v)) && TopDown(es, FileVisits(es, v))
  {
    if v != [] {
      PartsTopDown(es, v[1..]);
      forall x ensures x in FolderVisits(es, v[1..]) ==> x in v[1..]
               ensures x in FileVisits(es, v[1..]) ==> x in v[1..] {
        PartsOf(es, v[1..], x);
      }
      if IsFolder(es, v[0].id) {
        HeadFirst(es, v, FolderVisits(es, v[1..]));
      } else {
        HeadFirst(es, v, FileVisits(es, v[1..]));
      }
    }
  }

  ghost predicate Recorded(folders: seq<Id>, parentOf: map<Id, Id>, v: seq<Visit>) {
    && |folders| == |v|
    && (forall i :: 0 <= i < |v| ==> folders[i] == v[i].id && v[i].id in parentOf && parentOf[v[i].id] == v[i].parent)
  }

  lemma NextVisit(es: Entries, v: seq<Visit>, i: nat)
    requires i < |v|
    ensures FolderVisits(es, v[i..]) == if IsFolder(es, v[i].id) then [v[i]] + FolderVisits(es, v[i + 1..]) else FolderVisits(es, v[i + 1..])
    ensures FileVisits(es, v[i..]) == if IsFolder(es, v[i].id) then FileVisits(es, v[i + 1..]) else [v[i]] + FileVisits(es, v[i + 1..])
  {
    assert v[i..][1..] == v[i + 1..];
  }

  lemma Shift(a: seq<Visit>, x: Visit, b: seq<Visit>)
    ensures a + ([x] + b) == (a + [x]) + b
  {
  }

  lemma NewFolder(es: Entries, v: seq<Visit>, seen: seq<Visit>, i: nat)
    requires TopDown(es, v) && i < |v| && IsFolder(es, v[i].id)
    requires seen + FolderVisits(es, v[i..]) == FolderVisits(es, v)
    ensures forall j :: 0 <= j < |seen| ==> seen[j].id != v[i].id
  {
    PartsTopDown(es, v);
    var all := FolderVisits(es, v);
    assert all[|seen|] == v[i];
    forall j | 0 <= j < |seen| ensures seen[j].id != v[i].id {
      assert all[j] == seen[j];
    }
  }

  /** The first loop: folders with their parents in walk order, files with theirs, and the size limit. */
  method ReadWalk(es: Entries, v: seq<Visit>, limit: nat)
    returns (folders: seq<Id>, parentOf: map<Id, Id>, files: seq<Visit>, over: bool)
    requires TopDown(es, v)
    ensures over <==> |FileVisits(es, v)| > limit
    ensures !over ==> files == FileVisits(es, v) && Recorded(folders, parentOf, FolderVisits(es, v))
  {
    folders, parentOf, files := [], map[], [];
    ghost var seen: seq<Visit> := [];
    assert v[0..] == v;
    for i := 0 to |v|
      invariant FileVisits(es, v) == files + FileVisits(es, v[i..])
      invariant |files| <= limit
      invariant FolderVisits(es, v) == seen + FolderVisits(es, v[i..])
      invariant Recorded(folders, parentOf, seen)
    {
      NextVisit(es, v, i);
      if IsFolder(es, v[i].id) {
        NewFolder(es, v, seen, i);
        folders, parentOf := RecordFolder(folders, parentOf, v[i], seen);
        Shift(seen, v[i], FolderVisits(es, v[i + 1..]));
        seen := seen + [v[i]];
      } else {
        Shift(files, v[i], FileVisits(es, v[i + 1..]));
        files := files + [v[i]];
        if |files| > limit {
          return [], map[], [], true;
        }
      }
    }
    assert v[|v|..] == [];
    over := false;
  }

  method RecordFolder(folders: seq<Id>, parentOf: map<Id, Id>, x: Visit, ghost seen: seq<Visit>)
    returns (folders': seq<Id>, parentOf': map<Id, Id>)
    requires Recorded(folders, parentOf, seen) && forall j :: 0 <= j < |seen| ==> seen[j].id != x.id
    ensures Recorded(folders', parentOf', seen + [x])
  {
    folders', parentOf' := folders + [x.id], parentOf[x.id := x.parent];
  }

  // ---------------------------------------------------------------- sorting the files

  ghost predicate Holds(stays: set<Id>, files: seq<Visit>, p: Id) {
    exists i :: 0 <= i < |files| && files[i].parent == p && files[i].id in stays
  }

  function Count(keep: map<Id, nat>, p: Id): nat {
    if p in keep then keep[p] else 0
  }

  /** The second loop: junk is listed, every other file stays and is counted for its folder. */
  method Classify(es: Entries, pol: Policy, files: seq<Visit>)
    returns (junk: seq<Id>, kept: seq<(Id, Reason)>, keep: map<Id, nat>)
    requires forall i :: 0 <= i < |files| ==> IsFile(es, files[i].id)
    ensures forall x :: x in junk <==> IsJunk(es, pol, x) && Visited(files, x)
    ensures forall x: Id, why: Reason :: (x, why) in kept <==> IsKept(es, pol, x) && Visited(files, x) && why == KeepReason(es, pol, x)
    ensures |junk| + |kept| == |files|
    ensures forall p: Id :: Count(keep, p) > 0 <==> Holds(Stays(es, pol), files, p)
  {
    junk, kept, keep := [], [], map[];
    for i := 0 to |files|
      invariant forall x :: x in junk <==> IsJunk(es, pol, x) && Visited(files[..i], x)
      invariant forall x: Id, why: Reason :: (x, why) in kept <==> IsKept(es, pol, x) && Visited(files[..i], x) && why == KeepReason(es, pol, x)
      invariant |junk| + |kept| == i
      invariant forall p: Id :: Count(keep, p) > 0 <==> Holds(Stays(es, pol), files[..i], p)
    {
      var x, p := files[i].id, files[i].parent;
      OneMoreFile(Stays(es, pol), files, i);
      if x in pol.registered {
        kept := kept + [(x, HasDocument)];
      } else if es[x].kind == GoogleDoc {
        kept := kept + [(x, IsGoogleDoc)];
      } else if pol.ignored(es[x].name) {
        junk := junk + [x];
        continue;
      } else {
        kept := kept + [(x, NotRegistered)];
      }
      var n := Count(keep, p) + 1;
      keep := keep[p := n];
      assert forall q: Id :: Count(keep, q) > 0 <==> q == p || Holds(Stays(es, pol), files[..i], q);
    }
    assert files[..|files|] == files;
  }

  lemma OneMoreFile(stays: set<Id>, files: seq<Visit>, i: nat)
    requires i < |files|
    ensures forall x :: Visited(files[..i + 1], x) <==> Visited(files[..i], x) || x == files[i].id
    ensures forall p :: Holds(stays, files[..i + 1], p) <==>
                        Holds(stays, files[..i], p) || (p == files[i].parent && files[i].id in stays)
  {
    var a, b := files[..i], files[..i + 1];
    assert b == a + [files[i]];
    forall x ensures Visited(b, x) <==> Visited(a, x) || x == files[i].id {
      VisitedJoin(a, [files[i]], x);
      assert [files[i]][0].id == files[i].id;
    }
    forall p ensures Holds(stays, b, p) <==> Holds(stays, a, p) || (p == files[i].parent && files[i].id in stays) {
      if k :| 0 <= k < |a| && a[k].parent == p && a[k].id in stays { assert b[k] == a[k]; }
      if p == files[i].parent && files[i].id in stays { assert b[i] == files[i]; }
    }
  }

  // ---------------------------------------------------------------- the backward loop

  /** Everything the loop knows when it starts: what the walk says about the folders and their files. */
  ghost predicate Surveyed(es: Entries, stays: set<Id>, prot: set<Id>, root: Id, folders: seq<Id>, parentOf: map<Id, Id>,
                           keep: map<Id, nat>, guarded: set<Id>) {
    && (forall x :: x in stays ==> !IsFolder(es, x))
    && (forall x :: x in prot ==> IsFolder(es, x))
    && (forall x :: x in folders <==> IsFolder(es, x) && Inside(es, root, x))
    && (forall i, j :: 0 <= i < j < |folders| ==> folders[i] != folders[j] && !Inside(es, folders[j], folders[i]))
    && (forall i :: 0 <= i < |folders| ==> folders[i] in parentOf)
    && (forall i, p :: 0 <= i < |folders| ==> (parentOf[folders[i]] == p <==> Child(es, p, folders[i])))
    && (forall p :: IsFolder(es, p) && Under(es, root, p) ==> (Count(keep, p) > 0 <==> exists c :: Child(es, p, c) && c in stays))
    && (forall x :: IsFolder(es, x) && Under(es, root, x) ==> (x in guarded <==> x in prot))
  }

  method AllChildrenIn(folders: seq<Id>, parentOf: map<Id, Id>, f: Id, empty: set<Id>) returns (all: bool)
    requires forall i :: 0 <= i < |folders| ==> folders[i] in parentOf
    ensures all <==> forall i :: 0 <= i < |folders| && parentOf[folders[i]] == f ==> folders[i] in empty
  {
    for i := 0 to |folders|
      invariant forall k :: 0 <= k < i && parentOf[folders[k]] == f ==> folders[k] in empty
    {
      if parentOf[folders[i]] == f && folders[i] !in empty { return false; }
    }
    all := true;
  }

  /** The folders from index `i` on are decided, and the listed ones stand inside-out. */
  ghost predicate Swept(es: Entries, stays: set<Id>, prot: set<Id>, root: Id, folders: seq<Id>, i: nat, empty: set<Id>, listed: seq<Id>)
    requires i <= |folders|
  {
    && (forall x :: x in empty <==> x in folders[i..] && Hollow(es, stays, prot, x))
    && (forall x :: x in empty <==> x in listed)
    && (forall a, b :: 0 <= a < b < |listed| ==> listed[a] != listed[b] && !Inside(es, listed[a], listed[b]))
  }

  /** The test the loop makes for a folder decides whether its subtree is hollow. */
  lemma TestDecides(es: Entries, stays: set<Id>, prot: set<Id>, root: Id, folders: seq<Id>, parentOf: map<Id, Id>,
                    keep: map<Id, nat>, guarded: set<Id>, f: Id, i: nat, empty: set<Id>, listed: seq<Id>)
    requires IsFolder(es, f) && Surveyed(es, stays, prot, root, folders, parentOf, keep, guarded) && Under(es, root, f)
    requires i <= |folders| && Swept(es, stays, prot, root, folders, i, empty, listed)
    requires forall c :: Child(es, f, c) && IsFolder(es, c) ==> c in folders[i..]
    ensures Hollow(es, stays, prot, f) <==>
      && f !in guarded && Count(keep, f) == 0
      && forall k :: 0 <= k < |folders| && parentOf[folders[k]] == f ==> folders[k] in empty
  {
    HollowStep(es, stays, prot, f);
    forall c | Child(es, f, c) && IsFolder(es, c) ensures exists k :: 0 <= k < |folders| && folders[k] == c && parentOf[folders[k]] == f {
      var k :| 0 <= k < |folders[i..]| && folders[i..][k] == c;
      assert folders[i + k] == c;
    }
    forall k | 0 <= k < |folders| && parentOf[folders[k]] == f ensures Child(es, f, folders[k]) && IsFolder(es, folders[k]) {
      assert folders[k] in folders;
    }
  }

  lemma SweepOne(es: Entries, stays: set<Id>, prot: set<Id>, root: Id, folders: seq<Id>, i: nat, empty: set<Id>, listed: seq<Id>)
    requires i < |folders| && Swept(es, stays, prot, root, folders, i + 1, empty, listed)
    requires forall k, l :: 0 <= k < l < |folders| ==> folders[k] != folders[l] && !Inside(es, folders[l], folders[k])
    ensures if Hollow(es, stays, prot, folders[i]) then Swept(es, stays, prot, root, folders, i, empty + {folders[i]}, listed + [folders[i]])
            else Swept(es, stays, prot, root, folders, i, empty, listed)
  {
    assert folders[i..] == [folders[i]] + folders[i + 1..];
    forall x | x in listed ensures x != folders[i] && !Inside(es, x, folders[i]) {
      var k :| 0 <= k < |folders[i + 1..]| && folders[i + 1..][k] == x;
      assert folders[i + 1 + k] == x;
    }
  }

  /** Walking the pre-order list backwards meets every folder after all folders inside it. */
  method EmptyFolders(ghost es: Entries, ghost stays: set<Id>, ghost prot: set<Id>, root: Id, folders: seq<Id>, parentOf: map<Id, Id>,
                      keep: map<Id, nat>, guarded: set<Id>, allowRoot: bool)
    returns (listed: seq<Id>, rootEmpty: bool)
    requires IsFolder(es, root) && Acyclic(es) && Surveyed(es, stays, prot, root, folders, parentOf, keep, guarded)
    ensures forall x :: x in listed <==> Hollow(es, stays, prot, x) && (Inside(es, root, x) || (x == root && allowRoot))
    ensures forall i, j :: 0 <= i < j < |listed| ==> listed[i] != listed[j] && !Inside(es, listed[i], listed[j])
    ensures rootEmpty <==> root in listed
  {
    listed := [];
    var empty: set<Id> := {};
    var i := |folders|;
    while i > 0
      invariant 0 <= i <= |folders| && Swept(es, stays, prot, root, folders, i, empty, listed)
    {
      i := i - 1;
      var f := folders[i];
      SurveyAt(es, stays, prot, root, folders, parentOf, keep, guarded, i);
      TestDecides(es, stays, prot, root, folders, parentOf, keep, guarded, f, i + 1, empty, listed);
      SweepOne(es, stays, prot, root, folders, i, empty, listed);
      if f in guarded || Count(keep, f) > 0 { continue; }
      var all := AllChildrenIn(folders, parentOf, f, empty);
      if all {
        empty := empty + {f};
        listed := listed + [f];
      }
    }
    rootEmpty := false;
    RootTest(es, stays, prot, root, folders, parentOf, keep, guarded, empty, listed);
    if allowRoot && root !in guarded && Count(keep, root) == 0 {
      var all := AllChildrenIn(folders, parentOf, root, empty);
      if all {
        rootEmpty := true;
        listed := listed + [root];
      }
    }
  }

  lemma RootTest(es: Entries, stays: set<Id>, prot: set<Id>, root: Id, folders: seq<Id>, parentOf: map<Id, Id>,
                 keep: map<Id, nat>, guarded: set<Id>, empty: set<Id>, listed: seq<Id>)
    requires IsFolder(es, root) && Acyclic(es) && Surveyed(es, stays, prot, root, folders, parentOf, keep, guarded)
    requires Swept(es, stays, prot, root, folders, 0, empty, listed)
    ensures Hollow(es, stays, prot, root) <==>
      && root !in guarded && Count(keep, root) == 0
      && forall k :: 0 <= k < |folders| && parentOf[folders[k]] == root ==> folders[k] in empty
    ensures forall x :: x in listed <==> Hollow(es, stays, prot, x) && Inside(es, root, x)
    ensures forall x :: x in listed ==> x != root && !Inside(es, x, root)
  {
    assert folders[0..] == folders;
    forall c | Child(es, root, c) && IsFolder(es, c) ensures c in folders[0..] {
      assert Path(es, [root, c]);
    }
    TestDecides(es, stays, prot, root, folders, parentOf, keep, guarded, root, 0, empty, listed);
    forall x | x in listed ensures x != root && !Inside(es, x, root) {
      if Inside(es, x, root) { InsideJoin(es, root, x, root); }
    }
  }

  lemma SurveyAt(es: Entries, stays: set<Id>, prot: set<Id>, root: Id, folders: seq<Id>, parentOf: map<Id, Id>,
                 keep: map<Id, nat>, guarded: set<Id>, i: nat)
    requires IsFolder(es, root) && Acyclic(es) && Surveyed(es, stays, prot, root, folders, parentOf, keep, guarded)
    requires i < |folders|
    ensures IsFolder(es, folders[i]) && Inside(es, root, folders[i])
    ensures forall c :: Child(es, folders[i], c) && IsFolder(es, c) ==> c in folders[i + 1..]
  {
    var f := folders[i];
    assert f in folders;
    forall c | Child(es, f, c) && IsFolder(es, c)
      ensures c in folders[i + 1..]
    {
      assert Path(es, [f, c]);
      InsideJoin(es, root, f, c);
      var k :| 0 <= k < |folders| && folders[k] == c;
      assert k > i;
      assert folders[i + 1..][k - i - 1] == c;
    }
  }

  // ---------------------------------------------------------------- the plan

  /** Bookkeeping folders found below the root, and the year folders directly in them. */
  method GuardYears(es: Entries, pol: Policy, folders: seq<Id>, parentOf: map<Id, Id>) returns (guarded: set<Id>)
    requires forall i :: 0 <= i < |folders| ==> folders[i] in parentOf && folders[i] in es
    ensures guarded == pol.protectedIds + set f | f in folders
      && parentOf[f] in pol.bookkeeping && parentOf[f] in folders && pol.isYear(es[f].name)
  {
    var main := set f | f in folders && f in pol.bookkeeping;
    guarded := pol.protectedIds + set f | f in folders && parentOf[f] in main && pol.isYear(es[f].name);
  }

  /** The plan is exact: junk and kept files are all files inside the root; a folder is listed if and only if its
    * whole subtree holds no kept file and no protected folder (the root only when allowed), and it is listed
    * after every folder inside it. */
  ghost predicate Exact(es: Entries, pol: Policy, root: Id, allowRoot: bool, plan: TreePlan) {
    && (forall x :: x in plan.junk <==> IsJunk(es, pol, x) && Inside(es, root, x))
    && (forall x: Id, why: Reason :: (x, why) in plan.kept <==> IsKept(es, pol, x) && Inside(es, root, x) && why == KeepReason(es, pol, x))
    && |plan.junk| + |plan.kept| == plan.totalFiles
    && (forall x :: x in plan.emptyFolders <==> Hollow(es, Stays(es, pol), Guarded(es, pol, root), x) && (Inside(es, root, x) || (x == root && allowRoot)))
    && (forall i, j :: 0 <= i < j < |plan.emptyFolders| ==>
          plan.emptyFolders[i] != plan.emptyFolders[j] && !Inside(es, plan.emptyFolders[i], plan.emptyFolders[j]))
    && (plan.rootEmpty <==> root in plan.emptyFolders)
  }

  /** A file of that reason stays: a document belongs to it, or it is a Google document, or its name is not one to ignore. */
  ghost predicate StaysFor(es: Entries, pol: Policy, x: Id, why: Reason)
    requires x in es
  {
    match why
    case HasDocument => x in pol.registered
    case IsGoogleDoc => x !in pol.registered && es[x].kind == GoogleDoc
    case NotRegistered => x !in pol.registered && es[x].kind != GoogleDoc && !pol.ignored(es[x].name)
  }

  /** Nothing speaks for the entry: a file without document that is no Google document and bears a name to ignore, or a
    * folder that is neither protected nor a year folder directly in a bookkeeping folder below the root. */
  ghost predicate MayGo(es: Entries, pol: Policy, root: Id, x: Id) {
    x in es ==>
      if es[x].kind != Folder then x !in pol.registered && es[x].kind != GoogleDoc && pol.ignored(es[x].name)
      else x !in pol.protectedIds && !(pol.isYear(es[x].name) && exists p :: p in pol.bookkeeping && IsFolder(es, p) && Inside(es, root, p) && Child(es, p, x))
  }

  /** The plan told from the drive, the registered files and the names: what is junk, why a file stays, and that the folders
    * that go are those below which everything may go. */
  lemma PlanMeans(es: Entries, pol: Policy, root: Id, allowRoot: bool, plan: TreePlan)
    requires Exact(es, pol, root, allowRoot, plan)
    ensures forall x :: x in plan.junk <==>
      Inside(es, root, x) && x in es && es[x].kind != Folder && x !in pol.registered && es[x].kind != GoogleDoc && pol.ignored(es[x].name)
    ensures forall x: Id, why: Reason :: (x, why) in plan.kept <==> Inside(es, root, x) && x in es && es[x].kind != Folder && StaysFor(es, pol, x, why)
    ensures forall f :: f in plan.emptyFolders <==>
      f in es && es[f].kind == Folder && (Inside(es, root, f) || (f == root && allowRoot)) && forall x :: Under(es, f, x) ==> MayGo(es, pol, root, x)
  {
    hide Inside, Under, Child;
    forall x ensures MayGo(es, pol, root, x) <==> x !in Stays(es, pol) && x !in Guarded(es, pol, root) { MayGoIff(es, pol, root, x); }
  }

  lemma MayGoIff(es: Entries, pol: Policy, root: Id, x: Id)
    ensures MayGo(es, pol, root, x) <==> x !in Stays(es, pol) && x !in Guarded(es, pol, root)
  {
    hide Inside, Child;
  }

  lemma FilesOfWalk(es: Entries, key: NameKey, root: Id, x: Id)
    requires Acyclic(es) && IsFolder(es, root)
    ensures Visited(FileVisits(es, Walk(es, key, root, {root})), x) <==> IsFile(es, x) && Inside(es, root, x)
  {
    var v := Walk(es, key, root, {root});
    WalkExact(es, key, root, {root}, x);
    WalkListed(es, key, root, {root});
    if i :| 0 <= i < |FileVisits(es, v)| && FileVisits(es, v)[i].id == x {
      PartsOf(es, v, FileVisits(es, v)[i]);
      var k :| 0 <= k < |v| && v[k] == FileVisits(es, v)[i];
      assert Child(es, v[k].parent, v[k].id);
    }
    if IsFile(es, x) && Inside(es, root, x) {
      var k :| 0 <= k < |v| && v[k].id == x;
      PartsOf(es, v, v[k]);
    }
  }

  lemma FoldersOfWalk(es: Entries, key: NameKey, root: Id, x: Id)
    requires Acyclic(es) && IsFolder(es, root)
    ensures Visited(FolderVisits(es, Walk(es, key, root, {root})), x) <==> IsFolder(es, x) && Inside(es, root, x)
  {
    var v := Walk(es, key, root, {root});
    WalkExact(es, key, root, {root}, x);
    if i :| 0 <= i < |FolderVisits(es, v)| && FolderVisits(es, v)[i].id == x {
      PartsOf(es, v, FolderVisits(es, v)[i]);
    }
    if IsFolder(es, x) && Inside(es, root, x) {
      var k :| 0 <= k < |v| && v[k].id == x;
      PartsOf(es, v, v[k]);
    }
  }

  /** What the first two loops establish for the backward loop. */
  lemma SurveyHolds(es: Entries, key: NameKey, stays: set<Id>, prot: set<Id>, root: Id, folders: seq<Id>,
                    parentOf: map<Id, Id>, keep: map<Id, nat>, guarded: set<Id>)
    requires Acyclic(es) && SingleParent(es) && IsFolder(es, root)
    requires Recorded(folders, parentOf, FolderVisits(es, Walk(es, key, root, {root})))
    requires forall p: Id :: Count(keep, p) > 0 <==> Holds(stays, FileVisits(es, Walk(es, key, root, {root})), p)
    requires (forall x :: x in stays ==> IsFile(es, x)) && (forall x :: x in prot ==> IsFolder(es, x))
    requires forall x :: IsFolder(es, x) && Under(es, root, x) ==> (x in guarded <==> x in prot)
    ensures Surveyed(es, stays, prot, root, folders, parentOf, keep, guarded)
  {
    var v := Walk(es, key, root, {root});
    WalkListed(es, key, root, {root});
    WalkTopDown(es, key, root, {root});
    PartsTopDown(es, v);
    FolderList(es, key, root, folders, parentOf);
    forall i | 0 <= i < |folders|
      ensures folders[i] in parentOf && forall p :: parentOf[folders[i]] == p <==> Child(es, p, folders[i])
    {
      ParentRecorded(es, v, folders, parentOf, i);
    }
    forall p | IsFolder(es, p) && Under(es, root, p)
      ensures Count(keep, p) > 0 <==> exists c :: Child(es, p, c) && c in stays
    {
      HoldsIff(es, key, stays, root, p);
    }
  }

  lemma FolderList(es: Entries, key: NameKey, root: Id, folders: seq<Id>, parentOf: map<Id, Id>)
    requires Acyclic(es) && IsFolder(es, root)
    requires Recorded(folders, parentOf, FolderVisits(es, Walk(es, key, root, {root})))
    ensures forall x :: x in folders <==> IsFolder(es, x) && Inside(es, root, x)
  {
    var fv := FolderVisits(es, Walk(es, key, root, {root}));
    forall x ensures x in folders <==> IsFolder(es, x) && Inside(es, root, x) {
      FoldersOfWalk(es, key, root, x);
      if i :| 0 <= i < |fv| && fv[i].id == x { assert folders[i] == x; }
    }
  }

  lemma GuardIff(es: Entries, pol: Policy, root: Id, folders: seq<Id>, parentOf: map<Id, Id>, guarded: set<Id>, x: Id)
    requires Acyclic(es) && IsFolder(es, root) && IsFolder(es, x) && Under(es, root, x)
    requires forall f :: f in folders ==> f in es && f in parentOf
    requires forall f :: f in folders <==> IsFolder(es, f) && Inside(es, root, f)
    requires forall f, p :: f in folders ==> (parentOf[f] == p <==> Child(es, p, f))
    requires guarded == pol.protectedIds + set f | f in folders
           && parentOf[f] in pol.bookkeeping && parentOf[f] in folders && pol.isYear(es[f].name)
    ensures x in guarded <==> x in Guarded(es, pol, root)
  {
    if x in folders {
      assert Child(es, parentOf[x], x);
    }
    if p :| p in pol.bookkeeping && IsFolder(es, p) && Inside(es, root, p) && Child(es, p, x) {
      assert Path(es, [p, x]);
      InsideJoin(es, root, p, x);
      assert parentOf[x] == p;
    }
  }

  lemma ParentRecorded(es: Entries, v: seq<Visit>, folders: seq<Id>, parentOf: map<Id, Id>, i: nat)
    requires SingleParent(es) && Listed(es, v) && Recorded(folders, parentOf, FolderVisits(es, v)) && i < |folders|
    ensures folders[i] in parentOf && forall p :: parentOf[folders[i]] == p <==> Child(es, p, folders[i])
  {
    var x := FolderVisits(es, v)[i];
    PartsOf(es, v, x);
    var k :| 0 <= k < |v| && v[k] == x;
    assert Child(es, v[k].parent, v[k].id);
    forall p | Child(es, p, folders[i]) ensures parentOf[folders[i]] == p {
      OnlyParent(es, p, v[k].parent, folders[i]);
    }
  }

  lemma HoldsIff(es: Entries, key: NameKey, stays: set<Id>, root: Id, p: Id)
    requires Acyclic(es) && SingleParent(es) && IsFolder(es, root) && IsFolder(es, p) && Under(es, root, p)
    requires forall x :: x in stays ==> IsFile(es, x)
    ensures Holds(stays, FileVisits(es, Walk(es, key, root, {root})), p) <==> exists c :: Child(es, p, c) && c in stays
  {
    var files := FileVisits(es, Walk(es, key, root, {root}));
    FilesListed(es, key, root);
    if c :| Child(es, p, c) && c in stays {
      assert Path(es, [p, c]);
      if p != root { InsideJoin(es, root, p, c); }
      FilesOfWalk(es, key, root, c);
      var i :| 0 <= i < |files| && files[i].id == c;
      OnlyParent(es, files[i].parent, p, c);
    }
  }

  lemma OnlyParent(es: Entries, p: Id, q: Id, c: Id)
    requires SingleParent(es) && Child(es, p, c) && Child(es, q, c)
    ensures p == q
  {
    assert es[c].parents[0] == p && es[c].parents[0] == q;
  }

  lemma FilesListed(es: Entries, key: NameKey, root: Id)
    ensures Listed(es, FileVisits(es, Walk(es, key, root, {root})))
  {
    var v := Walk(es, key, root, {root});
    WalkListed(es, key, root, {root});
    forall i | 0 <= i < |FileVisits(es, v)| ensures Child(es, FileVisits(es, v)[i].parent, FileVisits(es, v)[i].id) {
      PartsOf(es, v, FileVisits(es, v)[i]);
      var k :| 0 <= k < |v| && v[k] == FileVisits(es, v)[i];
    }
  }

  method PlanTree(es: Entries, key: NameKey, pol: Policy, root: Id, allowRoot: bool) returns (plan: TreePlan)
    requires Acyclic(es) && SingleParent(es)
    ensures plan.blocker == Some(Missing) <==> !IsFolder(es, root) || es[root].trashed
    ensures plan.blocker == Some(TooManyFiles) <==>
      IsFolder(es, root) && !es[root].trashed && |FileVisits(es, Walk(es, key, root, {root}))| > pol.limit
    ensures plan.blocker.Some? ==> plan.junk == [] && plan.emptyFolders == []
    ensures plan.blocker.None? ==> Exact(es, pol, root, allowRoot, plan)
  {
    if root !in es || es[root].trashed || es[root].kind != Folder {
      return TreePlan([], [], [], 0, false, Some(Missing));
    }
    var v := Walk(es, key, root, {root});
    WalkTopDown(es, key, root, {root});
    var folders, parentOf, files, over := ReadWalk(es, v, pol.limit);
    if over {
      return TreePlan([], [], [], 0, false, Some(TooManyFiles));
    }
    FolderParents(es, key, root, folders, parentOf);
    FilesAre(es, key, root);
    var guarded := GuardYears(es, pol, folders, parentOf);
    var junk, kept, keep := Classify(es, pol, files);
    forall x | IsFolder(es, x) && Under(es, root, x) ensures x in guarded <==> x in Guarded(es, pol, root) {
      GuardIff(es, pol, root, folders, parentOf, guarded, x);
    }
    SurveyHolds(es, key, Stays(es, pol), Guarded(es, pol, root), root, folders, parentOf, keep, guarded);
    var listed, rootEmpty := EmptyFolders(es, Stays(es, pol), Guarded(es, pol, root), root, folders, parentOf, keep, guarded, allowRoot);
    return TreePlan(junk, listed, kept, |files|, rootEmpty, None);
  }

  lemma FolderParents(es: Entries, key: NameKey, root: Id, folders: seq<Id>, parentOf: map<Id, Id>)
    requires Acyclic(es) && SingleParent(es) && IsFolder(es, root)
    requires Recorded(folders, parentOf, FolderVisits(es, Walk(es, key, root, {root})))
    ensures forall x :: x in folders <==> IsFolder(es, x) && Inside(es, root, x)
    ensures forall f :: f in folders ==> f in es && f in parentOf
    ensures forall f, p :: f in folders ==> (parentOf[f] == p <==> Child(es, p, f))
  {
    var v := Walk(es, key, root, {root});
    FolderList(es, key, root, folders, parentOf);
    WalkListed(es, key, root, {root});
    forall f | f in folders ensures f in parentOf && forall p :: parentOf[f] == p <==> Child(es, p, f) {
      var i :| 0 <= i < |folders| && folders[i] == f;
      ParentRecorded(es, v, folders, parentOf, i);
    }
  }

  lemma FilesAre(es: Entries, key: NameKey, root: Id)
    requires Acyclic(es) && IsFolder(es, root)
    ensures var files := FileVisits(es, Walk(es, key, root, {root}));
      && (forall i :: 0 <= i < |files| ==> IsFile(es, files[i].id))
      && (forall x :: Visited(files, x) <==> IsFile(es, x) && Inside(es, root, x))
  {
    var v := Walk(es, key, root, {root});
    var files := FileVisits(es, v);
    FilesListed(es, key, root);
    forall i | 0 <= i < |files| ensures IsFile(es, files[i].id) {
      PartsOf(es, v, files[i]);
      assert Child(es, files[i].parent, files[i].id);
    }
    forall x ensures Visited(files, x) <==> IsFile(es, x) && Inside(es, root, x) {
      FilesOfWalk(es, key, root, x);
    }
  }
}
