/** The folder tree inside a drive: listings, the pre-order walk and the files below a folder
  * (adapter.py, _walk, list_children, count_tree). Listings are sorted by the position of the case-folded name,
  * which stays an arbitrary key here. */
module Tree {
  import opened Drive
  import opened Sorting

  type NameKey = string -> real

  function EntryKey(es: Entries, key: NameKey): Id -> real {
    f => if f in es then key(es[f].name) else 0.0
  }

  predicate IsFolder(es: Entries, f: Id) {
    f in es && es[f].kind == Folder
  }

  /** `c` is listed when `f` is listed: in it and not in the trash. */
  predicate Child(es: Entries, f: Id, c: Id) {
    c in es && f in es[c].parents && !es[c].trashed
  }

  function ChildSet(es: Entries, f: Id): set<Id> {
    set c | c in es && Child(es, f, c)
  }

  function ListChildren(es: Entries, key: NameKey, f: Id): (r: seq<Id>)
    ensures forall c :: c in r <==> Child(es, f, c)
    ensures forall i :: 0 <= i < |r| ==> Child(es, f, r[i])
    ensures IsSorted(EntryKey(es, key), r)
    ensures |r| == |ChildSet(es, f)|
  {
    Sorted(EntryKey(es, key), ChildSet(es, f))
  }

  // ---------------------------------------------------------------- paths

  /** A downward path of live entries from the folder `p[0]`; everything above the last entry is a folder. */
  ghost predicate Path(es: Entries, p: seq<Id>) {
    && |p| >= 2
    && (forall i :: 0 <= i < |p| - 1 ==> IsFolder(es, p[i]) && Child(es, p[i], p[i + 1]))
  }

  ghost predicate Inside(es: Entries, f: Id, x: Id) {
    exists p :: Path(es, p) && p[0] == f && p[|p| - 1] == x
  }

  ghost predicate Under(es: Entries, f: Id, x: Id) {
    x == f || Inside(es, f, x)
  }

  /** No folder lies inside itself. */
  ghost predicate Acyclic(es: Entries) {
    forall x :: !Inside(es, x, x)
  }

  /** Drive gives every entry at most one parent. */
  ghost predicate SingleParent(es: Entries) {
    forall c :: c in es ==> |es[c].parents| <= 1
  }

  lemma InsideJoin(es: Entries, f: Id, g: Id, x: Id)
    requires Inside(es, f, g) && Inside(es, g, x)
    ensures Inside(es, f, x)
  {
    var p :| Path(es, p) && p[0] == f && p[|p| - 1] == g;
    var q :| Path(es, q) && q[0] == g && q[|q| - 1] == x;
    var r := p + q[1..];
    assert forall i :: 0 <= i < |p| ==> r[i] == p[i];
    assert forall i :: |p| - 1 <= i < |r| ==> r[i] == q[i - |p| + 1];
    assert Path(es, r);
  }

  /** Decomposition at the top: an entry inside `f` is a child of `f` or inside a child of `f`. */
  lemma InsideTop(es: Entries, f: Id, x: Id)
    ensures Inside(es, f, x) <==> IsFolder(es, f) && exists c :: Child(es, f, c) && Under(es, c, x)
  {
    if Inside(es, f, x) {
      var p :| Path(es, p) && p[0] == f && p[|p| - 1] == x;
      if |p| > 2 {
        var q := p[1..];
        assert forall i :: 0 <= i < |q| ==> q[i] == p[i + 1];
        assert Path(es, q);
      }
      assert Child(es, f, p[1]) && Under(es, p[1], x);
    }
    if IsFolder(es, f) {
      if c :| Child(es, f, c) && Under(es, c, x) {
        assert Path(es, [f, c]);
        if c != x { InsideJoin(es, f, c, x); }
      }
    }
  }

  /** Decomposition at the bottom. */
  lemma InsideBottom(es: Entries, f: Id, x: Id) returns (p: Id)
    requires Inside(es, f, x)
    ensures IsFolder(es, p) && Child(es, p, x) && Under(es, f, p)
  {
    var path :| Path(es, path) && path[0] == f && path[|path| - 1] == x;
    p := path[|path| - 2];
    if |path| > 2 {
      var q := path[..|path| - 1];
      assert Path(es, q);
    }
  }

  lemma SameTail(es: Entries, p: seq<Id>, q: seq<Id>)
    requires SingleParent(es) && Path(es, p) && Path(es, q) && p[|p| - 1] == q[|q| - 1] && |p| <= |q|
    ensures Under(es, q[0], p[0])
  {
    var d := |q| - |p|;
    var i := |p| - 1;
    while i > 0
      invariant 0 <= i < |p|
      invariant p[i] == q[i + d]
    {
      assert Child(es, p[i - 1], p[i]) && Child(es, q[i - 1 + d], q[i + d]);
      i := i - 1;
    }
    if d > 0 {
      var r := q[..d + 1];
      assert Path(es, r);
    }
  }

  /** Two folders above the same entry lie on one line. */
  lemma Comparable(es: Entries, f: Id, g: Id, x: Id)
    requires SingleParent(es) && Under(es, f, x) && Under(es, g, x)
    ensures Under(es, f, g) || Under(es, g, f)
  {
    if x != f && x != g {
      var p :| Path(es, p) && p[0] == f && p[|p| - 1] == x;
      var q :| Path(es, q) && q[0] == g && q[|q| - 1] == x;
      if |p| <= |q| { SameTail(es, p, q); } else { SameTail(es, q, p); }
    }
  }

  lemma NotInsideSibling(es: Entries, f: Id, c: Id, k: Id)
    requires SingleParent(es) && Acyclic(es) && IsFolder(es, f) && Child(es, f, c) && Child(es, f, k)
    ensures !Inside(es, k, c)
  {
    assert Path(es, [f, k]);
    assert Inside(es, f, k) && !Inside(es, k, k);
    if Inside(es, k, c) {
      var p := InsideBottom(es, k, c);
      assert p == f;
      if k != f { InsideJoin(es, k, f, k); }
    }
  }

  /** The subtrees of two children of one folder have nothing to do with each other. */
  lemma SiblingsApart(es: Entries, f: Id, c: Id, k: Id, x: Id, y: Id)
    requires SingleParent(es) && Acyclic(es) && IsFolder(es, f)
    requires Child(es, f, c) && Child(es, f, k) && c != k && Under(es, c, x) && Under(es, k, y)
    ensures x != y && !Inside(es, y, x)
  {
    NotInsideSibling(es, f, c, k);
    NotInsideSibling(es, f, k, c);
    if x == y || Inside(es, y, x) {
      if x != y && y != k { InsideJoin(es, k, y, x); }
      Comparable(es, c, k, x);
    }
  }

  // ---------------------------------------------------------------- the walk

  /** One step of the walk: the entry and the folder it was listed in. */
  datatype Visit = Visit(id: Id, parent: Id)

  /** Pre-order walk below `f`, the last folder of `path`. Where the tree is cyclic the walk of the program
    * does not end; here it stops at a folder it is already inside. */
  function Walk(es: Entries, key: NameKey, f: Id, path: set<Id>): seq<Visit>
    decreases es.Keys - path, 1, 0
  {
    WalkAll(es, key, f, path, ListChildren(es, key, f))
  }

  function WalkAll(es: Entries, key: NameKey, f: Id, path: set<Id>, kids: seq<Id>): seq<Visit>
    decreases es.Keys - path, 0, |kids|
  {
    if kids == [] then []
    else
      var c := kids[0];
      [Visit(c, f)] + Below(es, key, path, c) + WalkAll(es, key, f, path, kids[1..])
  }

  function Below(es: Entries, key: NameKey, path: set<Id>, c: Id): seq<Visit>
    decreases es.Keys - path, 0, 0
  {
    if IsFolder(es, c) && c !in path then Walk(es, key, c, path + {c}) else []
  }

  ghost predicate Visited(v: seq<Visit>, x: Id) {
    exists i :: 0 <= i < |v| && v[i].id == x
  }

  ghost predicate UnderSome(es: Entries, kids: seq<Id>, x: Id) {
    exists i :: 0 <= i < |kids| && Under(es, kids[i], x)
  }

  /** The folders being walked lie above `f`, so on an acyclic drive none of them is met again. */
  ghost predicate Above(es: Entries, path: set<Id>, f: Id) {
    forall p :: p in path ==> Under(es, p, f)
  }

  lemma OneDown(es: Entries, path: set<Id>, f: Id, c: Id)
    requires Acyclic(es) && IsFolder(es, f) && Above(es, path, f) && Child(es, f, c)
    ensures c !in path && Above(es, path + {c}, c)
  {
    assert Path(es, [f, c]);
    assert Inside(es, f, c);
    forall p | p in path + {c} ensures Under(es, p, c) {
      if p in path && p != f { InsideJoin(es, p, f, c); }
    }
    if c in path && c != f { InsideJoin(es, c, f, c); }
  }

  // ---------------------------------------------------------------- what the walk visits

  /** The walk visits exactly the entries inside the folder, each listed in its parent. */
  lemma {:induction false} WalkExact(es: Entries, key: NameKey, f: Id, path: set<Id>, x: Id)
    requires Acyclic(es) && IsFolder(es, f) && Above(es, path, f)
    ensures Visited(Walk(es, key, f, path), x) <==> Inside(es, f, x)
    decreases es.Keys - path, 1, 0
  {
    var kids := ListChildren(es, key, f);
    WalkAllExact(es, key, f, path, kids, x);
    InsideTop(es, f, x);
    if c :| Child(es, f, c) && Under(es, c, x) {
      var i :| 0 <= i < |kids| && kids[i] == c;
    }
  }

  lemma {:induction false} WalkAllExact(es: Entries, key: NameKey, f: Id, path: set<Id>, kids: seq<Id>, x: Id)
    requires Acyclic(es) && IsFolder(es, f) && Above(es, path, f)
    requires forall i :: 0 <= i < |kids| ==> Child(es, f, kids[i])
    ensures Visited(WalkAll(es, key, f, path, kids), x) <==> UnderSome(es, kids, x)
    decreases es.Keys - path, 0, |kids|
  {
    if kids != [] {
      var c := kids[0];
      var below, rest := Below(es, key, path, c), WalkAll(es, key, f, path, kids[1..]);
      var all := [Visit(c, f)] + below + rest;
      BelowExact(es, key, f, path, c, x);
      WalkAllExact(es, key, f, path, kids[1..], x);
      VisitedJoin([Visit(c, f)] + below, rest, x);
      VisitedJoin([Visit(c, f)], below, x);
      assert Visited([Visit(c, f)], x) <==> x == c by { assert [Visit(c, f)][0].id == c; }
      UnderSomeSplit(es, kids, x);
    }
  }

  lemma {:induction false} BelowExact(es: Entries, key: NameKey, f: Id, path: set<Id>, c: Id, x: Id)
    requires Acyclic(es) && IsFolder(es, f) && Above(es, path, f) && Child(es, f, c)
    ensures Visited(Below(es, key, path, c), x) <==> Inside(es, c, x)
    decreases es.Keys - path, 0, 0
  {
    OneDown(es, path, f, c);
    if IsFolder(es, c) {
      WalkExact(es, key, c, path + {c}, x);
    } else if Inside(es, c, x) {
      InsideTop(es, c, x);
    }
  }

  lemma VisitedJoin(a: seq<Visit>, b: seq<Visit>, x: Id)
    ensures Visited(a + b, x) <==> Visited(a, x) || Visited(b, x)
  {
    if Visited(a, x) {
      var i :| 0 <= i < |a| && a[i].id == x;
      assert (a + b)[i].id == x;
    }
    if Visited(b, x) {
      var i :| 0 <= i < |b| && b[i].id == x;
      assert (a + b)[|a| + i].id == x;
    }
  }

  lemma UnderSomeSplit(es: Entries, kids: seq<Id>, x: Id)
    requires kids != []
    ensures UnderSome(es, kids, x) <==> Under(es, kids[0], x) || UnderSome(es, kids[1..], x)
  {
    if i :| 0 <= i < |kids| && Under(es, kids[i], x) {
      if i > 0 { assert Under(es, kids[1..][i - 1], x); }
    }
    if i :| 0 <= i < |kids[1..]| && Under(es, kids[1..][i], x) {
      assert Under(es, kids[i + 1], x);
    }
  }

  // ---------------------------------------------------------------- the order of the walk

  /** No entry comes twice, and none comes before a folder it lies in. */
  ghost predicate TopDown(es: Entries, v: seq<Visit>) {
    forall i, j :: 0 <= i < j < |v| ==> v[i].id != v[j].id && !Inside(es, v[j].id, v[i].id)
  }

  ghost predicate Listed(es: Entries, v: seq<Visit>) {
    forall i :: 0 <= i < |v| ==> Child(es, v[i].parent, v[i].id)
  }

  lemma {:induction false} WalkListed(es: Entries, key: NameKey, f: Id, path: set<Id>)
    ensures Listed(es, Walk(es, key, f, path))
    decreases es.Keys - path, 1, 0
  {
    WalkAllListed(es, key, f, path, ListChildren(es, key, f));
  }

  lemma {:induction false} WalkAllListed(es: Entries, key: NameKey, f: Id, path: set<Id>, kids: seq<Id>)
    requires forall i :: 0 <= i < |kids| ==> Child(es, f, kids[i])
    ensures Listed(es, WalkAll(es, key, f, path, kids))
    decreases es.Keys - path, 0, |kids|
  {
    if kids != [] {
      if IsFolder(es, kids[0]) && kids[0] !in path { WalkListed(es, key, kids[0], path + {kids[0]}); }
      WalkAllListed(es, key, f, path, kids[1..]);
    }
  }

  lemma {:induction false} WalkTopDown(es: Entries, key: NameKey, f: Id, path: set<Id>)
    requires Acyclic(es) && SingleParent(es) && IsFolder(es, f) && Above(es, path, f)
    ensures TopDown(es, Walk(es, key, f, path))
    decreases es.Keys - path, 1, 0
  {
    SortedHasNoRepeats(EntryKey(es, key), ListChildren(es, key, f));
    WalkAllTopDown(es, key, f, path, ListChildren(es, key, f));
  }

  lemma {:induction false} WalkAllTopDown(es: Entries, key: NameKey, f: Id, path: set<Id>, kids: seq<Id>)
    requires Acyclic(es) && SingleParent(es) && IsFolder(es, f) && Above(es, path, f)
    requires forall i :: 0 <= i < |kids| ==> Child(es, f, kids[i])
    requires forall i, j :: 0 <= i < j < |kids| ==> kids[i] != kids[j]
    ensures TopDown(es, WalkAll(es, key, f, path, kids))
    decreases es.Keys - path, 0, |kids|
  {
    if kids != [] {
      var c := kids[0];
      var below, rest := Below(es, key, path, c), WalkAll(es, key, f, path, kids[1..]);
      BelowTopDown(es, key, f, path, c);
      WalkAllTopDown(es, key, f, path, kids[1..]);
      forall i, j | 0 <= i < |[Visit(c, f)] + below| && 0 <= j < |rest| ensures Apart(es, [Visit(c, f)] + below, rest, i, j) {
        if i > 0 { BelowExact(es, key, f, path, c, below[i - 1].id); }
        RestApart(es, key, f, path, kids, ([Visit(c, f)] + below)[i].id, j);
      }
      Join(es, [Visit(c, f)] + below, rest);
    }
  }

  lemma {:induction false} BelowTopDown(es: Entries, key: NameKey, f: Id, path: set<Id>, c: Id)
    requires Acyclic(es) && SingleParent(es) && IsFolder(es, f) && Above(es, path, f) && Child(es, f, c)
    ensures TopDown(es, [Visit(c, f)] + Below(es, key, path, c))
    decreases es.Keys - path, 0, 0
  {
    var below := Below(es, key, path, c);
    OneDown(es, path, f, c);
    if IsFolder(es, c) { WalkTopDown(es, key, c, path + {c}); }
    forall i, j | 0 <= i < 1 && 0 <= j < |below| ensures Apart(es, [Visit(c, f)], below, i, j) {
      HeadApart(es, key, f, path, c, j);
    }
    Join(es, [Visit(c, f)], below);
  }

  ghost predicate Apart(es: Entries, a: seq<Visit>, b: seq<Visit>, i: nat, j: nat)
    requires i < |a| && j < |b|
  {
    a[i].id != b[j].id && !Inside(es, b[j].id, a[i].id)
  }

  lemma Join(es: Entries, a: seq<Visit>, b: seq<Visit>)
    requires TopDown(es, a) && TopDown(es, b)
    requires forall i, j :: 0 <= i < |a| && 0 <= j < |b| ==> Apart(es, a, b, i, j)
    ensures TopDown(es, a + b)
  {
    forall i, j | 0 <= i < j < |a + b|
      ensures (a + b)[i].id != (a + b)[j].id && !Inside(es, (a + b)[j].id, (a + b)[i].id)
    {
      if i < |a| <= j { assert Apart(es, a, b, i, j - |a|); }
    }
  }

  lemma HeadApart(es: Entries, key: NameKey, f: Id, path: set<Id>, c: Id, j: nat)
    requires Acyclic(es) && IsFolder(es, f) && Above(es, path, f) && Child(es, f, c)
    requires j < |Below(es, key, path, c)|
    ensures var b := Below(es, key, path, c)[j].id; b != c && !Inside(es, b, c)
  {
    var below := Below(es, key, path, c);
    BelowExact(es, key, f, path, c, below[j].id);
    if Inside(es, below[j].id, c) { InsideJoin(es, c, below[j].id, c); }
  }

  lemma RestApart(es: Entries, key: NameKey, f: Id, path: set<Id>, kids: seq<Id>, x: Id, j: nat)
    requires Acyclic(es) && SingleParent(es) && IsFolder(es, f) && Above(es, path, f)
    requires kids != [] && forall i :: 0 <= i < |kids| ==> Child(es, f, kids[i])
    requires forall i, j :: 0 <= i < j < |kids| ==> kids[i] != kids[j]
    requires Under(es, kids[0], x) && j < |WalkAll(es, key, f, path, kids[1..])|
    ensures var y := WalkAll(es, key, f, path, kids[1..])[j].id; x != y && !Inside(es, y, x)
  {
    var rest := WalkAll(es, key, f, path, kids[1..]);
    WalkAllExact(es, key, f, path, kids[1..], rest[j].id);
    var k :| 0 <= k < |kids[1..]| && Under(es, kids[1..][k], rest[j].id);
    SiblingsApart(es, f, kids[0], kids[k + 1], x, rest[j].id);
  }
}
