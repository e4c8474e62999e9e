/** Counting the files below a folder (adapter.py, count_tree). The count and the hash over the sorted ids are
  * functions of the bag of ids, and a collision-free hash determines it. */
module FileCount {
  import opened Drive
  import opened Sorting
  import opened Tree

  function FilesIn(es: Entries, v: seq<Visit>): multiset<Id> {
    if v == [] then multiset{}
    else (if IsFolder(es, v[0].id) then multiset{} else multiset{v[0].id}) + FilesIn(es, v[1..])
  }

  function FileBag(es: Entries, key: NameKey, f: Id): multiset<Id> {
    FilesIn(es, Walk(es, key, f, {f}))
  }

  ghost predicate VisitedOnce(v: seq<Visit>) {
    forall i, j :: 0 <= i < j < |v| ==> v[i].id != v[j].id
  }

  lemma {:induction false} FilesInCount(es: Entries, v: seq<Visit>, x: Id)
    requires VisitedOnce(v)
    ensures FilesIn(es, v)[x] == if Visited(v, x) && !IsFolder(es, x) then 1 else 0
  {
    if v != [] {
      FilesInCount(es, v[1..], x);
      assert Visited(v, x) <==> v[0].id == x || Visited(v[1..], x) by {
        if i :| 0 <= i < |v[1..]| && v[1..][i].id == x { assert v[i + 1].id == x; }
        if i :| 0 <= i < |v| && v[i].id == x { assert i == 0 || v[1..][i - 1].id == x; }
      }
      if Visited(v[1..], x) {
        var i :| 0 <= i < |v[1..]| && v[1..][i].id == x;
        assert v[0].id != v[i + 1].id;
      }
    }
  }

  /** The bag holds every live file inside the folder once, and nothing else. */
  lemma BagIs(es: Entries, key: NameKey, f: Id, x: Id)
    requires Acyclic(es) && SingleParent(es) && IsFolder(es, f)
    ensures FileBag(es, key, f)[x] == if x in es && es[x].kind != Folder && Inside(es, f, x) then 1 else 0
  {
    hide FilesIn;
    var v := Walk(es, key, f, {f});
    WalkExact(es, key, f, {f}, x);
    WalkListed(es, key, f, {f});
    WalkTopDown(es, key, f, {f});
    FilesInCount(es, v, x);
    if Visited(v, x) {
      var i :| 0 <= i < |v| && v[i].id == x;
      assert Child(es, v[i].parent, v[i].id);
    }
  }

  /** Nothing but names changed, and what is new is a live folder that no older entry lies in. */
  ghost predicate Preserved(es: Entries, later: Entries) {
    && (forall c :: c in es ==> c in later && later[c].(name := es[c].name) == es[c])
    && (forall c :: c in later && c !in es ==> later[c].kind == Folder && !later[c].trashed)
    && (forall c, p :: c in es && p in es[c].parents && p in later ==> p in es)
  }

  // ---------------------------------------------------------------- the bag as a sum over the children

  function KidBag(es: Entries, key: NameKey, path: set<Id>, c: Id): multiset<Id> {
    (if IsFolder(es, c) then multiset{} else multiset{c}) + FilesIn(es, Below(es, key, path, c))
  }

  function KidBags(es: Entries, key: NameKey, path: set<Id>): Id -> multiset<Id> {
    (c: Id) => KidBag(es, key, path, c)
  }

  function Sum(g: Id -> multiset<Id>, kids: seq<Id>): multiset<Id> {
    if kids == [] then multiset{} else g(kids[0]) + Sum(g, kids[1..])
  }

  lemma {:induction false} FilesInJoin(es: Entries, a: seq<Visit>, b: seq<Visit>)
    ensures FilesIn(es, a + b) == FilesIn(es, a) + FilesIn(es, b)
  {
    if a == [] {
      assert a + b == b;
    } else {
      assert (a + b)[1..] == a[1..] + b;
      FilesInJoin(es, a[1..], b);
    }
  }

  lemma {:induction false} WalkSum(es: Entries, key: NameKey, f: Id, path: set<Id>, kids: seq<Id>)
    ensures FilesIn(es, WalkAll(es, key, f, path, kids)) == Sum(KidBags(es, key, path), kids)
    decreases |kids|
  {
    if kids != [] {
      var c := kids[0];
      WalkSum(es, key, f, path, kids[1..]);
      FilesInJoin(es, [Visit(c, f)] + Below(es, key, path, c), WalkAll(es, key, f, path, kids[1..]));
      FilesInJoin(es, [Visit(c, f)], Below(es, key, path, c));
    }
  }

  /** Taking a child out of the middle. */
  lemma {:induction false} SumWithout(g: Id -> multiset<Id>, kids: seq<Id>, i: nat)
    requires i < |kids|
    ensures Sum(g, kids) == g(kids[i]) + Sum(g, kids[..i] + kids[i + 1..])
    decreases i
  {
    if i == 0 {
      assert kids[..0] + kids[1..] == kids[1..];
    } else {
      SumWithout(g, kids[1..], i - 1);
      assert kids[1..][..i - 1] + kids[1..][i..] == (kids[..i] + kids[i + 1..])[1..];
    }
  }

  ghost predicate NoRepeats(s: seq<Id>) {
    forall i, j :: 0 <= i < j < |s| ==> s[i] != s[j]
  }

  lemma WithoutAt(a: seq<Id>, i: nat) returns (rest: seq<Id>)
    requires i < |a| && NoRepeats(a)
    ensures rest == a[..i] + a[i + 1..] && NoRepeats(rest) && forall c :: c in rest <==> c in a && c != a[i]
  {
    rest := a[..i] + a[i + 1..];
    forall c | c in a && c != a[i] ensures c in rest {
      var j :| 0 <= j < |a| && a[j] == c;
      assert rest[if j < i then j else j - 1] == c;
    }
  }

  /** The sum does not depend on the order, nor on children that add nothing. */
  lemma {:induction false} SumReordered(g: Id -> multiset<Id>, h: Id -> multiset<Id>, a: seq<Id>, b: seq<Id>)
    requires NoRepeats(a) && NoRepeats(b)
    requires forall c :: c in a ==> c in b && g(c) == h(c)
    requires forall c :: c in b && c !in a ==> h(c) == multiset{}
    ensures Sum(g, a) == Sum(h, b)
    decreases |b|
  {
    if b == [] {
      if a != [] { InFirst(a); assert false; }
    } else if b[0] in a {
      var i :| 0 <= i < |a| && a[i] == b[0];
      SumWithout(g, a, i);
      var rest := WithoutAt(a, i);
      TailOf(b);
      SumReordered(g, h, rest, b[1..]);
    } else {
      TailOf(b);
      InFirst(b);
      SumReordered(g, h, a, b[1..]);
    }
  }

  lemma InFirst(a: seq<Id>)
    requires a != []
    ensures a[0] in a
  {
  }

  lemma TailOf(b: seq<Id>)
    requires b != [] && NoRepeats(b)
    ensures NoRepeats(b[1..]) && forall c :: c in b[1..] <==> c in b && c != b[0]
  {
    forall c | c in b && c != b[0] ensures c in b[1..] {
      var i :| 0 <= i < |b| && b[i] == c;
      assert b[1..][i - 1] == c;
    }
  }

  // ---------------------------------------------------------------- conservation

  lemma {:induction false} NewFolderHoldsNoFile(es: Entries, later: Entries, key: NameKey, f: Id, path: set<Id>)
    requires Preserved(es, later) && f in later && f !in es
    ensures FilesIn(later, Walk(later, key, f, path)) == multiset{}
    decreases later.Keys - path, 1, 0
  {
    var kids := ListChildren(later, key, f);
    WalkSum(later, key, f, path, kids);
    forall i | 0 <= i < |kids| ensures kids[i] !in es && kids[i] in later {
      assert Child(later, f, kids[i]);
    }
    NewKidsHoldNoFile(es, later, key, path, kids);
  }

  lemma {:induction false} NewKidsHoldNoFile(es: Entries, later: Entries, key: NameKey, path: set<Id>, kids: seq<Id>)
    requires Preserved(es, later) && forall i :: 0 <= i < |kids| ==> kids[i] !in es && kids[i] in later
    ensures Sum(KidBags(later, key, path), kids) == multiset{}
    decreases later.Keys - path, 0, |kids|
  {
    if kids != [] {
      NewKidsHoldNoFile(es, later, key, path, kids[1..]);
      if kids[0] !in path { NewFolderHoldsNoFile(es, later, key, kids[0], path + {kids[0]}); }
    }
  }

  /** Renaming entries and adding folders leaves the bag of files below every folder as it was,
    * although the walk may visit the folders in another order. */
  lemma {:induction false} WalkKeepsFiles(es: Entries, later: Entries, key: NameKey, f: Id, path: set<Id>)
    requires Preserved(es, later) && f in es
    ensures FilesIn(later, Walk(later, key, f, path)) == FilesIn(es, Walk(es, key, f, path))
    decreases later.Keys - path, 1
  {
    var a, b := ListChildren(es, key, f), ListChildren(later, key, f);
    WalkSum(es, key, f, path, a);
    WalkSum(later, key, f, path, b);
    SortedHasNoRepeats(EntryKey(es, key), a);
    SortedHasNoRepeats(EntryKey(later, key), b);
    var g, h := KidBags(es, key, path), KidBags(later, key, path);
    forall c | c in a ensures c in b && g(c) == h(c) {
      assert Child(later, f, c);
      OldKid(es, later, key, path, c);
    }
    forall c | c in b && c !in a ensures h(c) == multiset{} {
      NewKid(es, later, key, f, path, c);
    }
    SumReordered(g, h, a, b);
  }

  lemma {:induction false} OldKid(es: Entries, later: Entries, key: NameKey, path: set<Id>, c: Id)
    requires Preserved(es, later) && c in es
    ensures KidBag(es, key, path, c) == KidBag(later, key, path, c)
    decreases later.Keys - path, 0
  {
    if IsFolder(es, c) && c !in path { WalkKeepsFiles(es, later, key, c, path + {c}); }
  }

  lemma NewKid(es: Entries, later: Entries, key: NameKey, f: Id, path: set<Id>, c: Id)
    requires Preserved(es, later) && f in es && Child(later, f, c) && !Child(es, f, c)
    ensures KidBag(later, key, path, c) == multiset{}
  {
    assert c !in es;
    if c !in path { NewFolderHoldsNoFile(es, later, key, c, path + {c}); }
  }

  lemma FilesKept(es: Entries, later: Entries, key: NameKey, f: Id)
    requires Preserved(es, later) && f in es
    ensures FileBag(later, key, f) == FileBag(es, key, f)
  {
    WalkKeepsFiles(es, later, key, f, {f});
  }
}
