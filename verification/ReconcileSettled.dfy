/** From the list that was carried out to the folders that are there afterwards. */
module ReconcileSettled {
  import opened Wrappers
  import opened Drive
  import opened Sorting
  import opened Tree
  import opened FileCount
  import opened ReconcilePlan
  import opened ReconcileRun
  import opened ReconcileSafety
  import opened ReconcileBuild
  import opened ReconcileCatalogue
  import opened ReconcileConsistent
  import opened ReconcileGrowth
  import opened ReconcileAgain

  // ---------------------------------------------------------------- what the list creates and renames

  lemma MainPlanned(r: Rules, es: Entries, cfg: Config, kids: seq<Id>, parent: Ref, c: nat)
    requires c < |cfg.cats| && MainMissing(r, es, kids, Blocked(r, es, kids, cfg.cats), cfg.cats[c])
    ensures CreateFolder(MainPlace(cfg.cats[c].code), parent, cfg.cats[c].name) in FolderActions(r, es, cfg, kids, parent)
  {
    hide FolderActions, Blocked, FindFolder, Searched;
    var cat := cfg.cats[c];
    var a := CreateFolder(MainPlace(cat.code), parent, cat.name);
    assert a in FindActions(FindFolder(r, es, kids, cat.name), MainPlace(cat.code), cat.code, parent, cat.name);
    Planned(r, es, cfg, kids, parent, a, FromMain(c));
  }

  lemma SubPlannedToo(r: Rules, es: Entries, cfg: Config, kids: seq<Id>, parent: Ref, c: nat, k: nat)
    requires c < |cfg.cats| && k < |cfg.cats[c].subs|
    requires SubMissing(r, es, kids, Blocked(r, es, kids, cfg.cats), cfg.cats[c], cfg.cats[c].subs[k])
    ensures var cat, sub := cfg.cats[c], cfg.cats[c].subs[k];
      CreateFolder(SubPlace(cat.code, sub.id), SubRef(ParentNode(r, es, kids, cat), cat.code), sub.name) in FolderActions(r, es, cfg, kids, parent)
  {
    hide FolderActions, Blocked, FindFolder, Held, ParentNode, SubKids;
    var cat, sub := cfg.cats[c], cfg.cats[c].subs[k];
    var node := ParentNode(r, es, kids, cat);
    var a := CreateFolder(SubPlace(cat.code, sub.id), SubRef(node, cat.code), sub.name);
    assert a in FindActions(FindFolder(r, es, SubKids(r, es, node), sub.name), SubPlace(cat.code, sub.id), cat.code, SubRef(node, cat.code), sub.name);
    Planned(r, es, cfg, kids, parent, a, FromSub(c, k));
  }

  lemma RenamePlanned(r: Rules, es: Entries, cfg: Config, kids: seq<Id>, parent: Ref, c: nat)
    requires c < |cfg.cats| && LegacyOf(r, es, kids, cfg.cats[c]).Single?
    ensures var folder := LegacyOf(r, es, kids, cfg.cats[c]).folder;
      RenameFolder(cfg.cats[c].code, folder, cfg.cats[c].name, FileBag(es, r.key, folder)) in FolderActions(r, es, cfg, kids, parent)
  {
    hide FolderActions, Blocked, LegacyOf, FileBag;
    var cat := cfg.cats[c];
    var folder := LegacyOf(r, es, kids, cat).folder;
    var a := RenameFolder(cat.code, folder, cat.name, FileBag(es, r.key, folder));
    assert a in LegacyActions(r, es, kids, cat);
    Planned(r, es, cfg, kids, parent, a, FromLegacy(c));
  }

  // ---------------------------------------------------------------- the state after the run

  /** The run that carried out the whole list, and what it found before. */
  ghost predicate Carried(r: Rules, es: Entries, es2: Entries, cfg: Config, pre: seq<Action>, kids: seq<Id>, parent: Ref, made: map<Place, Id>) {
    && Acyclic(es) && SingleParent(es) && Separate(r, cfg) && Opening(r, es, cfg, pre, kids, parent)
    && Built(es, es2, pre + FolderActions(r, es, cfg, kids, parent), made) && Preserved(es, es2)
  }

  /** A reference to a folder that exists before or after the run. */
  ghost predicate Firm(es: Entries, made: map<Place, Id>, ref: Ref) {
    if ref.ById? then IsFolder(es, ref.id) else PlaceOf(ref) in made
  }

  /** Below a folder stand its old subfolders and those planned for it. */
  lemma ChildrenOf(es: Entries, es2: Entries, all: seq<Action>, made: map<Place, Id>, ref: Ref, q: Id)
    requires Built(es, es2, all, made) && Preserved(es, es2) && Firm(es, made, ref)
    requires forall i :: 0 <= i < |all| && all[i].CreateFolder? && all[i].parent.ById? ==> all[i].parent.id in es
    ensures q in FolderSet(es2, NodeOf(made, ref)) <==>
            (ref.ById? && q in FolderSet(es, ref.id))
            || exists i :: 0 <= i < |all| && all[i].CreateFolder? && all[i].place in made && all[i].parent == ref && made[all[i].place] == q
  {
    hide BuiltOld, FolderSet, Preserved;
    if q in es {
      OldChild(es, es2, all, made, ref, q);
    } else {
      NewChild(es, es2, all, made, ref, q);
      if q in FolderSet(es2, NodeOf(made, ref)) { var i := PlannedChild(es, es2, all, made, ref, q); }
    }
  }

  lemma PlannedChild(es: Entries, es2: Entries, all: seq<Action>, made: map<Place, Id>, ref: Ref, q: Id) returns (i: nat)
    requires Built(es, es2, all, made) && Firm(es, made, ref) && q !in es && q in FolderSet(es2, NodeOf(made, ref))
    requires forall i :: 0 <= i < |all| && all[i].CreateFolder? && all[i].parent.ById? ==> all[i].parent.id in es
    ensures i < |all| && all[i].CreateFolder? && all[i].place in made && all[i].parent == ref && made[all[i].place] == q
  {
    var p :| p in made && made[p] == q;
    assert Creates(all, p);
    i :| 0 <= i < |all| && all[i].CreateFolder? && all[i].place == p;
    assert es2[q] == NewEntry(NodeOf(made, all[i].parent), all[i].name);
    SameRef(es, es2, all, made, all[i].parent, ref);
  }

  lemma NewChild(es: Entries, es2: Entries, all: seq<Action>, made: map<Place, Id>, ref: Ref, q: Id)
    requires Built(es, es2, all, made) && q !in es
    requires forall i :: 0 <= i < |all| && all[i].CreateFolder? && all[i].parent.ById? ==> all[i].parent.id in es
    ensures forall i :: 0 <= i < |all| && all[i].CreateFolder? && all[i].place in made && all[i].parent == ref && made[all[i].place] == q ==>
      q in FolderSet(es2, NodeOf(made, ref))
    ensures ref.ById? ==> q !in FolderSet(es, ref.id)
  {
    forall i | 0 <= i < |all| && all[i].CreateFolder? && all[i].place in made && all[i].parent == ref && made[all[i].place] == q
      ensures q in FolderSet(es2, NodeOf(made, ref))
    {
      assert es2[q] == NewEntry(NodeOf(made, ref), all[i].name);
      assert NodeOf(made, ref) in es2[q].parents;
    }
  }

  lemma OldChild(es: Entries, es2: Entries, all: seq<Action>, made: map<Place, Id>, ref: Ref, q: Id)
    requires Built(es, es2, all, made) && Preserved(es, es2) && Firm(es, made, ref) && q in es
    ensures q in FolderSet(es2, NodeOf(made, ref)) <==> ref.ById? && q in FolderSet(es, ref.id)
    ensures forall p :: p in made ==> made[p] != q
  {
    hide BuiltOld, Creates;
    var f := NodeOf(made, ref);
    assert f in es2;
    assert es2[q].parents == es[q].parents && es2[q].trashed == es[q].trashed && es2[q].kind == es[q].kind;
    if !ref.ById? { assert made[PlaceOf(ref)] !in es; }
  }

  lemma ParentsKnown(r: Rules, es: Entries, es2: Entries, cfg: Config, pre: seq<Action>, kids: seq<Id>, parent: Ref, made: map<Place, Id>)
    requires Carried(r, es, es2, cfg, pre, kids, parent, made)
    ensures var all := pre + FolderActions(r, es, cfg, kids, parent);
      forall i :: 0 <= i < |all| && all[i].CreateFolder? && all[i].parent.ById? ==> all[i].parent.id in es
  {
    hide FolderActions, Built, Acyclic, SingleParent, Separate, Preserved, Opening;
    PlanConsistent(r, es, cfg, pre, kids, parent);
    var all := pre + FolderActions(r, es, cfg, kids, parent);
    forall i | 0 <= i < |all| && all[i].CreateFolder? && all[i].parent.ById? ensures all[i].parent.id in es {
      assert Fits(r, es, all, i);
    }
  }

  lemma ListPart(pre: seq<Action>, list: seq<Action>, a: Action)
    requires a in list
    ensures exists i :: 0 <= i < |pre + list| && (pre + list)[i] == a
  {
    var k :| 0 <= k < |list| && list[k] == a;
    assert (pre + list)[|pre| + k] == a;
  }

  lemma OpeningCreates(r: Rules, es: Entries, cfg: Config, pre: seq<Action>, kids: seq<Id>, parent: Ref, list: seq<Action>, i: nat)
    requires Opening(r, es, cfg, pre, kids, parent) && i < |pre + list| && (pre + list)[i].CreateFolder?
    ensures i < |pre| ==> (pre + list)[i].place == RootPlace && (pre + list)[i].parent == ById(cfg.root) && parent == NewRoot
    ensures i >= |pre| ==> (pre + list)[i] in list
  {
  }

  /** The folder a place stands for once it was created. */
  lemma MadeIs(r: Rules, es: Entries, es2: Entries, cfg: Config, pre: seq<Action>, kids: seq<Id>, parent: Ref, made: map<Place, Id>, a: Action)
    requires Carried(r, es, es2, cfg, pre, kids, parent, made) && a.CreateFolder?
    requires a in FolderActions(r, es, cfg, kids, parent) || a in pre
    ensures a.place in made && made[a.place] !in es && made[a.place] in es2 && es2[made[a.place]].name == a.name
  {
    hide FolderActions, Acyclic, SingleParent, Separate, Preserved, Opening, BuiltOld;
    var list := FolderActions(r, es, cfg, kids, parent);
    var all := pre + list;
    if a in list {
      ListPart(pre, list, a);
    } else {
      var k :| 0 <= k < |pre| && pre[k] == a;
      assert all[k] == a;
    }
    var i :| 0 <= i < |all| && all[i] == a;
    assert Creates(all, a.place);
    assert es2[made[all[i].place]] == NewEntry(NodeOf(made, all[i].parent), all[i].name);
  }

  /** What the run wrote for a category: the renamed or the new folder. */
  ghost function OwnOf(r: Rules, es: Entries, kids: seq<Id>, blocked: set<string>, cat: Category, made: map<Place, Id>): Option<Id> {
    if LegacyOf(r, es, kids, cat).Single? then Some(LegacyOf(r, es, kids, cat).folder)
    else if MainMissing(r, es, kids, blocked, cat) && MainPlace(cat.code) in made then Some(made[MainPlace(cat.code)])
    else None
  }

  ghost function OwnAll(r: Rules, es: Entries, kids: seq<Id>, cfg: Config, made: map<Place, Id>): (own: seq<Option<Id>>)
    ensures |own| == |cfg.cats|
    ensures forall c :: 0 <= c < |own| ==> own[c] == OwnOf(r, es, kids, Blocked(r, es, kids, cfg.cats), cfg.cats[c], made)
  {
    seq(|cfg.cats|, c requires 0 <= c < |cfg.cats| => OwnOf(r, es, kids, Blocked(r, es, kids, cfg.cats), cfg.cats[c], made))
  }

  lemma OwnFacts(r: Rules, es: Entries, es2: Entries, cfg: Config, pre: seq<Action>, kids: seq<Id>, parent: Ref, made: map<Place, Id>, c: nat)
    requires Carried(r, es, es2, cfg, pre, kids, parent, made) && c < |cfg.cats|
    ensures var own := OwnOf(r, es, kids, Blocked(r, es, kids, cfg.cats), cfg.cats[c], made);
      && (own.Some? <==> Written(r, es, kids, Blocked(r, es, kids, cfg.cats), cfg.cats[c]))
      && (own.Some? ==> own.value in es2 && NameOf(es2, own.value) == cfg.cats[c].name)
      && (own.Some? ==> if LegacyOf(r, es, kids, cfg.cats[c]).Single?
                        then LegacyOf(r, es, kids, cfg.cats[c]) == Single(own.value) && own.value in kids
                        else MainPlace(cfg.cats[c].code) in made && own.value == made[MainPlace(cfg.cats[c].code)] && own.value !in kids)
  {
    hide FolderActions, Acyclic, SingleParent, Separate, Preserved, LegacyOf, FindFolder, Blocked, MainMissing, BuiltNew;
    var list := FolderActions(r, es, cfg, kids, parent);
    if LegacyOf(r, es, kids, cfg.cats[c]).Single? {
      RenamePlanned(r, es, cfg, kids, parent, c);
      var folder := LegacyOf(r, es, kids, cfg.cats[c]).folder;
      var a := RenameFolder(cfg.cats[c].code, folder, cfg.cats[c].name, FileBag(es, r.key, folder));
      ListPart(pre, list, a);
      SingleIs(r, es, kids, cfg.cats[c]);
    } else if MainMissing(r, es, kids, Blocked(r, es, kids, cfg.cats), cfg.cats[c]) {
      MainPlanned(r, es, cfg, kids, parent, c);
      var a := CreateFolder(MainPlace(cfg.cats[c].code), parent, cfg.cats[c].name);
      MadeIs(r, es, es2, cfg, pre, kids, parent, made, a);
      KidsExist(r, es, kids, parent);
    }
  }

  lemma KidsExist(r: Rules, es: Entries, kids: seq<Id>, parent: Ref)
    requires Frame(r, es, kids, parent)
    ensures forall q :: q in kids ==> q in es
  {
    forall q | q in kids ensures q in es {
      assert parent.ById? ==> q in FolderSet(es, parent.id);
    }
  }

  /** Whose folder a newly created one is. */
  lemma WhoseMain(r: Rules, es: Entries, es2: Entries, cfg: Config, pre: seq<Action>, kids: seq<Id>, parent: Ref, made: map<Place, Id>, i: nat)
    returns (c: nat)
    requires Carried(r, es, es2, cfg, pre, kids, parent, made)
    requires var all := pre + FolderActions(r, es, cfg, kids, parent); i < |all| && all[i].CreateFolder? && all[i].parent == parent
    ensures c < |cfg.cats| && (pre + FolderActions(r, es, cfg, kids, parent))[i].place == MainPlace(cfg.cats[c].code)
    ensures MainMissing(r, es, kids, Blocked(r, es, kids, cfg.cats), cfg.cats[c]) && !LegacyOf(r, es, kids, cfg.cats[c]).Single?
  {
    hide FolderActions, Acyclic, SingleParent, Separate, Preserved, LegacyOf, FindFolder, Blocked, Built, ParentNode, Shaped;
    var list := FolderActions(r, es, cfg, kids, parent);
    OpeningCreates(r, es, cfg, pre, kids, parent, list, i);
    var a := (pre + list)[i];
    var o := ShapeOf(r, es, cfg, kids, parent, a);
    CreateFacts(r, es, cfg, kids, parent, a, o);
    c := o.c;
    if o.FromSub? {
      SubRefElsewhere(r, es, kids, parent, cfg.cats[c]);
      assert false;
    }
    MainShape(r, es, cfg, kids, parent, a, o);
  }

  lemma MainMembers(r: Rules, es: Entries, es2: Entries, cfg: Config, pre: seq<Action>, kids: seq<Id>, parent: Ref, made: map<Place, Id>, q: Id)
    requires Carried(r, es, es2, cfg, pre, kids, parent, made) && Firm(es, made, parent)
    ensures q in FolderKids(r, es2, NodeOf(made, parent)) <==> q in kids || Some(q) in OwnAll(r, es, kids, cfg, made)
  {
    hide FolderActions, Acyclic, SingleParent, Separate, LegacyOf, FindFolder, Blocked, Built, Preserved, MainMissing, FolderSet, OwnOf;
    var list := FolderActions(r, es, cfg, kids, parent);
    var all, own := pre + list, OwnAll(r, es, kids, cfg, made);
    ParentsKnown(r, es, es2, cfg, pre, kids, parent, made);
    ChildrenOf(es, es2, all, made, parent, q);
    if i :| 0 <= i < |all| && all[i].CreateFolder? && all[i].place in made && all[i].parent == parent && made[all[i].place] == q {
      var c := WhoseMain(r, es, es2, cfg, pre, kids, parent, made, i);
      OwnFacts(r, es, es2, cfg, pre, kids, parent, made, c);
      OwnMade(r, es, kids, Blocked(r, es, kids, cfg.cats), cfg.cats[c], made);
      assert own[c] == Some(q);
    }
    if Some(q) in own {
      var c :| 0 <= c < |own| && own[c] == Some(q);
      OwnFacts(r, es, es2, cfg, pre, kids, parent, made, c);
      if q !in kids { MainAt(r, es, es2, cfg, pre, kids, parent, made, c); }
    }
  }

  lemma OwnMade(r: Rules, es: Entries, kids: seq<Id>, blocked: set<string>, cat: Category, made: map<Place, Id>)
    requires MainMissing(r, es, kids, blocked, cat) && !LegacyOf(r, es, kids, cat).Single? && MainPlace(cat.code) in made
    ensures OwnOf(r, es, kids, blocked, cat, made) == Some(made[MainPlace(cat.code)])
  {
  }

  lemma MainAt(r: Rules, es: Entries, es2: Entries, cfg: Config, pre: seq<Action>, kids: seq<Id>, parent: Ref, made: map<Place, Id>, c: nat)
    requires Carried(r, es, es2, cfg, pre, kids, parent, made) && c < |cfg.cats| && MainPlace(cfg.cats[c].code) in made
    requires Written(r, es, kids, Blocked(r, es, kids, cfg.cats), cfg.cats[c]) && !LegacyOf(r, es, kids, cfg.cats[c]).Single?
    ensures var all := pre + FolderActions(r, es, cfg, kids, parent);
      exists i :: 0 <= i < |all| && all[i].CreateFolder? && all[i].place in made && all[i].parent == parent
                  && made[all[i].place] == made[MainPlace(cfg.cats[c].code)]
  {
    hide FolderActions, Acyclic, SingleParent, Separate, LegacyOf, FindFolder, Blocked, Built, Preserved, MainMissing, Opening;
    MainPlanned(r, es, cfg, kids, parent, c);
    ListPart(pre, FolderActions(r, es, cfg, kids, parent), CreateFolder(MainPlace(cfg.cats[c].code), parent, cfg.cats[c].name));
  }

  /** Whom the run renamed belongs to a category. */
  lemma RenamedIsOwn(r: Rules, es: Entries, es2: Entries, cfg: Config, pre: seq<Action>, kids: seq<Id>, parent: Ref, made: map<Place, Id>, q: Id)
    requires Carried(r, es, es2, cfg, pre, kids, parent, made) && Renames(pre + FolderActions(r, es, cfg, kids, parent), q)
    ensures Some(q) in OwnAll(r, es, kids, cfg, made) && q in kids
  {
    hide FolderActions, Acyclic, SingleParent, Separate, FindFolder, Blocked, Built, Preserved, MainMissing, LegacyOf;
    var list := FolderActions(r, es, cfg, kids, parent);
    var all, own := pre + list, OwnAll(r, es, kids, cfg, made);
    var i :| 0 <= i < |all| && all[i].RenameFolder? && all[i].node == q;
    PastOpening(r, es, cfg, pre, kids, parent, list, i);
    var o := ShapeOf(r, es, cfg, kids, parent, all[i]);
    NoRenames(r, es, cfg, kids, parent, all[i], o);
    assert own[o.c] == Some(q);
    RenameFacts(r, es, cfg, kids, parent, all[i], o);
  }

  lemma UnownedKept(r: Rules, es: Entries, es2: Entries, cfg: Config, pre: seq<Action>, kids: seq<Id>, parent: Ref, made: map<Place, Id>, q: Id)
    requires Carried(r, es, es2, cfg, pre, kids, parent, made) && q in kids && Some(q) !in OwnAll(r, es, kids, cfg, made)
    ensures NameOf(es2, q) == NameOf(es, q)
  {
    hide FolderActions, Acyclic, SingleParent, Separate, FindFolder, Blocked, BuiltNew, Preserved, MainMissing, LegacyOf, OwnOf, Renames;
    KidsExist(r, es, kids, parent);
    if Renames(pre + FolderActions(r, es, cfg, kids, parent), q) {
      RenamedIsOwn(r, es, es2, cfg, pre, kids, parent, made, q);
    }
  }

  lemma Listings(r: Rules, es: Entries, es2: Entries, kids: seq<Id>, parent: Ref, f: Id)
    requires Frame(r, es, kids, parent)
    ensures Listing(r, es, kids) && Listing(r, es2, FolderKids(r, es2, f))
  {
    KidsExist(r, es, kids, parent);
  }

  lemma MainsSettled(r: Rules, es: Entries, es2: Entries, cfg: Config, pre: seq<Action>, kids: seq<Id>, parent: Ref, made: map<Place, Id>)
    requires Carried(r, es, es2, cfg, pre, kids, parent, made) && Firm(es, made, parent)
    ensures MainsGrown(r, es, kids, es2, FolderKids(r, es2, NodeOf(made, parent)), cfg, OwnAll(r, es, kids, cfg, made))
  {
    hide FolderActions, Acyclic, SingleParent, Separate, FindFolder, Blocked, Built, Preserved, MainMissing, LegacyOf, OwnOf, FolderSet, Listing,
         FolderKids, NodeOf, NameOf, Written;
    var kids2, own := FolderKids(r, es2, NodeOf(made, parent)), OwnAll(r, es, kids, cfg, made);
    Listings(r, es, es2, kids, parent, NodeOf(made, parent));
    forall q: Id ensures q in kids2 <==> q in kids || Some(q) in own {
      MainMembers(r, es, es2, cfg, pre, kids, parent, made, q);
    }
    forall q: Id | q in kids && Some(q) !in own ensures NameOf(es2, q) == NameOf(es, q) {
      UnownedKept(r, es, es2, cfg, pre, kids, parent, made, q);
    }
    forall c | 0 <= c < |own|
      ensures own[c].Some? ==> NameOf(es2, own[c].value) == CatNames(cfg.cats)[c]
      ensures own[c].Some? <==> Written(r, es, kids, Blocked(r, es, kids, cfg.cats), cfg.cats[c])
      ensures own[c].Some? ==> if LegacyOf(r, es, kids, cfg.cats[c]).Single?
                               then LegacyOf(r, es, kids, cfg.cats[c]) == Single(own[c].value) else own[c].value !in kids
    {
      OwnFacts(r, es, es2, cfg, pre, kids, parent, made, c);
    }
  }

  // ---------------------------------------------------------------- the subfolders

  ghost function SubOwn(r: Rules, es: Entries, kids: seq<Id>, blocked: set<string>, cat: Category, made: map<Place, Id>, sub: Subfolder): Option<Id> {
    if SubMissing(r, es, kids, blocked, cat, sub) && SubPlace(cat.code, sub.id) in made then Some(made[SubPlace(cat.code, sub.id)]) else None
  }

  ghost function SubOwnAll(r: Rules, es: Entries, kids: seq<Id>, blocked: set<string>, cat: Category, made: map<Place, Id>): (subs: seq<Option<Id>>)
    ensures |subs| == |cat.subs|
    ensures forall k :: 0 <= k < |subs| ==> subs[k] == SubOwn(r, es, kids, blocked, cat, made, cat.subs[k])
  {
    seq(|cat.subs|, k requires 0 <= k < |cat.subs| => SubOwn(r, es, kids, blocked, cat, made, cat.subs[k]))
  }

  lemma SubOwnFacts(r: Rules, es: Entries, es2: Entries, cfg: Config, pre: seq<Action>, kids: seq<Id>, parent: Ref, made: map<Place, Id>, c: nat, k: nat)
    requires Carried(r, es, es2, cfg, pre, kids, parent, made) && c < |cfg.cats| && k < |cfg.cats[c].subs|
    ensures var cat, sub := cfg.cats[c], cfg.cats[c].subs[k];
      var own := SubOwn(r, es, kids, Blocked(r, es, kids, cfg.cats), cat, made, sub);
      && (own.Some? <==> SubMissing(r, es, kids, Blocked(r, es, kids, cfg.cats), cat, sub))
      && (own.Some? ==> NameOf(es2, own.value) == sub.name && own.value !in es && SubPlace(cat.code, sub.id) in made
                        && own.value == made[SubPlace(cat.code, sub.id)])
  {
    hide FolderActions, Acyclic, SingleParent, Separate, Preserved, LegacyOf, FindFolder, Blocked, SubMissing, Built, ParentNode, Opening;
    var cat, sub := cfg.cats[c], cfg.cats[c].subs[k];
    if SubMissing(r, es, kids, Blocked(r, es, kids, cfg.cats), cat, sub) {
      SubPlannedToo(r, es, cfg, kids, parent, c, k);
      var a := CreateFolder(SubPlace(cat.code, sub.id), SubRef(ParentNode(r, es, kids, cat), cat.code), sub.name);
      MadeIs(r, es, es2, cfg, pre, kids, parent, made, a);
    }
  }

  lemma WhoseSub(r: Rules, es: Entries, es2: Entries, cfg: Config, pre: seq<Action>, kids: seq<Id>, parent: Ref, made: map<Place, Id>, i: nat, c: nat)
    returns (k: nat)
    requires Carried(r, es, es2, cfg, pre, kids, parent, made) && c < |cfg.cats|
    requires var all := pre + FolderActions(r, es, cfg, kids, parent);
      i < |all| && all[i].CreateFolder? && all[i].parent == SubRef(ParentNode(r, es, kids, cfg.cats[c]), cfg.cats[c].code)
    ensures k < |cfg.cats[c].subs| && SubMissing(r, es, kids, Blocked(r, es, kids, cfg.cats), cfg.cats[c], cfg.cats[c].subs[k])
    ensures (pre + FolderActions(r, es, cfg, kids, parent))[i].place == SubPlace(cfg.cats[c].code, cfg.cats[c].subs[k].id)
  {
    hide FolderActions, Acyclic, SingleParent, Separate, Preserved, LegacyOf, FindFolder, Blocked, Built, ParentNode, Shaped, SubMissing, Held;
    var list := FolderActions(r, es, cfg, kids, parent);
    OpeningCreates(r, es, cfg, pre, kids, parent, list, i);
    var a := (pre + list)[i];
    if i < |pre| {
      if ParentNode(r, es, kids, cfg.cats[c]).Some? { NodeBelow(r, es, kids, parent, cfg.cats[c]); }
      assert false;
    }
    var o := ShapeOf(r, es, cfg, kids, parent, a);
    CreateFacts(r, es, cfg, kids, parent, a, o);
    if o.FromMain? {
      SubRefElsewhere(r, es, kids, parent, cfg.cats[c]);
      assert false;
    }
    SameCategory(r, es, kids, cfg, o.c, c);
    SubShape(r, es, cfg, kids, parent, a, o);
    k := o.k;
  }

  lemma SubAt(r: Rules, es: Entries, es2: Entries, cfg: Config, pre: seq<Action>, kids: seq<Id>, parent: Ref, made: map<Place, Id>, c: nat, k: nat)
    requires Carried(r, es, es2, cfg, pre, kids, parent, made) && c < |cfg.cats| && k < |cfg.cats[c].subs|
    requires SubMissing(r, es, kids, Blocked(r, es, kids, cfg.cats), cfg.cats[c], cfg.cats[c].subs[k])
    requires SubPlace(cfg.cats[c].code, cfg.cats[c].subs[k].id) in made
    ensures var all, cat := pre + FolderActions(r, es, cfg, kids, parent), cfg.cats[c];
      exists i :: 0 <= i < |all| && all[i].CreateFolder? && all[i].place in made && all[i].parent == SubRef(ParentNode(r, es, kids, cat), cat.code)
                  && made[all[i].place] == made[SubPlace(cat.code, cat.subs[k].id)]
  {
    hide FolderActions, Acyclic, SingleParent, Separate, LegacyOf, FindFolder, Blocked, Built, Preserved, SubMissing, Opening, ParentNode;
    var cat, sub := cfg.cats[c], cfg.cats[c].subs[k];
    SubPlannedToo(r, es, cfg, kids, parent, c, k);
    ListPart(pre, FolderActions(r, es, cfg, kids, parent),
             CreateFolder(SubPlace(cat.code, sub.id), SubRef(ParentNode(r, es, kids, cat), cat.code), sub.name));
  }

  /** The reference to the main folder of a category that is not held stands for an existing folder. */
  lemma SubRefFirm(r: Rules, es: Entries, es2: Entries, cfg: Config, pre: seq<Action>, kids: seq<Id>, parent: Ref, made: map<Place, Id>, c: nat)
    requires Carried(r, es, es2, cfg, pre, kids, parent, made) && c < |cfg.cats|
    requires !Held(r, es, kids, Blocked(r, es, kids, cfg.cats), cfg.cats[c])
    ensures var cat := cfg.cats[c]; var ref := SubRef(ParentNode(r, es, kids, cat), cat.code);
      && Firm(es, made, ref)
      && NodeAfter(r, es, kids, cat, OwnOf(r, es, kids, Blocked(r, es, kids, cfg.cats), cat, made)) == Some(NodeOf(made, ref))
  {
    hide FolderActions, Acyclic, SingleParent, Separate, LegacyOf, FindFolder, Blocked, Built, Preserved, Opening, Held, AllMainActions;
    var cat := cfg.cats[c];
    OwnFacts(r, es, es2, cfg, pre, kids, parent, made, c);
    FrameOf(r, es, cfg, pre, kids, parent);
    if ParentNode(r, es, kids, cat).Some? {
      NodeBelow(r, es, kids, parent, cat);
    } else {
      ParentComes(r, es, cfg, kids, parent, c);
    }
  }

  lemma SubMembers(r: Rules, es: Entries, es2: Entries, cfg: Config, pre: seq<Action>, kids: seq<Id>, parent: Ref, made: map<Place, Id>, c: nat, q: Id)
    requires Carried(r, es, es2, cfg, pre, kids, parent, made) && c < |cfg.cats|
    requires var cat := cfg.cats[c]; Firm(es, made, SubRef(ParentNode(r, es, kids, cat), cat.code))
    ensures var cat := cfg.cats[c]; var node := ParentNode(r, es, kids, cat);
      q in FolderKids(r, es2, NodeOf(made, SubRef(node, cat.code))) <==>
      q in SubKids(r, es, node) || Some(q) in SubOwnAll(r, es, kids, Blocked(r, es, kids, cfg.cats), cat, made)
  {
    hide FolderActions, Acyclic, SingleParent, Separate, LegacyOf, FindFolder, Blocked, Built, Preserved, SubMissing, FolderSet, Opening, ParentNode, Held;
    var cat := cfg.cats[c];
    var node, all := ParentNode(r, es, kids, cat), pre + FolderActions(r, es, cfg, kids, parent);
    var subs := SubOwnAll(r, es, kids, Blocked(r, es, kids, cfg.cats), cat, made);
    ParentsKnown(r, es, es2, cfg, pre, kids, parent, made);
    ChildrenOf(es, es2, all, made, SubRef(node, cat.code), q);
    if i :| 0 <= i < |all| && all[i].CreateFolder? && all[i].place in made && all[i].parent == SubRef(node, cat.code) && made[all[i].place] == q {
      var k := WhoseSub(r, es, es2, cfg, pre, kids, parent, made, i, c);
      assert subs[k] == Some(q);
    }
    if Some(q) in subs {
      var k :| 0 <= k < |subs| && subs[k] == Some(q);
      SubAt(r, es, es2, cfg, pre, kids, parent, made, c, k);
    }
  }

  lemma SubKept(r: Rules, es: Entries, es2: Entries, cfg: Config, pre: seq<Action>, kids: seq<Id>, parent: Ref, made: map<Place, Id>, c: nat, q: Id)
    requires Carried(r, es, es2, cfg, pre, kids, parent, made) && c < |cfg.cats| && q in SubKids(r, es, ParentNode(r, es, kids, cfg.cats[c]))
    ensures q in es && NameOf(es2, q) == NameOf(es, q)
  {
    hide FolderActions, Acyclic, SingleParent, Separate, LegacyOf, FindFolder, Blocked, BuiltNew, Preserved, ParentNode;
    var list := FolderActions(r, es, cfg, kids, parent);
    var all := pre + list;
    if Renames(all, q) {
      var i :| 0 <= i < |all| && all[i].RenameFolder? && all[i].node == q;
      PastOpening(r, es, cfg, pre, kids, parent, list, i);
      RenamedElsewhere(r, es, cfg, kids, parent, c, all[i]);
    }
  }

  lemma SubsSettled(r: Rules, es: Entries, es2: Entries, cfg: Config, pre: seq<Action>, kids: seq<Id>, parent: Ref, made: map<Place, Id>, c: nat)
    requires Carried(r, es, es2, cfg, pre, kids, parent, made) && c < |cfg.cats|
    requires !Held(r, es, kids, Blocked(r, es, kids, cfg.cats), cfg.cats[c])
    ensures SubsGrown(r, es, kids, es2, cfg, cfg.cats[c], OwnOf(r, es, kids, Blocked(r, es, kids, cfg.cats), cfg.cats[c], made),
                      SubOwnAll(r, es, kids, Blocked(r, es, kids, cfg.cats), cfg.cats[c], made))
  {
    hide FolderActions, LegacyOf, FindFolder, Blocked, Carried, ParentNode, Held, OwnOf, SubOwn, NodeAfter, Firm, SubRef, NameOf, FolderSet,
         SubKids, FolderKids, NodeOf, SubMissing, Listing;
    var cat := cfg.cats[c];
    var node := ParentNode(r, es, kids, cat);
    var a, b := SubKids(r, es, node), FolderKids(r, es2, NodeOf(made, SubRef(node, cat.code)));
    var subs := SubOwnAll(r, es, kids, Blocked(r, es, kids, cfg.cats), cat, made);
    SubRefFirm(r, es, es2, cfg, pre, kids, parent, made, c);
    forall q: Id ensures q in b <==> q in a || Some(q) in subs {
      SubMembers(r, es, es2, cfg, pre, kids, parent, made, c, q);
    }
    forall q: Id | q in a ensures q in es && NameOf(es2, q) == NameOf(es, q) {
      SubKept(r, es, es2, cfg, pre, kids, parent, made, c, q);
    }
    forall k | 0 <= k < |subs|
      ensures subs[k].Some? ==> NameOf(es2, subs[k].value) == SubNames(cat.subs)[k]
      ensures subs[k].Some? <==> SubMissing(r, es, kids, Blocked(r, es, kids, cfg.cats), cat, cat.subs[k])
      ensures subs[k].Some? ==> subs[k].value !in a
    {
      SubOwnFacts(r, es, es2, cfg, pre, kids, parent, made, c, k);
    }
    SubListings(r, es, es2, a, node, NodeOf(made, SubRef(node, cat.code)));
  }

  lemma SubListings(r: Rules, es: Entries, es2: Entries, a: seq<Id>, node: Option<Id>, f: Id)
    requires a == SubKids(r, es, node)
    ensures Listing(r, es, a) && Listing(r, es2, FolderKids(r, es2, f)) && FolderKids(r, es2, f) == SubKids(r, es2, Some(f))
  {
  }

  /** An undisturbed run leaves a settled state behind. */
  lemma AllSettled(r: Rules, es: Entries, es2: Entries, cfg: Config, pre: seq<Action>, kids: seq<Id>, parent: Ref, made: map<Place, Id>)
    requires Carried(r, es, es2, cfg, pre, kids, parent, made) && Firm(es, made, parent)
    ensures Settled(r, es, kids, es2, FolderKids(r, es2, NodeOf(made, parent)), cfg, OwnAll(r, es, kids, cfg, made))
  {
    hide FolderActions, Acyclic, SingleParent, Separate, LegacyOf, FindFolder, Blocked, Built, Preserved, Opening, Held, MainsGrown, SubsGrown, OwnOf;
    var own := OwnAll(r, es, kids, cfg, made);
    MainsSettled(r, es, es2, cfg, pre, kids, parent, made);
    forall c | 0 <= c < |cfg.cats| && !Held(r, es, kids, Blocked(r, es, kids, cfg.cats), cfg.cats[c])
      ensures exists subs :: SubsGrown(r, es, kids, es2, cfg, cfg.cats[c], own[c], subs)
    {
      SubsSettled(r, es, es2, cfg, pre, kids, parent, made, c);
    }
  }
}
