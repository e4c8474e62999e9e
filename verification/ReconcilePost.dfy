/** What a run leaves in the index: every category that is neither blocked nor under review has exactly one registered
  * main folder, and that folder is live and lies in the object folder. */
module ReconcilePost {
  import opened Wrappers
  import opened Drive
  import opened Sorting
  import opened Tree
  import opened FileCount
  import opened ReconcilePlan
  import opened ReconcileRun
  import opened ReconcileSafety
  import opened ReconcileBuild
  import opened ReconcileCatalogue
  import opened ReconcileConsistent
  import opened ReconcileGrowth
  import opened ReconcileAgain
  import opened ReconcileSettled
  import opened ReconcileFixpoint

  // ---------------------------------------------------------------- the count never differs

  lemma KnownFrame(r: Rules, cfg: Config, t: Target, w: World)
    ensures Frame(r, w.drive.entries, Kids(r, cfg, t, w), Parent(r, cfg, t, w))
  {
    hide FindRootFolder, FolderKids;
    RootIsFolder(r, cfg, t, w);
  }

  lemma PlanCounted(r: Rules, cfg: Config, t: Target, w: World)
    requires PlanFor(r, cfg, t, w).Some?
    ensures Counted(r, w.drive.entries, PlanFor(r, cfg, t, w).value.actions)
  {
    hide PlanFor, FolderActions, Kids, Parent, FileBag, RootKnown, Shaped, IsAlias;
    var actions := PlanFor(r, cfg, t, w).value.actions;
    PlanShape(r, cfg, t, w);
    if RootKnown(r, cfg, t, w) {
      KnownFrame(r, cfg, t, w);
      var list := FolderActions(r, w.drive.entries, cfg, Kids(r, cfg, t, w), Parent(r, cfg, t, w));
      forall i | 0 <= i < |actions| && actions[i].RenameFolder?
        ensures actions[i].node in w.drive.entries && actions[i].before == FileBag(w.drive.entries, r.key, actions[i].node)
      {
        PreRenamesNothing(r, cfg, t, w, list, i);
        var o := ShapeOf(r, w.drive.entries, cfg, Kids(r, cfg, t, w), Parent(r, cfg, t, w), actions[i]);
        RenameFacts(r, w.drive.entries, cfg, Kids(r, cfg, t, w), Parent(r, cfg, t, w), actions[i], o);
      }
    } else {
      UnclearReads(r, cfg, t, w);
    }
  }

  lemma PreRenamesNothing(r: Rules, cfg: Config, t: Target, w: World, list: seq<Action>, i: nat)
    requires i < |Pre(r, cfg, t, w) + list| && (Pre(r, cfg, t, w) + list)[i].RenameFolder?
    ensures (Pre(r, cfg, t, w) + list)[i] in list
  {
    var k := i - |Pre(r, cfg, t, w)|;
    assert (Pre(r, cfg, t, w) + list)[i] == list[k];
  }

  lemma UnclearReads(r: Rules, cfg: Config, t: Target, w: World)
    requires !RootKnown(r, cfg, t, w) && PlanFor(r, cfg, t, w).Some?
    ensures forall i :: 0 <= i < |PlanFor(r, cfg, t, w).value.actions| ==> !PlanFor(r, cfg, t, w).value.actions[i].RenameFolder?
  {
    hide FindRootFolder;
  }

  /** Whatever calls fail, no renaming of a run is ever stopped for a differing file count: the renamings change the order
    * of the walk but not what it counts. */
  lemma NeverMiscounted(r: Rules, cfg: Config, t: Target, w: World, fails: nat -> bool)
    requires Sound(w.drive) && PlanFor(r, cfg, t, w).Some?
    ensures ExecAll(r, t.pk, Start(t.pk, w, PlanFor(r, cfg, t, w).value), PlanFor(r, cfg, t, w).value.actions, fails).late == []
  {
    hide PlanFor, ExecAll, Counted, Start;
    var plan := PlanFor(r, cfg, t, w).value;
    PlanCounted(r, cfg, t, w);
    StartFacts(t.pk, w, plan);
    NoLateReview(r, t.pk, w.drive.entries, Start(t.pk, w, plan), plan.actions, fails);
  }

  // ---------------------------------------------------------------- one folder for one place

  /** The folder `n` holds the place and nothing else, and of the other folders at most those of owner or tenant files do. */
  ghost predicate Chief(rows: seq<Row>, pk: nat, place: Place, n: Id) {
    HasRow(rows, n) && forall i :: 0 <= i < |rows| ==>
      (rows[i].node == n ==> Holds(rows[i], pk, place)) && (Holds(rows[i], pk, place) ==> rows[i].node == n || rows[i].file.Some?)
  }

  /** No other folder of an owner or tenant file holds the place. */
  ghost predicate NoFileBeside(rows: seq<Row>, pk: nat, place: Place, n: Id) {
    forall i :: 0 <= i < |rows| && Holds(rows[i], pk, place) ==> rows[i].node == n || rows[i].file.None?
  }

  /** The folder `n` is the only one registered for the place. */
  ghost predicate Sole(rows: seq<Row>, pk: nat, place: Place, n: Id) {
    HasRow(rows, n) && forall i :: 0 <= i < |rows| ==> (Holds(rows[i], pk, place) <==> rows[i].node == n)
  }

  lemma SoleIff(rows: seq<Row>, pk: nat, place: Place, n: Id)
    requires Chief(rows, pk, place, n)
    ensures Sole(rows, pk, place, n) <==> NoFileBeside(rows, pk, place, n)
  {
  }

  lemma ChiefEntered(rows: seq<Row>, pk: nat, place: Place, n: Id)
    requires Unambiguous(rows) && !Clashes(rows, pk, n, place)
    ensures Chief(Registered(rows, pk, n, place), pk, place, n)
  {
    hide Unambiguous, Clashes, Registered, Holds;
    var res := Registered(rows, pk, n, place);
    forall i | 0 <= i < |res|
      ensures (res[i].node == n ==> Holds(res[i], pk, place)) && (Holds(res[i], pk, place) ==> res[i].node == n || res[i].file.Some?)
    {
      RegisteredHolds(rows, pk, n, place, i);
    }
    SomeRow(rows, pk, n, place);
  }

  lemma SomeRow(rows: seq<Row>, pk: nat, n: Id, place: Place)
    requires Unambiguous(rows) && !Clashes(rows, pk, n, place)
    ensures HasRow(Registered(rows, pk, n, place), n)
  {
    RegisteredHolds(rows, pk, n, place, 0);
  }

  /** What registering another folder for another place does to the rows of this one. */
  lemma RowAfter(rows: seq<Row>, pk: nat, place: Place, other: Place, m: Id, i: nat)
    requires place != other && !Clashes(rows, pk, m, other) && i < |Registered(rows, pk, m, other)|
    ensures var res := Registered(rows, pk, m, other);
      if i < |rows| && rows[i].node != m
      then res[i].node == rows[i].node && res[i].file == rows[i].file && (Holds(res[i], pk, place) <==> Holds(rows[i], pk, place))
      else res[i].node == m && !Holds(res[i], pk, place)
  {
    hide Clashes;
  }

  lemma RowsStay(rows: seq<Row>, pk: nat, node: Id, place: Place)
    ensures |rows| <= |Registered(rows, pk, node, place)|
  {
    hide Clashes;
  }

  lemma ChiefKept(rows: seq<Row>, pk: nat, place: Place, n: Id, other: Place, m: Id)
    requires place != other && m != n && !Clashes(rows, pk, m, other) && Chief(rows, pk, place, n)
    ensures Chief(Registered(rows, pk, m, other), pk, place, n)
  {
    hide Clashes, Registered, Holds;
    var res := Registered(rows, pk, m, other);
    forall i | 0 <= i < |res|
      ensures (res[i].node == n ==> Holds(res[i], pk, place)) && (Holds(res[i], pk, place) ==> res[i].node == n || res[i].file.Some?)
    {
      RowAfter(rows, pk, place, other, m, i);
    }
    var k :| 0 <= k < |rows| && rows[k].node == n;
    RowsStay(rows, pk, m, other);
    RowAfter(rows, pk, place, other, m, k);
  }

  lemma NoFileComes(rows: seq<Row>, pk: nat, place: Place, n: Id, other: Place, m: Id)
    requires !Clashes(rows, pk, m, other) && (place == other ==> m == n) && NoFileBeside(rows, pk, place, n)
    ensures NoFileBeside(Registered(rows, pk, m, other), pk, place, n)
  {
    hide Clashes;
    var res := Registered(rows, pk, m, other);
    forall i | 0 <= i < |res| && Holds(res[i], pk, place) ensures res[i].node == n || res[i].file.None? {
      if place != other { RowAfter(rows, pk, place, other, m, i); }
    }
  }

  /** Every folder the list registers for the place is `n`, and `n` is registered for nothing else. */
  ghost predicate OnlyFor(actions: seq<Action>, made: map<Place, Id>, place: Place, n: Id) {
    forall a :: a in actions && PlaceFor(a).Some? ==> (PlaceFor(a) == Some(place) <==> NodeFor(a, made) == n)
  }

  ghost predicate Registers(actions: seq<Action>, place: Place) {
    exists a :: a in actions && PlaceFor(a) == Some(place)
  }

  lemma {:induction false} FiledChief(rows: seq<Row>, pk: nat, actions: seq<Action>, made: map<Place, Id>, place: Place, n: Id)
    requires Unambiguous(rows) && OnlyFor(actions, made, place, n) && Filed(rows, pk, actions, made).Some?
    requires Chief(rows, pk, place, n) || Registers(actions, place)
    ensures Chief(Filed(rows, pk, actions, made).value, pk, place, n)
    ensures NoFileBeside(rows, pk, place, n) ==> NoFileBeside(Filed(rows, pk, actions, made).value, pk, place, n)
    decreases |actions|
  {
    hide Unambiguous, Registered, Clashes, Chief, NoFileBeside;
    if actions != [] {
      var a := actions[0];
      assert forall b :: b in actions[1..] ==> b in actions;
      if PlaceFor(a).None? {
        FiledChief(rows, pk, actions[1..], made, place, n);
      } else {
        var p, m := PlaceFor(a).value, NodeFor(a, made);
        HeadIs(actions);
        RegisteredUnambiguous(rows, pk, m, p);
        if p == place {
          ChiefEntered(rows, pk, place, n);
        } else if Chief(rows, pk, place, n) {
          ChiefKept(rows, pk, place, n, p, m);
        }
        if NoFileBeside(rows, pk, place, n) { NoFileComes(rows, pk, place, n, p, m); }
        FiledChief(Registered(rows, pk, m, p), pk, actions[1..], made, place, n);
      }
    }
  }

  // ---------------------------------------------------------------- the main folder of a category

  /** The main folder of a category after the run: its old folder or the new one. */
  function MainNode(r: Rules, es: Entries, kids: seq<Id>, cat: Category, made: map<Place, Id>): Id {
    match ParentNode(r, es, kids, cat)
    case Some(node) => node
    case None => if MainPlace(cat.code) in made then made[MainPlace(cat.code)] else 0
  }

  lemma OldNodeIsKid(r: Rules, es: Entries, kids: seq<Id>, parent: Ref, cat: Category)
    requires Frame(r, es, kids, parent) && ParentNode(r, es, kids, cat).Some?
    ensures ParentNode(r, es, kids, cat).value in kids && ParentNode(r, es, kids, cat).value in es
  {
    hide ParentNode;
    NodeTouches(r, es, kids, cat);
    KidsExist(r, es, kids, parent);
  }

  /** A folder in a main folder is not a main folder itself. */
  lemma BelowIsOther(r: Rules, es: Entries, kids: seq<Id>, parent: Ref, cat: Category, c: Category, node: Id)
    requires Acyclic(es) && SingleParent(es) && Frame(r, es, kids, parent) && ParentNode(r, es, kids, c).Some?
    requires node in SubKids(r, es, ParentNode(r, es, kids, cat))
    ensures ParentNode(r, es, kids, c) != Some(node) && node in es
  {
    hide ParentNode, Frame, Acyclic;
    if ParentNode(r, es, kids, cat).Some? {
      var p := ParentNode(r, es, kids, cat).value;
      NodeBelow(r, es, kids, parent, cat);
      NodeBelow(r, es, kids, parent, c);
      assert node in FolderSet(es, p);
      assert es[node].parents[0] == p;
    }
  }

  lemma BesideOther(r: Rules, es: Entries, kids: seq<Id>, cfg: Config, c: nat, d: nat)
    requires Separate(r, cfg) && c < |cfg.cats| && d < |cfg.cats| && c != d
    requires LegacyOf(r, es, kids, cfg.cats[d]).Beside? && LegacyOf(r, es, kids, cfg.cats[d]).exact != []
    ensures var node := LegacyOf(r, es, kids, cfg.cats[d]).exact[0]; node in kids && ParentNode(r, es, kids, cfg.cats[c]) != Some(node)
  {
    hide ParentNode, Foreign, LooseMatch;
    var node := LegacyOf(r, es, kids, cfg.cats[d]).exact[0];
    HeadIn(LegacyOf(r, es, kids, cfg.cats[d]).exact);
    ExactIs(r, es, kids, cfg.cats[d].name, node);
    if ParentNode(r, es, kids, cfg.cats[c]) == Some(node) {
      NodeTouches(r, es, kids, cfg.cats[c]);
      ForeignName(r, cfg, c, d, NameOf(es, node));
    }
  }

  lemma ForeignName(r: Rules, cfg: Config, c: nat, d: nat, n: string)
    requires Separate(r, cfg) && c < |cfg.cats| && d < |cfg.cats| && c != d
    ensures !(r.nfc(n) == r.nfc(cfg.cats[d].name) && (IsAlias(r, cfg.cats[c].aliases, n) || Norm(r, n) == Norm(r, cfg.cats[c].name)))
    ensures !(IsAlias(r, cfg.cats[d].aliases, n) && (IsAlias(r, cfg.cats[c].aliases, n) || Norm(r, n) == Norm(r, cfg.cats[c].name)))
  {
    hide IsAlias, LooseMatch;
    assert Foreign(r, cfg.cats[c], cfg.cats[d]) && Foreign(r, cfg.cats[d], cfg.cats[c]);
  }

  lemma RenamedOther(r: Rules, es: Entries, kids: seq<Id>, cfg: Config, c: nat, d: nat)
    requires Separate(r, cfg) && c < |cfg.cats| && d < |cfg.cats| && c != d && LegacyOf(r, es, kids, cfg.cats[d]).Single?
    ensures ParentNode(r, es, kids, cfg.cats[c]) != Some(LegacyOf(r, es, kids, cfg.cats[d]).folder)
  {
    hide ParentNode, LegacyOf, Foreign, IsAlias;
    SingleIs(r, es, kids, cfg.cats[d]);
    if ParentNode(r, es, kids, cfg.cats[c]).Some? {
      NodeTouches(r, es, kids, cfg.cats[c]);
      ForeignName(r, cfg, c, d, NameOf(es, LegacyOf(r, es, kids, cfg.cats[d]).folder));
    }
  }

  /** A folder that the list registers or renames is the main folder of a category only if that is what it is
    * registered for. */
  lemma TakenOnce(r: Rules, es: Entries, cfg: Config, kids: seq<Id>, parent: Ref, c: nat, a: Action)
    requires Acyclic(es) && SingleParent(es) && Separate(r, cfg) && Frame(r, es, kids, parent) && c < |cfg.cats|
    requires !Held(r, es, kids, Blocked(r, es, kids, cfg.cats), cfg.cats[c])
    requires a in FolderActions(r, es, cfg, kids, parent) && (a.RegisterFolder? || a.RenameFolder?)
    ensures PlaceFor(a) == Some(MainPlace(cfg.cats[c].code)) <==> ParentNode(r, es, kids, cfg.cats[c]) == Some(a.node)
    ensures a.node in es
  {
    hide FolderActions, Acyclic, SingleParent, Separate, Frame, Held, LegacyOf, FindFolder, ParentNode, Blocked, YearHits, SubKids, FileBag;
    var o := ShapeOf(r, es, cfg, kids, parent, a);
    var cat := cfg.cats[o.c];
    if o.c != c && cat.code == cfg.cats[c].code { CodesDiffer(r, cfg, o.c, c); }
    KidsKnown(r, es, kids, parent);
    match o
    case FromLegacy(d) => LegacyTaken(r, es, cfg, kids, parent, c, d, a);
    case FromMain(d) => MainTaken(r, es, cfg, kids, parent, c, d, a);
    case FromSub(d, k) =>
      FoundResembles(r, es, SubKids(r, es, ParentNode(r, es, kids, cat)), cat.subs[k].name);
      SubTaken(r, es, cfg, kids, parent, c, d, a.node);
    case FromYear(d, y) =>
      HitIsKid(r, es, SubKids(r, es, ParentNode(r, es, kids, cat)), y);
      SubTaken(r, es, cfg, kids, parent, c, d, a.node);
  }

  lemma KidsKnown(r: Rules, es: Entries, kids: seq<Id>, parent: Ref)
    requires Frame(r, es, kids, parent)
    ensures forall q :: q in kids ==> q in es
  {
    KidsExist(r, es, kids, parent);
  }

  lemma HitIsKid(r: Rules, es: Entries, kids: seq<Id>, y: nat)
    ensures YearHits(r, es, kids, y) != [] ==> YearHits(r, es, kids, y)[0] in kids
  {
    if YearHits(r, es, kids, y) != [] { HeadIn(YearHits(r, es, kids, y)); }
  }

  lemma SubTaken(r: Rules, es: Entries, cfg: Config, kids: seq<Id>, parent: Ref, c: nat, d: nat, node: Id)
    requires Acyclic(es) && SingleParent(es) && Frame(r, es, kids, parent) && c < |cfg.cats| && d < |cfg.cats|
    requires node in SubKids(r, es, ParentNode(r, es, kids, cfg.cats[d]))
    ensures ParentNode(r, es, kids, cfg.cats[c]) != Some(node) && node in es
  {
    hide ParentNode, Frame, Acyclic, SingleParent;
    if ParentNode(r, es, kids, cfg.cats[c]).Some? { BelowIsOther(r, es, kids, parent, cfg.cats[d], cfg.cats[c], node); }
    SubKidsExist(r, es, ParentNode(r, es, kids, cfg.cats[d]), node);
  }

  lemma SubKidsExist(r: Rules, es: Entries, parent: Option<Id>, node: Id)
    requires node in SubKids(r, es, parent)
    ensures node in es
  {
  }

  lemma LegacyTaken(r: Rules, es: Entries, cfg: Config, kids: seq<Id>, parent: Ref, c: nat, d: nat, a: Action)
    requires Separate(r, cfg) && c < |cfg.cats| && d < |cfg.cats| && (c != d ==> cfg.cats[c].code != cfg.cats[d].code)
    requires !Held(r, es, kids, Blocked(r, es, kids, cfg.cats), cfg.cats[c]) && forall q :: q in kids ==> q in es
    requires OldNameShape(r, es, LegacyOf(r, es, kids, cfg.cats[d]), cfg.cats[d], a) && (a.RegisterFolder? || a.RenameFolder?)
    ensures PlaceFor(a) == Some(MainPlace(cfg.cats[c].code)) <==> ParentNode(r, es, kids, cfg.cats[c]) == Some(a.node)
    ensures a.node in es
  {
    hide Separate, Held, LegacyOf, FindFolder, Blocked, FileBag;
    if c == d {
      NotBeside(r, es, kids, cfg, c);
      if LegacyOf(r, es, kids, cfg.cats[c]).Single? { SingleIs(r, es, kids, cfg.cats[c]); }
    } else if LegacyOf(r, es, kids, cfg.cats[d]).Single? {
      SingleIs(r, es, kids, cfg.cats[d]);
      RenamedOther(r, es, kids, cfg, c, d);
    } else if LegacyOf(r, es, kids, cfg.cats[d]).Beside? && LegacyOf(r, es, kids, cfg.cats[d]).exact != [] {
      BesideOther(r, es, kids, cfg, c, d);
    }
  }

  lemma MainTaken(r: Rules, es: Entries, cfg: Config, kids: seq<Id>, parent: Ref, c: nat, d: nat, a: Action)
    requires Separate(r, cfg) && c < |cfg.cats| && d < |cfg.cats| && (c != d ==> cfg.cats[c].code != cfg.cats[d].code)
    requires Searched(r, es, kids, Blocked(r, es, kids, cfg.cats), cfg.cats[d]) && forall q :: q in kids ==> q in es
    requires FindShape(FindFolder(r, es, kids, cfg.cats[d].name), MainPlace(cfg.cats[d].code), cfg.cats[d].code, parent, cfg.cats[d].name, a)
    requires a.RegisterFolder? || a.RenameFolder?
    ensures PlaceFor(a) == Some(MainPlace(cfg.cats[c].code)) <==> ParentNode(r, es, kids, cfg.cats[c]) == Some(a.node)
    ensures a.node in es
  {
    hide Separate, LegacyOf, FindFolder, Blocked;
    FoundResembles(r, es, kids, cfg.cats[d].name);
    assert ParentNode(r, es, kids, cfg.cats[d]) == Some(a.node);
    if c != d && ParentNode(r, es, kids, cfg.cats[c]) == Some(a.node) { NodesDiffer(r, es, kids, cfg, c, d); }
  }

  lemma MadeFor(r: Rules, es: Entries, es2: Entries, cfg: Config, pre: seq<Action>, kids: seq<Id>, parent: Ref, made: map<Place, Id>, c: nat, a: Action)
    requires Carried(r, es, es2, cfg, pre, kids, parent, made) && c < |cfg.cats|
    requires !Held(r, es, kids, Blocked(r, es, kids, cfg.cats), cfg.cats[c])
    requires a in FolderActions(r, es, cfg, kids, parent) || a in pre
    requires a.CreateFolder?
    ensures PlaceFor(a) == Some(MainPlace(cfg.cats[c].code)) <==> NodeFor(a, made) == MainNode(r, es, kids, cfg.cats[c], made)
  {
    hide FolderActions, Acyclic, SingleParent, Separate, Held, LegacyOf, FindFolder, ParentNode, Blocked, Preserved, BuiltOld, Creates, AllMainActions;
    MadeIs(r, es, es2, cfg, pre, kids, parent, made, a);
    if ParentNode(r, es, kids, cfg.cats[c]).Some? {
      OldNodeIsKid(r, es, kids, parent, cfg.cats[c]);
      NotPlannedToo(r, es, es2, cfg, pre, kids, parent, made, c, a);
    } else {
      ParentComes(r, es, cfg, kids, parent, c);
      MainPlanned(r, es, cfg, kids, parent, c);
      MadeIs(r, es, es2, cfg, pre, kids, parent, made, CreateFolder(MainPlace(cfg.cats[c].code), parent, cfg.cats[c].name));
    }
  }

  lemma NotPlannedToo(r: Rules, es: Entries, es2: Entries, cfg: Config, pre: seq<Action>, kids: seq<Id>, parent: Ref, made: map<Place, Id>, c: nat,
                      a: Action)
    requires Carried(r, es, es2, cfg, pre, kids, parent, made) && c < |cfg.cats|
    requires a in FolderActions(r, es, cfg, kids, parent) || a in pre
    requires a.CreateFolder?
    requires ParentNode(r, es, kids, cfg.cats[c]).Some?
    ensures a.place != MainPlace(cfg.cats[c].code)
  {
    hide FolderActions, Acyclic, SingleParent, Separate, Held, LegacyOf, FindFolder, Blocked, Preserved, Built, Shaped;
    if a in FolderActions(r, es, cfg, kids, parent) {
      var o := ShapeOf(r, es, cfg, kids, parent, a);
      CreateFacts(r, es, cfg, kids, parent, a, o);
      if o.FromMain? {
        MainShape(r, es, cfg, kids, parent, a, o);
        if a.place == MainPlace(cfg.cats[c].code) { CodesDiffer(r, cfg, o.c, c); }
      }
    }
  }

  lemma OnlyMain(r: Rules, es: Entries, es2: Entries, cfg: Config, pre: seq<Action>, kids: seq<Id>, parent: Ref, made: map<Place, Id>, c: nat)
    requires Carried(r, es, es2, cfg, pre, kids, parent, made) && c < |cfg.cats|
    requires !Held(r, es, kids, Blocked(r, es, kids, cfg.cats), cfg.cats[c])
    ensures OnlyFor(pre + FolderActions(r, es, cfg, kids, parent), made, MainPlace(cfg.cats[c].code), MainNode(r, es, kids, cfg.cats[c], made))
  {
    hide FolderActions, Acyclic, SingleParent, Separate, Held, Blocked, Preserved, Built, MainNode, ParentNode;
    var list := FolderActions(r, es, cfg, kids, parent);
    forall a | a in pre + list && PlaceFor(a).Some?
      ensures PlaceFor(a) == Some(MainPlace(cfg.cats[c].code)) <==> NodeFor(a, made) == MainNode(r, es, kids, cfg.cats[c], made)
    {
      if a.CreateFolder? {
        MadeFor(r, es, es2, cfg, pre, kids, parent, made, c, a);
      } else {
        FrameOf(r, es, cfg, pre, kids, parent);
        TakenOnce(r, es, cfg, kids, parent, c, a);
        OldIsMain(r, es, es2, cfg, pre, kids, parent, made, c, a.node);
      }
    }
  }

  /** A folder that was there before is the main folder exactly when the planner says so. */
  lemma OldIsMain(r: Rules, es: Entries, es2: Entries, cfg: Config, pre: seq<Action>, kids: seq<Id>, parent: Ref, made: map<Place, Id>, c: nat, node: Id)
    requires Carried(r, es, es2, cfg, pre, kids, parent, made) && c < |cfg.cats| && node in es
    requires !Held(r, es, kids, Blocked(r, es, kids, cfg.cats), cfg.cats[c])
    ensures ParentNode(r, es, kids, cfg.cats[c]) == Some(node) <==> node == MainNode(r, es, kids, cfg.cats[c], made)
  {
    hide FolderActions, Acyclic, SingleParent, Separate, Held, Blocked, Preserved, Built, ParentNode, AllMainActions, MainMissing;
    if ParentNode(r, es, kids, cfg.cats[c]).None? {
      ParentComes(r, es, cfg, kids, parent, c);
      MainPlanned(r, es, cfg, kids, parent, c);
      MadeIs(r, es, es2, cfg, pre, kids, parent, made, CreateFolder(MainPlace(cfg.cats[c].code), parent, cfg.cats[c].name));
    }
  }

  /** A category that is not held has its main folder on the list. */
  lemma MainListed(r: Rules, es: Entries, cfg: Config, kids: seq<Id>, parent: Ref, c: nat) returns (a: Action)
    requires Separate(r, cfg) && c < |cfg.cats| && !Held(r, es, kids, Blocked(r, es, kids, cfg.cats), cfg.cats[c])
    ensures a in FolderActions(r, es, cfg, kids, parent) && PlaceFor(a) == Some(MainPlace(cfg.cats[c].code))
  {
    hide FolderActions, Separate, LegacyOf, FindFolder, Blocked, FileBag;
    var cat := cfg.cats[c];
    if LegacyOf(r, es, kids, cat).Single? {
      RenamePlanned(r, es, cfg, kids, parent, c);
      var folder := LegacyOf(r, es, kids, cat).folder;
      a := RenameFolder(cat.code, folder, cat.name, FileBag(es, r.key, folder));
    } else if FindFolder(r, es, kids, cat.name).Absent? {
      MainPlanned(r, es, cfg, kids, parent, c);
      a := CreateFolder(MainPlace(cat.code), parent, cat.name);
    } else {
      a := RegisterFolder(MainPlace(cat.code), FindFolder(r, es, kids, cat.name).node);
      assert a in FindActions(FindFolder(r, es, kids, cat.name), MainPlace(cat.code), cat.code, parent, cat.name);
      Planned(r, es, cfg, kids, parent, a, FromMain(c));
    }
  }

  /** The main folder lies in the object folder and is live. */
  lemma MainNodeLives(r: Rules, es: Entries, es2: Entries, cfg: Config, pre: seq<Action>, kids: seq<Id>, parent: Ref, made: map<Place, Id>, c: nat)
    requires Carried(r, es, es2, cfg, pre, kids, parent, made) && Firm(es, made, parent) && c < |cfg.cats|
    requires !Held(r, es, kids, Blocked(r, es, kids, cfg.cats), cfg.cats[c])
    ensures MainNode(r, es, kids, cfg.cats[c], made) in FolderSet(es2, NodeOf(made, parent))
  {
    hide FolderActions, Acyclic, SingleParent, Separate, Held, Blocked, Preserved, Built, ParentNode, AllMainActions, MainMissing, FolderSet, OwnOf, LegacyOf;
    var n := MainNode(r, es, kids, cfg.cats[c], made);
    MainMembers(r, es, es2, cfg, pre, kids, parent, made, n);
    if ParentNode(r, es, kids, cfg.cats[c]).Some? {
      OldNodeIsKid(r, es, kids, parent, cfg.cats[c]);
    } else {
      ParentComes(r, es, cfg, kids, parent, c);
      OwnFacts(r, es, es2, cfg, pre, kids, parent, made, c);
      NewIsOwn(r, es, kids, cfg, made, c);
    }
  }

  lemma NewIsOwn(r: Rules, es: Entries, kids: seq<Id>, cfg: Config, made: map<Place, Id>, c: nat)
    requires c < |cfg.cats| && ParentNode(r, es, kids, cfg.cats[c]).None? && OwnOf(r, es, kids, Blocked(r, es, kids, cfg.cats), cfg.cats[c], made).Some?
    ensures Some(MainNode(r, es, kids, cfg.cats[c], made)) in OwnAll(r, es, kids, cfg, made)
  {
    hide LegacyOf, FindFolder, Blocked;
    assert OwnAll(r, es, kids, cfg, made)[c] == Some(MainNode(r, es, kids, cfg.cats[c], made));
  }

  lemma StartRows(pk: nat, w: World, plan: Plan, place: Place, n: Id)
    requires Unambiguous(w.rows) && place != RootPlace && !Start(pk, w, plan).aborted
    ensures Unambiguous(Start(pk, w, plan).w.rows)
    ensures NoFileBeside(w.rows, pk, place, n) ==> NoFileBeside(Start(pk, w, plan).w.rows, pk, place, n)
  {
    hide Unambiguous, Registered, Clashes, NoFileBeside;
    if plan.root.Some? {
      RegisteredUnambiguous(w.rows, pk, plan.root.value, RootPlace);
      if NoFileBeside(w.rows, pk, place, n) { NoFileComes(w.rows, pk, place, n, RootPlace, plan.root.value); }
    }
  }

  lemma ChiefAfterYears(rows: seq<Row>, pk: nat, cat: string, n: Id, yearCode: string, seen: set<Id>)
    requires Chief(rows, pk, MainPlace(cat), n)
    ensures Chief(DropYears(rows, pk, yearCode, seen), pk, MainPlace(cat), n)
    ensures NoFileBeside(rows, pk, MainPlace(cat), n) ==> NoFileBeside(DropYears(rows, pk, yearCode, seen), pk, MainPlace(cat), n)
  {
    var res := DropYears(rows, pk, yearCode, seen);
    var k :| 0 <= k < |rows| && rows[k].node == n;
    assert res[k].node == n;
  }

  /** Post-condition: after an undisturbed run a category that is neither blocked nor under review has a live main folder
    * in the object folder that holds the position; no other row does, unless it belongs to an owner or tenant file, and
    * then only if such a row held the position before the run. */
  lemma OneMainFolder(r: Rules, cfg: Config, t: Target, w: World, fails: nat -> bool, c: nat) returns (n: Id)
    requires WellFormed(r, cfg, w) && NoFaults(fails) && RootKnown(r, cfg, t, w) && c < |cfg.cats|
    requires Reconcile(r, cfg, t, w, fails).Some? && !Reconcile(r, cfg, t, w, fails).value.aborted
    requires Unambiguous(w.rows)
    requires !Held(r, w.drive.entries, Kids(r, cfg, t, w), Blocked(r, w.drive.entries, Kids(r, cfg, t, w), cfg.cats), cfg.cats[c])
    ensures var v, place := Reconcile(r, cfg, t, w, fails).value.w, MainPlace(cfg.cats[c].code);
      && Chief(v.rows, t.pk, place, n) && (NoFileBeside(w.rows, t.pk, place, n) ==> Sole(v.rows, t.pk, place, n))
      && v.stored.Some? && n in FolderSet(v.drive.entries, v.stored.value)
  {
    hide Acyclic, SingleParent, Separate, Opening, FolderActions, PlanFor, Execute, Start, ExecAll, Sound, NumberByForm, NoFaults, FoundRoot,
         Pre, Kids, Parent, RootKnown, Consistent, Built, Preserved, Filed, Sole, Chief, NoFileBeside, Unambiguous, Held, Blocked, MainNode, FolderSet;
    var es, kids, parent, pre := w.drive.entries, Kids(r, cfg, t, w), Parent(r, cfg, t, w), Pre(r, cfg, t, w);
    var plan, code := PlanFor(r, cfg, t, w).value, cfg.cats[c].code;
    var v := Reconcile(r, cfg, t, w, fails).value.w;
    var made := FirstRun(r, cfg, t, w, fails);
    n := MainNode(r, es, kids, cfg.cats[c], made);
    PlanShape(r, cfg, t, w);
    MainNodeLives(r, es, v.drive.entries, cfg, pre, kids, parent, made, c);
    OnlyMain(r, es, v.drive.entries, cfg, pre, kids, parent, made, c);
    var a := MainListed(r, es, cfg, kids, parent, c);
    var x := Start(t.pk, w, plan);
    AbortedStays(r, t.pk, x, plan.actions, fails);
    ExecuteFacts(r, cfg, t.pk, w, plan, fails);
    StartRows(t.pk, w, plan, MainPlace(code), n);
    assert Registers(plan.actions, MainPlace(code));
    FiledChief(x.w.rows, t.pk, plan.actions, made, MainPlace(code), n);
    ChiefAfterYears(ExecAll(r, t.pk, x, plan.actions, fails).w.rows, t.pk, code, n, cfg.yearCode, plan.yearIds);
    if NoFileBeside(w.rows, t.pk, MainPlace(code), n) { SoleIff(v.rows, t.pk, MainPlace(code), n); }
  }
}
