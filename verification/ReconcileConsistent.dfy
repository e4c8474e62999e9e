/** The planner's own list is one that an undisturbed run can carry out completely. */
module ReconcileConsistent {
  import opened Wrappers
  import opened Drive
  import opened Sorting
  import opened Tree
  import opened FileCount
  import opened ReconcilePlan
  import opened ReconcileRun
  import opened ReconcileSafety
  import opened ReconcileBuild
  import opened ReconcileCatalogue

  // ---------------------------------------------------------------- what a find says about names

  lemma ExactIs(r: Rules, es: Entries, kids: seq<Id>, name: string, c: Id)
    ensures c in Exacts(r, es, kids, name) <==> c in kids && r.nfc(NameOf(es, c)) == r.nfc(name)
  {
  }

  lemma SpelledIs(r: Rules, es: Entries, kids: seq<Id>, name: string, exact: seq<Id>, c: Id)
    ensures c in Spelled(r, es, kids, name, exact) <==> c in kids && c !in exact && Norm(r, NameOf(es, c)) == Norm(r, name)
  {
  }

  lemma SimilarIs(r: Rules, es: Entries, kids: seq<Id>, name: string, exact: seq<Id>, c: Id)
    ensures c in Similar(r, es, kids, name, exact) <==>
      c in kids && c !in exact && Norm(r, NameOf(es, c)) != Norm(r, name) && LooseMatch(r, NameOf(es, c), name)
  {
  }

  lemma AliasedIs(r: Rules, es: Entries, kids: seq<Id>, aliases: seq<string>, c: Id)
    ensures c in Aliased(r, es, kids, aliases) <==> c in kids && IsAlias(r, aliases, NameOf(es, c))
  {
  }

  /** A folder that was found is spelled like the name. */
  lemma FoundResembles(r: Rules, es: Entries, kids: seq<Id>, name: string)
    requires FindFolder(r, es, kids, name).One?
    ensures var c := FindFolder(r, es, kids, name).node; c in kids && Norm(r, NameOf(es, c)) == Norm(r, name)
  {
    var exact := Exacts(r, es, kids, name);
    var spelled := Spelled(r, es, kids, name, exact);
    if |exact| == 1 {
      assert exact[0] in exact;
      ExactIs(r, es, kids, name, exact[0]);
    } else {
      assert spelled[0] in spelled;
      SpelledIs(r, es, kids, name, exact, spelled[0]);
    }
  }

  /** Where nothing was found, no folder resembles the name. */
  lemma AbsentIff(r: Rules, es: Entries, kids: seq<Id>, name: string)
    ensures FindFolder(r, es, kids, name).Absent? <==> forall c :: c in kids ==> !Resembles(r, name, NameOf(es, c))
  {
    var exact := Exacts(r, es, kids, name);
    var spelled, similar := Spelled(r, es, kids, name, exact), Similar(r, es, kids, name, exact);
    forall c | c in kids ensures Resembles(r, name, NameOf(es, c)) <==> c in exact || c in spelled || c in similar {
      ExactIs(r, es, kids, name, c);
      SpelledIs(r, es, kids, name, exact, c);
      SimilarIs(r, es, kids, name, exact, c);
    }
    if exact != [] { assert exact[0] in exact; ExactIs(r, es, kids, name, exact[0]); }
    if spelled != [] { assert spelled[0] in spelled; SpelledIs(r, es, kids, name, exact, spelled[0]); }
    if similar != [] { assert similar[0] in similar; SimilarIs(r, es, kids, name, exact, similar[0]); }
  }

  lemma SingleIs(r: Rules, es: Entries, kids: seq<Id>, cat: Category)
    requires LegacyOf(r, es, kids, cat).Single?
    ensures var c := LegacyOf(r, es, kids, cat).folder;
      c in kids && IsAlias(r, cat.aliases, NameOf(es, c)) && r.nfc(NameOf(es, c)) != r.nfc(cat.name)
  {
    var exact, former := Exacts(r, es, kids, cat.name), Aliased(r, es, kids, cat.aliases);
    var c := former[0];
    assert c in former;
    AliasedIs(r, es, kids, cat.aliases, c);
    ExactIs(r, es, kids, cat.name, c);
    assert exact == [];
  }

  /** The main folder of a category carries one of its old names or is spelled like its name. */
  lemma NodeTouches(r: Rules, es: Entries, kids: seq<Id>, cat: Category)
    requires ParentNode(r, es, kids, cat).Some?
    ensures var c := ParentNode(r, es, kids, cat).value;
      c in kids && (IsAlias(r, cat.aliases, NameOf(es, c)) || Norm(r, NameOf(es, c)) == Norm(r, cat.name))
  {
    if LegacyOf(r, es, kids, cat).Single? {
      SingleIs(r, es, kids, cat);
    } else {
      FoundResembles(r, es, kids, cat.name);
    }
  }

  lemma NodesDiffer(r: Rules, es: Entries, kids: seq<Id>, cfg: Config, i: nat, j: nat)
    requires Separate(r, cfg) && i < |cfg.cats| && j < |cfg.cats|
    requires ParentNode(r, es, kids, cfg.cats[i]).Some? && ParentNode(r, es, kids, cfg.cats[i]) == ParentNode(r, es, kids, cfg.cats[j])
    ensures i == j
  {
    NodeTouches(r, es, kids, cfg.cats[i]);
    NodeTouches(r, es, kids, cfg.cats[j]);
    assert i != j ==> Foreign(r, cfg.cats[i], cfg.cats[j]) && Foreign(r, cfg.cats[j], cfg.cats[i]);
  }

  // ---------------------------------------------------------------- where an action comes from

  lemma InSubs(r: Rules, es: Entries, kids: seq<Id>, blocked: set<string>, cfg: Config, a: Action) returns (c: nat, k: nat)
    requires a in AllSubActions(r, es, kids, blocked, cfg.cats)
    ensures c < |cfg.cats| && k < |cfg.cats[c].subs| && !Held(r, es, kids, blocked, cfg.cats[c])
    ensures a in SubAction(r, es, ParentNode(r, es, kids, cfg.cats[c]), cfg.cats[c].code, cfg.cats[c].subs[k])
  {
    var f := (cat: Category) => SubActions(r, es, kids, blocked, cat);
    GatherMember(cfg.cats, f, a);
    c :| 0 <= c < |cfg.cats| && a in f(cfg.cats[c]);
    var parent := ParentNode(r, es, kids, cfg.cats[c]);
    var g := (sub: Subfolder) => SubAction(r, es, parent, cfg.cats[c].code, sub);
    GatherMember(cfg.cats[c].subs, g, a);
    k :| 0 <= k < |cfg.cats[c].subs| && a in g(cfg.cats[c].subs[k]);
  }

  lemma InMains(r: Rules, es: Entries, kids: seq<Id>, blocked: set<string>, parent: Ref, cfg: Config, a: Action) returns (c: nat)
    requires a in AllMainActions(r, es, kids, blocked, parent, cfg.cats)
    ensures c < |cfg.cats| && a in MainActions(r, es, kids, blocked, parent, cfg.cats[c])
  {
    var f := (cat: Category) => MainActions(r, es, kids, blocked, parent, cat);
    GatherMember(cfg.cats, f, a);
    c :| 0 <= c < |cfg.cats| && a in f(cfg.cats[c]);
  }

  lemma InLegacy(r: Rules, es: Entries, kids: seq<Id>, cfg: Config, a: Action) returns (c: nat)
    requires a in AllLegacyActions(r, es, kids, cfg.cats)
    ensures c < |cfg.cats| && a in LegacyActions(r, es, kids, cfg.cats[c])
  {
    var f := (cat: Category) => LegacyActions(r, es, kids, cat);
    GatherMember(cfg.cats, f, a);
    c :| 0 <= c < |cfg.cats| && a in f(cfg.cats[c]);
  }

  /** Year actions only register year folders and open reviews. */
  lemma InYears(r: Rules, es: Entries, kids: seq<Id>, blocked: set<string>, cfg: Config, a: Action) returns (c: nat, y: nat)
    requires a in AllYearActions(r, es, kids, blocked, cfg.yearCode, cfg.cats)
    ensures c < |cfg.cats| && YearsChecked(r, es, kids, blocked, cfg.yearCode, cfg.cats[c])
    ensures a in YearAction(r, es, SubKids(r, es, ParentNode(r, es, kids, cfg.cats[c])), cfg.cats[c].code, y)
  {
    var f := (cat: Category) => YearActions(r, es, kids, blocked, cfg.yearCode, cat);
    GatherMember(cfg.cats, f, a);
    c :| 0 <= c < |cfg.cats| && a in f(cfg.cats[c]);
    var yearKids := SubKids(r, es, ParentNode(r, es, kids, cfg.cats[c]));
    y := InYearList(r, es, yearKids, cfg.cats[c].code, SortedYears(YearsOf(r, es, yearKids)), a);
  }

  lemma InYearList(r: Rules, es: Entries, kids: seq<Id>, code: string, years: seq<nat>, a: Action) returns (y: nat)
    requires a in Gather(years, (y: nat) => YearAction(r, es, kids, code, y))
    ensures a in YearAction(r, es, kids, code, y)
  {
    var f := (y: nat) => YearAction(r, es, kids, code, y);
    GatherMember(years, f, a);
    var k :| 0 <= k < |years| && a in f(years[k]);
    y := years[k];
  }

  /** The step and the category that put an action on the list. */
  datatype Origin = FromLegacy(c: nat) | FromMain(c: nat) | FromSub(c: nat, k: nat) | FromYear(c: nat, y: nat)

  ghost predicate ComesFrom(r: Rules, es: Entries, cfg: Config, kids: seq<Id>, parent: Ref, a: Action, o: Origin) {
    var blocked := Blocked(r, es, kids, cfg.cats);
    && o.c < |cfg.cats|
    && match o
       case FromLegacy(c) => a in LegacyActions(r, es, kids, cfg.cats[c])
       case FromMain(c) => a in MainActions(r, es, kids, blocked, parent, cfg.cats[c])
       case FromSub(c, k) =>
         k < |cfg.cats[c].subs| && !Held(r, es, kids, blocked, cfg.cats[c])
         && a in SubAction(r, es, ParentNode(r, es, kids, cfg.cats[c]), cfg.cats[c].code, cfg.cats[c].subs[k])
       case FromYear(c, y) =>
         YearsChecked(r, es, kids, blocked, cfg.yearCode, cfg.cats[c])
         && a in YearAction(r, es, SubKids(r, es, ParentNode(r, es, kids, cfg.cats[c])), cfg.cats[c].code, y)
  }

  lemma OriginOf(r: Rules, es: Entries, cfg: Config, kids: seq<Id>, parent: Ref, a: Action) returns (o: Origin)
    requires a in FolderActions(r, es, cfg, kids, parent)
    ensures ComesFrom(r, es, cfg, kids, parent, a, o)
  {
    var blocked := Blocked(r, es, kids, cfg.cats);
    if a in AllLegacyActions(r, es, kids, cfg.cats) {
      var c := InLegacy(r, es, kids, cfg, a);
      o := FromLegacy(c);
    } else if a in AllMainActions(r, es, kids, blocked, parent, cfg.cats) {
      var c := InMains(r, es, kids, blocked, parent, cfg, a);
      o := FromMain(c);
    } else if a in AllSubActions(r, es, kids, blocked, cfg.cats) {
      var c, k := InSubs(r, es, kids, blocked, cfg, a);
      o := FromSub(c, k);
    } else {
      var c, y := InYears(r, es, kids, blocked, cfg, a);
      o := FromYear(c, y);
    }
  }

  ghost predicate FindShape(f: Find, place: Place, code: string, parent: Ref, name: string, a: Action) {
    match f
    case One(node) => a == RegisterFolder(place, node)
    case Ambiguous(_) => a.OpenReview? && a.key == Key(Some(code), SameName)
    case Alike(_) => a.OpenReview? && a.key == Key(Some(code), SimilarName)
    case Absent => a == CreateFolder(place, parent, name)
  }

  ghost predicate OldNameShape(r: Rules, es: Entries, leg: Legacy, cat: Category, a: Action) {
    match leg
    case Beside(exact, _) =>
      exact != [] && (a == RegisterFolder(MainPlace(cat.code), exact[0]) || (a.OpenReview? && a.key == Key(Some(cat.code), BothExist)))
    case Several(_) => a.OpenReview? && a.key == Key(Some(cat.code), MultipleLegacy)
    case Single(folder) => a == RenameFolder(cat.code, folder, cat.name, FileBag(es, r.key, folder))
    case NoLegacy => false
  }

  ghost predicate YearShape(hits: seq<Id>, code: string, y: nat, a: Action) {
    if |hits| > 1 then a.OpenReview? && a.key == Key(Some(code), SameName)
    else |hits| == 1 && a == RegisterFolder(YearPlace(code, y), hits[0])
  }

  /** Step by step, what the action of an origin looks like. */
  ghost predicate Shaped(r: Rules, es: Entries, cfg: Config, kids: seq<Id>, parent: Ref, a: Action, o: Origin) {
    var blocked := Blocked(r, es, kids, cfg.cats);
    && o.c < |cfg.cats|
    && var cat := cfg.cats[o.c]; var node := ParentNode(r, es, kids, cat);
       match o
       case FromLegacy(_) => OldNameShape(r, es, LegacyOf(r, es, kids, cat), cat, a)
       case FromMain(_) =>
         Searched(r, es, kids, blocked, cat)
         && FindShape(FindFolder(r, es, kids, cat.name), MainPlace(cat.code), cat.code, parent, cat.name, a)
       case FromSub(_, k) =>
         k < |cat.subs| && !Held(r, es, kids, blocked, cat)
         && FindShape(FindFolder(r, es, SubKids(r, es, node), cat.subs[k].name), SubPlace(cat.code, cat.subs[k].id),
                      cat.code, SubRef(node, cat.code), cat.subs[k].name, a)
       case FromYear(_, y) =>
         YearsChecked(r, es, kids, blocked, cfg.yearCode, cat) && YearShape(YearHits(r, es, SubKids(r, es, node), y), cat.code, y, a)
  }

  lemma ShapeOf(r: Rules, es: Entries, cfg: Config, kids: seq<Id>, parent: Ref, a: Action) returns (o: Origin)
    requires a in FolderActions(r, es, cfg, kids, parent)
    ensures Shaped(r, es, cfg, kids, parent, a, o)
  {
    o := OriginOf(r, es, cfg, kids, parent, a);
    var cat := cfg.cats[o.c];
    var node := ParentNode(r, es, kids, cat);
    match o
    case FromLegacy(_) => FromOldName(r, es, LegacyOf(r, es, kids, cat), cat, a);
    case FromMain(_) => FromFind(FindFolder(r, es, kids, cat.name), MainPlace(cat.code), cat.code, parent, cat.name, a);
    case FromSub(_, k) =>
      FromFind(FindFolder(r, es, SubKids(r, es, node), cat.subs[k].name), SubPlace(cat.code, cat.subs[k].id), cat.code, SubRef(node, cat.code), cat.subs[k].name, a);
    case FromYear(_, y) => FromYearAction(YearHits(r, es, SubKids(r, es, node), y), cat.code, y, a);
  }

  lemma FromFind(f: Find, place: Place, code: string, parent: Ref, name: string, a: Action)
    requires a in FindActions(f, place, code, parent, name)
    ensures FindShape(f, place, code, parent, name, a)
  {
  }

  lemma FromOldName(r: Rules, es: Entries, leg: Legacy, cat: Category, a: Action)
    requires a in OldNameActions(r, es, leg, cat)
    ensures OldNameShape(r, es, leg, cat, a)
  {
  }

  lemma FromYearAction(hits: seq<Id>, code: string, y: nat, a: Action)
    requires a in YearActionFor(hits, code, y)
    ensures YearShape(hits, code, y, a)
  {
  }

  // ---------------------------------------------------------------- every write once

  ghost predicate RenamesOnce(actions: seq<Action>) {
    forall i, j :: 0 <= i < j < |actions| && actions[i].RenameFolder? && actions[j].RenameFolder? ==> actions[i].cat != actions[j].cat
  }

  lemma RenamesJoin(a: seq<Action>, b: seq<Action>)
    requires RenamesOnce(a) && RenamesOnce(b)
    requires forall x, y :: x in a && y in b && x.RenameFolder? && y.RenameFolder? ==> x.cat != y.cat
    ensures RenamesOnce(a + b)
  {
    forall i, j | 0 <= i < j < |a + b| && (a + b)[i].RenameFolder? && (a + b)[j].RenameFolder?
      ensures (a + b)[i].cat != (a + b)[j].cat
    {
      if i < |a| <= j { assert a[i] in a && b[j - |a|] in b; }
    }
  }

  lemma {:induction false} LegacyRenamesOnce(r: Rules, es: Entries, kids: seq<Id>, cats: seq<Category>)
    requires forall i, j :: 0 <= i < j < |cats| ==> cats[i].code != cats[j].code
    ensures RenamesOnce(AllLegacyActions(r, es, kids, cats))
  {
    if cats != [] {
      var rest := cats[1..];
      LegacyRenamesOnce(r, es, kids, rest);
      var a, b := LegacyActions(r, es, kids, cats[0]), AllLegacyActions(r, es, kids, rest);
      forall x, y | x in a && y in b && x.RenameFolder? && y.RenameFolder? ensures x.cat != y.cat {
        FromOldName(r, es, LegacyOf(r, es, kids, cats[0]), cats[0], x);
        GatherMember(rest, (cat: Category) => LegacyActions(r, es, kids, cat), y);
        var k :| 0 <= k < |rest| && y in LegacyActions(r, es, kids, rest[k]);
        FromOldName(r, es, LegacyOf(r, es, kids, rest[k]), rest[k], y);
        assert rest[k] == cats[k + 1];
      }
      OneRename(r, es, LegacyOf(r, es, kids, cats[0]), cats[0]);
      RenamesJoin(a, b);
    }
  }

  lemma OneRename(r: Rules, es: Entries, leg: Legacy, cat: Category)
    ensures RenamesOnce(OldNameActions(r, es, leg, cat))
  {
  }

  lemma NoRenames(r: Rules, es: Entries, cfg: Config, kids: seq<Id>, parent: Ref, a: Action, o: Origin)
    requires Shaped(r, es, cfg, kids, parent, a, o) && a.RenameFolder?
    ensures o.FromLegacy? && LegacyOf(r, es, kids, cfg.cats[o.c]).Single?
  {
  }

  lemma PartsOnce(r: Rules, es: Entries, cfg: Config, kids: seq<Id>, parent: Ref)
    requires Separate(r, cfg)
    ensures CreatesOnce(FolderActions(r, es, cfg, kids, parent)) && RenamesOnce(FolderActions(r, es, cfg, kids, parent))
    ensures forall p :: Creates(FolderActions(r, es, cfg, kids, parent), p) ==> p.MainPlace? || p.SubPlace?
  {
    var blocked := Blocked(r, es, kids, cfg.cats);
    var l, m := AllLegacyActions(r, es, kids, cfg.cats), AllMainActions(r, es, kids, blocked, parent, cfg.cats);
    var s, y := AllSubActions(r, es, kids, blocked, cfg.cats), AllYearActions(r, es, kids, blocked, cfg.yearCode, cfg.cats);
    forall p ensures !Creates(l, p) && !Creates(y, p) && (Creates(s, p) ==> p.SubPlace?) && (Creates(m, p) ==> p.MainPlace?) {
      LegacyCreatesNothing(r, es, kids, cfg.cats, p);
      YearsCreateNothing(r, es, kids, blocked, cfg.yearCode, cfg.cats, p);
      if Creates(s, p) { OnlySubPlaces(r, es, kids, blocked, cfg, p); }
      MainCreates(r, es, kids, blocked, parent, cfg);
    }
    MainCreates(r, es, kids, blocked, parent, cfg);
    AllSubCreates(r, es, kids, blocked, cfg);
    NoneOnce(l);
    NoneOnce(y);
    CreatesJoin(l, m);
    CreatesJoin(l + m, s);
    CreatesJoin(l + m + s, y);
    forall i, j | 0 <= i < j < |cfg.cats| ensures cfg.cats[i].code != cfg.cats[j].code {
      assert Foreign(r, cfg.cats[i], cfg.cats[j]);
    }
    LegacyRenamesOnce(r, es, kids, cfg.cats);
    OnlyLegacyRenames(r, es, cfg, kids, parent);
    RenamesJoin(l, m);
    RenamesJoin(l + m, s);
    RenamesJoin(l + m + s, y);
  }

  lemma NoneOnce(a: seq<Action>)
    requires forall p :: !Creates(a, p)
    ensures CreatesOnce(a)
  {
    forall i, j | 0 <= i < j < |a| && a[i].CreateFolder? && a[j].CreateFolder? ensures a[i].place != a[j].place {
      assert !Creates(a, a[i].place);
    }
  }

  lemma OnlyLegacyRenames(r: Rules, es: Entries, cfg: Config, kids: seq<Id>, parent: Ref)
    ensures var blocked := Blocked(r, es, kids, cfg.cats);
      && (forall a :: a in AllMainActions(r, es, kids, blocked, parent, cfg.cats) ==> !a.RenameFolder?)
      && (forall a :: a in AllSubActions(r, es, kids, blocked, cfg.cats) ==> !a.RenameFolder?)
      && (forall a :: a in AllYearActions(r, es, kids, blocked, cfg.yearCode, cfg.cats) ==> !a.RenameFolder?)
  {
    var blocked := Blocked(r, es, kids, cfg.cats);
    forall a | a in AllMainActions(r, es, kids, blocked, parent, cfg.cats) ensures !a.RenameFolder? {
      var c := InMains(r, es, kids, blocked, parent, cfg, a);
      var cat := cfg.cats[c];
      FromFind(FindFolder(r, es, kids, cat.name), MainPlace(cat.code), cat.code, parent, cat.name, a);
    }
    forall a | a in AllSubActions(r, es, kids, blocked, cfg.cats) ensures !a.RenameFolder? {
      var c, k := InSubs(r, es, kids, blocked, cfg, a);
      var cat := cfg.cats[c];
      var node := ParentNode(r, es, kids, cat);
      FromFind(FindFolder(r, es, SubKids(r, es, node), cat.subs[k].name), SubPlace(cat.code, cat.subs[k].id), cat.code, SubRef(node, cat.code), cat.subs[k].name, a);
    }
    forall a | a in AllYearActions(r, es, kids, blocked, cfg.yearCode, cfg.cats) ensures !a.RenameFolder? {
      var c, y := InYears(r, es, kids, blocked, cfg, a);
      FromYearAction(YearHits(r, es, SubKids(r, es, ParentNode(r, es, kids, cfg.cats[c])), y), cfg.cats[c].code, y, a);
    }
  }

  // ---------------------------------------------------------------- no two folders of one name in one place

  lemma KidsBelow(r: Rules, es: Entries, kids: seq<Id>, parent: Ref, c: Id)
    requires Acyclic(es) && Frame(r, es, kids, parent) && c in kids
    ensures parent.ById? && Child(es, parent.id, c) && IsFolder(es, c) && c != parent.id
  {
    assert c in FolderSet(es, parent.id);
    if c == parent.id { assert Path(es, [c, c]); assert Inside(es, c, c); assert false; }
  }

  lemma NodeBelow(r: Rules, es: Entries, kids: seq<Id>, parent: Ref, cat: Category)
    requires Acyclic(es) && Frame(r, es, kids, parent) && ParentNode(r, es, kids, cat).Some?
    ensures var p := ParentNode(r, es, kids, cat).value;
      parent.ById? && Child(es, parent.id, p) && IsFolder(es, p) && p != parent.id
  {
    NodeTouches(r, es, kids, cat);
    KidsBelow(r, es, kids, parent, ParentNode(r, es, kids, cat).value);
  }

  /** A planned folder is a main folder in the frame's parent or a subfolder below a main folder. */
  lemma CreateFacts(r: Rules, es: Entries, cfg: Config, kids: seq<Id>, parent: Ref, a: Action, o: Origin)
    requires a.CreateFolder? && Shaped(r, es, cfg, kids, parent, a, o)
    ensures o.c < |cfg.cats| && (o.FromMain? || o.FromSub?)
    ensures o.FromMain? ==> a == CreateFolder(MainPlace(cfg.cats[o.c].code), parent, cfg.cats[o.c].name)
    ensures o.FromSub? ==> o.k < |cfg.cats[o.c].subs|
    ensures o.FromSub? ==>
      a == CreateFolder(SubPlace(cfg.cats[o.c].code, cfg.cats[o.c].subs[o.k].id),
                        SubRef(ParentNode(r, es, kids, cfg.cats[o.c]), cfg.cats[o.c].code), cfg.cats[o.c].subs[o.k].name)
  {
  }

  lemma SubRefElsewhere(r: Rules, es: Entries, kids: seq<Id>, parent: Ref, cat: Category)
    requires Acyclic(es) && Frame(r, es, kids, parent)
    ensures SubRef(ParentNode(r, es, kids, cat), cat.code) != parent
  {
    if ParentNode(r, es, kids, cat).Some? { NodeBelow(r, es, kids, parent, cat); }
  }

  /** Two folders planned for one parent have different names. */
  lemma NamesDiffer(r: Rules, es: Entries, cfg: Config, kids: seq<Id>, parent: Ref, a: Action, b: Action)
    requires Acyclic(es) && Separate(r, cfg) && Frame(r, es, kids, parent)
    requires a in FolderActions(r, es, cfg, kids, parent) && b in FolderActions(r, es, cfg, kids, parent)
    requires a.CreateFolder? && b.CreateFolder? && a.place != b.place && a.parent == b.parent
    ensures r.nfc(a.name) != r.nfc(b.name)
  {
    var o := ShapeOf(r, es, cfg, kids, parent, a);
    var q := ShapeOf(r, es, cfg, kids, parent, b);
    CreateFacts(r, es, cfg, kids, parent, a, o);
    CreateFacts(r, es, cfg, kids, parent, b, q);
    SubRefElsewhere(r, es, kids, parent, cfg.cats[o.c]);
    SubRefElsewhere(r, es, kids, parent, cfg.cats[q.c]);
    if o.FromMain? {
      assert Foreign(r, cfg.cats[q.c], cfg.cats[o.c]);
    } else {
      SameCategory(r, es, kids, cfg, o.c, q.c);
      assert SubsSeparate(r, cfg, cfg.cats[o.c]);
      assert !Resembles(r, cfg.cats[o.c].subs[o.k].name, cfg.cats[o.c].subs[q.k].name);
    }
  }

  lemma SameCategory(r: Rules, es: Entries, kids: seq<Id>, cfg: Config, i: nat, j: nat)
    requires Separate(r, cfg) && i < |cfg.cats| && j < |cfg.cats|
    requires SubRef(ParentNode(r, es, kids, cfg.cats[i]), cfg.cats[i].code) == SubRef(ParentNode(r, es, kids, cfg.cats[j]), cfg.cats[j].code)
    ensures i == j
  {
    if ParentNode(r, es, kids, cfg.cats[i]).Some? {
      NodesDiffer(r, es, kids, cfg, i, j);
    } else {
      CodesDiffer(r, cfg, i, j);
    }
  }

  // ---------------------------------------------------------------- every planned folder fits

  /** The number of a folder name depends on its composed form only, so a folder of the new name would have been found. */
  ghost predicate NumberByForm(r: Rules) {
    forall m, n :: r.nfc(m) == r.nfc(n) ==> r.number(m) == r.number(n)
  }

  /** The list starts with the lookup of the object folder and, when there is none, with its creation. */
  ghost predicate Opening(r: Rules, es: Entries, cfg: Config, pre: seq<Action>, kids: seq<Id>, parent: Ref) {
    && Frame(r, es, kids, parent)
    && if parent.ById? then pre == [FindRoot]
       else |pre| == 2 && pre[0] == FindRoot && pre[1].CreateFolder? && pre[1].place == RootPlace && pre[1].parent == ById(cfg.root)
            && cfg.root in es && forall q :: q in FolderSet(es, cfg.root) ==> r.nfc(es[q].name) != r.nfc(pre[1].name)
  }

  lemma MainFits(r: Rules, es: Entries, cfg: Config, kids: seq<Id>, parent: Ref, c: nat)
    requires Separate(r, cfg) && Frame(r, es, kids, parent) && c < |cfg.cats|
    requires MainMissing(r, es, kids, Blocked(r, es, kids, cfg.cats), cfg.cats[c])
    ensures parent.ById? ==> forall q :: q in FolderSet(es, parent.id) ==> r.nfc(es[q].name) != r.nfc(cfg.cats[c].name)
    ensures LegacyOf(r, es, kids, cfg.cats[c]).NoLegacy?
  {
    AbsentIff(r, es, kids, cfg.cats[c].name);
    BlockedMember(r, es, kids, cfg.cats, cfg.cats[c].code);
    if parent.ById? {
      forall q | q in FolderSet(es, parent.id) ensures r.nfc(es[q].name) != r.nfc(cfg.cats[c].name) {
        assert q in kids;
        assert !Resembles(r, cfg.cats[c].name, NameOf(es, q));
      }
    }
  }

  /** No action of the list registers or renames the main folder of a category whose folder is missing. */
  lemma NotAlsoThere(r: Rules, es: Entries, cfg: Config, kids: seq<Id>, parent: Ref, c: nat, b: Action)
    requires Separate(r, cfg) && Frame(r, es, kids, parent) && c < |cfg.cats|
    requires MainMissing(r, es, kids, Blocked(r, es, kids, cfg.cats), cfg.cats[c]) && b in FolderActions(r, es, cfg, kids, parent)
    ensures b.RegisterFolder? ==> b.place != MainPlace(cfg.cats[c].code)
    ensures b.RenameFolder? ==> b.cat != cfg.cats[c].code && r.nfc(b.name) != r.nfc(cfg.cats[c].name)
  {
    MainFits(r, es, cfg, kids, parent, c);
    var o := ShapeOf(r, es, cfg, kids, parent, b);
    if cfg.cats[o.c].code == cfg.cats[c].code { CodesDiffer(r, cfg, o.c, c); }
    if b.RenameFolder? {
      NoRenames(r, es, cfg, kids, parent, b, o);
      assert Foreign(r, cfg.cats[o.c], cfg.cats[c]);
    }
  }

  lemma SubFits(r: Rules, es: Entries, cfg: Config, kids: seq<Id>, parent: Ref, c: nat, k: nat)
    requires Acyclic(es) && Frame(r, es, kids, parent) && c < |cfg.cats| && k < |cfg.cats[c].subs|
    requires SubMissing(r, es, kids, Blocked(r, es, kids, cfg.cats), cfg.cats[c], cfg.cats[c].subs[k])
    requires ParentNode(r, es, kids, cfg.cats[c]).Some?
    ensures var p := ParentNode(r, es, kids, cfg.cats[c]).value;
      p in es && forall q :: q in FolderSet(es, p) ==> r.nfc(es[q].name) != r.nfc(cfg.cats[c].subs[k].name)
  {
    var p := ParentNode(r, es, kids, cfg.cats[c]).value;
    NodeBelow(r, es, kids, parent, cfg.cats[c]);
    NoneResembles(r, es, p, cfg.cats[c].subs[k].name);
  }

  lemma NoneResembles(r: Rules, es: Entries, p: Id, name: string)
    requires FindFolder(r, es, SubKids(r, es, Some(p)), name).Absent?
    ensures forall q :: q in FolderSet(es, p) ==> r.nfc(es[q].name) != r.nfc(name)
  {
    AbsentIff(r, es, SubKids(r, es, Some(p)), name);
    forall q | q in FolderSet(es, p) ensures r.nfc(es[q].name) != r.nfc(name) {
      assert q in SubKids(r, es, Some(p));
      assert !Resembles(r, name, NameOf(es, q));
    }
  }

  /** What is renamed lies in the object folder, not in a main folder. */
  lemma RenamedElsewhere(r: Rules, es: Entries, cfg: Config, kids: seq<Id>, parent: Ref, c: nat, b: Action)
    requires Acyclic(es) && SingleParent(es) && Frame(r, es, kids, parent) && c < |cfg.cats|
    requires ParentNode(r, es, kids, cfg.cats[c]).Some? && b in FolderActions(r, es, cfg, kids, parent) && b.RenameFolder?
    ensures !Child(es, ParentNode(r, es, kids, cfg.cats[c]).value, b.node)
  {
    hide FolderActions, ParentNode, Frame, Shaped;
    NodeBelow(r, es, kids, parent, cfg.cats[c]);
    var o := ShapeOf(r, es, cfg, kids, parent, b);
    RenameFacts(r, es, cfg, kids, parent, b, o);
    KidsBelow(r, es, kids, parent, b.node);
    assert es[b.node].parents[0] == parent.id;
  }

  /** A category that is not held and has no folder yet gets one before its subfolders are reached. */
  lemma ParentComes(r: Rules, es: Entries, cfg: Config, kids: seq<Id>, parent: Ref, c: nat)
    requires Separate(r, cfg) && c < |cfg.cats| && !Held(r, es, kids, Blocked(r, es, kids, cfg.cats), cfg.cats[c])
    requires ParentNode(r, es, kids, cfg.cats[c]).None?
    ensures MainMissing(r, es, kids, Blocked(r, es, kids, cfg.cats), cfg.cats[c])
    ensures Creates(AllMainActions(r, es, kids, Blocked(r, es, kids, cfg.cats), parent, cfg.cats), MainPlace(cfg.cats[c].code))
  {
    MainCreates(r, es, kids, Blocked(r, es, kids, cfg.cats), parent, cfg);
  }

  lemma Earlier(a: seq<Action>, all: seq<Action>, i: nat, p: Place)
    requires a <= all && |a| <= i <= |all| && Creates(a, p)
    ensures Creates(all[..i], p)
  {
    var k :| 0 <= k < |a| && a[k].CreateFolder? && a[k].place == p;
    assert all[..i][k] == a[k];
  }

  lemma PastFront(front: seq<Action>, rest: seq<Action>, i: nat)
    requires i < |front + rest| && (front + rest)[i].CreateFolder? && !Creates(front, (front + rest)[i].place)
    ensures |front| <= i
  {
  }

  function Front(r: Rules, es: Entries, cfg: Config, pre: seq<Action>, kids: seq<Id>, parent: Ref): seq<Action> {
    pre + AllLegacyActions(r, es, kids, cfg.cats) + AllMainActions(r, es, kids, Blocked(r, es, kids, cfg.cats), parent, cfg.cats)
  }

  lemma Regroup(pre: seq<Action>, l: seq<Action>, m: seq<Action>, s: seq<Action>, y: seq<Action>)
    ensures pre + (l + m + s + y) == (pre + l + m) + (s + y)
  {
  }

  function Back(r: Rules, es: Entries, cfg: Config, kids: seq<Id>): seq<Action> {
    var blocked := Blocked(r, es, kids, cfg.cats);
    AllSubActions(r, es, kids, blocked, cfg.cats) + AllYearActions(r, es, kids, blocked, cfg.yearCode, cfg.cats)
  }

  lemma FrontAndBack(r: Rules, es: Entries, cfg: Config, pre: seq<Action>, kids: seq<Id>, parent: Ref)
    ensures pre + FolderActions(r, es, cfg, kids, parent) == Front(r, es, cfg, pre, kids, parent) + Back(r, es, cfg, kids)
  {
    hide AllLegacyActions, AllMainActions, AllSubActions, AllYearActions, Blocked;
    var blocked := Blocked(r, es, kids, cfg.cats);
    var l, m := AllLegacyActions(r, es, kids, cfg.cats), AllMainActions(r, es, kids, blocked, parent, cfg.cats);
    var s, y := AllSubActions(r, es, kids, blocked, cfg.cats), AllYearActions(r, es, kids, blocked, cfg.yearCode, cfg.cats);
    Regroup(pre, l, m, s, y);
  }

  lemma AfterMains(r: Rules, es: Entries, cfg: Config, pre: seq<Action>, kids: seq<Id>, parent: Ref, i: nat)
    requires Separate(r, cfg) && Opening(r, es, cfg, pre, kids, parent)
    requires var all := pre + FolderActions(r, es, cfg, kids, parent);
      i < |all| && all[i].CreateFolder? && all[i].place.SubPlace?
    ensures Front(r, es, cfg, pre, kids, parent) <= pre + FolderActions(r, es, cfg, kids, parent)
    ensures |Front(r, es, cfg, pre, kids, parent)| <= i
  {
    hide AllLegacyActions, AllMainActions, Blocked, Separate, FolderActions, Frame, Back;
    var blocked := Blocked(r, es, kids, cfg.cats);
    var l, m := AllLegacyActions(r, es, kids, cfg.cats), AllMainActions(r, es, kids, blocked, parent, cfg.cats);
    var p := (pre + FolderActions(r, es, cfg, kids, parent))[i].place;
    FrontAndBack(r, es, cfg, pre, kids, parent);
    MainCreates(r, es, kids, blocked, parent, cfg);
    LegacyCreatesNothing(r, es, kids, cfg.cats, p);
    CreatesPlus(pre + l, m, p);
    CreatesPlus(pre, l, p);
    PastFront(pre + l + m, Back(r, es, cfg, kids), i);
  }

  // ---------------------------------------------------------------- the whole list

  lemma CreateFits(r: Rules, es: Entries, cfg: Config, pre: seq<Action>, kids: seq<Id>, parent: Ref, i: nat)
    requires Acyclic(es) && SingleParent(es) && Separate(r, cfg) && Opening(r, es, cfg, pre, kids, parent)
    requires i < |pre + FolderActions(r, es, cfg, kids, parent)| && (pre + FolderActions(r, es, cfg, kids, parent))[i].CreateFolder?
    ensures Fits(r, es, pre + FolderActions(r, es, cfg, kids, parent), i)
  {
    hide FolderActions, Shaped, Separate, Acyclic, SingleParent, Frame, Fits;
    var list := FolderActions(r, es, cfg, kids, parent);
    var a := (pre + list)[i];
    if i < |pre| {
      RootFits(r, es, cfg, pre, kids, parent, i);
    } else {
      assert a == list[i - |pre|] && a in list;
      var o := ShapeOf(r, es, cfg, kids, parent, a);
      CreateFacts(r, es, cfg, kids, parent, a, o);
      if o.FromMain? {
        MainShape(r, es, cfg, kids, parent, a, o);
        MainCreateFits(r, es, cfg, pre, kids, parent, i, o.c);
      } else {
        SubCreateFits(r, es, cfg, pre, kids, parent, i, o);
      }
    }
  }

  lemma MainShape(r: Rules, es: Entries, cfg: Config, kids: seq<Id>, parent: Ref, a: Action, o: Origin)
    requires Shaped(r, es, cfg, kids, parent, a, o) && a.CreateFolder? && o.FromMain?
    ensures MainMissing(r, es, kids, Blocked(r, es, kids, cfg.cats), cfg.cats[o.c])
  {
  }

  lemma RootFits(r: Rules, es: Entries, cfg: Config, pre: seq<Action>, kids: seq<Id>, parent: Ref, i: nat)
    requires Separate(r, cfg) && Opening(r, es, cfg, pre, kids, parent)
    requires i < |pre| && pre[i].CreateFolder?
    ensures Fits(r, es, pre + FolderActions(r, es, cfg, kids, parent), i)
  {
    hide FolderActions;
    var list := FolderActions(r, es, cfg, kids, parent);
    var all := pre + list;
    forall j | 0 <= j < |all| && (all[j].RenameFolder? || all[j].RegisterFolder?)
      ensures all[j].RegisterFolder? && !all[j].place.RootPlace?
    {
      assert all[j] == list[j - |pre|] && all[j] in list;
      NothingToRename(r, es, cfg, kids, parent, all[j]);
    }
  }

  /** A new object folder holds nothing to rename, and no step but the first registers the object folder. */
  lemma NothingToRename(r: Rules, es: Entries, cfg: Config, kids: seq<Id>, parent: Ref, a: Action)
    requires a in FolderActions(r, es, cfg, kids, parent)
    ensures kids == [] ==> !a.RenameFolder?
    ensures a.RegisterFolder? ==> !a.place.RootPlace?
  {
    var o := ShapeOf(r, es, cfg, kids, parent, a);
    hide FolderActions, LegacyOf, FindFolder, ParentNode, Held, Blocked;
    NoSingle(r, es, kids, cfg.cats[o.c]);
  }

  lemma NoSingle(r: Rules, es: Entries, kids: seq<Id>, cat: Category)
    ensures kids == [] ==> !LegacyOf(r, es, kids, cat).Single?
  {
  }

  lemma MainCreateFits(r: Rules, es: Entries, cfg: Config, pre: seq<Action>, kids: seq<Id>, parent: Ref, i: nat, c: nat)
    requires Separate(r, cfg) && Opening(r, es, cfg, pre, kids, parent) && c < |cfg.cats|
    requires MainMissing(r, es, kids, Blocked(r, es, kids, cfg.cats), cfg.cats[c])
    requires var all := pre + FolderActions(r, es, cfg, kids, parent);
      |pre| <= i < |all| && all[i] == CreateFolder(MainPlace(cfg.cats[c].code), parent, cfg.cats[c].name)
    ensures Fits(r, es, pre + FolderActions(r, es, cfg, kids, parent), i)
  {
    hide FolderActions, Separate, MainMissing, Blocked, FolderKids;
    var list := FolderActions(r, es, cfg, kids, parent);
    var all := pre + list;
    MainFits(r, es, cfg, kids, parent, c);
    if !parent.ById? {
      assert Creates(pre, RootPlace) by { assert pre[1].place == RootPlace; }
      Earlier(pre, all, i, RootPlace);
    }
    forall j | 0 <= j < |all| && (all[j].RegisterFolder? || all[j].RenameFolder?)
      ensures all[j].RegisterFolder? ==> all[j].place != MainPlace(cfg.cats[c].code)
      ensures all[j].RenameFolder? ==> all[j].cat != cfg.cats[c].code && r.nfc(all[j].name) != r.nfc(cfg.cats[c].name)
    {
      PastOpening(r, es, cfg, pre, kids, parent, list, j);
      NotAlsoThere(r, es, cfg, kids, parent, c, all[j]);
    }
  }

  lemma SubCreateFits(r: Rules, es: Entries, cfg: Config, pre: seq<Action>, kids: seq<Id>, parent: Ref, i: nat, o: Origin)
    requires Acyclic(es) && SingleParent(es) && Separate(r, cfg) && Opening(r, es, cfg, pre, kids, parent)
    requires var all := pre + FolderActions(r, es, cfg, kids, parent);
      |pre| <= i < |all| && all[i].CreateFolder? && o.FromSub? && Shaped(r, es, cfg, kids, parent, all[i], o)
    ensures Fits(r, es, pre + FolderActions(r, es, cfg, kids, parent), i)
  {
    hide FolderActions, Shaped, Separate, Acyclic, SingleParent, ParentNode, Blocked, Held, SubMissing, Frame, Creates;
    var list := FolderActions(r, es, cfg, kids, parent);
    var all := pre + list;
    CreateFacts(r, es, cfg, kids, parent, all[i], o);
    var cat := cfg.cats[o.c];
    SubShape(r, es, cfg, kids, parent, all[i], o);
    if ParentNode(r, es, kids, cat).Some? {
      SubFits(r, es, cfg, kids, parent, o.c, o.k);
      forall j | 0 <= j < |all| && all[j].RenameFolder? ensures !Child(es, ParentNode(r, es, kids, cat).value, all[j].node) {
        PastOpening(r, es, cfg, pre, kids, parent, list, j);
        RenamedElsewhere(r, es, cfg, kids, parent, o.c, all[j]);
      }
    } else {
      ParentEarlier(r, es, cfg, pre, kids, parent, i, o.c);
    }
  }

  lemma ParentEarlier(r: Rules, es: Entries, cfg: Config, pre: seq<Action>, kids: seq<Id>, parent: Ref, i: nat, c: nat)
    requires Separate(r, cfg) && Opening(r, es, cfg, pre, kids, parent)
    requires var all := pre + FolderActions(r, es, cfg, kids, parent);
      i < |all| && all[i].CreateFolder? && all[i].place.SubPlace?
    requires c < |cfg.cats| && !Held(r, es, kids, Blocked(r, es, kids, cfg.cats), cfg.cats[c]) && ParentNode(r, es, kids, cfg.cats[c]).None?
    ensures Creates((pre + FolderActions(r, es, cfg, kids, parent))[..i], MainPlace(cfg.cats[c].code))
  {
    hide FolderActions, Separate, ParentNode, Blocked, Held, Frame, AllLegacyActions, AllMainActions;
    AfterMains(r, es, cfg, pre, kids, parent, i);
    ParentComes(r, es, cfg, kids, parent, c);
    var blocked := Blocked(r, es, kids, cfg.cats);
    CreatesPlus(pre + AllLegacyActions(r, es, kids, cfg.cats), AllMainActions(r, es, kids, blocked, parent, cfg.cats), MainPlace(cfg.cats[c].code));
    Earlier(Front(r, es, cfg, pre, kids, parent), pre + FolderActions(r, es, cfg, kids, parent), i, MainPlace(cfg.cats[c].code));
  }

  /** What is neither a lookup nor the object folder comes from the catalogue. */
  lemma PastOpening(r: Rules, es: Entries, cfg: Config, pre: seq<Action>, kids: seq<Id>, parent: Ref, list: seq<Action>, j: nat)
    requires Opening(r, es, cfg, pre, kids, parent) && j < |pre + list|
    requires (pre + list)[j].RenameFolder? || (pre + list)[j].RegisterFolder? || j >= |pre|
    ensures |pre| <= j && (pre + list)[j] == list[j - |pre|] && (pre + list)[j] in list
  {
  }

  lemma SubShape(r: Rules, es: Entries, cfg: Config, kids: seq<Id>, parent: Ref, a: Action, o: Origin)
    requires Shaped(r, es, cfg, kids, parent, a, o) && a.CreateFolder? && o.FromSub?
    ensures SubMissing(r, es, kids, Blocked(r, es, kids, cfg.cats), cfg.cats[o.c], cfg.cats[o.c].subs[o.k])
    ensures !Held(r, es, kids, Blocked(r, es, kids, cfg.cats), cfg.cats[o.c])
  {
  }

  lemma RenameFacts(r: Rules, es: Entries, cfg: Config, kids: seq<Id>, parent: Ref, a: Action, o: Origin)
    requires Frame(r, es, kids, parent) && Shaped(r, es, cfg, kids, parent, a, o) && a.RenameFolder?
    ensures a.node in es && a.node in kids && IsAlias(r, cfg.cats[o.c].aliases, es[a.node].name)
    ensures r.nfc(es[a.node].name) != r.nfc(a.name) && a.before == FileBag(es, r.key, a.node)
    ensures a.cat == cfg.cats[o.c].code && a.name == cfg.cats[o.c].name
  {
    NoRenames(r, es, cfg, kids, parent, a, o);
    SingleIs(r, es, kids, cfg.cats[o.c]);
    assert a.node in FolderSet(es, parent.id);
  }

  /** The planner's list is consistent: every folder once, under a name nobody else has in that place, after its parent. */
  lemma PlanConsistent(r: Rules, es: Entries, cfg: Config, pre: seq<Action>, kids: seq<Id>, parent: Ref)
    requires Acyclic(es) && SingleParent(es) && Separate(r, cfg) && Opening(r, es, cfg, pre, kids, parent)
    ensures Consistent(r, es, pre + FolderActions(r, es, cfg, kids, parent))
  {
    hide FolderActions, Separate, Acyclic, SingleParent, Shaped, Frame, Fits, Opening;
    var all := pre + FolderActions(r, es, cfg, kids, parent);
    forall i, j | 0 <= i < j < |all| && all[i].CreateFolder? && all[j].CreateFolder?
      ensures all[i].place != all[j].place && (all[i].parent == all[j].parent ==> r.nfc(all[i].name) != r.nfc(all[j].name))
    {
      CreatesApart(r, es, cfg, pre, kids, parent, i, j);
    }
    forall i | 0 <= i < |all| && all[i].CreateFolder? ensures Fits(r, es, all, i) {
      CreateFits(r, es, cfg, pre, kids, parent, i);
    }
    forall i | 0 <= i < |all| && all[i].RenameFolder?
      ensures all[i].node in es && r.nfc(es[all[i].node].name) != r.nfc(all[i].name) && all[i].before == FileBag(es, r.key, all[i].node)
    {
      PastOpening(r, es, cfg, pre, kids, parent, FolderActions(r, es, cfg, kids, parent), i);
      var o := ShapeOf(r, es, cfg, kids, parent, all[i]);
      FrameOf(r, es, cfg, pre, kids, parent);
      RenameFacts(r, es, cfg, kids, parent, all[i], o);
    }
    forall i, j | 0 <= i < j < |all| && all[i].RenameFolder? && all[j].RenameFolder? ensures all[i].node != all[j].node {
      RenamesApart(r, es, cfg, pre, kids, parent, i, j);
    }
  }

  lemma FrameOf(r: Rules, es: Entries, cfg: Config, pre: seq<Action>, kids: seq<Id>, parent: Ref)
    requires Opening(r, es, cfg, pre, kids, parent)
    ensures Frame(r, es, kids, parent) && |pre| <= 2
  {
  }

  lemma CreatesApart(r: Rules, es: Entries, cfg: Config, pre: seq<Action>, kids: seq<Id>, parent: Ref, i: nat, j: nat)
    requires Acyclic(es) && SingleParent(es) && Separate(r, cfg) && Opening(r, es, cfg, pre, kids, parent)
    requires var all := pre + FolderActions(r, es, cfg, kids, parent);
      i < j < |all| && all[i].CreateFolder? && all[j].CreateFolder?
    ensures var all := pre + FolderActions(r, es, cfg, kids, parent);
      all[i].place != all[j].place && (all[i].parent == all[j].parent ==> r.nfc(all[i].name) != r.nfc(all[j].name))
  {
    hide FolderActions, Separate, Acyclic, SingleParent, Frame;
    var list := FolderActions(r, es, cfg, kids, parent);
    var all := pre + list;
    PartsOnce(r, es, cfg, kids, parent);
    CreatesJoinPre(pre, list);
    PastOpening(r, es, cfg, pre, kids, parent, list, j);
    if i >= |pre| {
      PastOpening(r, es, cfg, pre, kids, parent, list, i);
      if all[i].parent == all[j].parent { NamesDiffer(r, es, cfg, kids, parent, all[i], all[j]); }
    } else {
      RootParentAlone(r, es, cfg, pre, kids, parent, all[j]);
    }
  }

  lemma RenamesApart(r: Rules, es: Entries, cfg: Config, pre: seq<Action>, kids: seq<Id>, parent: Ref, i: nat, j: nat)
    requires Separate(r, cfg) && Opening(r, es, cfg, pre, kids, parent)
    requires var all := pre + FolderActions(r, es, cfg, kids, parent);
      i < j < |all| && all[i].RenameFolder? && all[j].RenameFolder?
    ensures var all := pre + FolderActions(r, es, cfg, kids, parent); all[i].node != all[j].node
  {
    hide FolderActions, Separate, Frame;
    var list := FolderActions(r, es, cfg, kids, parent);
    PartsOnce(r, es, cfg, kids, parent);
    PastOpening(r, es, cfg, pre, kids, parent, list, i);
    PastOpening(r, es, cfg, pre, kids, parent, list, j);
    TwoRenames(r, es, cfg, kids, parent, list[i - |pre|], list[j - |pre|]);
  }

  lemma CreatesJoinPre(pre: seq<Action>, list: seq<Action>)
    requires CreatesOnce(list) && |pre| <= 2 && (|pre| == 2 ==> pre[0] == FindRoot && pre[1].CreateFolder? && pre[1].place == RootPlace)
    requires |pre| <= 1 ==> forall i :: 0 <= i < |pre| ==> pre[i] == FindRoot
    requires forall p :: Creates(list, p) ==> p.MainPlace? || p.SubPlace?
    ensures CreatesOnce(pre + list)
  {
    CreatesJoin(pre, list);
  }

  lemma RootParentAlone(r: Rules, es: Entries, cfg: Config, pre: seq<Action>, kids: seq<Id>, parent: Ref, b: Action)
    requires Opening(r, es, cfg, pre, kids, parent) && !parent.ById?
    requires b in FolderActions(r, es, cfg, kids, parent) && b.CreateFolder?
    ensures !b.parent.ById?
  {
    var o := ShapeOf(r, es, cfg, kids, parent, b);
    CreateFacts(r, es, cfg, kids, parent, b, o);
    if ParentNode(r, es, kids, cfg.cats[o.c]).Some? { NodeTouches(r, es, kids, cfg.cats[o.c]); }
  }

  lemma TwoRenames(r: Rules, es: Entries, cfg: Config, kids: seq<Id>, parent: Ref, a: Action, b: Action)
    requires Separate(r, cfg) && Frame(r, es, kids, parent) && a.RenameFolder? && b.RenameFolder? && a.cat != b.cat
    requires a in FolderActions(r, es, cfg, kids, parent) && b in FolderActions(r, es, cfg, kids, parent)
    ensures a.node != b.node
  {
    var o := ShapeOf(r, es, cfg, kids, parent, a);
    var q := ShapeOf(r, es, cfg, kids, parent, b);
    RenameFacts(r, es, cfg, kids, parent, a, o);
    RenameFacts(r, es, cfg, kids, parent, b, q);
    assert Foreign(r, cfg.cats[o.c], cfg.cats[q.c]);
  }
}
