/** The plan made right after an undisturbed run: it writes nothing, and it asks nothing that was not asked before,
  * unless a catalogue name is listed among its own old names. */
module ReconcileAgain {
  import opened Wrappers
  import opened Drive
  import opened Sorting
  import opened Tree
  import opened FileCount
  import opened ReconcilePlan
  import opened ReconcileRun
  import opened ReconcileSafety
  import opened ReconcileBuild
  import opened ReconcileCatalogue
  import opened ReconcileConsistent
  import opened ReconcileGrowth

  // ---------------------------------------------------------------- from origins back to the list

  lemma GatherHas<T>(parts: seq<T>, f: T -> seq<Action>, k: nat, a: Action)
    requires k < |parts| && a in f(parts[k])
    ensures a in Gather(parts, f)
  {
    GatherMember(parts, f, a);
  }

  lemma SubPlanned(r: Rules, es: Entries, kids: seq<Id>, blocked: set<string>, cat: Category, k: nat, a: Action)
    requires k < |cat.subs| && !Held(r, es, kids, blocked, cat)
    requires a in SubAction(r, es, ParentNode(r, es, kids, cat), cat.code, cat.subs[k])
    ensures a in SubActions(r, es, kids, blocked, cat)
  {
    hide Held, ParentNode, SubAction;
    var parent := ParentNode(r, es, kids, cat);
    GatherHas(cat.subs, (sub: Subfolder) => SubAction(r, es, parent, cat.code, sub), k, a);
  }

  lemma YearPlanned(r: Rules, es: Entries, kids: seq<Id>, blocked: set<string>, yearCode: string, cat: Category, y: nat, a: Action)
    requires YearsChecked(r, es, kids, blocked, yearCode, cat)
    requires a in YearAction(r, es, SubKids(r, es, ParentNode(r, es, kids, cat)), cat.code, y)
    ensures a in YearActions(r, es, kids, blocked, yearCode, cat)
  {
    hide YearsChecked, ParentNode, SubKids;
    var yearKids := SubKids(r, es, ParentNode(r, es, kids, cat));
    var hits := YearHits(r, es, yearKids, y);
    assert hits[0] in hits;
    assert y in YearsOf(r, es, yearKids);
    var years := SortedYears(YearsOf(r, es, yearKids));
    var i :| 0 <= i < |years| && years[i] == y;
    GatherHas(years, (y: nat) => YearAction(r, es, yearKids, cat.code, y), i, a);
  }

  /** An action of a step that applies is on the list. */
  lemma Planned(r: Rules, es: Entries, cfg: Config, kids: seq<Id>, parent: Ref, a: Action, o: Origin)
    requires ComesFrom(r, es, cfg, kids, parent, a, o)
    ensures a in FolderActions(r, es, cfg, kids, parent)
  {
    hide Blocked, YearsChecked, Held, ParentNode, SubKids, SubAction, YearAction, LegacyActions, MainActions, SubActions, YearActions;
    var blocked := Blocked(r, es, kids, cfg.cats);
    match o
    case FromLegacy(c) => GatherHas(cfg.cats, (cat: Category) => LegacyActions(r, es, kids, cat), c, a);
    case FromMain(c) => GatherHas(cfg.cats, (cat: Category) => MainActions(r, es, kids, blocked, parent, cat), c, a);
    case FromSub(c, k) =>
      SubPlanned(r, es, kids, blocked, cfg.cats[c], k, a);
      GatherHas(cfg.cats, (cat: Category) => SubActions(r, es, kids, blocked, cat), c, a);
    case FromYear(c, y) =>
      YearPlanned(r, es, kids, blocked, cfg.yearCode, cfg.cats[c], y, a);
      GatherHas(cfg.cats, (cat: Category) => YearActions(r, es, kids, blocked, cfg.yearCode, cat), c, a);
  }

  /** The list opens a review case for the key. */
  ghost predicate Asks(actions: seq<Action>, key: Key) {
    exists i :: 0 <= i < |actions| && actions[i].OpenReview? && actions[i].key == key
  }

  lemma AsksIn(actions: seq<Action>, a: Action)
    requires a in actions && a.OpenReview?
    ensures Asks(actions, a.key)
  {
  }

  lemma LegacyAsks(r: Rules, es: Entries, cfg: Config, kids: seq<Id>, parent: Ref, c: nat)
    requires c < |cfg.cats|
    ensures LegacyOf(r, es, kids, cfg.cats[c]).Beside? ==> Asks(FolderActions(r, es, cfg, kids, parent), Key(Some(cfg.cats[c].code), BothExist))
    ensures LegacyOf(r, es, kids, cfg.cats[c]).Several? ==> Asks(FolderActions(r, es, cfg, kids, parent), Key(Some(cfg.cats[c].code), MultipleLegacy))
  {
    hide FolderActions, Blocked, Exacts, Aliased;
    var cat := cfg.cats[c];
    match LegacyOf(r, es, kids, cat)
    case Beside(exact, former) =>
      var a := OpenReview(Key(Some(cat.code), BothExist), exact + former);
      assert LegacyActions(r, es, kids, cat)[0] == a;
      Planned(r, es, cfg, kids, parent, a, FromLegacy(c));
      AsksIn(FolderActions(r, es, cfg, kids, parent), a);
    case Several(former) =>
      var a := OpenReview(Key(Some(cat.code), MultipleLegacy), former);
      assert LegacyActions(r, es, kids, cat)[0] == a;
      Planned(r, es, cfg, kids, parent, a, FromLegacy(c));
      AsksIn(FolderActions(r, es, cfg, kids, parent), a);
    case _ =>
  }

  function FindKey(f: Find, code: string): Key {
    Key(Some(code), if f.Ambiguous? then SameName else SimilarName)
  }

  lemma MainAsks(r: Rules, es: Entries, cfg: Config, kids: seq<Id>, parent: Ref, c: nat)
    requires c < |cfg.cats| && Searched(r, es, kids, Blocked(r, es, kids, cfg.cats), cfg.cats[c])
    requires NeedsReview(FindFolder(r, es, kids, cfg.cats[c].name))
    ensures Asks(FolderActions(r, es, cfg, kids, parent), FindKey(FindFolder(r, es, kids, cfg.cats[c].name), cfg.cats[c].code))
  {
    hide FolderActions, Blocked, FindFolder, Searched;
    var cat := cfg.cats[c];
    var f := FindFolder(r, es, kids, cat.name);
    var a := FindActions(f, MainPlace(cat.code), cat.code, parent, cat.name)[0];
    Planned(r, es, cfg, kids, parent, a, FromMain(c));
    AsksIn(FolderActions(r, es, cfg, kids, parent), a);
  }

  lemma SubAsks(r: Rules, es: Entries, cfg: Config, kids: seq<Id>, parent: Ref, c: nat, k: nat)
    requires c < |cfg.cats| && k < |cfg.cats[c].subs| && !Held(r, es, kids, Blocked(r, es, kids, cfg.cats), cfg.cats[c])
    requires NeedsReview(FindFolder(r, es, SubKids(r, es, ParentNode(r, es, kids, cfg.cats[c])), cfg.cats[c].subs[k].name))
    ensures Asks(FolderActions(r, es, cfg, kids, parent),
                 FindKey(FindFolder(r, es, SubKids(r, es, ParentNode(r, es, kids, cfg.cats[c])), cfg.cats[c].subs[k].name), cfg.cats[c].code))
  {
    hide FolderActions, Blocked, FindFolder, Held, ParentNode, SubKids;
    var cat, sub := cfg.cats[c], cfg.cats[c].subs[k];
    var node := ParentNode(r, es, kids, cat);
    var f := FindFolder(r, es, SubKids(r, es, node), sub.name);
    var a := FindActions(f, SubPlace(cat.code, sub.id), cat.code, SubRef(node, cat.code), sub.name)[0];
    Planned(r, es, cfg, kids, parent, a, FromSub(c, k));
    AsksIn(FolderActions(r, es, cfg, kids, parent), a);
  }

  lemma YearAsks(r: Rules, es: Entries, cfg: Config, kids: seq<Id>, parent: Ref, c: nat, y: nat)
    requires c < |cfg.cats| && YearsChecked(r, es, kids, Blocked(r, es, kids, cfg.cats), cfg.yearCode, cfg.cats[c])
    requires |YearHits(r, es, SubKids(r, es, ParentNode(r, es, kids, cfg.cats[c])), y)| > 1
    ensures Asks(FolderActions(r, es, cfg, kids, parent), Key(Some(cfg.cats[c].code), SameName))
  {
    hide FolderActions, Blocked, YearsChecked, ParentNode, SubKids, YearHits;
    var a := YearAction(r, es, SubKids(r, es, ParentNode(r, es, kids, cfg.cats[c])), cfg.cats[c].code, y)[0];
    Planned(r, es, cfg, kids, parent, a, FromYear(c, y));
    AsksIn(FolderActions(r, es, cfg, kids, parent), a);
  }

  // ---------------------------------------------------------------- the drive after an undisturbed run

  function SubNames(subs: seq<Subfolder>): (names: seq<string>)
    ensures |names| == |subs| && forall k :: 0 <= k < |subs| ==> names[k] == subs[k].name
  {
    seq(|subs|, k requires 0 <= k < |subs| => subs[k].name)
  }

  /** The main folder of a category after the run. */
  function NodeAfter(r: Rules, es: Entries, kids: seq<Id>, cat: Category, own: Option<Id>): Option<Id> {
    if own.Some? then own else ParentNode(r, es, kids, cat)
  }

  /** The main folder of a category after its subfolders were created. */
  ghost predicate SubsGrown(r: Rules, es: Entries, kids: seq<Id>, es2: Entries, cfg: Config, cat: Category, own: Option<Id>, subs: seq<Option<Id>>) {
    && Grown(r, es, SubKids(r, es, ParentNode(r, es, kids, cat)), es2, SubKids(r, es2, NodeAfter(r, es, kids, cat, own)), SubNames(cat.subs), subs)
    && forall k :: 0 <= k < |subs| ==>
         && (subs[k].Some? <==> SubMissing(r, es, kids, Blocked(r, es, kids, cfg.cats), cat, cat.subs[k]))
         && (subs[k].Some? ==> subs[k].value !in SubKids(r, es, ParentNode(r, es, kids, cat)))
  }

  /** The state an undisturbed run leaves behind, as seen from the plan it carried out. */
  ghost predicate Settled(r: Rules, es: Entries, kids: seq<Id>, es2: Entries, kids2: seq<Id>, cfg: Config, own: seq<Option<Id>>) {
    && Separate(r, cfg) && MainsGrown(r, es, kids, es2, kids2, cfg, own) && |own| == |cfg.cats|
    && forall c :: 0 <= c < |cfg.cats| && !Held(r, es, kids, Blocked(r, es, kids, cfg.cats), cfg.cats[c]) ==>
         exists subs :: SubsGrown(r, es, kids, es2, cfg, cfg.cats[c], own[c], subs)
  }

  // ---------------------------------------------------------------- what is held back stays held back

  lemma StillBlocks(r: Rules, es: Entries, kids: seq<Id>, es2: Entries, kids2: seq<Id>, cfg: Config, own: seq<Option<Id>>, c: nat, code: string)
    requires Settled(r, es, kids, es2, kids2, cfg, own) && c < |own| && code in LegacyBlocks(r, es, kids, cfg.cats[c])
    ensures code in LegacyBlocks(r, es2, kids2, cfg.cats[c])
  {
    hide LegacyOf, FindFolder, MainsGrown, Separate, Held, SubsGrown, Touches;
    var cat := cfg.cats[c];
    BlockingUnwritten(r, es, kids, es2, kids2, cfg, own, c);
    Unwritten(r, es, kids, es2, kids2, cfg, own, c);
    FormerKept(r, es, kids, es2, kids2, cat);
  }

  lemma BlockingUnwritten(r: Rules, es: Entries, kids: seq<Id>, es2: Entries, kids2: seq<Id>, cfg: Config, own: seq<Option<Id>>, c: nat)
    requires Settled(r, es, kids, es2, kids2, cfg, own) && c < |own|
    requires LegacyOf(r, es, kids, cfg.cats[c]).Beside? || LegacyOf(r, es, kids, cfg.cats[c]).Several?
    ensures own[c].None?
  {
    hide LegacyOf, Grown, Separate, Held, SubsGrown, Blocked, MainMissing;
    if MainMissing(r, es, kids, Blocked(r, es, kids, cfg.cats), cfg.cats[c]) { MissingUnused(r, es, kids, cfg.cats, c); }
  }

  /** The folder whose code is held back has kept its name. */
  lemma FormerKept(r: Rules, es: Entries, kids: seq<Id>, es2: Entries, kids2: seq<Id>, cat: Category)
    requires SameNames(es, kids, es2, kids2, n => Touches(r, cat, n))
    requires LegacyOf(r, es, kids, cat).Beside? || LegacyOf(r, es, kids, cat).Several?
    ensures var former := LegacyOf(r, es, kids, cat).former; former != [] && NameOf(es2, former[0]) == NameOf(es, former[0])
  {
    hide IsAlias, Exacts, Resembles;
    var former := Aliased(r, es, kids, cat.aliases);
    var p := n => Touches(r, cat, n);
    assert former[0] in former;
    assert former[0] in kids && p(NameOf(es, former[0]));
  }

  lemma BlockedStays(r: Rules, es: Entries, kids: seq<Id>, es2: Entries, kids2: seq<Id>, cfg: Config, own: seq<Option<Id>>, code: string)
    requires Settled(r, es, kids, es2, kids2, cfg, own) && code in Blocked(r, es, kids, cfg.cats)
    ensures code in Blocked(r, es2, kids2, cfg.cats)
  {
    hide LegacyBlocks, MainsGrown, Separate, Held, SubsGrown;
    BlockedMember(r, es, kids, cfg.cats, code);
    BlockedMember(r, es2, kids2, cfg.cats, code);
    var k :| 0 <= k < |cfg.cats| && code in LegacyBlocks(r, es, kids, cfg.cats[k]);
    StillBlocks(r, es, kids, es2, kids2, cfg, own, k, code);
  }

  lemma HeldStays(r: Rules, es: Entries, kids: seq<Id>, es2: Entries, kids2: seq<Id>, cfg: Config, own: seq<Option<Id>>, c: nat)
    requires Settled(r, es, kids, es2, kids2, cfg, own) && c < |own| && Held(r, es, kids, Blocked(r, es, kids, cfg.cats), cfg.cats[c])
    ensures Held(r, es2, kids2, Blocked(r, es2, kids2, cfg.cats), cfg.cats[c])
  {
    hide LegacyOf, FindFolder, Blocked, Grown, Separate, SubsGrown, Touches;
    if cfg.cats[c].code in Blocked(r, es, kids, cfg.cats) {
      BlockedStays(r, es, kids, es2, kids2, cfg, own, cfg.cats[c].code);
    } else {
      assert own[c].None?;
      Unwritten(r, es, kids, es2, kids2, cfg, own, c);
    }
  }

  /** A category that is not held now was not held before, and its main folder is the one the run left it. */
  lemma NodeStays(r: Rules, es: Entries, kids: seq<Id>, es2: Entries, kids2: seq<Id>, cfg: Config, own: seq<Option<Id>>, c: nat)
    requires Settled(r, es, kids, es2, kids2, cfg, own) && c < |own| && !Held(r, es2, kids2, Blocked(r, es2, kids2, cfg.cats), cfg.cats[c])
    ensures !Held(r, es, kids, Blocked(r, es, kids, cfg.cats), cfg.cats[c])
    ensures NodeAfter(r, es, kids, cfg.cats[c], own[c]).Some?
    ensures ParentNode(r, es2, kids2, cfg.cats[c]) == NodeAfter(r, es, kids, cfg.cats[c], own[c])
  {
    hide LegacyOf, FindFolder, Blocked, Grown, Separate, SubsGrown, Touches, Held, Written, MainsGrown;
    if Held(r, es, kids, Blocked(r, es, kids, cfg.cats), cfg.cats[c]) {
      HeldStays(r, es, kids, es2, kids2, cfg, own, c);
      assert false;
    }
    if own[c].Some? {
      WrittenFound(r, es, kids, es2, kids2, cfg, own, c);
      NotBeside(r, es2, kids2, cfg, c);
    } else {
      Unwritten(r, es, kids, es2, kids2, cfg, own, c);
      HasNode(r, es, kids, es2, kids2, cfg, own, c);
    }
  }

  lemma NotBeside(r: Rules, es: Entries, kids: seq<Id>, cfg: Config, c: nat)
    requires c < |cfg.cats| && !Held(r, es, kids, Blocked(r, es, kids, cfg.cats), cfg.cats[c])
    ensures LegacyOf(r, es, kids, cfg.cats[c]).Single? || LegacyOf(r, es, kids, cfg.cats[c]).NoLegacy?
  {
    hide LegacyOf, FindFolder, Blocked;
    BlockedMember(r, es, kids, cfg.cats, cfg.cats[c].code);
  }

  lemma HasNode(r: Rules, es: Entries, kids: seq<Id>, es2: Entries, kids2: seq<Id>, cfg: Config, own: seq<Option<Id>>, c: nat)
    requires Settled(r, es, kids, es2, kids2, cfg, own) && c < |own| && own[c].None?
    requires !Held(r, es, kids, Blocked(r, es, kids, cfg.cats), cfg.cats[c])
    ensures ParentNode(r, es, kids, cfg.cats[c]).Some?
  {
    hide LegacyOf, FindFolder, Blocked, Grown, Separate, SubsGrown;
  }

  // ---------------------------------------------------------------- the second list

  /** The question the second plan asks although the first did not. */
  ghost predicate Flips(r: Rules, es: Entries, kids: seq<Id>, cfg: Config, key: Key) {
    exists c :: 0 <= c < |cfg.cats| && Written(r, es, kids, Blocked(r, es, kids, cfg.cats), cfg.cats[c]) && SelfAliased(r, cfg.cats[c])
                && key == Key(Some(cfg.cats[c].code), BothExist)
  }

  ghost predicate Known(r: Rules, es: Entries, kids: seq<Id>, cfg: Config, parent: Ref, a: Action) {
    !IsWrite(a) && (a.OpenReview? ==> Asks(FolderActions(r, es, cfg, kids, parent), a.key) || Flips(r, es, kids, cfg, a.key))
  }

  lemma LegacyKnown(r: Rules, es: Entries, kids: seq<Id>, es2: Entries, kids2: seq<Id>, cfg: Config, own: seq<Option<Id>>, parent: Ref,
                    c: nat, a: Action)
    requires Settled(r, es, kids, es2, kids2, cfg, own) && c < |own| && OldNameShape(r, es2, LegacyOf(r, es2, kids2, cfg.cats[c]), cfg.cats[c], a)
    ensures Known(r, es, kids, cfg, parent, a)
  {
    hide LegacyOf, FindFolder, Blocked, Grown, Separate, SubsGrown, Touches, Held, Written, FolderActions, FileBag, Asks, IsAlias;
    if own[c].Some? {
      WrittenFound(r, es, kids, es2, kids2, cfg, own, c);
    } else {
      Unwritten(r, es, kids, es2, kids2, cfg, own, c);
      LegacyAsks(r, es, cfg, kids, parent, c);
      NotSingle(r, es, kids, es2, kids2, cfg, own, c);
    }
  }

  lemma NotSingle(r: Rules, es: Entries, kids: seq<Id>, es2: Entries, kids2: seq<Id>, cfg: Config, own: seq<Option<Id>>, c: nat)
    requires Settled(r, es, kids, es2, kids2, cfg, own) && c < |own| && own[c].None?
    ensures !LegacyOf(r, es, kids, cfg.cats[c]).Single?
    ensures cfg.cats[c].code !in Blocked(r, es, kids, cfg.cats) ==> !FindFolder(r, es, kids, cfg.cats[c].name).Absent?
  {
    hide LegacyOf, FindFolder, Blocked, Grown, Separate, SubsGrown, Held;
  }

  lemma MainKnown(r: Rules, es: Entries, kids: seq<Id>, es2: Entries, kids2: seq<Id>, cfg: Config, own: seq<Option<Id>>, parent: Ref, parent2: Ref,
                  c: nat, a: Action)
    requires Settled(r, es, kids, es2, kids2, cfg, own) && c < |own|
    requires Searched(r, es2, kids2, Blocked(r, es2, kids2, cfg.cats), cfg.cats[c])
    requires FindShape(FindFolder(r, es2, kids2, cfg.cats[c].name), MainPlace(cfg.cats[c].code), cfg.cats[c].code, parent2, cfg.cats[c].name, a)
    ensures Known(r, es, kids, cfg, parent, a)
  {
    hide LegacyOf, FindFolder, Blocked, MainsGrown, Separate, SubsGrown, Touches, Held, Written, FolderActions, Asks, IsAlias;
    if own[c].Some? {
      WrittenFound(r, es, kids, es2, kids2, cfg, own, c);
    } else {
      Unwritten(r, es, kids, es2, kids2, cfg, own, c);
      if cfg.cats[c].code in Blocked(r, es, kids, cfg.cats) {
        BlockedStays(r, es, kids, es2, kids2, cfg, own, cfg.cats[c].code);
        assert false;
      }
      NotSingle(r, es, kids, es2, kids2, cfg, own, c);
      if NeedsReview(FindFolder(r, es, kids, cfg.cats[c].name)) { MainAsks(r, es, cfg, kids, parent, c); }
    }
  }

  /** What a subfolder name finds after the run: what it found before or the folder created for it. */
  lemma SubFound(r: Rules, es: Entries, kids: seq<Id>, es2: Entries, cfg: Config, cat: Category, own: Option<Id>, subs: seq<Option<Id>>, k: nat)
    requires SubsSeparate(r, cfg, cat) && SubsGrown(r, es, kids, es2, cfg, cat, own, subs) && k < |cat.subs|
    ensures var f, g := FindFolder(r, es, SubKids(r, es, ParentNode(r, es, kids, cat)), cat.subs[k].name),
                        FindFolder(r, es2, SubKids(r, es2, NodeAfter(r, es, kids, cat, own)), cat.subs[k].name);
      |subs| == |cat.subs| && g == if subs[k].Some? then One(subs[k].value) else f
  {
    hide FindFolder, SubKids, ParentNode, NodeAfter, Resembles, Held, Blocked, Listing;
    var a, b := SubKids(r, es, ParentNode(r, es, kids, cat)), SubKids(r, es2, NodeAfter(r, es, kids, cat, own));
    var name := cat.subs[k].name;
    if subs[k].Some? {
      assert subs[k] in subs;
      forall q | q in b && q != subs[k].value ensures r.nfc(NameOf(es2, q)) != r.nfc(name) {
        if Some(q) in subs {
          var d :| 0 <= d < |subs| && subs[d] == Some(q);
          assert !Resembles(r, name, cat.subs[d].name);
          NoResemblance(r, name, NameOf(es2, q));
        } else {
          AbsentIff(r, es, a, name);
          NoResemblance(r, name, NameOf(es, q));
        }
      }
      FindOnly(r, es2, b, name, subs[k].value);
    } else {
      GrownElsewhere(r, es, a, es2, b, SubNames(cat.subs), subs, n => Resembles(r, name, n));
      FindSame(r, es, a, es2, b, name);
    }
  }

  lemma NoResemblance(r: Rules, name: string, n: string)
    requires !Resembles(r, name, n)
    ensures r.nfc(n) != r.nfc(name)
  {
  }

  lemma SubKnown(r: Rules, es: Entries, kids: seq<Id>, es2: Entries, kids2: seq<Id>, cfg: Config, own: seq<Option<Id>>, parent: Ref,
                 c: nat, k: nat, a: Action)
    requires Settled(r, es, kids, es2, kids2, cfg, own) && c < |own| && k < |cfg.cats[c].subs|
    requires !Held(r, es2, kids2, Blocked(r, es2, kids2, cfg.cats), cfg.cats[c])
    requires var cat := cfg.cats[c]; var node := ParentNode(r, es2, kids2, cat);
      FindShape(FindFolder(r, es2, SubKids(r, es2, node), cat.subs[k].name), SubPlace(cat.code, cat.subs[k].id), cat.code,
                SubRef(node, cat.code), cat.subs[k].name, a)
    ensures Known(r, es, kids, cfg, parent, a)
  {
    hide FindFolder, Blocked, MainsGrown, Held, FolderActions, Asks, ParentNode, NodeAfter, SubKids, SubsSeparate, Foreign, Flips;
    NodeStays(r, es, kids, es2, kids2, cfg, own, c);
    var subs :| SubsGrown(r, es, kids, es2, cfg, cfg.cats[c], own[c], subs);
    SubFound(r, es, kids, es2, cfg, cfg.cats[c], own[c], subs, k);
    hide Grown;
    if NeedsReview(FindFolder(r, es, SubKids(r, es, ParentNode(r, es, kids, cfg.cats[c])), cfg.cats[c].subs[k].name)) {
      SubAsks(r, es, cfg, kids, parent, c, k);
    }
  }

  lemma HitsStay(r: Rules, es: Entries, kids: seq<Id>, es2: Entries, cfg: Config, cat: Category, own: Option<Id>, subs: seq<Option<Id>>, y: nat)
    requires SubsSeparate(r, cfg, cat) && cat.code == cfg.yearCode && SubsGrown(r, es, kids, es2, cfg, cat, own, subs)
    ensures YearHits(r, es2, SubKids(r, es2, NodeAfter(r, es, kids, cat, own)), y) == YearHits(r, es, SubKids(r, es, ParentNode(r, es, kids, cat)), y)
  {
    hide SubKids, ParentNode, NodeAfter, Resembles, SubMissing, Blocked, Listing, YearHits;
    var a, b := SubKids(r, es, ParentNode(r, es, kids, cat)), SubKids(r, es2, NodeAfter(r, es, kids, cat, own));
    GrownElsewhere(r, es, a, es2, b, SubNames(cat.subs), subs, n => r.year(n) == Some(y));
    YearHitsSame(r, es, a, es2, b, y);
  }

  lemma ReviewsStay(r: Rules, es: Entries, kids: seq<Id>, es2: Entries, cfg: Config, cat: Category, own: Option<Id>, subs: seq<Option<Id>>)
    requires SubsSeparate(r, cfg, cat) && SubsGrown(r, es, kids, es2, cfg, cat, own, subs)
    requires SubsNeedReview(r, es, ParentNode(r, es, kids, cat), cat.subs)
    ensures SubsNeedReview(r, es2, NodeAfter(r, es, kids, cat, own), cat.subs)
  {
    hide SubKids, ParentNode, NodeAfter, SubsSeparate, Blocked, Held, Grown, FindFolder;
    var k :| 0 <= k < |cat.subs| && NeedsReview(FindFolder(r, es, SubKids(r, es, ParentNode(r, es, kids, cat)), cat.subs[k].name));
    SubFound(r, es, kids, es2, cfg, cat, own, subs, k);
  }

  lemma NoHits(r: Rules, es: Entries, y: nat)
    ensures YearHits(r, es, SubKids(r, es, None), y) == []
  {
  }

  lemma YearKnown(r: Rules, es: Entries, kids: seq<Id>, es2: Entries, kids2: seq<Id>, cfg: Config, own: seq<Option<Id>>, parent: Ref,
                  c: nat, y: nat, a: Action)
    requires Settled(r, es, kids, es2, kids2, cfg, own) && c < |own|
    requires YearsChecked(r, es2, kids2, Blocked(r, es2, kids2, cfg.cats), cfg.yearCode, cfg.cats[c])
    requires YearShape(YearHits(r, es2, SubKids(r, es2, ParentNode(r, es2, kids2, cfg.cats[c])), y), cfg.cats[c].code, y, a)
    ensures Known(r, es, kids, cfg, parent, a)
  {
    hide Blocked, MainsGrown, Held, FolderActions, Asks, ParentNode, NodeAfter, SubKids, SubsSeparate, Foreign, Flips, YearHits, SubsNeedReview, SubsGrown;
    var cat := cfg.cats[c];
    NodeStays(r, es, kids, es2, kids2, cfg, own, c);
    var subs :| SubsGrown(r, es, kids, es2, cfg, cat, own[c], subs);
    HitsStay(r, es, kids, es2, cfg, cat, own[c], subs, y);
    if |YearHits(r, es, SubKids(r, es, ParentNode(r, es, kids, cat)), y)| > 1 {
      NoHits(r, es, y);
      if SubsNeedReview(r, es, ParentNode(r, es, kids, cat), cat.subs) {
        ReviewsStay(r, es, kids, es2, cfg, cat, own[c], subs);
        assert false;
      }
      YearAsks(r, es, cfg, kids, parent, c, y);
    }
  }

  /** The second list writes nothing, and opens only cases the first one asked for or that concern a category whose
    * own name counts as an old one. */
  lemma SecondList(r: Rules, es: Entries, kids: seq<Id>, es2: Entries, kids2: seq<Id>, cfg: Config, own: seq<Option<Id>>, parent: Ref, parent2: Ref,
                   a: Action)
    requires Settled(r, es, kids, es2, kids2, cfg, own) && a in FolderActions(r, es2, cfg, kids2, parent2)
    ensures Known(r, es, kids, cfg, parent, a)
  {
    hide Blocked, Settled, FolderActions, Known, ParentNode, SubKids, YearsChecked, YearShape, FindShape, OldNameShape, LegacyOf, FindFolder, Held,
         Searched, YearHits;
    var o := ShapeOf(r, es2, cfg, kids2, parent2, a);
    SettledSize(r, es, kids, es2, kids2, cfg, own);
    match o
    case FromLegacy(c) => LegacyKnown(r, es, kids, es2, kids2, cfg, own, parent, c, a);
    case FromMain(c) => MainKnown(r, es, kids, es2, kids2, cfg, own, parent, parent2, c, a);
    case FromSub(c, k) => SubKnown(r, es, kids, es2, kids2, cfg, own, parent, c, k, a);
    case FromYear(c, y) => YearKnown(r, es, kids, es2, kids2, cfg, own, parent, c, y, a);
  }

  lemma SettledSize(r: Rules, es: Entries, kids: seq<Id>, es2: Entries, kids2: seq<Id>, cfg: Config, own: seq<Option<Id>>)
    requires Settled(r, es, kids, es2, kids2, cfg, own)
    ensures |own| == |cfg.cats|
  {
  }

  /** And it does open the cases of the latter kind. */
  lemma FlipAsked(r: Rules, es: Entries, kids: seq<Id>, es2: Entries, kids2: seq<Id>, cfg: Config, own: seq<Option<Id>>, parent2: Ref, key: Key)
    requires Settled(r, es, kids, es2, kids2, cfg, own) && Flips(r, es, kids, cfg, key)
    ensures Asks(FolderActions(r, es2, cfg, kids2, parent2), key)
  {
    hide Blocked, FolderActions, LegacyOf, FindFolder, Asks, Separate, SubsGrown, Grown, Written, IsAlias, Held;
    var c :| 0 <= c < |cfg.cats| && Written(r, es, kids, Blocked(r, es, kids, cfg.cats), cfg.cats[c]) && SelfAliased(r, cfg.cats[c])
             && key == Key(Some(cfg.cats[c].code), BothExist);
    WrittenFound(r, es, kids, es2, kids2, cfg, own, c);
    LegacyAsks(r, es2, cfg, kids2, parent2, c);
  }

  /** The first list never asks that question. */
  lemma FlipNotAsked(r: Rules, es: Entries, kids: seq<Id>, cfg: Config, parent: Ref, key: Key)
    requires Separate(r, cfg) && Flips(r, es, kids, cfg, key)
    ensures !Asks(FolderActions(r, es, cfg, kids, parent), key)
  {
    hide Blocked, FolderActions, FindFolder, LegacyOf, Separate, Held, YearsChecked, YearHits, SubKids, ParentNode, IsAlias;
    var list := FolderActions(r, es, cfg, kids, parent);
    var c :| 0 <= c < |cfg.cats| && Written(r, es, kids, Blocked(r, es, kids, cfg.cats), cfg.cats[c]) && SelfAliased(r, cfg.cats[c])
             && key == Key(Some(cfg.cats[c].code), BothExist);
    if i :| 0 <= i < |list| && list[i].OpenReview? && list[i].key == key {
      assert list[i] in list;
      var o := ShapeOf(r, es, cfg, kids, parent, list[i]);
      CodesDiffer(r, cfg, o.c, c);
      if MainMissing(r, es, kids, Blocked(r, es, kids, cfg.cats), cfg.cats[c]) { MissingUnused(r, es, kids, cfg.cats, c); }
      assert false;
    }
  }
}
