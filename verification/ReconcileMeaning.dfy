/** What the plan of an object holds, told from the names in the drive alone: which folder becomes the object folder,
  * and which folder, new folder or question every entry of the catalogue gets. */
module ReconcileMeaning {
  import opened Wrappers
  import opened Drive
  import opened Sorting
  import opened Tree
  import opened FileCount
  import opened ReconcilePlan
  import opened ReconcileCatalogue
  import opened ReconcileConsistent
  import opened ReconcileAgain

  // ---------------------------------------------------------------- none, one, many

  /** A folder directly in `f` whose name passes, live or in the trash. */
  ghost predicate In(es: Entries, f: Option<Id>, inTrash: bool, p: string -> bool, c: Id) {
    f.Some? && c in es && es[c].kind == Folder && es[c].trashed == inTrash && f.value in es[c].parents && p(es[c].name)
  }

  ghost predicate No(es: Entries, f: Option<Id>, inTrash: bool, p: string -> bool) {
    forall c :: !In(es, f, inTrash, p, c)
  }

  ghost predicate Only(es: Entries, f: Option<Id>, inTrash: bool, p: string -> bool, c: Id) {
    In(es, f, inTrash, p, c) && forall d :: In(es, f, inTrash, p, d) ==> d == c
  }

  ghost predicate Many(es: Entries, f: Option<Id>, inTrash: bool, p: string -> bool) {
    exists c, d :: In(es, f, inTrash, p, c) && In(es, f, inTrash, p, d) && c != d
  }

  /** The first such live folder in the order of the listings. */
  ghost predicate First(r: Rules, es: Entries, f: Option<Id>, p: string -> bool, c: Id) {
    In(es, f, false, p, c) && forall d :: In(es, f, false, p, d) ==>
      c == d || r.key(es[c].name) < r.key(es[d].name) || (r.key(es[c].name) == r.key(es[d].name) && c < d)
  }

  /** A sorted listing of the folders that pass tells which case it is. */
  lemma Counted(key: Id -> real, es: Entries, f: Option<Id>, inTrash: bool, p: string -> bool, list: seq<Id>)
    requires IsSorted(key, list) && forall c :: c in list <==> In(es, f, inTrash, p, c)
    ensures list == [] <==> No(es, f, inTrash, p)
    ensures |list| > 1 <==> Many(es, f, inTrash, p)
    ensures forall c :: |list| == 1 && list[0] == c <==> Only(es, f, inTrash, p, c)
  {
    hide In;
    SortedHasNoRepeats(key, list);
    if list != [] { assert list[0] in list; }
    if |list| > 1 { assert list[0] in list && list[1] in list; }
    if Many(es, f, inTrash, p) {
      var c, d :| In(es, f, inTrash, p, c) && In(es, f, inTrash, p, d) && c != d;
      var i :| 0 <= i < |list| && list[i] == c;
      var j :| 0 <= j < |list| && list[j] == d;
    }
    forall c ensures |list| == 1 && list[0] == c <==> Only(es, f, inTrash, p, c) {
      if Only(es, f, inTrash, p, c) {
        assert c in list;
      }
    }
  }

  lemma FirstListed(r: Rules, es: Entries, f: Option<Id>, p: string -> bool, list: seq<Id>)
    requires IsSorted(EntryKey(es, r.key), list) && forall c :: c in list <==> In(es, f, false, p, c)
    ensures forall c :: list != [] && list[0] == c <==> First(r, es, f, p, c)
  {
    if list != [] {
      assert list[0] in list;
      forall d | In(es, f, false, p, d)
        ensures list[0] == d || r.key(es[list[0]].name) < r.key(es[d].name) || (r.key(es[list[0]].name) == r.key(es[d].name) && list[0] < d)
      {
        assert d in list;
        var j :| 0 <= j < |list| && list[j] == d;
        if j > 0 { assert Before(EntryKey(es, r.key), list[0], list[j]); }
      }
    }
    forall c | First(r, es, f, p, c) ensures list != [] && list[0] == c {
      assert c in list;
    }
  }

  // ---------------------------------------------------------------- names

  function Numbered(r: Rules, number: nat): string -> bool {
    n => r.number(n) == Some(number)
  }

  /** Equal after composition. */
  function SameAs(r: Rules, name: string): string -> bool {
    n => r.nfc(n) == r.nfc(name)
  }

  /** Equal only in the normalised spelling. */
  function SpeltAs(r: Rules, name: string): string -> bool {
    n => r.nfc(n) != r.nfc(name) && r.normTail(r.nfc(n)) == r.normTail(r.nfc(name))
  }

  /** Equal only in the loose spelling, and not empty in it. */
  function CloseTo(r: Rules, name: string): string -> bool {
    n => r.nfc(n) != r.nfc(name) && r.normTail(r.nfc(n)) != r.normTail(r.nfc(name))
         && r.looseTail(r.nfc(n)) == r.looseTail(r.nfc(name)) && r.looseTail(r.nfc(n)) != ""
  }

  ghost function Former(r: Rules, cat: Category): string -> bool {
    n => exists i :: 0 <= i < |cat.aliases| && r.normTail(r.nfc(cat.aliases[i])) == r.normTail(r.nfc(n))
  }

  function OfYear(r: Rules, y: nat): string -> bool {
    n => r.year(n) == Some(y)
  }

  // ---------------------------------------------------------------- the object folder

  ghost predicate Usable(es: Entries, f: Id) {
    f in es && es[f].kind == Folder && !es[f].trashed
  }

  /** Nothing in the drive root carries the number, live or in the trash. */
  ghost predicate Nowhere(r: Rules, es: Entries, cfg: Config, t: Target) {
    No(es, Some(cfg.root), false, Numbered(r, t.number)) && No(es, Some(cfg.root), true, Numbered(r, t.number))
  }

  ghost predicate Nameable(r: Rules, t: Target) {
    t.newName.Some? && r.number(t.newName.value) == Some(t.number)
  }

  predicate MakesRoot(a: Action) {
    (a.RegisterFolder? || a.CreateFolder?) && a.place.RootPlace?
  }

  lemma NumberedListing(r: Rules, es: Entries, root: Id, number: nat, inTrash: bool)
    ensures var list := Sorted(EntryKey(es, r.key), NumberedFolders(r, es, root, number, inTrash));
      && (list == [] <==> No(es, Some(root), inTrash, Numbered(r, number)))
      && (|list| > 1 <==> Many(es, Some(root), inTrash, Numbered(r, number)))
      && (forall c :: |list| == 1 && list[0] == c <==> Only(es, Some(root), inTrash, Numbered(r, number), c))
      && (forall c :: c in list <==> In(es, Some(root), inTrash, Numbered(r, number), c))
  {
    var list := Sorted(EntryKey(es, r.key), NumberedFolders(r, es, root, number, inTrash));
    Counted(EntryKey(es, r.key), es, Some(root), inTrash, Numbered(r, number), list);
  }

  /** The steps below the object folder ask about categories only and never make the object folder. */
  lemma BelowRoot(r: Rules, es: Entries, cfg: Config, kids: seq<Id>, parent: Ref, a: Action)
    requires a in FolderActions(r, es, cfg, kids, parent)
    ensures !MakesRoot(a) && (a.OpenReview? ==> a.key.cat.Some?)
  {
    hide FolderActions, Searched, Held, YearsChecked, LegacyOf, FindFolder, YearHits, FileBag;
    var o := ShapeOf(r, es, cfg, kids, parent, a);
  }

  /** The plan stops with an error exactly when the drive root is unusable, or when a new object folder is needed that
    * cannot be named with the number. */
  lemma PlanFailsIff(r: Rules, es: Entries, cfg: Config, t: Target)
    ensures MakePlan(r, es, cfg, t).None? <==>
      !Usable(es, cfg.root) || (t.stored.None? && Nowhere(r, es, cfg, t) && !Nameable(r, t))
  {
    hide FolderActions, FindRootFolder, FolderKids, Only, Many, No, Blocked, YearIds, AnyYearsChecked;
    if t.stored.None? { NumberedFind(r, es, cfg.root, t); } else { StoredFind(r, es, cfg.root, t); }
  }

  lemma StoredFind(r: Rules, es: Entries, root: Id, t: Target)
    requires t.stored.Some?
    ensures !FindRootFolder(r, es, root, t).RootAbsent?
  {
  }

  /** What the search finds without a stored folder. */
  lemma NumberedFind(r: Rules, es: Entries, root: Id, t: Target)
    requires t.stored.None?
    ensures var f, own := FindRootFolder(r, es, root, t), Numbered(r, t.number);
      && (forall n: Id :: f == RootFound(n) <==> Only(es, Some(root), false, own, n))
      && (f.RootAbsent? <==> No(es, Some(root), false, own) && No(es, Some(root), true, own))
      && (f.RootUnclear? ==> f.key == Key(None, if Many(es, Some(root), false, own) then MultipleActive else InTrash))
      && (f.RootUnclear? ==> forall c :: c in f.candidates <==> In(es, Some(root), f.key.subtype == InTrash, own, c))
      && (Many(es, Some(root), false, own) ==> f.RootUnclear?)
  {
    hide NumberedFolders, In, Only, Many, No;
    NumberedListing(r, es, root, t.number, false);
    NumberedListing(r, es, root, t.number, true);
  }

  /** Without a stored folder the object folder is the only live folder of the drive root that carries the number.
    * Several are asked about; some only in the trash are asked about; if there is none at all, one is created. */
  lemma ObjectFolderIsTheNumbered(r: Rules, es: Entries, cfg: Config, t: Target)
    requires MakePlan(r, es, cfg, t).Some? && t.stored.None?
    ensures var plan, root, own := MakePlan(r, es, cfg, t).value, Some(cfg.root), Numbered(r, t.number);
      && (forall n: Id :: plan.root == Some(n) <==> Only(es, root, false, own, n))
      && (Asks(plan.actions, Key(None, MultipleActive)) <==> Many(es, root, false, own))
      && (Asks(plan.actions, Key(None, InTrash)) <==> No(es, root, false, own) && !No(es, root, true, own))
      && !Asks(plan.actions, Key(None, FolderMissing))
      && (forall a :: a in plan.actions && MakesRoot(a) <==>
            Nowhere(r, es, cfg, t) && t.newName.Some? && a == CreateFolder(RootPlace, ById(cfg.root), t.newName.value))
  {
    hide FolderActions, FindRootFolder, FolderKids, In, Only, Many, No, Blocked, YearIds, AnyYearsChecked;
    var plan, root, own := MakePlan(r, es, cfg, t).value, Some(cfg.root), Numbered(r, t.number);
    NumberedFind(r, es, cfg.root, t);
    OnlyIsNotMany(es, root, false, own);
    match FindRootFolder(r, es, cfg.root, t)
    case RootFound(node) =>
      RootAsksNothing(r, es, cfg, FolderKids(r, es, node), ById(node), [FindRoot]);
    case RootUnclear(key, candidates) =>
      assert plan.actions[0] == OpenReview(key, candidates);
    case RootAbsent =>
      RootAsksNothing(r, es, cfg, [], NewRoot, [FindRoot, CreateFolder(RootPlace, ById(cfg.root), t.newName.value)]);
  }

  lemma OnlyIsNotMany(es: Entries, f: Option<Id>, inTrash: bool, p: string -> bool)
    ensures forall c :: Only(es, f, inTrash, p, c) ==> !Many(es, f, inTrash, p) && !No(es, f, inTrash, p)
    ensures Many(es, f, inTrash, p) ==> !No(es, f, inTrash, p)
    ensures No(es, f, inTrash, p) || Many(es, f, inTrash, p) || exists c :: Only(es, f, inTrash, p, c)
  {
    hide In;
    if !No(es, f, inTrash, p) && !Many(es, f, inTrash, p) {
      var c :| In(es, f, inTrash, p, c);
      assert Only(es, f, inTrash, p, c);
    }
  }

  lemma RootAsksNothing(r: Rules, es: Entries, cfg: Config, kids: seq<Id>, parent: Ref, pre: seq<Action>)
    requires forall a :: a in pre ==> !a.OpenReview?
    ensures var all := pre + FolderActions(r, es, cfg, kids, parent);
      && (forall s :: !Asks(all, Key(None, s))) && forall a :: a in all && MakesRoot(a) <==> a in pre && MakesRoot(a)
  {
    hide FolderActions;
    var list := FolderActions(r, es, cfg, kids, parent);
    forall a | a in list ensures !MakesRoot(a) && (a.OpenReview? ==> a.key.cat.Some?) {
      BelowRoot(r, es, cfg, kids, parent, a);
    }
    assert forall a :: a in pre + list ==> a in pre || a in list;
  }

  /** A stored folder is the object folder exactly when it is live; otherwise the plan only asks for it. */
  lemma StoredFolderIsKept(r: Rules, es: Entries, cfg: Config, t: Target)
    requires MakePlan(r, es, cfg, t).Some? && t.stored.Some?
    ensures var plan := MakePlan(r, es, cfg, t).value;
      && (forall n: Id :: plan.root == Some(n) <==> n == t.stored.value && Usable(es, n))
      && (Asks(plan.actions, Key(None, FolderMissing)) <==> !Usable(es, t.stored.value))
      && !Asks(plan.actions, Key(None, MultipleActive)) && !Asks(plan.actions, Key(None, InTrash))
      && forall a :: a in plan.actions ==> !MakesRoot(a)
  {
    hide FolderActions, NumberedFolders;
    var plan := MakePlan(r, es, cfg, t).value;
    match FindRootFolder(r, es, cfg.root, t)
    case RootFound(node) =>
      RootAsksNothing(r, es, cfg, FolderKids(r, es, node), ById(node), [FindRoot]);
    case RootUnclear(key, candidates) =>
      assert plan.actions[1] == OpenReview(key, candidates);
    case RootAbsent =>
  }

  /** A question about the object folder is the whole plan, and it names the folders in question. */
  lemma UnclearRootOnlyAsks(r: Rules, es: Entries, cfg: Config, t: Target, a: Action)
    requires MakePlan(r, es, cfg, t).Some? && a in MakePlan(r, es, cfg, t).value.actions && a.OpenReview? && a.key.cat.None?
    ensures forall b :: b in MakePlan(r, es, cfg, t).value.actions ==> b == a || b == FindRoot
    ensures forall c :: c in a.candidates <==>
      if t.stored.Some? then c == t.stored.value && c in es
      else In(es, Some(cfg.root), a.key.subtype == InTrash, Numbered(r, t.number), c)
  {
    hide FolderActions, NumberedFolders, In;
    NumberedListing(r, es, cfg.root, t.number, false);
    NumberedListing(r, es, cfg.root, t.number, true);
    match FindRootFolder(r, es, cfg.root, t)
    case RootFound(node) =>
      BelowRoot(r, es, cfg, FolderKids(r, es, node), ById(node), a);
    case RootUnclear(key, candidates) =>
      assert a == OpenReview(key, candidates);
    case RootAbsent =>
      BelowRoot(r, es, cfg, [], NewRoot, a);
  }

  // ---------------------------------------------------------------- which folder a name means

  /** The one folder of that name or, failing that, the one spelled like it with no other that comes close. */
  ghost predicate Meant(r: Rules, es: Entries, f: Option<Id>, name: string, c: Id) {
    || Only(es, f, false, SameAs(r, name), c)
    || (No(es, f, false, SameAs(r, name)) && Only(es, f, false, SpeltAs(r, name), c) && No(es, f, false, CloseTo(r, name)))
  }

  ghost predicate Vacant(r: Rules, es: Entries, f: Option<Id>, name: string) {
    No(es, f, false, SameAs(r, name)) && No(es, f, false, SpeltAs(r, name)) && No(es, f, false, CloseTo(r, name))
  }

  /** No folder of that name, but not vacant and none meant either. */
  ghost predicate Dubious(r: Rules, es: Entries, f: Option<Id>, name: string) {
    No(es, f, false, SameAs(r, name)) && !Vacant(r, es, f, name) && forall c :: !Meant(r, es, f, name, c)
  }

  function KidsOf(r: Rules, es: Entries, f: Option<Id>): seq<Id> {
    if f.None? then [] else FolderKids(r, es, f.value)
  }

  lemma KidsAre(r: Rules, es: Entries, f: Option<Id>)
    ensures IsSorted(EntryKey(es, r.key), KidsOf(r, es, f))
    ensures forall c :: c in KidsOf(r, es, f) <==> In(es, f, false, n => true, c)
  {
  }

  lemma PickedAre(r: Rules, es: Entries, f: Option<Id>, p: string -> bool, q: Id -> bool)
    requires forall c :: c in KidsOf(r, es, f) ==> q(c) == p(NameOf(es, c))
    ensures var list := Pick(KidsOf(r, es, f), q);
      && IsSorted(EntryKey(es, r.key), list) && (forall c :: c in list <==> In(es, f, false, p, c))
      && (list == [] <==> No(es, f, false, p)) && (|list| > 1 <==> Many(es, f, false, p))
      && (forall c :: |list| == 1 && list[0] == c <==> Only(es, f, false, p, c))
      && (forall c :: list != [] && list[0] == c <==> First(r, es, f, p, c))
  {
    hide No, Many, Only, First;
    var list := Pick(KidsOf(r, es, f), q);
    KidsAre(r, es, f);
    PickSorted(EntryKey(es, r.key), KidsOf(r, es, f), q);
    forall c ensures c in list <==> In(es, f, false, p, c) {
      assert c in KidsOf(r, es, f) <==> In(es, f, false, n => true, c);
    }
    Counted(EntryKey(es, r.key), es, f, false, p, list);
    FirstListed(r, es, f, p, list);
  }

  lemma FindMeans(r: Rules, es: Entries, f: Option<Id>, name: string)
    ensures var find := FindFolder(r, es, KidsOf(r, es, f), name);
      && (forall c: Id :: find == One(c) <==> Meant(r, es, f, name, c))
      && (find.Absent? <==> Vacant(r, es, f, name))
      && (find.Ambiguous? <==> Many(es, f, false, SameAs(r, name)))
      && (find.Alike? <==> Dubious(r, es, f, name))
  {
    hide In, No, Many, Only, First, Pick, KidsOf, NameOf;
    var kids := KidsOf(r, es, f);
    var exact := Exacts(r, es, kids, name);
    PickedAre(r, es, f, SameAs(r, name), (c: Id) => r.nfc(NameOf(es, c)) == r.nfc(name));
    PickedAre(r, es, f, SpeltAs(r, name), (c: Id) => c !in exact && Norm(r, NameOf(es, c)) == Norm(r, name));
    PickedAre(r, es, f, CloseTo(r, name), (c: Id) => c !in exact && Norm(r, NameOf(es, c)) != Norm(r, name) && LooseMatch(r, NameOf(es, c), name));
    OnlyIsNotMany(es, f, false, SameAs(r, name));
  }

  lemma FormersAre(r: Rules, es: Entries, f: Option<Id>, cat: Category)
    ensures var list := Aliased(r, es, KidsOf(r, es, f), cat.aliases); var old_ := Former(r, cat);
      && (list == [] <==> No(es, f, false, old_)) && (|list| > 1 <==> Many(es, f, false, old_))
      && (forall c :: |list| == 1 && list[0] == c <==> Only(es, f, false, old_, c))
      && (forall c :: list != [] && list[0] == c <==> First(r, es, f, old_, c))
  {
    hide In, No, Many, Only, First, Pick, KidsOf, NameOf;
    PickedAre(r, es, f, Former(r, cat), (c: Id) => IsAlias(r, cat.aliases, NameOf(es, c)));
  }

  lemma ExactsAre(r: Rules, es: Entries, f: Option<Id>, name: string)
    ensures var list := Exacts(r, es, KidsOf(r, es, f), name);
      && (list == [] <==> No(es, f, false, SameAs(r, name)))
      && (forall c :: list != [] && list[0] == c <==> First(r, es, f, SameAs(r, name), c))
  {
    hide In, No, Many, Only, First, Pick, KidsOf, NameOf;
    PickedAre(r, es, f, SameAs(r, name), (c: Id) => r.nfc(NameOf(es, c)) == r.nfc(name));
  }

  lemma YearsAre(r: Rules, es: Entries, f: Option<Id>, y: nat)
    ensures var list := YearHits(r, es, KidsOf(r, es, f), y);
      && (|list| > 1 <==> Many(es, f, false, OfYear(r, y)))
      && (forall c :: |list| == 1 && list[0] == c <==> Only(es, f, false, OfYear(r, y), c))
  {
    hide In, No, Many, Only, First, Pick, KidsOf, NameOf;
    PickedAre(r, es, f, OfYear(r, y), (c: Id) => r.year(NameOf(es, c)) == Some(y));
  }

  // ---------------------------------------------------------------- categories

  /** A folder of a former name beside the folder of the name, or several of former names. */
  ghost predicate Conflict(r: Rules, es: Entries, f: Option<Id>, cat: Category) {
    !No(es, f, false, Former(r, cat)) && (!No(es, f, false, SameAs(r, cat.name)) || Many(es, f, false, Former(r, cat)))
  }

  /** The code the first folder of a former name carries in front. */
  ghost predicate CarriedBy(r: Rules, es: Entries, f: Option<Id>, cat: Category, code: string) {
    exists c :: First(r, es, f, Former(r, cat), c) && c in es && r.leading(es[c].name) == Some(code)
  }

  /** A conflict bars its own category and the one whose code the first old folder carries. */
  ghost predicate Barred(r: Rules, es: Entries, cfg: Config, f: Option<Id>, code: string) {
    exists d :: 0 <= d < |cfg.cats| && Conflict(r, es, f, cfg.cats[d])
                && (cfg.cats[d].code == code || CarriedBy(r, es, f, cfg.cats[d], code))
  }

  ghost predicate Renamed(r: Rules, es: Entries, f: Option<Id>, cat: Category, c: Id) {
    Only(es, f, false, Former(r, cat), c) && No(es, f, false, SameAs(r, cat.name))
  }

  lemma LegacyMeans(r: Rules, es: Entries, f: Option<Id>, cat: Category)
    ensures var leg, old_, own := LegacyOf(r, es, KidsOf(r, es, f), cat), Former(r, cat), SameAs(r, cat.name);
      && (forall c: Id :: leg == Single(c) <==> Renamed(r, es, f, cat, c))
      && (leg.NoLegacy? <==> No(es, f, false, old_))
      && (leg.Beside? <==> !No(es, f, false, old_) && !No(es, f, false, own))
      && (leg.Several? <==> Many(es, f, false, old_) && No(es, f, false, own))
      && (leg.Beside? || leg.Several? <==> Conflict(r, es, f, cat))
  {
    hide In, No, Many, Only, First, Exacts, Aliased, KidsOf;
    FormersAre(r, es, f, cat);
    ExactsAre(r, es, f, cat.name);
    OnlyIsNotMany(es, f, false, Former(r, cat));
  }

  lemma LegacyHeads(r: Rules, es: Entries, f: Option<Id>, cat: Category, leg: Legacy)
    requires leg == LegacyOf(r, es, KidsOf(r, es, f), cat)
    ensures leg.Beside? ==> leg.exact != [] && forall c :: leg.exact[0] == c <==> First(r, es, f, SameAs(r, cat.name), c)
    ensures leg.Beside? || leg.Several? ==> leg.former != [] && forall c :: leg.former[0] == c <==> First(r, es, f, Former(r, cat), c)
  {
    hide In, No, Many, Only, First, Exacts, Aliased, KidsOf;
    FormersAre(r, es, f, cat);
    ExactsAre(r, es, f, cat.name);
  }

  lemma BarredMeans(r: Rules, es: Entries, cfg: Config, f: Option<Id>, code: string)
    ensures code in Blocked(r, es, KidsOf(r, es, f), cfg.cats) <==> Barred(r, es, cfg, f, code)
  {
    hide Blocked, LegacyOf, First, Conflict, KidsOf, CarriedBy;
    BlockedMember(r, es, KidsOf(r, es, f), cfg.cats, code);
    forall d | 0 <= d < |cfg.cats|
      ensures code in LegacyBlocks(r, es, KidsOf(r, es, f), cfg.cats[d]) <==>
        Conflict(r, es, f, cfg.cats[d]) && (cfg.cats[d].code == code || CarriedBy(r, es, f, cfg.cats[d], code))
    {
      BlocksMean(r, es, f, cfg.cats[d], code);
    }
  }

  lemma BlocksMean(r: Rules, es: Entries, f: Option<Id>, cat: Category, code: string)
    ensures code in LegacyBlocks(r, es, KidsOf(r, es, f), cat) <==>
      Conflict(r, es, f, cat) && (cat.code == code || CarriedBy(r, es, f, cat, code))
  {
    hide LegacyOf, Conflict, KidsOf, No, Many, Only, Renamed;
    LegacyMeans(r, es, f, cat);
    var leg := LegacyOf(r, es, KidsOf(r, es, f), cat);
    LegacyHeads(r, es, f, cat, leg);
    if leg.Beside? || leg.Several? {
      assert First(r, es, f, Former(r, cat), leg.former[0]);
    }
  }

  /** The folder a category has or will have, or none where a new one is planned. */
  ghost predicate Home(r: Rules, es: Entries, f: Option<Id>, cat: Category, h: Option<Id>) {
    if h.Some? then Renamed(r, es, f, cat, h.value) || (No(es, f, false, Former(r, cat)) && Meant(r, es, f, cat.name, h.value))
    else No(es, f, false, Former(r, cat)) && Vacant(r, es, f, cat.name)
  }

  /** The category is neither barred nor under review, and `h` is its folder. */
  ghost predicate Settles(r: Rules, es: Entries, cfg: Config, f: Option<Id>, cat: Category, h: Option<Id>) {
    !Barred(r, es, cfg, f, cat.code) && Home(r, es, f, cat, h)
  }

  lemma HeldMeans(r: Rules, es: Entries, cfg: Config, f: Option<Id>, c: nat)
    requires c < |cfg.cats|
    ensures var kids, cat := KidsOf(r, es, f), cfg.cats[c];
      && (forall h: Option<Id> :: Settles(r, es, cfg, f, cat, h) <==> !Held(r, es, kids, Blocked(r, es, kids, cfg.cats), cat) && ParentNode(r, es, kids, cat) == h)
      && (Searched(r, es, kids, Blocked(r, es, kids, cfg.cats), cat) <==> !Barred(r, es, cfg, f, cat.code) && No(es, f, false, Former(r, cat)))
  {
    hide LegacyOf, FindFolder, Conflict, Barred, KidsOf, No, Many, Only, Meant, Vacant, Dubious, Blocked, First;
    var cat := cfg.cats[c];
    BarredMeans(r, es, cfg, f, cat.code);
    LegacyMeans(r, es, f, cat);
    FindMeans(r, es, f, cat.name);
    if Conflict(r, es, f, cat) { ConflictBars(r, es, cfg, f, c); }
    OnlyIsNotMany(es, f, false, Former(r, cat));
    var leg := LegacyOf(r, es, KidsOf(r, es, f), cat);
    if leg.Single? { assert Renamed(r, es, f, cat, leg.folder); }
  }

  lemma ConflictBars(r: Rules, es: Entries, cfg: Config, f: Option<Id>, c: nat)
    requires c < |cfg.cats| && Conflict(r, es, f, cfg.cats[c])
    ensures Barred(r, es, cfg, f, cfg.cats[c].code)
  {
    hide Conflict;
  }

  // ---------------------------------------------------------------- what the list holds

  ghost predicate Coded(cfg: Config) {
    && (forall i, j :: 0 <= i < j < |cfg.cats| ==> cfg.cats[i].code != cfg.cats[j].code)
    && (forall i, j, k :: 0 <= i < |cfg.cats| && 0 <= j < k < |cfg.cats[i].subs| ==> cfg.cats[i].subs[j].id != cfg.cats[i].subs[k].id)
  }

  function RefOf(f: Option<Id>): Ref {
    if f.Some? then ById(f.value) else NewRoot
  }

  /** Where a subfolder goes: into the folder of its category, be it there or still to come. */
  function Within(h: Option<Id>, code: string): Ref {
    if h.Some? then ById(h.value) else NewCategory(code)
  }

  function ListOf(r: Rules, es: Entries, cfg: Config, f: Option<Id>): seq<Action> {
    FolderActions(r, es, cfg, KidsOf(r, es, f), RefOf(f))
  }

  /** The old folder of a category is renamed exactly when it is the only one and the name is free. */
  lemma RenamedIff(r: Rules, es: Entries, cfg: Config, f: Option<Id>, c: nat, x: Id, name: string, before: multiset<Id>)
    requires Coded(cfg) && c < |cfg.cats|
    ensures RenameFolder(cfg.cats[c].code, x, name, before) in ListOf(r, es, cfg, f) <==>
      Renamed(r, es, f, cfg.cats[c], x) && name == cfg.cats[c].name && before == FileBag(es, r.key, x)
  {
    hide FolderActions, LegacyOf, FindFolder, KidsOf, FileBag, Searched, Held, YearsChecked, ParentNode, Renamed, YearHits;
    var cat, kids, a := cfg.cats[c], KidsOf(r, es, f), RenameFolder(cfg.cats[c].code, x, name, before);
    LegacyMeans(r, es, f, cat);
    if a in ListOf(r, es, cfg, f) {
      var o := ShapeOf(r, es, cfg, kids, RefOf(f), a);
      assert o.c == c;
    }
    if Renamed(r, es, f, cat, x) && name == cat.name && before == FileBag(es, r.key, x) {
      assert a in LegacyActions(r, es, kids, cat);
      Planned(r, es, cfg, kids, RefOf(f), a, FromLegacy(c));
    }
  }

  /** A main folder is registered in a conflict, the first of that name, or where nothing is in the way and it is meant. */
  lemma MainRegisteredIff(r: Rules, es: Entries, cfg: Config, f: Option<Id>, c: nat, x: Id)
    requires Coded(cfg) && c < |cfg.cats|
    ensures RegisterFolder(MainPlace(cfg.cats[c].code), x) in ListOf(r, es, cfg, f) <==>
      if No(es, f, false, Former(r, cfg.cats[c]))
      then !Barred(r, es, cfg, f, cfg.cats[c].code) && Meant(r, es, f, cfg.cats[c].name, x)
      else First(r, es, f, SameAs(r, cfg.cats[c].name), x)
  {
    hide FolderActions, LegacyOf, FindFolder, KidsOf, FileBag, Searched, Held, YearsChecked, ParentNode, Renamed, YearHits, Blocked,
         No, First, Meant, Barred, Settles, Only, Many, In, Vacant, Dubious, Conflict;
    var cat, kids, a := cfg.cats[c], KidsOf(r, es, f), RegisterFolder(MainPlace(cfg.cats[c].code), x);
    LegacyMeans(r, es, f, cat);
    LegacyHeads(r, es, f, cat, LegacyOf(r, es, kids, cat));
    HeldMeans(r, es, cfg, f, c);
    FindMeans(r, es, f, cat.name);
    FirstIsThere(r, es, f, SameAs(r, cat.name));
    if a in ListOf(r, es, cfg, f) {
      var o := ShapeOf(r, es, cfg, kids, RefOf(f), a);
      assert o.c == c;
    }
    if No(es, f, false, Former(r, cat)) {
      if !Barred(r, es, cfg, f, cat.code) && Meant(r, es, f, cat.name, x) {
        assert a in MainActions(r, es, kids, Blocked(r, es, kids, cfg.cats), RefOf(f), cat);
        Planned(r, es, cfg, kids, RefOf(f), a, FromMain(c));
      }
    } else if First(r, es, f, SameAs(r, cat.name), x) {
      assert LegacyActions(r, es, kids, cat)[1] == a;
      Planned(r, es, cfg, kids, RefOf(f), a, FromLegacy(c));
    }
  }

  lemma FirstIsThere(r: Rules, es: Entries, f: Option<Id>, p: string -> bool)
    ensures forall c :: First(r, es, f, p, c) ==> !No(es, f, false, p)
  {
    hide In;
  }

  /** A main folder is created exactly where nothing resembles it and nothing bars the category, in the object folder. */
  lemma MainCreatedIff(r: Rules, es: Entries, cfg: Config, f: Option<Id>, c: nat, parent: Ref, name: string)
    requires Coded(cfg) && c < |cfg.cats|
    ensures CreateFolder(MainPlace(cfg.cats[c].code), parent, name) in ListOf(r, es, cfg, f) <==>
      Settles(r, es, cfg, f, cfg.cats[c], None) && parent == RefOf(f) && name == cfg.cats[c].name
  {
    hide FolderActions, LegacyOf, FindFolder, KidsOf, FileBag, Searched, Held, YearsChecked, ParentNode, Renamed, YearHits, Blocked,
         No, First, Meant, Barred, Only, Many, In, Vacant, Dubious, Conflict;
    var cat, kids, a := cfg.cats[c], KidsOf(r, es, f), CreateFolder(MainPlace(cfg.cats[c].code), parent, name);
    HeldMeans(r, es, cfg, f, c);
    FindMeans(r, es, f, cat.name);
    if a in ListOf(r, es, cfg, f) {
      var o := ShapeOf(r, es, cfg, kids, RefOf(f), a);
      assert o.c == c;
    }
    if Settles(r, es, cfg, f, cat, None) && parent == RefOf(f) && name == cat.name {
      assert a in MainActions(r, es, kids, Blocked(r, es, kids, cfg.cats), RefOf(f), cat);
      Planned(r, es, cfg, kids, RefOf(f), a, FromMain(c));
    }
  }

  /** A subfolder is registered or created in the folder of a category that is settled, and in no other. */
  lemma SubsIff(r: Rules, es: Entries, cfg: Config, f: Option<Id>, c: nat, k: nat, x: Id, parent: Ref, name: string)
    requires Coded(cfg) && c < |cfg.cats| && k < |cfg.cats[c].subs|
    ensures var cat, sub := cfg.cats[c], cfg.cats[c].subs[k]; var place := SubPlace(cat.code, sub.id);
      && (RegisterFolder(place, x) in ListOf(r, es, cfg, f) <==>
            exists h :: Settles(r, es, cfg, f, cat, h) && Meant(r, es, h, sub.name, x))
      && (CreateFolder(place, parent, name) in ListOf(r, es, cfg, f) <==>
            exists h :: Settles(r, es, cfg, f, cat, h) && Vacant(r, es, h, sub.name) && name == sub.name && parent == Within(h, cat.code))
  {
    hide FolderActions, LegacyOf, FindFolder, KidsOf, FileBag, Searched, Held, YearsChecked, ParentNode, YearHits, Blocked,
         Meant, Vacant, Dubious, Settles;
    var cat, sub, kids := cfg.cats[c], cfg.cats[c].subs[k], KidsOf(r, es, f);
    var node := ParentNode(r, es, kids, cat);
    HeldMeans(r, es, cfg, f, c);
    FindMeans(r, es, node, sub.name);
    SubKidsAre(r, es, node);
    SubFound(r, es, cfg, f, c, k, RegisterFolder(SubPlace(cat.code, sub.id), x));
    SubFound(r, es, cfg, f, c, k, CreateFolder(SubPlace(cat.code, sub.id), parent, name));
  }

  lemma SubKidsAre(r: Rules, es: Entries, h: Option<Id>)
    ensures SubKids(r, es, h) == KidsOf(r, es, h)
  {
  }

  lemma SubFound(r: Rules, es: Entries, cfg: Config, f: Option<Id>, c: nat, k: nat, a: Action)
    requires Coded(cfg) && c < |cfg.cats| && k < |cfg.cats[c].subs|
    requires (a.RegisterFolder? || a.CreateFolder?) && a.place == SubPlace(cfg.cats[c].code, cfg.cats[c].subs[k].id)
    ensures var cat, kids := cfg.cats[c], KidsOf(r, es, f); var node := ParentNode(r, es, kids, cat);
      a in ListOf(r, es, cfg, f)
      <==> !Held(r, es, kids, Blocked(r, es, kids, cfg.cats), cat) && a in SubAction(r, es, node, cat.code, cat.subs[k])
  {
    hide FolderActions, LegacyOf, FindFolder, KidsOf, FileBag, Searched, Held, YearsChecked, ParentNode, YearHits, Blocked, SubKids;
    var cat, kids := cfg.cats[c], KidsOf(r, es, f);
    if a in ListOf(r, es, cfg, f) {
      var o := ShapeOf(r, es, cfg, kids, RefOf(f), a);
      assert o.c == c;
      assert o.FromSub? && o.k == k;
    }
    if !Held(r, es, kids, Blocked(r, es, kids, cfg.cats), cat) && a in SubAction(r, es, ParentNode(r, es, kids, cat), cat.code, cat.subs[k]) {
      Planned(r, es, cfg, kids, RefOf(f), a, FromSub(c, k));
    }
  }

  /** The folder the year folders are looked up in: the one of the settled year category, once no subfolder is in doubt. */
  ghost predicate YearHome(r: Rules, es: Entries, cfg: Config, f: Option<Id>, cat: Category, h: Id) {
    && cat.code == cfg.yearCode && Settles(r, es, cfg, f, cat, Some(h))
    && forall k :: 0 <= k < |cat.subs| ==> Clear(r, es, Some(h), cat.subs[k].name)
  }

  /** The name raises no question: a folder is meant by it or nothing resembles it. */
  ghost predicate Clear(r: Rules, es: Entries, f: Option<Id>, name: string) {
    !Many(es, f, false, SameAs(r, name)) && !Dubious(r, es, f, name)
  }

  lemma YearHomeIs(r: Rules, es: Entries, cfg: Config, f: Option<Id>, c: nat)
    requires c < |cfg.cats|
    ensures var kids, cat := KidsOf(r, es, f), cfg.cats[c];
      forall h: Id :: YearHome(r, es, cfg, f, cat, h) <==>
        YearsChecked(r, es, kids, Blocked(r, es, kids, cfg.cats), cfg.yearCode, cat) && ParentNode(r, es, kids, cat) == Some(h)
  {
    hide FolderActions, LegacyOf, FindFolder, KidsOf, FileBag, Searched, Held, ParentNode, Blocked, SubKids, Settles, Dubious, Many, Meant, Vacant;
    var kids, cat := KidsOf(r, es, f), cfg.cats[c];
    var node := ParentNode(r, es, kids, cat);
    HeldMeans(r, es, cfg, f, c);
    SubKidsAre(r, es, node);
    forall k | 0 <= k < |cat.subs|
      ensures NeedsReview(FindFolder(r, es, SubKids(r, es, node), cat.subs[k].name)) <==> !Clear(r, es, node, cat.subs[k].name)
    {
      FindMeans(r, es, node, cat.subs[k].name);
    }
  }

  /** A year folder is registered exactly when it is the only live folder of its year there. */
  lemma YearRegisteredIff(r: Rules, es: Entries, cfg: Config, f: Option<Id>, c: nat, y: nat, x: Id)
    requires Coded(cfg) && c < |cfg.cats|
    ensures RegisterFolder(YearPlace(cfg.cats[c].code, y), x) in ListOf(r, es, cfg, f) <==>
      exists h :: YearHome(r, es, cfg, f, cfg.cats[c], h) && Only(es, Some(h), false, OfYear(r, y), x)
  {
    hide FolderActions, LegacyOf, FindFolder, KidsOf, FileBag, Searched, Held, YearsChecked, ParentNode, YearHits, Blocked, YearHome, Only, Many;
    var cat, kids, a := cfg.cats[c], KidsOf(r, es, f), RegisterFolder(YearPlace(cfg.cats[c].code, y), x);
    var node := ParentNode(r, es, kids, cat);
    YearHomeIs(r, es, cfg, f, c);
    SubKidsAre(r, es, node);
    YearsAre(r, es, node, y);
    if a in ListOf(r, es, cfg, f) {
      var o := ShapeOf(r, es, cfg, kids, RefOf(f), a);
      assert o.c == c;
      assert o.FromYear? && o.y == y;
      YearNodeIs(r, es, kids, Blocked(r, es, kids, cfg.cats), cfg.yearCode, cat);
      assert YearHome(r, es, cfg, f, cat, node.value);
    }
    if h :| YearHome(r, es, cfg, f, cat, h) && Only(es, Some(h), false, OfYear(r, y), x) {
      assert a in YearAction(r, es, SubKids(r, es, node), cat.code, y);
      Planned(r, es, cfg, kids, RefOf(f), a, FromYear(c, y));
    }
  }

  lemma YearNodeIs(r: Rules, es: Entries, kids: seq<Id>, blocked: set<string>, yearCode: string, cat: Category)
    requires YearsChecked(r, es, kids, blocked, yearCode, cat)
    ensures ParentNode(r, es, kids, cat).Some?
  {
  }

  // ---------------------------------------------------------------- what the list asks

  ghost predicate SubTwice(r: Rules, es: Entries, cat: Category, h: Option<Id>) {
    exists k :: 0 <= k < |cat.subs| && Many(es, h, false, SameAs(r, cat.subs[k].name))
  }

  ghost predicate SubDubious(r: Rules, es: Entries, cat: Category, h: Option<Id>) {
    exists k :: 0 <= k < |cat.subs| && Dubious(r, es, h, cat.subs[k].name)
  }

  ghost predicate YearTwice(r: Rules, es: Entries, h: Id) {
    exists y :: Many(es, Some(h), false, OfYear(r, y))
  }

  ghost predicate SameNameAtMain(r: Rules, es: Entries, cfg: Config, f: Option<Id>, cat: Category) {
    !Barred(r, es, cfg, f, cat.code) && No(es, f, false, Former(r, cat)) && Many(es, f, false, SameAs(r, cat.name))
  }

  ghost predicate SimilarNameAtMain(r: Rules, es: Entries, cfg: Config, f: Option<Id>, cat: Category) {
    !Barred(r, es, cfg, f, cat.code) && No(es, f, false, Former(r, cat)) && Dubious(r, es, f, cat.name)
  }

  /** When folders of the same name are asked about: as main folders, as subfolders or as folders of one year. */
  ghost predicate SameNameCase(r: Rules, es: Entries, cfg: Config, f: Option<Id>, cat: Category) {
    || SameNameAtMain(r, es, cfg, f, cat)
    || (exists h :: Settles(r, es, cfg, f, cat, h) && SubTwice(r, es, cat, h))
    || (exists h :: YearHome(r, es, cfg, f, cat, h) && YearTwice(r, es, h))
  }

  ghost predicate SimilarNameCase(r: Rules, es: Entries, cfg: Config, f: Option<Id>, cat: Category) {
    || SimilarNameAtMain(r, es, cfg, f, cat)
    || (exists h :: Settles(r, es, cfg, f, cat, h) && SubDubious(r, es, cat, h))
  }

  /** When a question about a category is called for. */
  ghost predicate CalledFor(r: Rules, es: Entries, cfg: Config, f: Option<Id>, cat: Category, s: Subtype) {
    match s
    case BothExist => !No(es, f, false, Former(r, cat)) && !No(es, f, false, SameAs(r, cat.name))
    case MultipleLegacy => Many(es, f, false, Former(r, cat)) && No(es, f, false, SameAs(r, cat.name))
    case SameName => SameNameCase(r, es, cfg, f, cat)
    case SimilarName => SimilarNameCase(r, es, cfg, f, cat)
    case _ => false
  }

  lemma AskedFor(r: Rules, es: Entries, cfg: Config, f: Option<Id>, c: nat, a: Action)
    requires Coded(cfg) && c < |cfg.cats| && a in ListOf(r, es, cfg, f) && a.OpenReview? && a.key.cat == Some(cfg.cats[c].code)
    ensures CalledFor(r, es, cfg, f, cfg.cats[c], a.key.subtype)
  {
    hide FolderActions, LegacyOf, FindFolder, KidsOf, FileBag, Searched, Held, YearsChecked, ParentNode, YearHits, Blocked,
         YearHome, Many, Settles, Dubious, Meant, Vacant, No, Only, First, Conflict, Barred;
    var cat, kids := cfg.cats[c], KidsOf(r, es, f);
    var node := ParentNode(r, es, kids, cat);
    LegacyMeans(r, es, f, cat);
    HeldMeans(r, es, cfg, f, c);
    SubKidsAre(r, es, node);
    var o := ShapeOf(r, es, cfg, kids, RefOf(f), a);
    assert o.c == c;
    match o
    case FromLegacy(_) =>
    case FromMain(_) => FindMeans(r, es, f, cat.name);
    case FromSub(_, k) =>
      FindMeans(r, es, node, cat.subs[k].name);
      assert Settles(r, es, cfg, f, cat, node);
    case FromYear(_, y) =>
      YearHomeIs(r, es, cfg, f, c);
      YearNodeIs(r, es, kids, Blocked(r, es, kids, cfg.cats), cfg.yearCode, cat);
      YearsAre(r, es, node, y);
      assert YearHome(r, es, cfg, f, cat, node.value) && YearTwice(r, es, node.value);
  }

  lemma CalledIsAsked(r: Rules, es: Entries, cfg: Config, f: Option<Id>, c: nat, s: Subtype)
    requires c < |cfg.cats| && CalledFor(r, es, cfg, f, cfg.cats[c], s)
    ensures Asks(ListOf(r, es, cfg, f), Key(Some(cfg.cats[c].code), s))
  {
    hide FolderActions, LegacyOf, FindFolder, KidsOf, FileBag, Searched, Held, YearsChecked, ParentNode, YearHits, Blocked,
         YearHome, Many, Settles, Dubious, Meant, Vacant, No, Only, First, Conflict, Barred, Asks;
    var cat, kids := cfg.cats[c], KidsOf(r, es, f);
    var node := ParentNode(r, es, kids, cat);
    LegacyMeans(r, es, f, cat);
    HeldMeans(r, es, cfg, f, c);
    SubKidsAre(r, es, node);
    LegacyAsks(r, es, cfg, kids, RefOf(f), c);
    if s == SameName && !SameNameAtMain(r, es, cfg, f, cat) {
      if h :| Settles(r, es, cfg, f, cat, h) && SubTwice(r, es, cat, h) {
        var k :| 0 <= k < |cat.subs| && Many(es, h, false, SameAs(r, cat.subs[k].name));
        FindMeans(r, es, node, cat.subs[k].name);
        SubAsks(r, es, cfg, kids, RefOf(f), c, k);
      } else {
        var h :| YearHome(r, es, cfg, f, cat, h) && YearTwice(r, es, h);
        var y :| Many(es, Some(h), false, OfYear(r, y));
        YearHomeIs(r, es, cfg, f, c);
        YearsAre(r, es, node, y);
        YearAsks(r, es, cfg, kids, RefOf(f), c, y);
      }
    } else if s == SimilarName && !SimilarNameAtMain(r, es, cfg, f, cat) {
      var h :| Settles(r, es, cfg, f, cat, h) && SubDubious(r, es, cat, h);
      var k :| 0 <= k < |cat.subs| && Dubious(r, es, h, cat.subs[k].name);
      FindMeans(r, es, node, cat.subs[k].name);
      SubAsks(r, es, cfg, kids, RefOf(f), c, k);
    } else if s == SameName || s == SimilarName {
      FindMeans(r, es, f, cat.name);
      MainAsks(r, es, cfg, kids, RefOf(f), c);
    }
  }

  /** The questions about a category are exactly those called for. */
  lemma AskedIff(r: Rules, es: Entries, cfg: Config, f: Option<Id>, c: nat, s: Subtype)
    requires Coded(cfg) && c < |cfg.cats|
    ensures Asks(ListOf(r, es, cfg, f), Key(Some(cfg.cats[c].code), s)) <==> CalledFor(r, es, cfg, f, cfg.cats[c], s)
  {
    hide FolderActions, CalledFor, KidsOf;
    var list, key := ListOf(r, es, cfg, f), Key(Some(cfg.cats[c].code), s);
    if Asks(list, key) {
      var i :| 0 <= i < |list| && list[i].OpenReview? && list[i].key == key;
      AskedFor(r, es, cfg, f, c, list[i]);
    }
    if CalledFor(r, es, cfg, f, cfg.cats[c], s) {
      CalledIsAsked(r, es, cfg, f, c, s);
    }
  }

  /** The candidates are the folders whose names pass the one or the other test. */
  ghost predicate Names(es: Entries, h: Option<Id>, p: string -> bool, q: string -> bool, candidates: seq<Id>) {
    forall x :: x in candidates <==> In(es, h, false, p, x) || In(es, h, false, q, x)
  }

  ghost predicate NamesFormers(r: Rules, es: Entries, f: Option<Id>, cat: Category, a: Action)
    requires a.OpenReview?
  {
    if a.key.subtype == BothExist then Names(es, f, SameAs(r, cat.name), Former(r, cat), a.candidates)
    else Names(es, f, Former(r, cat), Former(r, cat), a.candidates)
  }

  ghost predicate NamesAlike(r: Rules, es: Entries, a: Action)
    requires a.OpenReview?
  {
    if a.key.subtype == SameName then exists h, p :: Many(es, h, false, p) && Names(es, h, p, p, a.candidates)
    else exists h, name :: Dubious(r, es, h, name) && Names(es, h, SpeltAs(r, name), CloseTo(r, name), a.candidates)
  }

  lemma FindNames(r: Rules, es: Entries, h: Option<Id>, name: string)
    ensures var find := FindFolder(r, es, KidsOf(r, es, h), name);
      && (find.Ambiguous? ==> Names(es, h, SameAs(r, name), SameAs(r, name), find.nodes))
      && (find.Alike? ==> Names(es, h, SpeltAs(r, name), CloseTo(r, name), find.nodes))
  {
    hide In, No, Many, Only, First, Pick, KidsOf, NameOf;
    var kids := KidsOf(r, es, h);
    var exact := Exacts(r, es, kids, name);
    PickedAre(r, es, h, SameAs(r, name), (c: Id) => r.nfc(NameOf(es, c)) == r.nfc(name));
    PickedAre(r, es, h, SpeltAs(r, name), (c: Id) => c !in exact && Norm(r, NameOf(es, c)) == Norm(r, name));
    PickedAre(r, es, h, CloseTo(r, name), (c: Id) => c !in exact && Norm(r, NameOf(es, c)) != Norm(r, name) && LooseMatch(r, NameOf(es, c), name));
  }

  lemma FormersNamed(r: Rules, es: Entries, f: Option<Id>, cat: Category, a: Action)
    requires a in LegacyActions(r, es, KidsOf(r, es, f), cat) && a.OpenReview?
    ensures NamesFormers(r, es, f, cat, a)
  {
    hide In, No, Many, Only, First, Pick, KidsOf, NameOf;
    PickedAre(r, es, f, Former(r, cat), (c: Id) => IsAlias(r, cat.aliases, NameOf(es, c)));
    PickedAre(r, es, f, SameAs(r, cat.name), (c: Id) => r.nfc(NameOf(es, c)) == r.nfc(cat.name));
  }

  lemma FoundNamed(r: Rules, es: Entries, h: Option<Id>, place: Place, code: string, parent: Ref, name: string, a: Action)
    requires a in FindActions(FindFolder(r, es, KidsOf(r, es, h), name), place, code, parent, name) && a.OpenReview?
    ensures NamesAlike(r, es, a) && a.key.subtype != BothExist && a.key.subtype != MultipleLegacy
  {
    hide FindFolder, KidsOf, Names, Many, Dubious, Meant, Vacant;
    FindMeans(r, es, h, name);
    FindNames(r, es, h, name);
  }

  /** A question about a category names exactly the folders in question. */
  lemma QuestionNames(r: Rules, es: Entries, cfg: Config, f: Option<Id>, c: nat, a: Action)
    requires Coded(cfg) && c < |cfg.cats| && a in ListOf(r, es, cfg, f) && a.OpenReview? && a.key.cat == Some(cfg.cats[c].code)
    ensures if a.key.subtype == BothExist || a.key.subtype == MultipleLegacy then NamesFormers(r, es, f, cfg.cats[c], a) else NamesAlike(r, es, a)
  {
    hide FolderActions, LegacyOf, FindFolder, KidsOf, FileBag, Searched, Held, YearsChecked, ParentNode, YearHits, Blocked, NamesAlike, NamesFormers;
    var kids := KidsOf(r, es, f);
    var node := ParentNode(r, es, kids, cfg.cats[c]);
    var o := OriginOf(r, es, cfg, kids, RefOf(f), a);
    var p := ShapeOf(r, es, cfg, kids, RefOf(f), a);
    assert p.c == c;
    SubKidsAre(r, es, ParentNode(r, es, kids, cfg.cats[o.c]));
    match o
    case FromLegacy(d) =>
      FromOldName(r, es, LegacyOf(r, es, kids, cfg.cats[d]), cfg.cats[d], a);
      FormersNamed(r, es, f, cfg.cats[d], a);
    case FromMain(d) => FoundNamed(r, es, f, MainPlace(cfg.cats[d].code), cfg.cats[d].code, RefOf(f), cfg.cats[d].name, a);
    case FromSub(d, k) =>
      FoundNamed(r, es, ParentNode(r, es, kids, cfg.cats[d]), SubPlace(cfg.cats[d].code, cfg.cats[d].subs[k].id), cfg.cats[d].code,
                 SubRef(ParentNode(r, es, kids, cfg.cats[d]), cfg.cats[d].code), cfg.cats[d].subs[k].name, a);
    case FromYear(d, y) => YearsNamed(r, es, ParentNode(r, es, kids, cfg.cats[d]), cfg.cats[d].code, y, a);
  }

  lemma YearsNamed(r: Rules, es: Entries, h: Option<Id>, code: string, y: nat, a: Action)
    requires a in YearAction(r, es, KidsOf(r, es, h), code, y) && a.OpenReview?
    ensures a.key.subtype == SameName && NamesAlike(r, es, a)
  {
    hide In, No, Many, Only, First, Pick, KidsOf, NameOf;
    PickedAre(r, es, h, OfYear(r, y), (c: Id) => r.year(NameOf(es, c)) == Some(y));
    assert Many(es, h, false, OfYear(r, y)) && Names(es, h, OfYear(r, y), OfYear(r, y), a.candidates);
  }

  /** Every other action on the list belongs to an entry of the catalogue. */
  ghost predicate OfCatalogue(cfg: Config, a: Action) {
    exists c :: 0 <= c < |cfg.cats| && OfCategory(cfg.cats[c], cfg.yearCode, a)
  }

  ghost predicate OfCategory(cat: Category, yearCode: string, a: Action) {
    match a
    case FindRoot => false
    case RegisterFolder(place, _) => place == MainPlace(cat.code) || OfSub(cat, place) || (cat.code == yearCode && place.YearPlace? && place.cat == cat.code)
    case CreateFolder(place, _, _) => place == MainPlace(cat.code) || OfSub(cat, place)
    case RenameFolder(code, _, _, _) => code == cat.code
    case OpenReview(key, _) => key.cat == Some(cat.code)
  }

  ghost predicate OfSub(cat: Category, place: Place) {
    exists k :: 0 <= k < |cat.subs| && place == SubPlace(cat.code, cat.subs[k].id)
  }

  lemma NothingElse(r: Rules, es: Entries, cfg: Config, f: Option<Id>, a: Action)
    requires a in ListOf(r, es, cfg, f)
    ensures OfCatalogue(cfg, a)
  {
    hide FolderActions, LegacyOf, FindFolder, KidsOf, FileBag, Searched, Held, ParentNode, YearHits, Blocked;
    var o := ShapeOf(r, es, cfg, KidsOf(r, es, f), RefOf(f), a);
    assert OfCategory(cfg.cats[o.c], cfg.yearCode, a);
  }

  // ---------------------------------------------------------------- the whole plan

  /** The object folder is known, or nothing stands in the way of a new one. */
  ghost predicate Opened(r: Rules, es: Entries, cfg: Config, t: Target) {
    MakePlan(r, es, cfg, t).Some? && (MakePlan(r, es, cfg, t).value.root.Some? || (t.stored.None? && Nowhere(r, es, cfg, t)))
  }

  lemma OpenedPlan(r: Rules, es: Entries, cfg: Config, t: Target) returns (pre: seq<Action>)
    requires Opened(r, es, cfg, t)
    ensures var plan := MakePlan(r, es, cfg, t).value; var kids := KidsOf(r, es, plan.root);
      && plan.actions == pre + ListOf(r, es, cfg, plan.root) && (forall a :: a in pre ==> a == FindRoot || (a.CreateFolder? && a.place.RootPlace?))
      && (plan.root.None? ==> plan.blocked == {} && plan.yearIds == {} && !plan.yearsChecked)
      && (plan.root.Some? ==> plan.blocked == Blocked(r, es, kids, cfg.cats))
      && (plan.root.Some? ==> plan.yearIds == YearIds(r, es, cfg, kids) && plan.yearsChecked == AnyYearsChecked(r, es, cfg, kids))
  {
    hide FolderActions, FindRootFolder, Blocked, YearIds, AnyYearsChecked, Only, Many, No, FolderKids;
    if t.stored.None? { NumberedFind(r, es, cfg.root, t); }
    pre := match FindRootFolder(r, es, cfg.root, t)
      case RootFound(_) => [FindRoot]
      case RootAbsent => [FindRoot, CreateFolder(RootPlace, ById(cfg.root), t.newName.value)]
      case RootUnclear(_, _) => [];
  }

  lemma PastPre(pre: seq<Action>, list: seq<Action>)
    requires forall a :: a in pre ==> a == FindRoot || (a.CreateFolder? && a.place.RootPlace?)
    ensures forall a :: a in pre + list && !(a == FindRoot || (a.CreateFolder? && a.place.RootPlace?)) ==> a in list
    ensures forall a :: a in list ==> a in pre + list
    ensures forall key :: Asks(pre + list, key) <==> Asks(list, key)
  {
    assert forall a :: a in pre + list <==> a in pre || a in list;
    forall key ensures Asks(pre + list, key) <==> Asks(list, key) {
      if Asks(list, key) {
        var i :| 0 <= i < |list| && list[i].OpenReview? && list[i].key == key;
        assert (pre + list)[|pre| + i] == list[i];
      }
      if Asks(pre + list, key) {
        var i :| 0 <= i < |pre + list| && (pre + list)[i].OpenReview? && (pre + list)[i].key == key;
        var a := (pre + list)[i];
        assert a in pre || a in list;
      }
    }
  }

  /** What the plan of an object does with the main folder of a category, told from the names in the object folder:
    * rename the only old one, register the one meant, create a missing one in the object folder. */
  lemma MainFolderPlan(r: Rules, es: Entries, cfg: Config, t: Target, c: nat, x: Id, n: string, b: multiset<Id>, p: Ref)
    requires Opened(r, es, cfg, t) && Coded(cfg) && c < |cfg.cats|
    ensures var plan, cat := MakePlan(r, es, cfg, t).value, cfg.cats[c]; var f, code := plan.root, cat.code;
      && (RenameFolder(code, x, n, b) in plan.actions <==> Renamed(r, es, f, cat, x) && n == cat.name && b == FileBag(es, r.key, x))
      && (RegisterFolder(MainPlace(code), x) in plan.actions <==>
            if No(es, f, false, Former(r, cat)) then !Barred(r, es, cfg, f, code) && Meant(r, es, f, cat.name, x)
            else First(r, es, f, SameAs(r, cat.name), x))
      && (CreateFolder(MainPlace(code), p, n) in plan.actions <==> Settles(r, es, cfg, f, cat, None) && p == RefOf(f) && n == cat.name)
  {
    hide MakePlan, ListOf, Coded, No, Only, Many, First, Meant, Barred, Settles, FileBag, Renamed;
    var pre := OpenedPlan(r, es, cfg, t);
    var f := MakePlan(r, es, cfg, t).value.root;
    PastPre(pre, ListOf(r, es, cfg, f));
    RenamedIff(r, es, cfg, f, c, x, n, b);
    MainRegisteredIff(r, es, cfg, f, c, x);
    MainCreatedIff(r, es, cfg, f, c, p, n);
  }

  /** What it does with a subfolder and with a year folder: only in the folder of a settled category. */
  lemma LowerFolderPlan(r: Rules, es: Entries, cfg: Config, t: Target, c: nat, k: nat, y: nat, x: Id, n: string, p: Ref)
    requires Opened(r, es, cfg, t) && Coded(cfg) && c < |cfg.cats|
    ensures var plan, cat := MakePlan(r, es, cfg, t).value, cfg.cats[c]; var f, code := plan.root, cat.code;
      && (k < |cat.subs| ==> var name, place := cat.subs[k].name, SubPlace(code, cat.subs[k].id);
            && (RegisterFolder(place, x) in plan.actions <==> exists h :: Settles(r, es, cfg, f, cat, h) && Meant(r, es, h, name, x))
            && (CreateFolder(place, p, n) in plan.actions <==>
                  exists h :: Settles(r, es, cfg, f, cat, h) && Vacant(r, es, h, name) && n == name && p == Within(h, code)))
      && (RegisterFolder(YearPlace(code, y), x) in plan.actions <==>
            exists h :: YearHome(r, es, cfg, f, cat, h) && Only(es, Some(h), false, OfYear(r, y), x))
  {
    hide MakePlan, ListOf, Coded, Only, Meant, Vacant, Settles, YearHome;
    var pre := OpenedPlan(r, es, cfg, t);
    var f := MakePlan(r, es, cfg, t).value.root;
    PastPre(pre, ListOf(r, es, cfg, f));
    if k < |cfg.cats[c].subs| { SubsIff(r, es, cfg, f, c, k, x, p, n); }
    YearRegisteredIff(r, es, cfg, f, c, y, x);
  }

  /** What it asks, which categories it bars, and nothing beyond the catalogue. */
  lemma QuestionsPlan(r: Rules, es: Entries, cfg: Config, t: Target, c: nat, s: Subtype)
    requires Opened(r, es, cfg, t) && Coded(cfg) && c < |cfg.cats|
    ensures var plan, cat := MakePlan(r, es, cfg, t).value, cfg.cats[c]; var f := plan.root;
      && (Asks(plan.actions, Key(Some(cat.code), s)) <==> CalledFor(r, es, cfg, f, cat, s))
      && (forall code :: code in plan.blocked <==> Barred(r, es, cfg, f, code))
      && (forall a :: a in plan.actions ==> a == FindRoot || (a.CreateFolder? && a.place.RootPlace?) || OfCatalogue(cfg, a))
  {
    hide MakePlan, ListOf, Coded, CalledFor, Asks, Blocked, OfCatalogue, Barred;
    var pre := OpenedPlan(r, es, cfg, t);
    var f := MakePlan(r, es, cfg, t).value.root;
    PastPre(pre, ListOf(r, es, cfg, f));
    AskedIff(r, es, cfg, f, c, s);
    forall code ensures code in MakePlan(r, es, cfg, t).value.blocked <==> Barred(r, es, cfg, f, code) {
      if f.None? { NoneBarred(r, es, cfg, code); } else { BarredMeans(r, es, cfg, f, code); }
    }
    forall a | a in ListOf(r, es, cfg, f) ensures OfCatalogue(cfg, a) {
      NothingElse(r, es, cfg, f, a);
    }
  }

  lemma NoneBarred(r: Rules, es: Entries, cfg: Config, code: string)
    ensures !Barred(r, es, cfg, None, code)
  {
  }

  /** The year folders the run will see: the live folders with a year for a name in the folder of the year category. */
  lemma YearsSeen(r: Rules, es: Entries, cfg: Config, t: Target)
    requires Opened(r, es, cfg, t) && Coded(cfg)
    ensures var plan := MakePlan(r, es, cfg, t).value; var f := plan.root;
      && (plan.yearsChecked <==> exists c, h :: 0 <= c < |cfg.cats| && YearHome(r, es, cfg, f, cfg.cats[c], h))
      && (forall x :: x in plan.yearIds <==>
            exists c, h, y :: 0 <= c < |cfg.cats| && YearHome(r, es, cfg, f, cfg.cats[c], h) && In(es, Some(h), false, OfYear(r, y), x))
  {
    hide MakePlan, Coded, AnyYearsChecked, YearIds, Blocked, YearHome, ListOf;
    var plan := MakePlan(r, es, cfg, t).value;
    var f := plan.root;
    var pre := OpenedPlan(r, es, cfg, t);
    if f.Some? {
      YearsCheckedIff(r, es, cfg, f);
      forall x ensures x in plan.yearIds <==>
        exists c, h, y :: 0 <= c < |cfg.cats| && YearHome(r, es, cfg, f, cfg.cats[c], h) && In(es, Some(h), false, OfYear(r, y), x)
      {
        YearIdsIff(r, es, cfg, f, x);
      }
    } else {
      forall c, h: Id | 0 <= c < |cfg.cats| ensures !YearHome(r, es, cfg, f, cfg.cats[c], h) {
        NoYearHome(r, es, cfg, cfg.cats[c], h);
      }
    }
  }

  lemma YearsCheckedIff(r: Rules, es: Entries, cfg: Config, f: Option<Id>)
    ensures AnyYearsChecked(r, es, cfg, KidsOf(r, es, f)) <==>
      exists c, h :: 0 <= c < |cfg.cats| && YearHome(r, es, cfg, f, cfg.cats[c], h)
  {
    hide Blocked, YearHome, YearsChecked, KidsOf, ParentNode;
    var kids := KidsOf(r, es, f);
    if AnyYearsChecked(r, es, cfg, kids) {
      var c :| 0 <= c < |cfg.cats| && YearsChecked(r, es, kids, Blocked(r, es, kids, cfg.cats), cfg.yearCode, cfg.cats[c]);
      YearHomeIs(r, es, cfg, f, c);
      YearNodeIs(r, es, kids, Blocked(r, es, kids, cfg.cats), cfg.yearCode, cfg.cats[c]);
      assert YearHome(r, es, cfg, f, cfg.cats[c], ParentNode(r, es, kids, cfg.cats[c]).value);
    }
    if c, h :| 0 <= c < |cfg.cats| && YearHome(r, es, cfg, f, cfg.cats[c], h) {
      YearHomeIs(r, es, cfg, f, c);
    }
  }

  lemma YearIdsIff(r: Rules, es: Entries, cfg: Config, f: Option<Id>, x: Id)
    ensures x in YearIds(r, es, cfg, KidsOf(r, es, f)) <==>
      exists c, h, y :: 0 <= c < |cfg.cats| && YearHome(r, es, cfg, f, cfg.cats[c], h) && In(es, Some(h), false, OfYear(r, y), x)
  {
    hide Blocked, YearHome, YearsChecked, ParentNode, FolderKids;
    var kids := KidsOf(r, es, f);
    if x in YearIds(r, es, cfg, kids) {
      var c :| 0 <= c < |cfg.cats| && YearsChecked(r, es, kids, Blocked(r, es, kids, cfg.cats), cfg.yearCode, cfg.cats[c])
               && x in SubKids(r, es, ParentNode(r, es, kids, cfg.cats[c])) && r.year(NameOf(es, x)).Some?;
      YearHomeIs(r, es, cfg, f, c);
      YearNodeIs(r, es, kids, Blocked(r, es, kids, cfg.cats), cfg.yearCode, cfg.cats[c]);
      var h := ParentNode(r, es, kids, cfg.cats[c]).value;
      KidsAre(r, es, Some(h));
      assert In(es, Some(h), false, OfYear(r, r.year(NameOf(es, x)).value), x);
    }
    if c, h: Id, y: nat :| 0 <= c < |cfg.cats| && YearHome(r, es, cfg, f, cfg.cats[c], h) && In(es, Some(h), false, OfYear(r, y), x) {
      YearHomeIs(r, es, cfg, f, c);
      KidsAre(r, es, Some(h));
      assert In(es, Some(h), false, n => true, x);
      assert x in FolderKids(r, es, h) && r.year(NameOf(es, x)) == Some(y);
      assert x in SubKids(r, es, ParentNode(r, es, kids, cfg.cats[c]));
    }
  }

  lemma NoYearHome(r: Rules, es: Entries, cfg: Config, cat: Category, h: Id)
    ensures !YearHome(r, es, cfg, None, cat, h)
  {
  }
}
