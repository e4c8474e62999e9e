/** The read-only half of the folder reconciliation (src/apps/drive/reconcile.py, _plan): the drive and the catalogue
  * are turned into a list of actions. Name comparison (nfc, norm, loose) stays arbitrary, except that norm and
  * loose work on the composed form, as they do in the program. */
module ReconcilePlan {
  import opened Wrappers
  import opened Drive
  import opened Sorting
  import opened Tree
  import opened FileCount

  datatype Rules = Rules(
    key: NameKey, nfc: string -> string, normTail: string -> string, looseTail: string -> string,
    leading: string -> Option<string>, year: string -> Option<nat>, number: string -> Option<nat>)

  function Norm(r: Rules, n: string): string { r.normTail(r.nfc(n)) }

  function Loose(r: Rules, n: string): string { r.looseTail(r.nfc(n)) }

  predicate LooseMatch(r: Rules, n: string, expected: string) {
    Loose(r, n) == Loose(r, expected) && Loose(r, n) != ""
  }

  predicate IsAlias(r: Rules, aliases: seq<string>, n: string) {
    exists i :: 0 <= i < |aliases| && Norm(r, aliases[i]) == Norm(r, n)
  }

  // ---------------------------------------------------------------- catalogue, actions, plan

  datatype Subfolder = Subfolder(id: nat, name: string)

  /** `subs` is empty unless the scope of the category is "object" or "misc". */
  datatype Category = Category(code: string, name: string, aliases: seq<string>, subs: seq<Subfolder>)

  datatype Config = Config(root: Id, cats: seq<Category>, yearCode: string)

  /** The managed object: its number and the name a new folder would get, if the master data allow one. */
  datatype Target = Target(pk: nat, number: nat, stored: Option<Id>, newName: Option<string>)

  /** Node kind, category, subfolder and year of a registered folder. */
  datatype Place = RootPlace | MainPlace(cat: string) | SubPlace(cat: string, sub: nat) | YearPlace(cat: string, year: nat)
                 | OtherPlace(other: nat)

  datatype Ref = ById(id: Id) | NewRoot | NewCategory(cat: string)

  datatype Subtype = BothExist | MultipleLegacy | SameName | SimilarName | FolderMissing | MultipleActive | InTrash | CountMismatch

  /** A review case is opened at most once for its key: category (or the root) and subtype. */
  datatype Key = Key(cat: Option<string>, subtype: Subtype)

  datatype Action =
    | FindRoot
    | RegisterFolder(place: Place, node: Id)
    | CreateFolder(place: Place, parent: Ref, name: string)
    | RenameFolder(cat: string, node: Id, name: string, before: multiset<Id>)
    | OpenReview(key: Key, candidates: seq<Id>)

  predicate IsWrite(a: Action) {
    a.CreateFolder? || a.RenameFolder?
  }

  // ---------------------------------------------------------------- listings

  function FolderSet(es: Entries, f: Id): set<Id> {
    set c | c in es && Child(es, f, c) && IsFolder(es, c)
  }

  /** The live folders in a folder, in listing order. */
  function FolderKids(r: Rules, es: Entries, f: Id): (kids: seq<Id>)
    ensures forall c :: c in kids <==> c in FolderSet(es, f)
    ensures IsSorted(EntryKey(es, r.key), kids)
  {
    Sorted(EntryKey(es, r.key), FolderSet(es, f))
  }

  function NameOf(es: Entries, c: Id): string {
    if c in es then es[c].name else ""
  }

  function Pick(kids: seq<Id>, p: Id -> bool): (r: seq<Id>)
    ensures forall c :: c in r <==> c in kids && p(c)
  {
    if kids == [] then []
    else (if p(kids[0]) then [kids[0]] else []) + Pick(kids[1..], p)
  }

  lemma {:induction false} PickSorted(key: Id -> real, kids: seq<Id>, p: Id -> bool)
    requires IsSorted(key, kids)
    ensures IsSorted(key, Pick(kids, p))
  {
    if kids != [] {
      PickSorted(key, kids[1..], p);
      var rest := Pick(kids[1..], p);
      forall i | 0 <= i < |rest| ensures Before(key, kids[0], rest[i]) {
        assert rest[i] in rest;
        var j :| 0 <= j < |kids[1..]| && kids[1..][j] == rest[i];
        assert Before(key, kids[0], kids[j + 1]);
      }
    }
  }

  /** The actions of all parts, one after the other. */
  function Gather<T>(parts: seq<T>, f: T -> seq<Action>): seq<Action> {
    if parts == [] then [] else f(parts[0]) + Gather(parts[1..], f)
  }

  // ---------------------------------------------------------------- which folder is meant

  function Exacts(r: Rules, es: Entries, kids: seq<Id>, name: string): seq<Id> {
    Pick(kids, (c: Id) => r.nfc(NameOf(es, c)) == r.nfc(name))
  }

  function Aliased(r: Rules, es: Entries, kids: seq<Id>, aliases: seq<string>): seq<Id> {
    Pick(kids, (c: Id) => IsAlias(r, aliases, NameOf(es, c)))
  }

  function Spelled(r: Rules, es: Entries, kids: seq<Id>, name: string, exact: seq<Id>): seq<Id> {
    Pick(kids, (c: Id) => c !in exact && Norm(r, NameOf(es, c)) == Norm(r, name))
  }

  function Similar(r: Rules, es: Entries, kids: seq<Id>, name: string, exact: seq<Id>): seq<Id> {
    Pick(kids, (c: Id) => c !in exact && Norm(r, NameOf(es, c)) != Norm(r, name) && LooseMatch(r, NameOf(es, c), name))
  }

  /** Whether an old name is in use: beside the target folder, more than once, exactly once, or not at all. */
  datatype Legacy = Beside(exact: seq<Id>, former: seq<Id>) | Several(former: seq<Id>) | Single(folder: Id) | NoLegacy

  function LegacyOf(r: Rules, es: Entries, kids: seq<Id>, cat: Category): Legacy {
    var exact, former := Exacts(r, es, kids, cat.name), Aliased(r, es, kids, cat.aliases);
    if former != [] && exact != [] then Beside(exact, former)
    else if |former| > 1 then Several(former)
    else if |former| == 1 then Single(former[0])
    else NoLegacy
  }

  /** What a catalogue name finds among the folders of its parent. */
  datatype Find = One(node: Id) | Ambiguous(nodes: seq<Id>) | Alike(nodes: seq<Id>) | Absent

  function FindFolder(r: Rules, es: Entries, kids: seq<Id>, name: string): Find {
    var exact := Exacts(r, es, kids, name);
    var spelled, similar := Spelled(r, es, kids, name, exact), Similar(r, es, kids, name, exact);
    if |exact| == 1 then One(exact[0])
    else if |exact| > 1 then Ambiguous(exact)
    else if |spelled| == 1 && similar == [] then One(spelled[0])
    else if spelled != [] || similar != [] then Alike(spelled + similar)
    else Absent
  }

  function FindActions(f: Find, place: Place, code: string, parent: Ref, name: string): seq<Action> {
    match f
    case One(node) => [RegisterFolder(place, node)]
    case Ambiguous(nodes) => [OpenReview(Key(Some(code), SameName), nodes)]
    case Alike(nodes) => [OpenReview(Key(Some(code), SimilarName), nodes)]
    case Absent => [CreateFolder(place, parent, name)]
  }

  // ---------------------------------------------------------------- step 3: old names

  function OldNameActions(r: Rules, es: Entries, leg: Legacy, cat: Category): seq<Action> {
    match leg
    case Beside(exact, former) =>
      (if exact == [] then [] else [OpenReview(Key(Some(cat.code), BothExist), exact + former), RegisterFolder(MainPlace(cat.code), exact[0])])
    case Several(former) => [OpenReview(Key(Some(cat.code), MultipleLegacy), former)]
    case Single(folder) => [RenameFolder(cat.code, folder, cat.name, FileBag(es, r.key, folder))]
    case NoLegacy => []
  }

  function LegacyActions(r: Rules, es: Entries, kids: seq<Id>, cat: Category): seq<Action> {
    OldNameActions(r, es, LegacyOf(r, es, kids, cat), cat)
  }

  /** A conflict holds back the category itself and the one whose code the old folder carries. */
  function LegacyBlocks(r: Rules, es: Entries, kids: seq<Id>, cat: Category): set<string> {
    match LegacyOf(r, es, kids, cat)
    case Beside(_, former) => {cat.code} + LeadingCode(r, es, former[0])
    case Several(former) => {cat.code} + LeadingCode(r, es, former[0])
    case _ => {}
  }

  function LeadingCode(r: Rules, es: Entries, c: Id): set<string> {
    match r.leading(NameOf(es, c))
    case None => {}
    case Some(code) => {code}
  }

  function AllLegacyActions(r: Rules, es: Entries, kids: seq<Id>, cats: seq<Category>): seq<Action> {
    Gather(cats, (cat: Category) => LegacyActions(r, es, kids, cat))
  }

  function Blocked(r: Rules, es: Entries, kids: seq<Id>, cats: seq<Category>): set<string> {
    if cats == [] then {} else LegacyBlocks(r, es, kids, cats[0]) + Blocked(r, es, kids, cats[1..])
  }

  // ---------------------------------------------------------------- step 4: main folders

  /** Step 4 looks for the main folder of every category that is neither blocked nor about to be renamed into place. */
  predicate Searched(r: Rules, es: Entries, kids: seq<Id>, blocked: set<string>, cat: Category) {
    cat.code !in blocked && !LegacyOf(r, es, kids, cat).Single?
  }

  function MainActions(r: Rules, es: Entries, kids: seq<Id>, blocked: set<string>, parent: Ref, cat: Category): seq<Action> {
    if Searched(r, es, kids, blocked, cat)
    then FindActions(FindFolder(r, es, kids, cat.name), MainPlace(cat.code), cat.code, parent, cat.name)
    else []
  }

  function AllMainActions(r: Rules, es: Entries, kids: seq<Id>, blocked: set<string>, parent: Ref, cats: seq<Category>): seq<Action> {
    Gather(cats, (cat: Category) => MainActions(r, es, kids, blocked, parent, cat))
  }

  predicate NeedsReview(f: Find) {
    f.Ambiguous? || f.Alike?
  }

  /** Blocked or under review once the main folders are planned. */
  predicate Held(r: Rules, es: Entries, kids: seq<Id>, blocked: set<string>, cat: Category) {
    cat.code in blocked
    || (Searched(r, es, kids, blocked, cat) && NeedsReview(FindFolder(r, es, kids, cat.name)))
  }

  // ---------------------------------------------------------------- step 5: subfolders

  /** The folder a category that is not held will have after this run, if it exists already. */
  function ParentNode(r: Rules, es: Entries, kids: seq<Id>, cat: Category): Option<Id> {
    match LegacyOf(r, es, kids, cat)
    case Single(folder) => Some(folder)
    case _ =>
      match FindFolder(r, es, kids, cat.name)
      case One(node) => Some(node)
      case _ => None
  }

  function SubKids(r: Rules, es: Entries, parent: Option<Id>): seq<Id> {
    if parent.None? then [] else FolderKids(r, es, parent.value)
  }

  function SubRef(parent: Option<Id>, code: string): Ref {
    if parent.None? then NewCategory(code) else ById(parent.value)
  }

  function SubAction(r: Rules, es: Entries, parent: Option<Id>, code: string, sub: Subfolder): seq<Action> {
    FindActions(FindFolder(r, es, SubKids(r, es, parent), sub.name), SubPlace(code, sub.id), code, SubRef(parent, code), sub.name)
  }

  function SubActions(r: Rules, es: Entries, kids: seq<Id>, blocked: set<string>, cat: Category): seq<Action> {
    if Held(r, es, kids, blocked, cat) then []
    else Gather(cat.subs, (sub: Subfolder) => SubAction(r, es, ParentNode(r, es, kids, cat), cat.code, sub))
  }

  function AllSubActions(r: Rules, es: Entries, kids: seq<Id>, blocked: set<string>, cats: seq<Category>): seq<Action> {
    Gather(cats, (cat: Category) => SubActions(r, es, kids, blocked, cat))
  }

  predicate SubsNeedReview(r: Rules, es: Entries, parent: Option<Id>, subs: seq<Subfolder>) {
    exists i :: 0 <= i < |subs| && NeedsReview(FindFolder(r, es, SubKids(r, es, parent), subs[i].name))
  }

  // ---------------------------------------------------------------- step 5b: year folders

  function YearHits(r: Rules, es: Entries, kids: seq<Id>, y: nat): seq<Id> {
    Pick(kids, (c: Id) => r.year(NameOf(es, c)) == Some(y))
  }

  function YearsOf(r: Rules, es: Entries, kids: seq<Id>): set<nat> {
    set c | c in kids && r.year(NameOf(es, c)).Some? :: r.year(NameOf(es, c)).value
  }

  function YearActionFor(hits: seq<Id>, code: string, y: nat): seq<Action> {
    if |hits| > 1 then [OpenReview(Key(Some(code), SameName), hits)]
    else if |hits| == 1 then [RegisterFolder(YearPlace(code, y), hits[0])]
    else []
  }

  function YearAction(r: Rules, es: Entries, kids: seq<Id>, code: string, y: nat): seq<Action> {
    YearActionFor(YearHits(r, es, kids, y), code, y)
  }

  /** Year folders are looked at in the year category unless it is held or one of its subfolders needs a review. */
  predicate YearsChecked(r: Rules, es: Entries, kids: seq<Id>, blocked: set<string>, yearCode: string, cat: Category) {
    && cat.code == yearCode && !Held(r, es, kids, blocked, cat)
    && !SubsNeedReview(r, es, ParentNode(r, es, kids, cat), cat.subs)
    && ParentNode(r, es, kids, cat).Some?
  }

  function SortedYears(years: set<nat>): seq<nat> {
    Sorted((y: nat) => y as real, years)
  }

  function YearActions(r: Rules, es: Entries, kids: seq<Id>, blocked: set<string>, yearCode: string, cat: Category): seq<Action> {
    if YearsChecked(r, es, kids, blocked, yearCode, cat) then
      var yearKids := SubKids(r, es, ParentNode(r, es, kids, cat));
      Gather(SortedYears(YearsOf(r, es, yearKids)), (y: nat) => YearAction(r, es, yearKids, cat.code, y))
    else []
  }

  function AllYearActions(r: Rules, es: Entries, kids: seq<Id>, blocked: set<string>, yearCode: string, cats: seq<Category>): seq<Action> {
    Gather(cats, (cat: Category) => YearActions(r, es, kids, blocked, yearCode, cat))
  }

  // ---------------------------------------------------------------- steps 0 to 2: the object folder

  datatype RootFind = RootFound(node: Id) | RootAbsent | RootUnclear(key: Key, candidates: seq<Id>)

  function NumberedFolders(r: Rules, es: Entries, root: Id, number: nat, inTrash: bool): set<Id> {
    set c | c in es && root in es[c].parents && es[c].trashed == inTrash && IsFolder(es, c)
            && r.number(es[c].name) == Some(number)
  }

  /** The stored folder if there is one; otherwise the folder whose name carries the object number. */
  function FindRootFolder(r: Rules, es: Entries, root: Id, t: Target): RootFind {
    if t.stored.Some? then
      if !IsFolder(es, t.stored.value) || es[t.stored.value].trashed
      then RootUnclear(Key(None, FolderMissing), if t.stored.value in es then [t.stored.value] else [])
      else RootFound(t.stored.value)
    else
      var active := Sorted(EntryKey(es, r.key), NumberedFolders(r, es, root, t.number, false));
      var trashed := Sorted(EntryKey(es, r.key), NumberedFolders(r, es, root, t.number, true));
      if |active| == 1 then RootFound(active[0])
      else if |active| > 1 then RootUnclear(Key(None, MultipleActive), active)
      else if trashed != [] then RootUnclear(Key(None, InTrash), trashed)
      else RootAbsent
  }

  // ---------------------------------------------------------------- the whole plan

  datatype Plan = Plan(actions: seq<Action>, root: Option<Id>, blocked: set<string>, yearIds: set<Id>, yearsChecked: bool)

  function FolderActions(r: Rules, es: Entries, cfg: Config, kids: seq<Id>, parent: Ref): seq<Action> {
    var blocked := Blocked(r, es, kids, cfg.cats);
    AllLegacyActions(r, es, kids, cfg.cats)
    + AllMainActions(r, es, kids, blocked, parent, cfg.cats)
    + AllSubActions(r, es, kids, blocked, cfg.cats)
    + AllYearActions(r, es, kids, blocked, cfg.yearCode, cfg.cats)
  }

  function YearIds(r: Rules, es: Entries, cfg: Config, kids: seq<Id>): set<Id> {
    set i, c | 0 <= i < |cfg.cats| && YearsChecked(r, es, kids, Blocked(r, es, kids, cfg.cats), cfg.yearCode, cfg.cats[i])
               && c in SubKids(r, es, ParentNode(r, es, kids, cfg.cats[i])) && r.year(NameOf(es, c)).Some? :: c
  }

  predicate AnyYearsChecked(r: Rules, es: Entries, cfg: Config, kids: seq<Id>) {
    exists i :: 0 <= i < |cfg.cats| && YearsChecked(r, es, kids, Blocked(r, es, kids, cfg.cats), cfg.yearCode, cfg.cats[i])
  }

  /** Which note comes first depends on where the search stopped. */
  function UnclearActions(key: Key, candidates: seq<Id>): seq<Action> {
    if key.subtype == FolderMissing then [FindRoot, OpenReview(key, candidates)] else [OpenReview(key, candidates), FindRoot]
  }

  /** None when the program stops with an error: root folder gone, or no name for a new object folder, or one that
    * does not carry the object number. */
  function MakePlan(r: Rules, es: Entries, cfg: Config, t: Target): Option<Plan> {
    if !IsFolder(es, cfg.root) || es[cfg.root].trashed then None
    else match FindRootFolder(r, es, cfg.root, t)
      case RootFound(node) =>
        var kids := FolderKids(r, es, node);
        Some(Plan([FindRoot] + FolderActions(r, es, cfg, kids, ById(node)), Some(node), Blocked(r, es, kids, cfg.cats),
                  YearIds(r, es, cfg, kids), AnyYearsChecked(r, es, cfg, kids)))
      case RootUnclear(key, candidates) => Some(Plan(UnclearActions(key, candidates), None, {}, {}, false))
      case RootAbsent =>
        if t.newName.None? || r.number(t.newName.value) != Some(t.number) then None
        else Some(Plan([FindRoot, CreateFolder(RootPlace, ById(cfg.root), t.newName.value)]
                       + FolderActions(r, es, cfg, [], NewRoot), None, {}, {}, false))
  }
}
