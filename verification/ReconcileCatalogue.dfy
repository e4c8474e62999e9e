/** What the planner's list contains, and that it never plans a folder twice, provided the catalogue keeps the names
  * and aliases of different categories apart. */
module ReconcileCatalogue {
  import opened Wrappers
  import opened Drive
  import opened Sorting
  import opened Tree
  import opened FileCount
  import opened ReconcilePlan
  import opened ReconcileRun
  import opened ReconcileSafety
  import opened ReconcileBuild

  // ---------------------------------------------------------------- names kept apart

  predicate Resembles(r: Rules, name: string, n: string) {
    r.nfc(n) == r.nfc(name) || Norm(r, n) == Norm(r, name) || LooseMatch(r, n, name)
  }

  predicate Touches(r: Rules, cat: Category, n: string) {
    Resembles(r, cat.name, n) || IsAlias(r, cat.aliases, n)
  }

  /** Names and aliases of different categories differ under nfc, norm and loose; so do the subfolder names of one
    * category, and none of them is a year where year folders are looked for. */
  ghost predicate Separate(r: Rules, cfg: Config) {
    && (forall i, j :: 0 <= i < |cfg.cats| && 0 <= j < |cfg.cats| && i != j ==> Foreign(r, cfg.cats[i], cfg.cats[j]))
    && (forall i :: 0 <= i < |cfg.cats| ==> SubsSeparate(r, cfg, cfg.cats[i]))
  }

  ghost predicate Foreign(r: Rules, a: Category, b: Category) {
    && a.code != b.code && !Touches(r, b, a.name)
    && (forall n :: IsAlias(r, a.aliases, n) ==> !Touches(r, b, n))
  }

  ghost predicate SubsSeparate(r: Rules, cfg: Config, cat: Category) {
    && (forall a, b :: 0 <= a < |cat.subs| && 0 <= b < |cat.subs| && a != b ==>
          cat.subs[a].id != cat.subs[b].id && !Resembles(r, cat.subs[b].name, cat.subs[a].name))
    && (cat.code == cfg.yearCode ==> forall a :: 0 <= a < |cat.subs| ==> r.year(cat.subs[a].name).None?)
  }

  /** The folders the plan looks at, and where main folders go. */
  ghost predicate Frame(r: Rules, es: Entries, kids: seq<Id>, parent: Ref) {
    if parent.ById? then IsFolder(es, parent.id) && kids == FolderKids(r, es, parent.id) else parent == NewRoot && kids == []
  }

  // ---------------------------------------------------------------- which category an action comes from

  lemma {:induction false} GatherMember<T>(parts: seq<T>, f: T -> seq<Action>, a: Action)
    ensures a in Gather(parts, f) <==> exists k :: 0 <= k < |parts| && a in f(parts[k])
  {
    if parts != [] {
      GatherMember(parts[1..], f, a);
      if k :| 0 <= k < |parts[1..]| && a in f(parts[1..][k]) { assert parts[k + 1] == parts[1..][k]; }
      if k :| 0 <= k < |parts| && a in f(parts[k]) {
        if k > 0 { assert parts[1..][k - 1] == parts[k]; }
      }
    }
  }

  lemma {:induction false} BlockedMember(r: Rules, es: Entries, kids: seq<Id>, cats: seq<Category>, code: string)
    ensures code in Blocked(r, es, kids, cats) <==> exists k :: 0 <= k < |cats| && code in LegacyBlocks(r, es, kids, cats[k])
  {
    if cats != [] {
      BlockedMember(r, es, kids, cats[1..], code);
      if k :| 0 <= k < |cats[1..]| && code in LegacyBlocks(r, es, kids, cats[1..][k]) { assert cats[k + 1] == cats[1..][k]; }
      if k :| 0 <= k < |cats| && code in LegacyBlocks(r, es, kids, cats[k]) {
        if k > 0 { assert cats[1..][k - 1] == cats[k]; }
      }
    }
  }

  // ---------------------------------------------------------------- no folder is planned twice

  /** No two actions of the list create a folder for the same place. */
  ghost predicate CreatesOnce(actions: seq<Action>) {
    forall i, j :: 0 <= i < j < |actions| && actions[i].CreateFolder? && actions[j].CreateFolder? ==>
      actions[i].place != actions[j].place
  }

  lemma CreatesPlus(a: seq<Action>, b: seq<Action>, p: Place)
    ensures Creates(a + b, p) <==> Creates(a, p) || Creates(b, p)
  {
    if i :| 0 <= i < |a| && a[i].CreateFolder? && a[i].place == p { assert (a + b)[i] == a[i]; }
    if i :| 0 <= i < |b| && b[i].CreateFolder? && b[i].place == p { assert (a + b)[|a| + i] == b[i]; }
  }

  lemma CreatesJoin(a: seq<Action>, b: seq<Action>)
    requires CreatesOnce(a) && CreatesOnce(b) && forall p :: !(Creates(a, p) && Creates(b, p))
    ensures CreatesOnce(a + b)
    ensures forall p :: Creates(a + b, p) <==> Creates(a, p) || Creates(b, p)
  {
    forall i, j | 0 <= i < j < |a + b| && (a + b)[i].CreateFolder? && (a + b)[j].CreateFolder?
      ensures (a + b)[i].place != (a + b)[j].place
    {
      if i < |a| <= j {
        assert Creates(a, a[i].place) && Creates(b, b[j - |a|].place);
      }
    }
    forall p ensures Creates(a + b, p) <==> Creates(a, p) || Creates(b, p) {
      CreatesPlus(a, b, p);
    }
  }

  lemma {:induction false} GatherCreates<T>(parts: seq<T>, f: T -> seq<Action>, p: Place)
    ensures Creates(Gather(parts, f), p) <==> exists k :: 0 <= k < |parts| && Creates(f(parts[k]), p)
  {
    if Creates(Gather(parts, f), p) {
      var i :| 0 <= i < |Gather(parts, f)| && Gather(parts, f)[i].CreateFolder? && Gather(parts, f)[i].place == p;
      var a := Gather(parts, f)[i];
      GatherMember(parts, f, a);
      var k :| 0 <= k < |parts| && a in f(parts[k]);
      var j :| 0 <= j < |f(parts[k])| && f(parts[k])[j] == a;
      assert Creates(f(parts[k]), p);
    }
    if k :| 0 <= k < |parts| && Creates(f(parts[k]), p) {
      var j :| 0 <= j < |f(parts[k])| && f(parts[k])[j].CreateFolder? && f(parts[k])[j].place == p;
      var a := f(parts[k])[j];
      assert a in f(parts[k]);
      GatherMember(parts, f, a);
      var i :| 0 <= i < |Gather(parts, f)| && Gather(parts, f)[i] == a;
    }
  }

  lemma {:induction false} GatherOnce<T>(parts: seq<T>, f: T -> seq<Action>)
    requires forall k :: 0 <= k < |parts| ==> CreatesOnce(f(parts[k]))
    requires forall k, l, p :: 0 <= k < l < |parts| ==> !(Creates(f(parts[k]), p) && Creates(f(parts[l]), p))
    ensures CreatesOnce(Gather(parts, f))
  {
    if parts != [] {
      assert forall k :: 0 <= k < |parts[1..]| ==> parts[1..][k] == parts[k + 1];
      GatherOnce(parts[1..], f);
      forall p ensures !(Creates(f(parts[0]), p) && Creates(Gather(parts[1..], f), p)) {
        GatherCreates(parts[1..], f, p);
      }
      CreatesJoin(f(parts[0]), Gather(parts[1..], f));
    }
  }

  // ---------------------------------------------------------------- what a plan creates

  lemma FindCreates(f: Find, place: Place, code: string, parent: Ref, name: string)
    ensures CreatesOnce(FindActions(f, place, code, parent, name))
    ensures forall p :: Creates(FindActions(f, place, code, parent, name), p) <==> f.Absent? && p == place
  {
    var a := FindActions(f, place, code, parent, name);
    if f.Absent? { assert a[0].place == place; }
  }

  lemma OldNamesCreateNothing(r: Rules, es: Entries, kids: seq<Id>, cat: Category, p: Place)
    ensures !Creates(LegacyActions(r, es, kids, cat), p)
  {
  }

  lemma LegacyCreatesNothing(r: Rules, es: Entries, kids: seq<Id>, cats: seq<Category>, p: Place)
    ensures !Creates(AllLegacyActions(r, es, kids, cats), p)
  {
    var f := (cat: Category) => LegacyActions(r, es, kids, cat);
    GatherCreates(cats, f, p);
    if k :| 0 <= k < |cats| && Creates(f(cats[k]), p) { OldNamesCreateNothing(r, es, kids, cats[k], p); assert false; }
  }

  lemma YearListCreatesNothing(r: Rules, es: Entries, kids: seq<Id>, code: string, years: seq<nat>, p: Place)
    ensures !Creates(Gather(years, (y: nat) => YearAction(r, es, kids, code, y)), p)
  {
    GatherCreates(years, (y: nat) => YearAction(r, es, kids, code, y), p);
  }

  lemma YearsOfCatCreateNothing(r: Rules, es: Entries, kids: seq<Id>, blocked: set<string>, yearCode: string, cat: Category, p: Place)
    ensures !Creates(YearActions(r, es, kids, blocked, yearCode, cat), p)
  {
    if YearsChecked(r, es, kids, blocked, yearCode, cat) {
      var yearKids := SubKids(r, es, ParentNode(r, es, kids, cat));
      YearListCreatesNothing(r, es, yearKids, cat.code, SortedYears(YearsOf(r, es, yearKids)), p);
    }
  }

  lemma YearsCreateNothing(r: Rules, es: Entries, kids: seq<Id>, blocked: set<string>, yearCode: string, cats: seq<Category>, p: Place)
    ensures !Creates(AllYearActions(r, es, kids, blocked, yearCode, cats), p)
  {
    var f := (cat: Category) => YearActions(r, es, kids, blocked, yearCode, cat);
    GatherCreates(cats, f, p);
    if k :| 0 <= k < |cats| && Creates(f(cats[k]), p) {
      YearsOfCatCreateNothing(r, es, kids, blocked, yearCode, cats[k], p);
      assert false;
    }
  }

  /** The main folder of a category is planned exactly when step 4 looks for it and finds nothing alike. */
  ghost predicate MainMissing(r: Rules, es: Entries, kids: seq<Id>, blocked: set<string>, cat: Category) {
    Searched(r, es, kids, blocked, cat) && FindFolder(r, es, kids, cat.name).Absent?
  }

  ghost predicate SubMissing(r: Rules, es: Entries, kids: seq<Id>, blocked: set<string>, cat: Category, sub: Subfolder) {
    !Held(r, es, kids, blocked, cat) && FindFolder(r, es, SubKids(r, es, ParentNode(r, es, kids, cat)), sub.name).Absent?
  }

  lemma MainCreates(r: Rules, es: Entries, kids: seq<Id>, blocked: set<string>, parent: Ref, cfg: Config)
    requires Separate(r, cfg)
    ensures CreatesOnce(AllMainActions(r, es, kids, blocked, parent, cfg.cats))
    ensures forall p :: Creates(AllMainActions(r, es, kids, blocked, parent, cfg.cats), p) <==>
      exists k :: 0 <= k < |cfg.cats| && MainMissing(r, es, kids, blocked, cfg.cats[k]) && p == MainPlace(cfg.cats[k].code)
  {
    var f := (cat: Category) => MainActions(r, es, kids, blocked, parent, cat);
    forall cat: Category
      ensures CreatesOnce(f(cat)) && forall p :: Creates(f(cat), p) <==> MainMissing(r, es, kids, blocked, cat) && p == MainPlace(cat.code)
    {
      FindCreates(FindFolder(r, es, kids, cat.name), MainPlace(cat.code), cat.code, parent, cat.name);
    }
    forall k, l, p | 0 <= k < l < |cfg.cats| ensures !(Creates(f(cfg.cats[k]), p) && Creates(f(cfg.cats[l]), p)) {
      assert Foreign(r, cfg.cats[k], cfg.cats[l]);
    }
    GatherOnce(cfg.cats, f);
    forall p ensures Creates(AllMainActions(r, es, kids, blocked, parent, cfg.cats), p) <==>
      exists k :: 0 <= k < |cfg.cats| && MainMissing(r, es, kids, blocked, cfg.cats[k]) && p == MainPlace(cfg.cats[k].code)
    {
      GatherCreates(cfg.cats, f, p);
    }
  }

  lemma SubCreates(r: Rules, es: Entries, kids: seq<Id>, blocked: set<string>, cfg: Config, cat: Category)
    requires SubsSeparate(r, cfg, cat)
    ensures CreatesOnce(SubActions(r, es, kids, blocked, cat))
    ensures forall p :: Creates(SubActions(r, es, kids, blocked, cat), p) <==>
      exists k :: 0 <= k < |cat.subs| && SubMissing(r, es, kids, blocked, cat, cat.subs[k]) && p == SubPlace(cat.code, cat.subs[k].id)
  {
    if !Held(r, es, kids, blocked, cat) {
      var parent := ParentNode(r, es, kids, cat);
      var f := (sub: Subfolder) => SubAction(r, es, parent, cat.code, sub);
      forall sub: Subfolder
        ensures CreatesOnce(f(sub)) && forall p :: Creates(f(sub), p) <==> SubMissing(r, es, kids, blocked, cat, sub) && p == SubPlace(cat.code, sub.id)
      {
        FindCreates(FindFolder(r, es, SubKids(r, es, parent), sub.name), SubPlace(cat.code, sub.id), cat.code, SubRef(parent, cat.code), sub.name);
      }
      GatherOnce(cat.subs, f);
      forall p ensures Creates(SubActions(r, es, kids, blocked, cat), p) <==>
        exists k :: 0 <= k < |cat.subs| && SubMissing(r, es, kids, blocked, cat, cat.subs[k]) && p == SubPlace(cat.code, cat.subs[k].id)
      {
        GatherCreates(cat.subs, f, p);
      }
    }
  }

  lemma CodesDiffer(r: Rules, cfg: Config, i: nat, j: nat)
    requires Separate(r, cfg) && i < |cfg.cats| && j < |cfg.cats| && cfg.cats[i].code == cfg.cats[j].code
    ensures i == j
  {
    assert i != j ==> Foreign(r, cfg.cats[i], cfg.cats[j]);
  }

  lemma SubCreatesAt(r: Rules, es: Entries, kids: seq<Id>, blocked: set<string>, cfg: Config, c: nat, p: Place)
    requires Separate(r, cfg) && c < |cfg.cats|
    ensures Creates(SubActions(r, es, kids, blocked, cfg.cats[c]), p) <==>
      exists k :: 0 <= k < |cfg.cats[c].subs| && SubMissing(r, es, kids, blocked, cfg.cats[c], cfg.cats[c].subs[k])
                  && p == SubPlace(cfg.cats[c].code, cfg.cats[c].subs[k].id)
  {
    SubCreates(r, es, kids, blocked, cfg, cfg.cats[c]);
  }

  lemma SubsOfTwo(r: Rules, es: Entries, kids: seq<Id>, blocked: set<string>, cfg: Config, c: nat, d: nat, p: Place)
    requires Separate(r, cfg) && c < d < |cfg.cats|
    ensures !(Creates(SubActions(r, es, kids, blocked, cfg.cats[c]), p) && Creates(SubActions(r, es, kids, blocked, cfg.cats[d]), p))
  {
    SubCreatesAt(r, es, kids, blocked, cfg, c, p);
    SubCreatesAt(r, es, kids, blocked, cfg, d, p);
    if cfg.cats[c].code == cfg.cats[d].code { CodesDiffer(r, cfg, c, d); assert false; }
  }

  lemma AllSubCreates(r: Rules, es: Entries, kids: seq<Id>, blocked: set<string>, cfg: Config)
    requires Separate(r, cfg)
    ensures CreatesOnce(AllSubActions(r, es, kids, blocked, cfg.cats))
  {
    var f := (cat: Category) => SubActions(r, es, kids, blocked, cat);
    forall c | 0 <= c < |cfg.cats| ensures CreatesOnce(f(cfg.cats[c])) {
      SubCreates(r, es, kids, blocked, cfg, cfg.cats[c]);
    }
    forall k, l, p | 0 <= k < l < |cfg.cats| ensures !(Creates(f(cfg.cats[k]), p) && Creates(f(cfg.cats[l]), p)) {
      SubsOfTwo(r, es, kids, blocked, cfg, k, l, p);
    }
    GatherOnce(cfg.cats, f);
  }

  lemma OnlySubPlaces(r: Rules, es: Entries, kids: seq<Id>, blocked: set<string>, cfg: Config, p: Place)
    requires Separate(r, cfg) && Creates(AllSubActions(r, es, kids, blocked, cfg.cats), p)
    ensures p.SubPlace?
  {
    GatherCreates(cfg.cats, (cat: Category) => SubActions(r, es, kids, blocked, cat), p);
    var c :| 0 <= c < |cfg.cats| && Creates(SubActions(r, es, kids, blocked, cfg.cats[c]), p);
    SubCreatesAt(r, es, kids, blocked, cfg, c, p);
  }
}
