/** The planner as the program runs it (reconcile.py, _plan and Plan): lists and sets that grow category by category,
  * old folders remembered under their new name, main folders looked up again in the list of actions.
  * Each step is proved to add what ReconcilePlan specifies. */
module ReconcilePlanner {
  import opened Wrappers
  import opened Drive
  import opened Sorting
  import opened Tree
  import opened FileCount
  import opened ReconcilePlan
  import opened ReconcileCatalogue
  import opened ReconcileConsistent

  // ---------------------------------------------------------------- lists that grow by one part

  lemma {:induction false} GatherMore<T>(parts: seq<T>, f: T -> seq<Action>, i: nat)
    requires i < |parts|
    ensures Gather(parts[..i + 1], f) == Gather(parts[..i], f) + f(parts[i])
    decreases i
  {
    if i == 0 {
      assert parts[..1][1..] == [] && parts[..0] == [];
    } else {
      GatherMore(parts[1..], f, i - 1);
      assert parts[..i + 1][1..] == parts[1..][..i] && parts[..i][1..] == parts[1..][..i - 1];
    }
  }

  lemma {:induction false} BlockedMore(r: Rules, es: Entries, kids: seq<Id>, cats: seq<Category>, i: nat)
    requires i < |cats|
    ensures Blocked(r, es, kids, cats[..i + 1]) == Blocked(r, es, kids, cats[..i]) + LegacyBlocks(r, es, kids, cats[i])
    decreases i
  {
    hide LegacyBlocks;
    if i == 0 {
      assert cats[..1][1..] == [] && cats[..0] == [];
    } else {
      BlockedMore(r, es, kids, cats[1..], i - 1);
      assert cats[..i + 1][1..] == cats[1..][..i] && cats[..i][1..] == cats[1..][..i - 1];
    }
  }

  lemma {:induction false} PickMore(kids: seq<Id>, p: Id -> bool, i: nat)
    requires i < |kids|
    ensures Pick(kids[..i + 1], p) == Pick(kids[..i], p) + (if p(kids[i]) then [kids[i]] else [])
    decreases i
  {
    if i == 0 {
      assert kids[..1][1..] == [] && kids[..0] == [];
    } else {
      PickMore(kids[1..], p, i - 1);
      assert kids[..i + 1][1..] == kids[1..][..i] && kids[..i][1..] == kids[1..][..i - 1];
    }
  }

  // ---------------------------------------------------------------- the catalogue

  /** Codes are the key of a category; old names are configured under the catalogue name. */
  ghost predicate Catalogue(cats: seq<Category>) {
    && (forall i, j :: 0 <= i < j < |cats| ==> cats[i].code != cats[j].code)
    && (forall i, j :: 0 <= i < j < |cats| && cats[i].name == cats[j].name ==> cats[i].aliases == cats[j].aliases)
  }

  lemma SameNameSameLegacy(r: Rules, es: Entries, kids: seq<Id>, cats: seq<Category>, i: nat, j: nat)
    requires Catalogue(cats) && i < |cats| && j < |cats| && cats[i].name == cats[j].name
    ensures LegacyOf(r, es, kids, cats[i]) == LegacyOf(r, es, kids, cats[j])
  {
    assert cats[i].aliases == cats[j].aliases;
  }

  lemma LegacyCases(r: Rules, es: Entries, kids: seq<Id>, cat: Category)
    ensures var exact, former := Exacts(r, es, kids, cat.name), Aliased(r, es, kids, cat.aliases);
      && LegacyActions(r, es, kids, cat) ==
           (if former != [] && exact != [] then [OpenReview(Key(Some(cat.code), BothExist), exact + former), RegisterFolder(MainPlace(cat.code), exact[0])]
            else if |former| > 1 then [OpenReview(Key(Some(cat.code), MultipleLegacy), former)]
            else if |former| == 1 then [RenameFolder(cat.code, former[0], cat.name, FileBag(es, r.key, former[0]))] else [])
      && LegacyBlocks(r, es, kids, cat) == (if former != [] && (exact != [] || |former| > 1) then {cat.code} + LeadingCode(r, es, former[0]) else {})
      && (|former| == 1 && exact == [] ==> LegacyOf(r, es, kids, cat) == Single(former[0]))
      && (LegacyOf(r, es, kids, cat).Single? ==> |former| == 1 && exact == [])
  {
    hide Exacts, Aliased, FileBag, LeadingCode;
  }

  // ---------------------------------------------------------------- looking up the main folder in the list

  /** The action names the folder of a category without naming a subfolder. */
  predicate NamesMain(a: Action, code: string) {
    || (a.RegisterFolder? && (a.place == MainPlace(code) || (a.place.YearPlace? && a.place.cat == code)))
    || (a.RenameFolder? && a.cat == code)
  }

  function FirstMain(actions: seq<Action>, code: string): Option<Id> {
    if actions == [] then None
    else if NamesMain(actions[0], code) then Some(actions[0].node)
    else FirstMain(actions[1..], code)
  }

  lemma {:induction false} FirstMainIs(actions: seq<Action>, code: string, node: Option<Id>)
    requires forall a :: a in actions && NamesMain(a, code) ==> node == Some(a.node)
    requires node.Some? ==> exists a :: a in actions && NamesMain(a, code)
    ensures FirstMain(actions, code) == node
  {
    if actions != [] && !NamesMain(actions[0], code) {
      if node.Some? {
        var a :| a in actions && NamesMain(a, code);
        assert a in actions[1..];
      }
      FirstMainIs(actions[1..], code, node);
    } else if actions != [] {
      assert actions[0] in actions;
    }
  }

  lemma LegacyNames(r: Rules, es: Entries, kids: seq<Id>, cats: seq<Category>, a: Action, c: nat)
    requires Catalogue(cats) && c < |cats| && !Held(r, es, kids, Blocked(r, es, kids, cats), cats[c])
    requires a in AllLegacyActions(r, es, kids, cats) && NamesMain(a, cats[c].code)
    ensures ParentNode(r, es, kids, cats[c]) == Some(a.node)
  {
    hide LegacyOf, Held, FindFolder, FileBag, Blocked, LegacyActions;
    GatherMember(cats, (cat: Category) => LegacyActions(r, es, kids, cat), a);
    var d :| 0 <= d < |cats| && a in LegacyActions(r, es, kids, cats[d]);
    LegacyShape(r, es, kids, cats[d], a);
    assert d == c;
    NotHeldNotBeside(r, es, kids, cats, c);
  }

  lemma LegacyShape(r: Rules, es: Entries, kids: seq<Id>, cat: Category, a: Action)
    requires a in LegacyActions(r, es, kids, cat)
    ensures OldNameShape(r, es, LegacyOf(r, es, kids, cat), cat, a)
  {
    hide LegacyOf;
    FromOldName(r, es, LegacyOf(r, es, kids, cat), cat, a);
  }

  lemma NotHeldNotBeside(r: Rules, es: Entries, kids: seq<Id>, cats: seq<Category>, c: nat)
    requires c < |cats| && !Held(r, es, kids, Blocked(r, es, kids, cats), cats[c])
    ensures !LegacyOf(r, es, kids, cats[c]).Beside?
  {
    hide LegacyOf, FindFolder, Blocked;
    BlockedMember(r, es, kids, cats, cats[c].code);
  }

  lemma MainNames(r: Rules, es: Entries, kids: seq<Id>, parent: Ref, cats: seq<Category>, a: Action, c: nat)
    requires Catalogue(cats) && c < |cats| && NamesMain(a, cats[c].code)
    requires a in AllMainActions(r, es, kids, Blocked(r, es, kids, cats), parent, cats)
    ensures ParentNode(r, es, kids, cats[c]) == Some(a.node)
  {
    hide LegacyOf, FindFolder, Blocked, MainActions;
    var blocked := Blocked(r, es, kids, cats);
    GatherMember(cats, (cat: Category) => MainActions(r, es, kids, blocked, parent, cat), a);
    var d :| 0 <= d < |cats| && a in MainActions(r, es, kids, blocked, parent, cats[d]);
    MainActionShape(r, es, kids, blocked, parent, cats[d], a);
    assert d == c;
  }

  lemma MainActionShape(r: Rules, es: Entries, kids: seq<Id>, blocked: set<string>, parent: Ref, cat: Category, a: Action)
    requires a in MainActions(r, es, kids, blocked, parent, cat)
    ensures Searched(r, es, kids, blocked, cat)
    ensures FindShape(FindFolder(r, es, kids, cat.name), MainPlace(cat.code), cat.code, parent, cat.name, a)
  {
    hide LegacyOf, FindFolder;
    FromFind(FindFolder(r, es, kids, cat.name), MainPlace(cat.code), cat.code, parent, cat.name, a);
  }

  lemma SubsNameNothing(r: Rules, es: Entries, kids: seq<Id>, blocked: set<string>, cats: seq<Category>, a: Action, code: string)
    requires a in AllSubActions(r, es, kids, blocked, cats)
    ensures !NamesMain(a, code)
  {
    hide LegacyOf, FindFolder, ParentNode, Held, SubKids;
    var c, k := InSubs(r, es, kids, blocked, Config(0, cats, ""), a);
    var cat := cats[c];
    var node := ParentNode(r, es, kids, cat);
    FromFind(FindFolder(r, es, SubKids(r, es, node), cat.subs[k].name), SubPlace(cat.code, cat.subs[k].id), cat.code, SubRef(node, cat.code), cat.subs[k].name, a);
  }

  /** A main folder that exists is on the list before the subfolders are planned. */
  lemma NamedBefore(r: Rules, es: Entries, kids: seq<Id>, parent: Ref, cats: seq<Category>, c: nat) returns (a: Action)
    requires c < |cats| && !Held(r, es, kids, Blocked(r, es, kids, cats), cats[c]) && ParentNode(r, es, kids, cats[c]).Some?
    ensures NamesMain(a, cats[c].code)
    ensures a in AllLegacyActions(r, es, kids, cats) || a in AllMainActions(r, es, kids, Blocked(r, es, kids, cats), parent, cats)
  {
    hide LegacyOf, FindFolder, Blocked, FileBag;
    var blocked, cat := Blocked(r, es, kids, cats), cats[c];
    if LegacyOf(r, es, kids, cat).Single? {
      var folder := LegacyOf(r, es, kids, cat).folder;
      a := RenameFolder(cat.code, folder, cat.name, FileBag(es, r.key, folder));
      assert a in LegacyActions(r, es, kids, cat);
      GatherMember(cats, (cat: Category) => LegacyActions(r, es, kids, cat), a);
    } else {
      a := RegisterFolder(MainPlace(cat.code), FindFolder(r, es, kids, cat.name).node);
      assert a in MainActions(r, es, kids, blocked, parent, cat);
      GatherMember(cats, (cat: Category) => MainActions(r, es, kids, blocked, parent, cat), a);
    }
  }

  /** The steps before the year folders name the main folder of a category that is not held, and no other folder for it. */
  lemma ScanFinds(r: Rules, es: Entries, kids: seq<Id>, parent: Ref, cats: seq<Category>, pre: seq<Action>, subs: seq<Action>, c: nat)
    requires Catalogue(cats) && c < |cats| && !Held(r, es, kids, Blocked(r, es, kids, cats), cats[c])
    requires forall a :: a in pre ==> !NamesMain(a, cats[c].code)
    requires forall a :: a in subs ==> !NamesMain(a, cats[c].code)
    ensures FirstMain(pre + AllLegacyActions(r, es, kids, cats) + AllMainActions(r, es, kids, Blocked(r, es, kids, cats), parent, cats) + subs, cats[c].code)
            == ParentNode(r, es, kids, cats[c])
  {
    hide AllLegacyActions, AllMainActions, ParentNode, Held, Blocked, Catalogue;
    var blocked, code := Blocked(r, es, kids, cats), cats[c].code;
    var l, m := AllLegacyActions(r, es, kids, cats), AllMainActions(r, es, kids, blocked, parent, cats);
    forall a | a in pre + l + m + subs && NamesMain(a, code) ensures ParentNode(r, es, kids, cats[c]) == Some(a.node) {
      if a in l { LegacyNames(r, es, kids, cats, a, c); } else { MainNames(r, es, kids, parent, cats, a, c); }
    }
    if ParentNode(r, es, kids, cats[c]).Some? {
      var a := NamedBefore(r, es, kids, parent, cats, c);
      assert a in pre + l + m + subs;
    }
    FirstMainIs(pre + l + m + subs, code, ParentNode(r, es, kids, cats[c]));
  }

  method PlannedParent(actions: seq<Action>, code: string) returns (node: Option<Id>)
    ensures node == FirstMain(actions, code)
  {
    for i := 0 to |actions|
      invariant FirstMain(actions, code) == FirstMain(actions[i..], code)
    {
      assert actions[i..][1..] == actions[i + 1..];
      if NamesMain(actions[i], code) { return Some(actions[i].node); }
    }
    return None;
  }

  // ---------------------------------------------------------------- the planner

  class Planner {
    const r: Rules
    const cats: seq<Category>
    var actions: seq<Action>
    var blocked: set<string>
    var reviewed: set<string>
    var renamedTo: map<string, Id>
    var yearIds: set<Id>
    var yearsChecked: bool

    constructor (r: Rules, cats: seq<Category>)
      ensures this.r == r && this.cats == cats
      ensures actions == [] && blocked == {} && reviewed == {} && renamedTo == map[] && yearIds == {} && !yearsChecked
    {
      this.r, this.cats := r, cats;
      actions, blocked, reviewed, renamedTo, yearIds, yearsChecked := [], {}, {}, map[], {}, false;
    }

    method Add(a: Action)
      modifies this`actions
      ensures actions == old(actions) + [a]
    {
      actions := actions + [a];
    }

    method Review(code: string, subtype: Subtype, candidates: seq<Id>)
      modifies this`actions, this`reviewed
      ensures actions == old(actions) + [OpenReview(Key(Some(code), subtype), candidates)] && reviewed == old(reviewed) + {code}
    {
      reviewed := reviewed + {code};
      Add(OpenReview(Key(Some(code), subtype), candidates));
    }

    /** Old folders are remembered under the name they are about to get. */
    ghost predicate Remembered(es: Entries, kids: seq<Id>, n: nat)
      requires n <= |cats|
      reads this`renamedTo
    {
      && (forall k :: 0 <= k < n && LegacyOf(r, es, kids, cats[k]).Single? ==>
            cats[k].name in renamedTo && renamedTo[cats[k].name] == LegacyOf(r, es, kids, cats[k]).folder)
      && (forall name :: name in renamedTo ==> exists k :: 0 <= k < n && LegacyOf(r, es, kids, cats[k]).Single? && cats[k].name == name)
    }

    method OldNames(es: Entries, kids: seq<Id>)
      requires Catalogue(cats) && blocked == {} && renamedTo == map[] && reviewed == {}
      modifies this`actions, this`blocked, this`reviewed, this`renamedTo
      ensures actions == old(actions) + AllLegacyActions(r, es, kids, cats)
      ensures blocked == Blocked(r, es, kids, cats) && reviewed <= blocked && Remembered(es, kids, |cats|)
    {
      hide LegacyActions, LegacyBlocks, LegacyOf, Catalogue, Remembered, Blocked;
      NothingSoFar(es, kids);
      ghost var f := (cat: Category) => LegacyActions(r, es, kids, cat);
      for i := 0 to |cats|
        invariant actions == old(actions) + Gather(cats[..i], f)
        invariant blocked == Blocked(r, es, kids, cats[..i]) && reviewed <= blocked && Remembered(es, kids, i)
      {
        GatherMore(cats, f, i);
        BlockedMore(r, es, kids, cats, i);
        OldName(es, kids, i);
      }
      assert cats[..|cats|] == cats;
    }

    lemma NothingSoFar(es: Entries, kids: seq<Id>)
      ensures Blocked(r, es, kids, cats[..0]) == {} && (renamedTo == map[] ==> Remembered(es, kids, 0))
    {
    }

    method OldName(es: Entries, kids: seq<Id>, i: nat)
      requires Catalogue(cats) && i < |cats| && Remembered(es, kids, i) && reviewed <= blocked
      modifies this`actions, this`blocked, this`reviewed, this`renamedTo
      ensures actions == old(actions) + LegacyActions(r, es, kids, cats[i])
      ensures blocked == old(blocked) + LegacyBlocks(r, es, kids, cats[i]) && reviewed <= blocked
      ensures Remembered(es, kids, i + 1)
    {
      hide LegacyOf, LegacyActions, LegacyBlocks, Exacts, Aliased, FileBag, LeadingCode, Remembered, Catalogue;
      var cat := cats[i];
      var exact, former := Exacts(r, es, kids, cat.name), Aliased(r, es, kids, cat.aliases);
      LegacyCases(r, es, kids, cat);
      if former != [] && exact != [] {
        Review(cat.code, BothExist, exact + former);
        blocked := blocked + {cat.code};
        Add(RegisterFolder(MainPlace(cat.code), exact[0]));
        blocked := blocked + LeadingCode(r, es, former[0]);
      } else if |former| > 1 {
        Review(cat.code, MultipleLegacy, former);
        blocked := blocked + {cat.code} + LeadingCode(r, es, former[0]);
      } else if |former| == 1 {
        Add(RenameFolder(cat.code, former[0], cat.name, FileBag(es, r.key, former[0])));
        Remember(es, kids, i, former[0]);
      }
      if |former| != 1 || exact != [] { NothingToRemember(es, kids, i); }
    }

    lemma NothingToRemember(es: Entries, kids: seq<Id>, i: nat)
      requires i < |cats| && Remembered(es, kids, i) && !LegacyOf(r, es, kids, cats[i]).Single?
      ensures Remembered(es, kids, i + 1)
    {
      hide LegacyOf;
    }

    method Remember(es: Entries, kids: seq<Id>, i: nat, folder: Id)
      requires Catalogue(cats) && i < |cats| && Remembered(es, kids, i) && LegacyOf(r, es, kids, cats[i]) == Single(folder)
      modifies this`renamedTo
      ensures Remembered(es, kids, i + 1)
    {
      hide LegacyOf;
      forall k | 0 <= k < i && cats[k].name == cats[i].name ensures LegacyOf(r, es, kids, cats[k]) == Single(folder) {
        SameNameSameLegacy(r, es, kids, cats, k, i);
      }
      renamedTo := renamedTo[cats[i].name := folder];
    }

    // -------------------------------------------------------------- main folders

    /** Which categories count as under review or blocked after `n` categories of step 4. */
    ghost predicate HeldSoFar(es: Entries, kids: seq<Id>, n: nat)
      reads this`blocked, this`reviewed
    {
      forall j :: 0 <= j < |cats| ==>
        (cats[j].code in reviewed || cats[j].code in blocked
         <==> cats[j].code in blocked || (j < n && Held(r, es, kids, blocked, cats[j])))
    }

    method MainFolders(es: Entries, kids: seq<Id>, parent: Ref)
      requires Catalogue(cats) && Remembered(es, kids, |cats|) && blocked == Blocked(r, es, kids, cats) && reviewed <= blocked
      modifies this`actions, this`reviewed
      ensures actions == old(actions) + AllMainActions(r, es, kids, blocked, parent, cats)
      ensures HeldSoFar(es, kids, |cats|)
    {
      hide MainActions, Remembered, Catalogue, Blocked, Held;
      ghost var held := blocked;
      ghost var f := (cat: Category) => MainActions(r, es, kids, held, parent, cat);
      for i := 0 to |cats|
        invariant actions == old(actions) + Gather(cats[..i], f)
        invariant HeldSoFar(es, kids, i) && Remembered(es, kids, |cats|)
      {
        GatherMore(cats, f, i);
        MainFolder(es, kids, parent, i);
      }
      assert cats[..|cats|] == cats;
    }

    method MainFolder(es: Entries, kids: seq<Id>, parent: Ref, i: nat)
      requires i < |cats| && Catalogue(cats) && Remembered(es, kids, |cats|) && HeldSoFar(es, kids, i)
      modifies this`actions, this`reviewed
      ensures actions == old(actions) + MainActions(r, es, kids, blocked, parent, cats[i])
      ensures HeldSoFar(es, kids, i + 1)
    {
      hide LegacyOf, Exacts, FindFolder, Remembered, Catalogue;
      var cat := cats[i];
      if cat.code in blocked { return; }
      var exact := Exacts(r, es, kids, cat.name);
      var known: Option<Id> := None;
      RenamedMeansSingle(es, kids, i);
      LegacyCases(r, es, kids, cat);
      if cat.name in renamedTo {
        exact := exact + [renamedTo[cat.name]];
        known := Some(renamedTo[cat.name]);
      }
      if known.Some? {
        assert exact == [known.value];
      }
      if known.None? || |exact| != 1 || exact[0] != known.value {
        Found(es, kids, exact, cat.name, MainPlace(cat.code), cat.code, parent);
      }
      CodesApart(i);
    }

    lemma CodesApart(i: nat)
      requires i < |cats| && Catalogue(cats)
      ensures forall j :: 0 <= j < |cats| && cats[j].code == cats[i].code ==> j == i
    {
    }

    lemma RenamedMeansSingle(es: Entries, kids: seq<Id>, i: nat)
      requires i < |cats| && Catalogue(cats) && Remembered(es, kids, |cats|)
      ensures cats[i].name in renamedTo <==> LegacyOf(r, es, kids, cats[i]).Single?
      ensures cats[i].name in renamedTo ==> LegacyOf(r, es, kids, cats[i]) == Single(renamedTo[cats[i].name])
    {
      hide LegacyOf, Catalogue;
      if cats[i].name in renamedTo {
        var k :| 0 <= k < |cats| && LegacyOf(r, es, kids, cats[k]).Single? && cats[k].name == cats[i].name;
        SameNameSameLegacy(r, es, kids, cats, i, k);
      }
    }

    /** What the folders of one name lead to: registered, created, or a question. */
    method Found(es: Entries, kids: seq<Id>, exact: seq<Id>, name: string, place: Place, code: string, parent: Ref)
      requires exact == Exacts(r, es, kids, name)
      modifies this`actions, this`reviewed
      ensures var f := FindFolder(r, es, kids, name);
        && actions == old(actions) + FindActions(f, place, code, parent, name)
        && reviewed == old(reviewed) + (if NeedsReview(f) then {code} else {})
    {
      hide Exacts, Spelled, Similar;
      var spelled, similar := Spelled(r, es, kids, name, exact), Similar(r, es, kids, name, exact);
      if |exact| == 1 {
        Add(RegisterFolder(place, exact[0]));
      } else if |exact| > 1 {
        Review(code, SameName, exact);
      } else if |spelled| == 1 && similar == [] {
        Add(RegisterFolder(place, spelled[0]));
      } else if spelled != [] || similar != [] {
        Review(code, SimilarName, spelled + similar);
      } else {
        Add(CreateFolder(place, parent, name));
      }
    }

    // -------------------------------------------------------------- subfolders

    ghost function Mains(es: Entries, kids: seq<Id>, pre: seq<Action>, parent: Ref): seq<Action>
    {
      pre + AllLegacyActions(r, es, kids, cats) + AllMainActions(r, es, kids, Blocked(r, es, kids, cats), parent, cats)
    }

    ghost predicate NamesNone(pre: seq<Action>) {
      forall a, c :: a in pre && 0 <= c < |cats| ==> !NamesMain(a, cats[c].code)
    }

    ghost predicate SubsHeldSoFar(es: Entries, kids: seq<Id>, n: nat)
      reads this`blocked, this`reviewed
    {
      forall j :: 0 <= j < |cats| ==>
        (cats[j].code in reviewed || cats[j].code in blocked
         <==> Held(r, es, kids, blocked, cats[j]) || (j < n && SubsNeedReview(r, es, ParentNode(r, es, kids, cats[j]), cats[j].subs)))
    }

    method Subfolders(es: Entries, kids: seq<Id>, ghost pre: seq<Action>, ghost parent: Ref)
      requires Catalogue(cats) && HeldSoFar(es, kids, |cats|) && blocked == Blocked(r, es, kids, cats)
      requires NamesNone(pre) && actions == Mains(es, kids, pre, parent)
      modifies this`actions, this`reviewed
      ensures actions == Mains(es, kids, pre, parent) + AllSubActions(r, es, kids, blocked, cats)
      ensures SubsHeldSoFar(es, kids, |cats|)
    {
      hide SubActions, Catalogue, Blocked, Held, Mains, SubsNeedReview, NamesNone, ParentNode;
      ghost var held := blocked;
      BlockedIsHeld(es, kids, held);
      ghost var f := (cat: Category) => SubActions(r, es, kids, held, cat);
      for i := 0 to |cats|
        invariant actions == Mains(es, kids, pre, parent) + Gather(cats[..i], f)
        invariant SubsHeldSoFar(es, kids, i)
      {
        GatherMore(cats, f, i);
        SubfoldersOf(es, kids, pre, parent, i);
      }
      assert cats[..|cats|] == cats;
    }

    lemma BlockedIsHeld(es: Entries, kids: seq<Id>, held: set<string>)
      ensures forall j :: 0 <= j < |cats| && cats[j].code in held ==> Held(r, es, kids, held, cats[j])
    {
    }

    method SubfoldersOf(es: Entries, kids: seq<Id>, ghost pre: seq<Action>, ghost parent: Ref, i: nat)
      requires i < |cats| && Catalogue(cats) && blocked == Blocked(r, es, kids, cats) && SubsHeldSoFar(es, kids, i)
      requires NamesNone(pre) && actions == Mains(es, kids, pre, parent) + AllSubActions(r, es, kids, blocked, cats[..i])
      modifies this`actions, this`reviewed
      ensures actions == old(actions) + SubActions(r, es, kids, blocked, cats[i])
      ensures SubsHeldSoFar(es, kids, i + 1)
    {
      hide Catalogue, Blocked, Held, Mains, NamesNone, ParentNode, FindFolder, SubKids, AllSubActions, FirstMain, Exacts, FindActions;
      var cat := cats[i];
      CodesApart(i);
      if cat.code in reviewed || cat.code in blocked { return; }
      var node := PlannedParent(actions, cat.code);
      ParentFound(es, kids, pre, parent, i);
      var subKids := SubKids(r, es, node);
      ghost var f := (sub: Subfolder) => SubAction(r, es, node, cat.code, sub);
      for k := 0 to |cat.subs|
        invariant actions == old(actions) + Gather(cat.subs[..k], f)
        invariant reviewed == old(reviewed)
                  + (if exists j :: 0 <= j < k && NeedsReview(FindFolder(r, es, subKids, cat.subs[j].name)) then {cat.code} else {})
      {
        var sub := cat.subs[k];
        GatherMore(cat.subs, f, k);
        Found(es, subKids, Exacts(r, es, subKids, sub.name), sub.name, SubPlace(cat.code, sub.id), cat.code, SubRef(node, cat.code));
      }
      assert cat.subs[..|cat.subs|] == cat.subs;
    }

    lemma ParentFound(es: Entries, kids: seq<Id>, pre: seq<Action>, parent: Ref, i: nat)
      requires i < |cats| && Catalogue(cats) && !Held(r, es, kids, Blocked(r, es, kids, cats), cats[i]) && NamesNone(pre)
      ensures FirstMain(Mains(es, kids, pre, parent) + AllSubActions(r, es, kids, Blocked(r, es, kids, cats), cats[..i]), cats[i].code)
              == ParentNode(r, es, kids, cats[i])
      ensures FirstMain(Mains(es, kids, pre, parent) + AllSubActions(r, es, kids, Blocked(r, es, kids, cats), cats), cats[i].code)
              == ParentNode(r, es, kids, cats[i])
    {
      hide Catalogue, Blocked, Held, ParentNode, AllSubActions, AllLegacyActions, AllMainActions, NamesMain;
      var blocked := Blocked(r, es, kids, cats);
      var some, all := AllSubActions(r, es, kids, blocked, cats[..i]), AllSubActions(r, es, kids, blocked, cats);
      forall a | a in some ensures !NamesMain(a, cats[i].code) { SubsNameNothing(r, es, kids, blocked, cats[..i], a, cats[i].code); }
      forall a | a in all ensures !NamesMain(a, cats[i].code) { SubsNameNothing(r, es, kids, blocked, cats, a, cats[i].code); }
      ScanFinds(r, es, kids, parent, cats, pre, some, i);
      ScanFinds(r, es, kids, parent, cats, pre, all, i);
    }

    // -------------------------------------------------------------- year folders

    /** The year folders among the subfolders, by year. */
    method ByYear(es: Entries, kids: seq<Id>) returns (years: map<nat, seq<Id>>)
      ensures years.Keys == YearsOf(r, es, kids) && forall y :: y in years ==> years[y] == YearHits(r, es, kids, y)
    {
      hide NameOf, YearHits, YearsOf;
      years := map[];
      NoHitsYet(es, kids);
      for i := 0 to |kids|
        invariant forall y: nat :: YearHits(r, es, kids[..i], y) == if y in years then years[y] else []
        invariant forall y: nat :: y in years ==> years[y] != []
      {
        var year := r.year(NameOf(es, kids[i]));
        forall y: nat ensures YearHits(r, es, kids[..i + 1], y) == YearHits(r, es, kids[..i], y) + (if year == Some(y) then [kids[i]] else []) {
          MoreHits(es, kids, i, y);
        }
        if year.Some? {
          years := years[year.value := (if year.value in years then years[year.value] else []) + [kids[i]]];
        }
      }
      assert kids[..|kids|] == kids;
      forall y: nat ensures y in years <==> y in YearsOf(r, es, kids) {
        SomeHit(es, kids, y);
      }
    }

    lemma NoHitsYet(es: Entries, kids: seq<Id>)
      ensures forall y: nat :: YearHits(r, es, kids[..0], y) == []
    {
    }

    lemma MoreHits(es: Entries, kids: seq<Id>, i: nat, y: nat)
      requires i < |kids|
      ensures YearHits(r, es, kids[..i + 1], y)
              == YearHits(r, es, kids[..i], y) + (if r.year(NameOf(es, kids[i])) == Some(y) then [kids[i]] else [])
    {
      hide NameOf;
      PickMore(kids, (c: Id) => r.year(NameOf(es, c)) == Some(y), i);
    }

    lemma SomeHit(es: Entries, kids: seq<Id>, y: nat)
      ensures YearHits(r, es, kids, y) != [] <==> y in YearsOf(r, es, kids)
    {
      hide NameOf;
      var hits := YearHits(r, es, kids, y);
      if hits != [] { assert hits[0] in hits; }
      if y in YearsOf(r, es, kids) {
        var c :| c in kids && r.year(NameOf(es, c)) == Some(y);
        assert c in hits;
      }
    }

    /** The year folders below the main folder of a category. */
    ghost function YearsBelow(es: Entries, kids: seq<Id>): set<Id> {
      set c | c in kids && r.year(NameOf(es, c)).Some?
    }

    ghost function YearsSeen(es: Entries, kids: seq<Id>, held: set<string>, yearCode: string, n: nat): set<Id>
      requires n <= |cats|
    {
      set j, c | 0 <= j < n && YearsChecked(r, es, kids, held, yearCode, cats[j])
                 && c in SubKids(r, es, ParentNode(r, es, kids, cats[j])) && r.year(NameOf(es, c)).Some? :: c
    }

    method YearFolders(es: Entries, kids: seq<Id>, cfg: Config, ghost pre: seq<Action>, ghost parent: Ref)
      requires cfg.cats == cats && Catalogue(cats) && SubsHeldSoFar(es, kids, |cats|) && blocked == Blocked(r, es, kids, cats)
      requires NamesNone(pre) && actions == Mains(es, kids, pre, parent) + AllSubActions(r, es, kids, blocked, cats)
      requires yearIds == {} && !yearsChecked
      modifies this`actions, this`reviewed, this`yearIds, this`yearsChecked
      ensures actions == old(actions) + AllYearActions(r, es, kids, blocked, cfg.yearCode, cats)
      ensures yearIds == YearIds(r, es, cfg, kids) && yearsChecked == AnyYearsChecked(r, es, cfg, kids)
    {
      hide YearActions, Catalogue, Blocked, Held, Mains, SubsNeedReview, NamesNone, ParentNode, AllSubActions, SubKids, YearsChecked, NameOf;
      ghost var held, before := blocked, actions;
      ghost var f := (cat: Category) => YearActions(r, es, kids, held, cfg.yearCode, cat);
      for i := 0 to |cats|
        invariant actions == before + Gather(cats[..i], f)
        invariant yearIds == YearsSeen(es, kids, held, cfg.yearCode, i)
        invariant yearsChecked <==> exists j :: 0 <= j < i && YearsChecked(r, es, kids, held, cfg.yearCode, cats[j])
        invariant forall j :: i <= j < |cats| && cats[j].code == cfg.yearCode ==> actions == before && reviewed == old(reviewed)
      {
        GatherMore(cats, f, i);
        CodesApart(i);
        ghost var checked := YearsChecked(r, es, kids, held, cfg.yearCode, cats[i]);
        YearFoldersOf(es, kids, cfg.yearCode, pre, parent, i);
        SeenMore(es, kids, held, cfg.yearCode, i);
      }
      assert cats[..|cats|] == cats;
    }

    lemma SeenMore(es: Entries, kids: seq<Id>, held: set<string>, yearCode: string, i: nat)
      requires i < |cats|
      ensures YearsSeen(es, kids, held, yearCode, i + 1) == YearsSeen(es, kids, held, yearCode, i)
              + (if YearsChecked(r, es, kids, held, yearCode, cats[i]) then YearsBelow(es, SubKids(r, es, ParentNode(r, es, kids, cats[i]))) else {})
    {
      hide YearsChecked, SubKids, ParentNode, NameOf;
    }

    method YearFoldersOf(es: Entries, kids: seq<Id>, yearCode: string, ghost pre: seq<Action>, ghost parent: Ref, i: nat)
      requires i < |cats| && Catalogue(cats) && blocked == Blocked(r, es, kids, cats)
      requires cats[i].code == yearCode ==>
        SubsHeldSoFar(es, kids, |cats|) && NamesNone(pre) && actions == Mains(es, kids, pre, parent) + AllSubActions(r, es, kids, blocked, cats)
      modifies this`actions, this`reviewed, this`yearIds, this`yearsChecked
      ensures actions == old(actions) + YearActions(r, es, kids, blocked, yearCode, cats[i])
      ensures cats[i].code != yearCode ==> actions == old(actions) && reviewed == old(reviewed)
      ensures yearIds == old(yearIds) + (if YearsChecked(r, es, kids, blocked, yearCode, cats[i])
                                         then YearsBelow(es, SubKids(r, es, ParentNode(r, es, kids, cats[i]))) else {})
      ensures yearsChecked <==> old(yearsChecked) || YearsChecked(r, es, kids, blocked, yearCode, cats[i])
    {
      hide Catalogue, Blocked, Held, Mains, SubsNeedReview, NamesNone, ParentNode, AllSubActions, SubKids, NameOf, FirstMain;
      var cat := cats[i];
      if cat.code != yearCode || cat.code in reviewed || cat.code in blocked { return; }
      var node := PlannedParent(actions, cat.code);
      ParentFound(es, kids, pre, parent, i);
      if node.None? { return; }
      var subKids := SubKids(r, es, node);
      yearsChecked := true;
      RegisterYears(es, subKids, cat.code);
    }

    method RegisterYears(es: Entries, kids: seq<Id>, code: string)
      modifies this`actions, this`reviewed, this`yearIds
      ensures actions == old(actions) + Gather(SortedYears(YearsOf(r, es, kids)), (y: nat) => YearAction(r, es, kids, code, y))
      ensures yearIds == old(yearIds) + YearsBelow(es, kids)
    {
      hide NameOf, YearHits, YearsOf, SortedYears, YearAction, YearsBelow;
      var years := ByYear(es, kids);
      var order := SortedYears(years.Keys);
      ghost var f := (y: nat) => YearAction(r, es, kids, code, y);
      for k := 0 to |order|
        invariant actions == old(actions) + Gather(order[..k], f)
        invariant forall c :: c in yearIds <==> c in old(yearIds) || exists j :: 0 <= j < k && c in YearHits(r, es, kids, order[j])
      {
        GatherMore(order, f, k);
        SortedIn(years.Keys, k);
        RegisterYear(es, kids, code, order[k], years[order[k]]);
      }
      assert order[..|order|] == order;
      forall c ensures c in YearsBelow(es, kids) <==> exists j :: 0 <= j < |order| && c in YearHits(r, es, kids, order[j]) {
        HitsCover(es, kids, order, c);
      }
    }

    lemma SortedIn(years: set<nat>, k: nat)
      requires k < |SortedYears(years)|
      ensures SortedYears(years)[k] in years
    {
    }

    method RegisterYear(es: Entries, kids: seq<Id>, code: string, y: nat, hits: seq<Id>)
      requires hits == YearHits(r, es, kids, y)
      modifies this`actions, this`reviewed, this`yearIds
      ensures actions == old(actions) + YearAction(r, es, kids, code, y)
      ensures forall c :: c in yearIds <==> c in old(yearIds) || c in hits
    {
      hide YearHits;
      yearIds := yearIds + (set c | c in hits);
      if |hits| > 1 { Review(code, SameName, hits); } else if |hits| == 1 { Add(RegisterFolder(YearPlace(code, y), hits[0])); }
    }

    lemma HitsCover(es: Entries, kids: seq<Id>, order: seq<nat>, c: Id)
      requires order == SortedYears(YearsOf(r, es, kids))
      ensures c in YearsBelow(es, kids) <==> exists j :: 0 <= j < |order| && c in YearHits(r, es, kids, order[j])
    {
      hide NameOf;
      if c in YearsBelow(es, kids) {
        var y := r.year(NameOf(es, c)).value;
        assert y in YearsOf(r, es, kids);
        var j :| 0 <= j < |order| && order[j] == y;
        assert c in YearHits(r, es, kids, order[j]);
      }
    }

    // -------------------------------------------------------------- the whole plan

    method FolderSteps(es: Entries, kids: seq<Id>, cfg: Config, parent: Ref)
      requires cfg.cats == cats && Catalogue(cats) && NamesNone(actions)
      requires blocked == {} && reviewed == {} && renamedTo == map[] && yearIds == {} && !yearsChecked
      modifies this
      ensures actions == old(actions) + FolderActions(r, es, cfg, kids, parent)
      ensures blocked == Blocked(r, es, kids, cats)
      ensures yearIds == YearIds(r, es, cfg, kids) && yearsChecked == AnyYearsChecked(r, es, cfg, kids)
    {
      hide Catalogue, Blocked, NamesNone, AllLegacyActions, AllMainActions, AllSubActions, AllYearActions, YearIds, AnyYearsChecked,
           HeldSoFar, SubsHeldSoFar, Remembered;
      ghost var pre := actions;
      OldNames(es, kids);
      MainFolders(es, kids, parent);
      Subfolders(es, kids, pre, parent);
      YearFolders(es, kids, cfg, pre, parent);
    }
  }

  /** In a folder that does not exist yet nothing is blocked and no year folder is looked for. */
  lemma NothingThere(r: Rules, es: Entries, cfg: Config)
    ensures Blocked(r, es, [], cfg.cats) == {} && YearIds(r, es, cfg, []) == {} && !AnyYearsChecked(r, es, cfg, [])
  {
    forall code ensures code !in Blocked(r, es, [], cfg.cats) {
      BlockedMember(r, es, [], cfg.cats, code);
      assert forall k :: 0 <= k < |cfg.cats| ==> LegacyBlocks(r, es, [], cfg.cats[k]) == {};
    }
    hide Blocked, Held, SubsNeedReview;
    forall k | 0 <= k < |cfg.cats| ensures !YearsChecked(r, es, [], Blocked(r, es, [], cfg.cats), cfg.yearCode, cfg.cats[k]) {
      assert ParentNode(r, es, [], cfg.cats[k]).None?;
    }
  }

  /** Nothing is written: the drive is only read. */
  method PlanObject(drive: InMemoryDrive, r: Rules, cfg: Config, t: Target) returns (plan: Option<Plan>)
    requires Catalogue(cfg.cats)
    ensures plan == MakePlan(r, drive.entries, cfg, t)
  {
    hide FolderActions, Blocked, YearIds, AnyYearsChecked, FindRootFolder, Catalogue, FolderKids;
    var es := drive.entries;
    if !IsFolder(es, cfg.root) || es[cfg.root].trashed { return None; }
    var p := new Planner(r, cfg.cats);
    match FindRootFolder(r, es, cfg.root, t) {
      case RootUnclear(key, candidates) =>
        if key.subtype == FolderMissing {
          p.Add(FindRoot);
          p.Add(OpenReview(key, candidates));
        } else {
          p.Add(OpenReview(key, candidates));
          p.Add(FindRoot);
        }
        assert p.actions == UnclearActions(key, candidates);
        plan := Some(Plan(p.actions, None, p.blocked, p.yearIds, p.yearsChecked));
      case RootFound(node) =>
        p.Add(FindRoot);
        assert p.actions == [FindRoot];
        p.FolderSteps(es, FolderKids(r, es, node), cfg, ById(node));
        plan := Some(Plan(p.actions, Some(node), p.blocked, p.yearIds, p.yearsChecked));
      case RootAbsent =>
        if t.newName.None? || r.number(t.newName.value) != Some(t.number) { return None; }
        p.Add(FindRoot);
        p.Add(CreateFolder(RootPlace, ById(cfg.root), t.newName.value));
        assert p.actions == [FindRoot, CreateFolder(RootPlace, ById(cfg.root), t.newName.value)];
        p.FolderSteps(es, [], cfg, NewRoot);
        NothingThere(r, es, cfg);
        plan := Some(Plan(p.actions, None, p.blocked, p.yearIds, p.yearsChecked));
    }
  }
}
