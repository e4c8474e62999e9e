/** How the listings change when a plan is carried out: a folder gains what was planned for it, a category's folder
  * gets the catalogue name, and what every category finds afterwards follows from that. */
module ReconcileGrowth {
  import opened Wrappers
  import opened Drive
  import opened Sorting
  import opened Tree
  import opened FileCount
  import opened ReconcilePlan
  import opened ReconcileRun
  import opened ReconcileSafety
  import opened ReconcileBuild
  import opened ReconcileCatalogue
  import opened ReconcileConsistent

  // ---------------------------------------------------------------- two listings compared

  ghost predicate Listing(r: Rules, es: Entries, kids: seq<Id>) {
    IsSorted(EntryKey(es, r.key), kids) && forall q :: q in kids ==> q in es
  }

  /** The names that satisfy `p` belong to the same folders in both listings. */
  ghost predicate SameNames(es: Entries, kids: seq<Id>, es2: Entries, kids2: seq<Id>, p: string -> bool) {
    && (forall q: Id :: q in kids && p(NameOf(es, q)) <==> q in kids2 && p(NameOf(es2, q)))
    && (forall q: Id :: q in kids && p(NameOf(es, q)) ==> NameOf(es2, q) == NameOf(es, q))
  }

  lemma SamePick(r: Rules, es: Entries, kids: seq<Id>, es2: Entries, kids2: seq<Id>, p: Id -> bool, p2: Id -> bool)
    requires Listing(r, es, kids) && Listing(r, es2, kids2)
    requires forall q: Id :: q in kids && p(q) <==> q in kids2 && p2(q)
    requires forall q: Id :: q in kids && p(q) ==> NameOf(es2, q) == NameOf(es, q)
    ensures Pick(kids, p) == Pick(kids2, p2)
  {
    PickSorted(EntryKey(es, r.key), kids, p);
    PickSorted(EntryKey(es2, r.key), kids2, p2);
    SortedOnce(EntryKey(es, r.key), EntryKey(es2, r.key), Pick(kids, p), Pick(kids2, p2));
  }

  lemma OnlyPick(r: Rules, es: Entries, kids: seq<Id>, p: Id -> bool, n: Id)
    requires Listing(r, es, kids) && n in kids && p(n) && forall q: Id :: q in kids && p(q) ==> q == n
    ensures Pick(kids, p) == [n]
  {
    PickSorted(EntryKey(es, r.key), kids, p);
    SortedOnce(EntryKey(es, r.key), EntryKey(es, r.key), Pick(kids, p), [n]);
  }

  lemma NoPick(kids: seq<Id>, p: Id -> bool)
    requires forall q: Id :: q in kids ==> !p(q)
    ensures Pick(kids, p) == []
  {
    if Pick(kids, p) != [] {
      HeadIn(Pick(kids, p));
      assert false;
    }
  }

  lemma ExactsSame(r: Rules, es: Entries, kids: seq<Id>, es2: Entries, kids2: seq<Id>, name: string)
    requires Listing(r, es, kids) && Listing(r, es2, kids2)
    requires forall q: Id :: q in kids && r.nfc(NameOf(es, q)) == r.nfc(name) <==> q in kids2 && r.nfc(NameOf(es2, q)) == r.nfc(name)
    requires forall q: Id :: q in kids && r.nfc(NameOf(es, q)) == r.nfc(name) ==> NameOf(es2, q) == NameOf(es, q)
    ensures Exacts(r, es2, kids2, name) == Exacts(r, es, kids, name)
  {
    SamePick(r, es, kids, es2, kids2, (c: Id) => r.nfc(NameOf(es, c)) == r.nfc(name), (c: Id) => r.nfc(NameOf(es2, c)) == r.nfc(name));
  }

  lemma AliasedSame(r: Rules, es: Entries, kids: seq<Id>, es2: Entries, kids2: seq<Id>, aliases: seq<string>)
    requires Listing(r, es, kids) && Listing(r, es2, kids2) && SameNames(es, kids, es2, kids2, n => IsAlias(r, aliases, n))
    ensures Aliased(r, es2, kids2, aliases) == Aliased(r, es, kids, aliases)
  {
    hide Listing, IsAlias;
    forall q: Id ensures q in kids && IsAlias(r, aliases, NameOf(es, q)) <==> q in kids2 && IsAlias(r, aliases, NameOf(es2, q)) {
      var p := n => IsAlias(r, aliases, n);
      assert q in kids && p(NameOf(es, q)) <==> q in kids2 && p(NameOf(es2, q));
    }
    SamePick(r, es, kids, es2, kids2, (c: Id) => IsAlias(r, aliases, NameOf(es, c)), (c: Id) => IsAlias(r, aliases, NameOf(es2, c)));
  }

  lemma SpelledSame(r: Rules, es: Entries, kids: seq<Id>, es2: Entries, kids2: seq<Id>, name: string, exact: seq<Id>)
    requires Listing(r, es, kids) && Listing(r, es2, kids2) && SameNames(es, kids, es2, kids2, n => Resembles(r, name, n))
    ensures Spelled(r, es2, kids2, name, exact) == Spelled(r, es, kids, name, exact)
  {
    hide Listing, LooseMatch;
    ByResemblance(r, es, kids, es2, kids2, name);
    SamePick(r, es, kids, es2, kids2, (c: Id) => c !in exact && Norm(r, NameOf(es, c)) == Norm(r, name),
             (c: Id) => c !in exact && Norm(r, NameOf(es2, c)) == Norm(r, name));
  }

  lemma SimilarSame(r: Rules, es: Entries, kids: seq<Id>, es2: Entries, kids2: seq<Id>, name: string, exact: seq<Id>)
    requires Listing(r, es, kids) && Listing(r, es2, kids2) && SameNames(es, kids, es2, kids2, n => Resembles(r, name, n))
    ensures Similar(r, es2, kids2, name, exact) == Similar(r, es, kids, name, exact)
  {
    hide Listing, LooseMatch, Norm;
    ByResemblance(r, es, kids, es2, kids2, name);
    SamePick(r, es, kids, es2, kids2,
             (c: Id) => c !in exact && Norm(r, NameOf(es, c)) != Norm(r, name) && LooseMatch(r, NameOf(es, c), name),
             (c: Id) => c !in exact && Norm(r, NameOf(es2, c)) != Norm(r, name) && LooseMatch(r, NameOf(es2, c), name));
  }

  lemma ByResemblance(r: Rules, es: Entries, kids: seq<Id>, es2: Entries, kids2: seq<Id>, name: string)
    requires SameNames(es, kids, es2, kids2, n => Resembles(r, name, n))
    ensures forall q: Id :: q in kids && Resembles(r, name, NameOf(es, q)) <==> q in kids2 && Resembles(r, name, NameOf(es2, q))
    ensures forall q: Id :: q in kids && Resembles(r, name, NameOf(es, q)) ==> NameOf(es2, q) == NameOf(es, q)
  {
    hide Resembles;
    var p := n => Resembles(r, name, n);
    forall q: Id
      ensures q in kids && Resembles(r, name, NameOf(es, q)) <==> q in kids2 && Resembles(r, name, NameOf(es2, q))
      ensures q in kids && Resembles(r, name, NameOf(es, q)) ==> NameOf(es2, q) == NameOf(es, q)
    {
      assert q in kids && p(NameOf(es, q)) <==> q in kids2 && p(NameOf(es2, q));
    }
  }

  /** Where the folders that resemble a name are the same, the name finds the same. */
  lemma FindSame(r: Rules, es: Entries, kids: seq<Id>, es2: Entries, kids2: seq<Id>, name: string)
    requires Listing(r, es, kids) && Listing(r, es2, kids2) && SameNames(es, kids, es2, kids2, n => Resembles(r, name, n))
    ensures FindFolder(r, es2, kids2, name) == FindFolder(r, es, kids, name)
  {
    hide Listing, LooseMatch, Norm, Exacts, Spelled, Similar;
    ByResemblance(r, es, kids, es2, kids2, name);
    ExactsSame(r, es, kids, es2, kids2, name);
    var exact := Exacts(r, es, kids, name);
    SpelledSame(r, es, kids, es2, kids2, name, exact);
    SimilarSame(r, es, kids, es2, kids2, name, exact);
  }

  /** The only folder of exactly that name is found. */
  lemma FindOnly(r: Rules, es: Entries, kids: seq<Id>, name: string, n: Id)
    requires Listing(r, es, kids) && n in kids && r.nfc(NameOf(es, n)) == r.nfc(name)
    requires forall q :: q in kids && q != n ==> r.nfc(NameOf(es, q)) != r.nfc(name)
    ensures Exacts(r, es, kids, name) == [n]
    ensures FindFolder(r, es, kids, name) == One(n)
  {
    hide Listing, Spelled, Similar;
    OnlyPick(r, es, kids, (c: Id) => r.nfc(NameOf(es, c)) == r.nfc(name), n);
  }

  lemma LegacySame(r: Rules, es: Entries, kids: seq<Id>, es2: Entries, kids2: seq<Id>, cat: Category)
    requires Listing(r, es, kids) && Listing(r, es2, kids2)
    requires SameNames(es, kids, es2, kids2, n => Resembles(r, cat.name, n)) && SameNames(es, kids, es2, kids2, n => IsAlias(r, cat.aliases, n))
    ensures LegacyOf(r, es2, kids2, cat) == LegacyOf(r, es, kids, cat)
  {
    hide Listing, LooseMatch, Norm, Exacts, Aliased, IsAlias;
    ByResemblance(r, es, kids, es2, kids2, cat.name);
    ExactsSame(r, es, kids, es2, kids2, cat.name);
    AliasedSame(r, es, kids, es2, kids2, cat.aliases);
  }

  lemma YearHitsSame(r: Rules, es: Entries, kids: seq<Id>, es2: Entries, kids2: seq<Id>, y: nat)
    requires Listing(r, es, kids) && Listing(r, es2, kids2) && SameNames(es, kids, es2, kids2, n => r.year(n) == Some(y))
    ensures YearHits(r, es2, kids2, y) == YearHits(r, es, kids, y)
  {
    hide Listing;
    var p := n => r.year(n) == Some(y);
    forall q: Id ensures q in kids && r.year(NameOf(es, q)) == Some(y) <==> q in kids2 && r.year(NameOf(es2, q)) == Some(y) {
      assert q in kids && p(NameOf(es, q)) <==> q in kids2 && p(NameOf(es2, q));
    }
    SamePick(r, es, kids, es2, kids2, (c: Id) => r.year(NameOf(es, c)) == Some(y), (c: Id) => r.year(NameOf(es2, c)) == Some(y));
  }

  // ---------------------------------------------------------------- a listing that has grown

  /** `kids2` is `kids` with the folders `own[k]`, which now bear `names[k]`; nothing else got another name. */
  ghost predicate Grown(r: Rules, es: Entries, kids: seq<Id>, es2: Entries, kids2: seq<Id>, names: seq<string>, own: seq<Option<Id>>) {
    && Listing(r, es, kids) && Listing(r, es2, kids2) && |own| == |names|
    && (forall q: Id :: q in kids2 <==> q in kids || Some(q) in own)
    && (forall k :: 0 <= k < |own| && own[k].Some? ==> NameOf(es2, own[k].value) == names[k])
    && (forall q: Id :: q in kids && Some(q) !in own ==> NameOf(es2, q) == NameOf(es, q))
  }

  /** Whatever is true of no written name, old or new, is true of the same folders as before. */
  lemma GrownElsewhere(r: Rules, es: Entries, kids: seq<Id>, es2: Entries, kids2: seq<Id>, names: seq<string>, own: seq<Option<Id>>,
                       p: string -> bool)
    requires Grown(r, es, kids, es2, kids2, names, own)
    requires forall k :: 0 <= k < |own| && own[k].Some? ==> !p(names[k]) && (own[k].value in kids ==> !p(NameOf(es, own[k].value)))
    ensures SameNames(es, kids, es2, kids2, p)
  {
    hide Listing, NameOf;
    forall q: Id
      ensures q in kids && p(NameOf(es, q)) <==> q in kids2 && p(NameOf(es2, q))
      ensures q in kids && p(NameOf(es, q)) ==> NameOf(es2, q) == NameOf(es, q)
    {
      if Some(q) in own {
        var k :| 0 <= k < |own| && own[k] == Some(q);
        assert !p(names[k]);
      }
    }
  }

  // ---------------------------------------------------------------- the main folders

  /** The folder that the plan renames or creates for a category, if any. */
  ghost predicate Written(r: Rules, es: Entries, kids: seq<Id>, blocked: set<string>, cat: Category) {
    LegacyOf(r, es, kids, cat).Single? || MainMissing(r, es, kids, blocked, cat)
  }

  function CatNames(cats: seq<Category>): (names: seq<string>)
    ensures |names| == |cats| && forall c :: 0 <= c < |cats| ==> names[c] == cats[c].name
  {
    seq(|cats|, c requires 0 <= c < |cats| => cats[c].name)
  }

  /** The object folder after the main folders were renamed and created. */
  ghost predicate MainsGrown(r: Rules, es: Entries, kids: seq<Id>, es2: Entries, kids2: seq<Id>, cfg: Config, own: seq<Option<Id>>) {
    && Grown(r, es, kids, es2, kids2, CatNames(cfg.cats), own)
    && forall c :: 0 <= c < |own| ==>
         && (own[c].Some? <==> Written(r, es, kids, Blocked(r, es, kids, cfg.cats), cfg.cats[c]))
         && (own[c].Some? ==> if LegacyOf(r, es, kids, cfg.cats[c]).Single?
                              then LegacyOf(r, es, kids, cfg.cats[c]) == Single(own[c].value) else own[c].value !in kids)
  }

  predicate SelfAliased(r: Rules, cat: Category) {
    IsAlias(r, cat.aliases, cat.name)
  }

  /** The old and the new name of a folder written for another category mean nothing to this one. */
  lemma OthersForeign(r: Rules, es: Entries, kids: seq<Id>, es2: Entries, kids2: seq<Id>, cfg: Config, own: seq<Option<Id>>, c: nat, d: nat)
    requires Separate(r, cfg) && MainsGrown(r, es, kids, es2, kids2, cfg, own) && c < |own| && d < |own| && c != d && own[d].Some?
    ensures !Touches(r, cfg.cats[c], cfg.cats[d].name)
    ensures own[d].value in kids ==> !Touches(r, cfg.cats[c], NameOf(es, own[d].value))
  {
    hide Touches, LegacyOf, Written, Listing;
    assert Foreign(r, cfg.cats[d], cfg.cats[c]);
    if own[d].value in kids { SingleIs(r, es, kids, cfg.cats[d]); }
  }

  /** A category without a written folder sees what it saw before. */
  lemma Unwritten(r: Rules, es: Entries, kids: seq<Id>, es2: Entries, kids2: seq<Id>, cfg: Config, own: seq<Option<Id>>, c: nat)
    requires Separate(r, cfg) && MainsGrown(r, es, kids, es2, kids2, cfg, own) && c < |own| && own[c].None?
    ensures SameNames(es, kids, es2, kids2, n => Touches(r, cfg.cats[c], n))
    ensures LegacyOf(r, es2, kids2, cfg.cats[c]) == LegacyOf(r, es, kids, cfg.cats[c])
    ensures FindFolder(r, es2, kids2, cfg.cats[c].name) == FindFolder(r, es, kids, cfg.cats[c].name)
  {
    hide Touches, LegacyOf, FindFolder, Written, Grown, Separate, Listing;
    GrownLists(r, es, kids, es2, kids2, CatNames(cfg.cats), own);
    var cat := cfg.cats[c];
    forall d | 0 <= d < |own| && own[d].Some?
      ensures !Touches(r, cat, CatNames(cfg.cats)[d]) && (own[d].value in kids ==> !Touches(r, cat, NameOf(es, own[d].value)))
    {
      OthersForeign(r, es, kids, es2, kids2, cfg, own, c, d);
    }
    GrownElsewhere(r, es, kids, es2, kids2, CatNames(cfg.cats), own, n => Touches(r, cat, n));
    Narrower(r, es, kids, es2, kids2, cat);
    LegacySame(r, es, kids, es2, kids2, cat);
    FindSame(r, es, kids, es2, kids2, cat.name);
  }

  lemma GrownLists(r: Rules, es: Entries, kids: seq<Id>, es2: Entries, kids2: seq<Id>, names: seq<string>, own: seq<Option<Id>>)
    requires Grown(r, es, kids, es2, kids2, names, own)
    ensures Listing(r, es, kids) && Listing(r, es2, kids2) && |own| == |names|
  {
  }

  lemma Narrower(r: Rules, es: Entries, kids: seq<Id>, es2: Entries, kids2: seq<Id>, cat: Category)
    requires SameNames(es, kids, es2, kids2, n => Touches(r, cat, n))
    ensures SameNames(es, kids, es2, kids2, n => Resembles(r, cat.name, n))
    ensures SameNames(es, kids, es2, kids2, n => IsAlias(r, cat.aliases, n))
  {
    hide Resembles, IsAlias;
    var p := n => Touches(r, cat, n);
    forall q: Id
      ensures q in kids && Touches(r, cat, NameOf(es, q)) <==> q in kids2 && Touches(r, cat, NameOf(es2, q))
      ensures q in kids && Touches(r, cat, NameOf(es, q)) ==> NameOf(es2, q) == NameOf(es, q)
    {
      assert q in kids && p(NameOf(es, q)) <==> q in kids2 && p(NameOf(es2, q));
    }
  }

  lemma LegacyOnly(r: Rules, es: Entries, kids: seq<Id>, cat: Category, n: Id)
    requires Listing(r, es, kids) && n in kids && NameOf(es, n) == cat.name
    requires forall q :: q in kids && q != n ==> r.nfc(NameOf(es, q)) != r.nfc(cat.name) && !IsAlias(r, cat.aliases, NameOf(es, q))
    ensures LegacyOf(r, es, kids, cat) == if SelfAliased(r, cat) then Beside([n], [n]) else NoLegacy
    ensures FindFolder(r, es, kids, cat.name) == One(n)
  {
    hide Listing, IsAlias, FindFolder, Exacts;
    FindOnly(r, es, kids, cat.name, n);
    if SelfAliased(r, cat) {
      OnlyPick(r, es, kids, (c: Id) => IsAlias(r, cat.aliases, NameOf(es, c)), n);
    } else {
      NoPick(kids, (c: Id) => IsAlias(r, cat.aliases, NameOf(es, c)));
    }
  }

  lemma MissingUnused(r: Rules, es: Entries, kids: seq<Id>, cats: seq<Category>, c: nat)
    requires c < |cats| && MainMissing(r, es, kids, Blocked(r, es, kids, cats), cats[c])
    ensures LegacyOf(r, es, kids, cats[c]).NoLegacy?
  {
    hide LegacyOf, FindFolder, Blocked;
    BlockedMember(r, es, kids, cats, cats[c].code);
  }

  lemma NotAlias(r: Rules, es: Entries, kids: seq<Id>, cat: Category, q: Id)
    requires q in kids && (LegacyOf(r, es, kids, cat).NoLegacy? || LegacyOf(r, es, kids, cat).Single?)
    requires LegacyOf(r, es, kids, cat) != Single(q)
    ensures !IsAlias(r, cat.aliases, NameOf(es, q))
    ensures LegacyOf(r, es, kids, cat).Single? ==> r.nfc(NameOf(es, q)) != r.nfc(cat.name)
  {
    ExactIs(r, es, kids, cat.name, q);
    AliasedIs(r, es, kids, cat.aliases, q);
    hide IsAlias, Exacts, Aliased;
    var former := Aliased(r, es, kids, cat.aliases);
    if |former| == 1 { assert former == [former[0]]; }
  }

  /** Before the write no folder had the catalogue name, and none but the written one an old name. */
  lemma NoRival(r: Rules, es: Entries, kids: seq<Id>, cats: seq<Category>, c: nat, q: Id)
    requires c < |cats| && Written(r, es, kids, Blocked(r, es, kids, cats), cats[c])
    requires q in kids && LegacyOf(r, es, kids, cats[c]) != Single(q)
    ensures r.nfc(NameOf(es, q)) != r.nfc(cats[c].name) && !IsAlias(r, cats[c].aliases, NameOf(es, q))
  {
    hide FindFolder, LegacyOf, IsAlias, Blocked;
    if !LegacyOf(r, es, kids, cats[c]).Single? {
      MissingUnused(r, es, kids, cats, c);
      AbsentIff(r, es, kids, cats[c].name);
    }
    NotAlias(r, es, kids, cats[c], q);
  }

  /** The written folder is the only one the category finds, and it is taken for an old one as well exactly when the
    * catalogue lists the category's own name among its old names. */
  lemma WrittenFound(r: Rules, es: Entries, kids: seq<Id>, es2: Entries, kids2: seq<Id>, cfg: Config, own: seq<Option<Id>>, c: nat)
    requires Separate(r, cfg) && MainsGrown(r, es, kids, es2, kids2, cfg, own) && c < |own| && own[c].Some?
    ensures var n := own[c].value;
      && LegacyOf(r, es2, kids2, cfg.cats[c]) == (if SelfAliased(r, cfg.cats[c]) then Beside([n], [n]) else NoLegacy)
      && FindFolder(r, es2, kids2, cfg.cats[c].name) == One(n)
  {
    var cat, n := cfg.cats[c], own[c].value;
    hide LegacyOf, FindFolder, Written, Separate, Listing, IsAlias, MainMissing;
    assert own[c] in own;
    forall q | q in kids2 && q != n ensures r.nfc(NameOf(es2, q)) != r.nfc(cat.name) && !IsAlias(r, cat.aliases, NameOf(es2, q)) {
      if Some(q) in own {
        var d :| 0 <= d < |own| && own[d] == Some(q);
        OthersForeign(r, es, kids, es2, kids2, cfg, own, c, d);
      } else {
        NoRival(r, es, kids, cfg.cats, c, q);
      }
    }
    LegacyOnly(r, es2, kids2, cat, n);
  }
}
