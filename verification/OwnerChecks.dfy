/** The extra checks for owner documents (src/apps/classification/decide.py, _groups and owner_checks): which owner file a
  * document goes to, or which question is asked instead. What the database holds enters as functions. */
module OwnerChecks {
  import opened Wrappers

  datatype Period = Period(year: Option<nat>, dated: bool, document: bool)

  predicate HasPeriod(p: Period) { p.year.Some? || p.dated }

  /** An owner holds a unit for a time; no date means open. */
  datatype Assignment = Assignment(pk: nat, owner: nat, unit: nat, from: Option<int>, until: Option<int>)

  datatype Status = Confirmed | Suggested

  datatype Link = Link(owner: nat, unit: Option<nat>, assignment: Option<nat>, file: nat, subfolder: Option<string>, documentType: Option<string>,
                       pages: Option<(int, int)>, confidence: real, status: Status, primary: bool)

  datatype CaseKind = OwnerCandidates | Unclear | MoveProposal | MissingMetadata

  /** `file` is the owner file a case names, `misc` the subfolder of 06 the document waits in. */
  datatype Case = Case(kind: CaseKind, subtype: string, file: Option<nat>, misc: Option<string>, informational: bool, pages: Option<(int, int)>)

  datatype Parties = Parties(
    candidates: (nat, Period) -> seq<Assignment>,
    active: nat -> seq<Assignment>,
    ofOwners: (seq<nat>, Period) -> seq<Assignment>,
    fileFor: (nat, seq<Assignment>) -> nat,
    fileUnknownUnit: nat -> nat,
    fileUnassigned: nat)

  predicate IsOwnership(documentType: Option<string>) {
    documentType.Some? && documentType.value in {"kaufvertrag", "veraeusserungsanzeige", "mitteilung_eigentumswechsel",
                                                 "uebergang_nutzen_lasten", "verwalterzustimmung", "veraeusserungszustimmung"}
  }

  // ---------------------------------------------------------------- owner groups

  type Key = (Option<int>, Option<int>)

  function KeyOf(a: Assignment): Key { (a.from, a.until) }

  /** Open ends sort as the first and the last day there is. */
  predicate KeyBefore(low: int, high: int, a: Key, b: Key) {
    var x, y := if a.0.Some? then a.0.value else low, if b.0.Some? then b.0.value else low;
    var u, v := if a.1.Some? then a.1.value else high, if b.1.Some? then b.1.value else high;
    x < y || (x == y && u <= v)
  }

  const FIRST_DAY := 1
  const LAST_DAY := 3652059

  function GroupOf(all: seq<Assignment>, k: Key): (g: seq<Assignment>)
    ensures forall a :: a in g <==> a in all && KeyOf(a) == k
  {
    if all == [] then []
    else GroupOf(all[..|all| - 1], k) + (if KeyOf(all[|all| - 1]) == k then [all[|all| - 1]] else [])
  }

  /** The periods in the order they first occur. */
  function Keys(all: seq<Assignment>): (ks: seq<Key>)
    ensures forall k :: k in ks <==> exists a :: a in all && KeyOf(a) == k
    ensures forall i, j :: 0 <= i < j < |ks| ==> ks[i] != ks[j]
  {
    if all == [] then []
    else
      var before, k := Keys(all[..|all| - 1]), KeyOf(all[|all| - 1]);
      assert all == all[..|all| - 1] + [all[|all| - 1]];
      if k in before then before else before + [k]
  }

  function InsertKey(k: Key, ks: seq<Key>): (r: seq<Key>)
    ensures multiset(r) == multiset(ks) + multiset{k}
  {
    if ks == [] then [k]
    else if KeyBefore(FIRST_DAY, LAST_DAY, ks[0], k) then assert ks == [ks[0]] + ks[1..]; [ks[0]] + InsertKey(k, ks[1..])
    else [k] + ks
  }

  function SortKeys(ks: seq<Key>): (r: seq<Key>)
    ensures multiset(r) == multiset(ks)
  {
    if ks == [] then [] else assert ks == ks[..|ks| - 1] + [ks[|ks| - 1]]; InsertKey(ks[|ks| - 1], SortKeys(ks[..|ks| - 1]))
  }

  /** Assignments of the same period are one group. */
  function Groups(all: seq<Assignment>): (groups: seq<seq<Assignment>>)
    ensures |groups| == |SortKeys(Keys(all))|
    ensures forall g :: 0 <= g < |groups| ==> groups[g] == GroupOf(all, SortKeys(Keys(all))[g])
  {
    var ks := SortKeys(Keys(all));
    seq(|ks|, g requires 0 <= g < |ks| => GroupOf(all, ks[g]))
  }

  method BuildGroups(all: seq<Assignment>) returns (groups: seq<seq<Assignment>>)
    ensures groups == Groups(all)
  {
    hide GroupOf, Keys, SortKeys;
    var order, byKey := CollectGroups(all);
    var sorted := SortKeys(order);
    groups := [];
    for g := 0 to |sorted|
      invariant |groups| == g && forall j :: 0 <= j < g ==> groups[j] == GroupOf(all, sorted[j])
    {
      assert sorted[g] in multiset(sorted);
      groups := groups + [byKey[sorted[g]]];
    }
  }

  method CollectGroups(all: seq<Assignment>) returns (order: seq<Key>, byKey: map<Key, seq<Assignment>>)
    ensures order == Keys(all)
    ensures forall k :: k in order ==> k in byKey && byKey[k] == GroupOf(all, k)
  {
    hide GroupOf, Keys;
    order, byKey := [], map[];
    NothingCollected();
    for i := 0 to |all|
      invariant order == Keys(all[..i])
      invariant forall k :: k in byKey <==> k in order
      invariant forall k :: k in order ==> byKey[k] == GroupOf(all[..i], k)
    {
      var a := all[i];
      var k := KeyOf(a);
      OneMoreAssignment(all, i);
      if k !in byKey {
        NoneYet(all[..i], k);
        byKey := byKey[k := []];
        order := order + [k];
      }
      byKey := byKey[k := byKey[k] + [a]];
    }
    assert all[..|all|] == all;
  }

  lemma NothingCollected()
    ensures Keys([]) == []
  {
  }

  lemma OneMoreAssignment(all: seq<Assignment>, i: nat)
    requires i < |all|
    ensures Keys(all[..i + 1]) == Keys(all[..i]) + (if KeyOf(all[i]) in Keys(all[..i]) then [] else [KeyOf(all[i])])
    ensures forall k :: GroupOf(all[..i + 1], k) == GroupOf(all[..i], k) + (if KeyOf(all[i]) == k then [all[i]] else [])
  {
    assert all[..i + 1][..i] == all[..i];
  }

  lemma NoneYet(all: seq<Assignment>, k: Key)
    requires k !in Keys(all)
    ensures GroupOf(all, k) == []
  {
    if GroupOf(all, k) != [] { assert GroupOf(all, k)[0] in GroupOf(all, k); }
  }

  lemma SortedKeysOnce(ks: seq<Key>, i: nat, j: nat)
    requires (forall i, j :: 0 <= i < j < |ks| ==> ks[i] != ks[j]) && i < j < |SortKeys(ks)|
    ensures SortKeys(ks)[i] != SortKeys(ks)[j]
  {
    var s := SortKeys(ks);
    if s[i] == s[j] {
      TwiceInBag(s, i, j);
      OnceInBag(ks, s[i]);
      assert false;
    }
  }

  lemma TwiceInBag(s: seq<Key>, i: nat, j: nat)
    requires i < j < |s| && s[i] == s[j]
    ensures multiset(s)[s[i]] >= 2
  {
    assert s == s[..j] + [s[j]] + s[j + 1..];
    assert s[i] in s[..j];
  }

  lemma {:induction false} OnceInBag(s: seq<Key>, k: Key)
    requires forall i, j :: 0 <= i < j < |s| ==> s[i] != s[j]
    ensures multiset(s)[k] <= 1
  {
    if s != [] {
      assert s == s[..|s| - 1] + [s[|s| - 1]];
      OnceInBag(s[..|s| - 1], k);
      if k == s[|s| - 1] { assert k !in s[..|s| - 1]; }
    }
  }

  ghost predicate InGroup(all: seq<Assignment>, a: Assignment) {
    exists g :: 0 <= g < |Groups(all)| && a in Groups(all)[g]
  }

  lemma NoGroupEmpty(all: seq<Assignment>, g: nat)
    requires g < |Groups(all)|
    ensures Groups(all)[g] != [] && forall a :: a in Groups(all)[g] ==> a in all
  {
    hide GroupOf, Keys, SortKeys;
    var ks := SortKeys(Keys(all));
    assert ks[g] in multiset(ks) && ks[g] in Keys(all);
    var a :| a in all && KeyOf(a) == ks[g];
    assert a in GroupOf(all, ks[g]);
  }

  lemma Grouped(all: seq<Assignment>, a: Assignment)
    requires a in all
    ensures InGroup(all, a)
  {
    hide GroupOf, Keys, SortKeys;
    var ks := SortKeys(Keys(all));
    assert KeyOf(a) in Keys(all) && KeyOf(a) in multiset(ks);
    var g :| 0 <= g < |ks| && ks[g] == KeyOf(a);
    assert a in Groups(all)[g];
  }

  lemma GroupsApart(all: seq<Assignment>, g: nat, h: nat, a: Assignment)
    requires g < h < |Groups(all)| && a in Groups(all)[g]
    ensures a !in Groups(all)[h]
  {
    hide GroupOf, Keys, SortKeys;
    SortedKeysOnce(Keys(all), g, h);
  }

  /** Every assignment stands in exactly one group, and no group is empty. */
  lemma GroupsPartition(all: seq<Assignment>)
    ensures forall g :: 0 <= g < |Groups(all)| ==> Groups(all)[g] != [] && forall a :: a in Groups(all)[g] ==> a in all
    ensures forall a :: a in all ==> InGroup(all, a)
    ensures forall g, h, a :: 0 <= g < h < |Groups(all)| && a in Groups(all)[g] ==> a !in Groups(all)[h]
    ensures all != [] ==> Groups(all) != []
  {
    hide Groups;
    forall g | 0 <= g < |Groups(all)| ensures Groups(all)[g] != [] && forall a :: a in Groups(all)[g] ==> a in all { NoGroupEmpty(all, g); }
    forall a | a in all ensures InGroup(all, a) { Grouped(all, a); }
    forall g, h, a | 0 <= g < h < |Groups(all)| && a in Groups(all)[g] ensures a !in Groups(all)[h] { GroupsApart(all, g, h, a); }
    if all != [] { assert InGroup(all, all[0]); }
  }

  // ---------------------------------------------------------------- earlier periods come first

  predicate Earlier(a: Key, b: Key) { KeyBefore(FIRST_DAY, LAST_DAY, a, b) }

  predicate InTime(ks: seq<Key>) {
    forall i, j :: 0 <= i < j < |ks| ==> Earlier(ks[i], ks[j])
  }

  lemma {:induction false} InsertKeyInTime(k: Key, ks: seq<Key>)
    requires InTime(ks)
    ensures InTime(InsertKey(k, ks))
  {
    if ks != [] {
      var rest := InsertKey(k, ks[1..]);
      InsertKeyInTime(k, ks[1..]);
      if Earlier(ks[0], k) {
        forall j | 0 <= j < |rest| ensures Earlier(ks[0], rest[j]) {
          assert rest[j] in multiset(rest);
          if rest[j] != k { assert rest[j] in ks[1..]; }
        }
      } else {
        forall j | 0 <= j < |ks| ensures Earlier(k, ks[j]) { assert Earlier(k, ks[0]); }
      }
    }
  }

  lemma {:induction false} SortKeysInTime(ks: seq<Key>)
    ensures InTime(SortKeys(ks))
  {
    if ks != [] {
      SortKeysInTime(ks[..|ks| - 1]);
      InsertKeyInTime(ks[|ks| - 1], SortKeys(ks[..|ks| - 1]));
    }
  }

  /** Whoever stands in an earlier group holds the unit for an earlier period, an open beginning before every date and an
    * open end after every date. */
  lemma GroupsInTime(all: seq<Assignment>, g: nat, h: nat, a: Assignment, b: Assignment)
    requires g < h < |Groups(all)| && a in Groups(all)[g] && b in Groups(all)[h]
    ensures Earlier(KeyOf(a), KeyOf(b))
  {
    hide GroupOf, Keys, SortKeys, KeyBefore;
    SortKeysInTime(Keys(all));
  }

  // ---------------------------------------------------------------- links to owner files

  datatype Frame = Frame(subfolder: Option<string>, documentType: Option<string>, pages: Option<(int, int)>)

  function LinkFor(f: Frame, a: Assignment, unit: nat, file: nat, confidence: real, primary: bool): Link {
    Link(a.owner, Some(unit), Some(a.pk), file, f.subfolder, f.documentType, f.pages, confidence, Confirmed, primary)
  }

  function GroupLinks(f: Frame, group: seq<Assignment>, unit: nat, file: nat, confidence: real, first: bool): (ls: seq<Link>)
    ensures |ls| == |group|
    ensures forall i :: 0 <= i < |ls| ==> ls[i] == LinkFor(f, group[i], unit, file, confidence, first && i == 0)
  {
    seq(|group|, i requires 0 <= i < |group| => LinkFor(f, group[i], unit, file, confidence, first && i == 0))
  }

  function LinksUpTo(p: Parties, f: Frame, groups: seq<seq<Assignment>>, unit: nat, confidence: real, n: nat): seq<Link>
    requires n <= |groups|
  {
    if n == 0 then []
    else LinksUpTo(p, f, groups, unit, confidence, n - 1)
         + GroupLinks(f, groups[n - 1], unit, p.fileFor(unit, groups[n - 1]), confidence, n == 1)
  }

  /** One file a group; the first link of the first group carries the document. */
  function LinksFor(p: Parties, f: Frame, all: seq<Assignment>, unit: nat, confidence: real): seq<Link> {
    LinksUpTo(p, f, Groups(all), unit, confidence, |Groups(all)|)
  }

  method MakeLinks(p: Parties, f: Frame, all: seq<Assignment>, unit: nat, confidence: real) returns (links: seq<Link>)
    ensures links == LinksFor(p, f, all, unit, confidence)
    ensures all != [] ==> CarriesEarliest(p, f, all, unit, confidence, links)
  {
    hide Groups, GroupLinks, CarriesEarliest;
    var groups := BuildGroups(all);
    links := [];
    for g := 0 to |groups|
      invariant links == LinksUpTo(p, f, groups, unit, confidence, g)
    {
      links := AddGroup(links, f, groups[g], unit, p.fileFor(unit, groups[g]), confidence, g == 0);
    }
    if all != [] { EarliestCarries(p, f, all, unit, confidence); }
  }

  method AddGroup(before: seq<Link>, f: Frame, group: seq<Assignment>, unit: nat, file: nat, confidence: real, first: bool)
    returns (links: seq<Link>)
    ensures links == before + GroupLinks(f, group, unit, file, confidence, first)
  {
    links := before;
    for i := 0 to |group|
      invariant |links| == |before| + i && links[..|before|] == before
      invariant forall j :: 0 <= j < i ==> links[|before| + j] == LinkFor(f, group[j], unit, file, confidence, first && j == 0)
    {
      var a := group[i];
      links := links + [Link(a.owner, Some(unit), Some(a.pk), file, f.subfolder, f.documentType, f.pages, confidence, Confirmed, first && i == 0)];
    }
  }

  /** How many links carry the document. */
  function Primaries(links: seq<Link>): nat {
    if links == [] then 0 else Primaries(links[..|links| - 1]) + (if links[|links| - 1].primary then 1 else 0)
  }

  lemma {:induction false} PrimariesPlus(a: seq<Link>, b: seq<Link>)
    ensures Primaries(a + b) == Primaries(a) + Primaries(b)
    decreases |b|
  {
    if b == [] {
      assert a + b == a;
    } else {
      assert (a + b)[..|a + b| - 1] == a + b[..|b| - 1];
      PrimariesPlus(a, b[..|b| - 1]);
    }
  }

  lemma {:induction false} GroupPrimaries(ls: seq<Link>, first: bool)
    requires forall i :: 0 <= i < |ls| ==> (ls[i].primary <==> first && i == 0)
    ensures Primaries(ls) == if first && ls != [] then 1 else 0
  {
    if ls != [] { GroupPrimaries(ls[..|ls| - 1], first); }
  }

  lemma {:induction false} OnePrimaryUpTo(p: Parties, f: Frame, groups: seq<seq<Assignment>>, unit: nat, confidence: real, n: nat)
    requires n <= |groups| && forall g :: 0 <= g < |groups| ==> groups[g] != []
    ensures Primaries(LinksUpTo(p, f, groups, unit, confidence, n)) == if n > 0 then 1 else 0
  {
    if n > 0 {
      var last := GroupLinks(f, groups[n - 1], unit, p.fileFor(unit, groups[n - 1]), confidence, n == 1);
      OnePrimaryUpTo(p, f, groups, unit, confidence, n - 1);
      GroupPrimaries(last, n == 1);
      PrimariesPlus(LinksUpTo(p, f, groups, unit, confidence, n - 1), last);
    }
  }

  /** Exactly one link carries the document. */
  lemma OnePrimary(p: Parties, f: Frame, all: seq<Assignment>, unit: nat, confidence: real)
    requires all != []
    ensures Primaries(LinksFor(p, f, all, unit, confidence)) == 1 && LinksFor(p, f, all, unit, confidence) != []
  {
    hide Groups;
    GroupsPartition(all);
    OnePrimaryUpTo(p, f, Groups(all), unit, confidence, |Groups(all)|);
  }

  /** The file the document goes to: a link to the first group's file for an assignment no other one precedes. */
  ghost predicate CarriesEarliest(p: Parties, f: Frame, all: seq<Assignment>, unit: nat, confidence: real, links: seq<Link>) {
    && links != [] && (forall k :: 0 <= k < |links| ==> (links[k].primary <==> k == 0))
    && exists a :: a in all && (forall b :: b in all ==> Earlier(KeyOf(a), KeyOf(b)))
                   && links[0] == LinkFor(f, a, unit, p.fileFor(unit, Groups(all)[0]), confidence, true)
  }

  lemma {:induction false} FirstCarries(p: Parties, f: Frame, groups: seq<seq<Assignment>>, unit: nat, confidence: real, n: nat)
    requires 1 <= n <= |groups| && forall g :: 0 <= g < |groups| ==> groups[g] != []
    ensures var links := LinksUpTo(p, f, groups, unit, confidence, n);
      && links != [] && links[0] == LinkFor(f, groups[0][0], unit, p.fileFor(unit, groups[0]), confidence, true)
      && forall k :: 0 <= k < |links| ==> (links[k].primary <==> k == 0)
  {
    if n > 1 {
      FirstCarries(p, f, groups, unit, confidence, n - 1);
    } else {
      assert LinksUpTo(p, f, groups, unit, confidence, 0) == [];
    }
  }

  /** Of the links of any assignments only the first carries the document, and its owner holds the unit first. */
  lemma EarliestCarries(p: Parties, f: Frame, all: seq<Assignment>, unit: nat, confidence: real)
    requires all != []
    ensures CarriesEarliest(p, f, all, unit, confidence, LinksFor(p, f, all, unit, confidence))
  {
    hide Groups, Earlier, LinksUpTo;
    GroupsPartition(all);
    var groups := Groups(all);
    FirstCarries(p, f, groups, unit, confidence, |groups|);
    var a := groups[0][0];
    forall b | b in all ensures Earlier(KeyOf(a), KeyOf(b)) {
      assert InGroup(all, b);
      var g: nat :| g < |groups| && b in groups[g];
      if g > 0 { GroupsInTime(all, 0, g, a, b); } else { SameGroup(all, 0, a, b); }
    }
  }

  lemma SameGroup(all: seq<Assignment>, g: nat, a: Assignment, b: Assignment)
    requires g < |Groups(all)| && a in Groups(all)[g] && b in Groups(all)[g]
    ensures KeyOf(a) == KeyOf(b) && Earlier(KeyOf(a), KeyOf(b))
  {
    hide SortKeys, Keys;
  }

  // ---------------------------------------------------------------- the decision table

  function Keep(all: seq<Assignment>, q: Assignment -> bool): (r: seq<Assignment>)
    ensures forall a :: a in r <==> a in all && q(a)
  {
    if all == [] then [] else Keep(all[..|all| - 1], q) + (if q(all[|all| - 1]) then [all[|all| - 1]] else [])
  }

  /** Place of an owner among those the document names. */
  function Place(owners: seq<nat>, owner: nat): nat {
    if owners == [] || owners[0] == owner then 0 else 1 + Place(owners[1..], owner)
  }

  function InsertBy(owners: seq<nat>, a: Assignment, s: seq<Assignment>): (r: seq<Assignment>)
    ensures multiset(r) == multiset(s) + multiset{a}
  {
    if s == [] then [a]
    else if Place(owners, s[0].owner) <= Place(owners, a.owner) then assert s == [s[0]] + s[1..]; [s[0]] + InsertBy(owners, a, s[1..])
    else [a] + s
  }

  /** In the order the document names the owners. */
  function InNamedOrder(owners: seq<nat>, s: seq<Assignment>): (r: seq<Assignment>)
    ensures multiset(r) == multiset(s) && |r| == |s|
  {
    if s == [] then []
    else
      assert s == s[..|s| - 1] + [s[|s| - 1]];
      var r := InsertBy(owners, s[|s| - 1], InNamedOrder(owners, s[..|s| - 1]));
      assert |multiset(r)| == |multiset(s)|;
      r
  }

  lemma {:induction false} InsertByKeepsOrder(owners: seq<nat>, a: Assignment, s: seq<Assignment>)
    requires NamedOrder(owners, s)
    ensures NamedOrder(owners, InsertBy(owners, a, s))
  {
    hide Place;
    if s != [] {
      var rest := InsertBy(owners, a, s[1..]);
      InsertByKeepsOrder(owners, a, s[1..]);
      forall j | 0 <= j < |rest| ensures rest[j] == a || rest[j] in s[1..] { InsertedFrom(owners, a, s[1..], rest[j]); }
    }
  }

  lemma InsertedFrom(owners: seq<nat>, a: Assignment, s: seq<Assignment>, x: Assignment)
    requires x in InsertBy(owners, a, s)
    ensures x == a || x in s
  {
    hide InsertBy;
    assert x in multiset(InsertBy(owners, a, s));
  }

  /** Sorted by the place at which the document names the owner. */
  predicate NamedOrder(owners: seq<nat>, s: seq<Assignment>) {
    forall i, j :: 0 <= i < j < |s| ==> Place(owners, s[i].owner) <= Place(owners, s[j].owner)
  }

  lemma {:induction false} InNamedOrderIs(owners: seq<nat>, s: seq<Assignment>)
    ensures NamedOrder(owners, InNamedOrder(owners, s))
  {
    if s != [] {
      InNamedOrderIs(owners, s[..|s| - 1]);
      InsertByKeepsOrder(owners, s[|s| - 1], InNamedOrder(owners, s[..|s| - 1]));
    }
  }

  function Named(p: Parties, f: Frame, unit: nat, owners: seq<nat>, period: Period): seq<Assignment> {
    InNamedOrder(owners, Keep(if IsOwnership(f.documentType) then p.active(unit) else p.candidates(unit, period), (a: Assignment) => a.owner in owners))
  }

  function NamedAnyTime(p: Parties, unit: nat, owners: seq<nat>): seq<Assignment> {
    InNamedOrder(owners, Keep(p.active(unit), (a: Assignment) => a.owner in owners))
  }

  function CandidateHits(p: Parties, unit: nat, owners: seq<nat>, period: Period): seq<Assignment> {
    Keep(p.candidates(unit, period), (a: Assignment) => a.owner in owners)
  }

  function Ask(f: Frame, subtype: string, misc: Option<string>, file: Option<nat>, kind: CaseKind): Option<Case> {
    Some(Case(kind, subtype, file, misc, false, f.pages))
  }

  /** Unit and owners recognised. */
  function UnitAndOwners(p: Parties, f: Frame, unit: nat, owners: seq<nat>, period: Period): (seq<Link>, Option<Case>) {
    var candidates := p.candidates(unit, period);
    var hits, named, ever := CandidateHits(p, unit, owners, period), Named(p, f, unit, owners, period), NamedAnyTime(p, unit, owners);
    if named != [] then (LinksFor(p, f, named, unit, 1.0), None)
    else if |Groups(candidates)| > 1 && hits != [] then (LinksFor(p, f, hits, unit, 1.0), None)
    else if !HasPeriod(period) && ever != [] then (LinksFor(p, f, ever, unit, 0.9), None)
    else if IsOwnership(f.documentType) then ([], Ask(f, "new_assignment_proposed", Some("02"), None, OwnerCandidates))
    else ([], Ask(f, "assignment_unknown", Some("02"), None, OwnerCandidates))
  }

  function UnitOnly(p: Parties, f: Frame, unit: nat, period: Period): (seq<Link>, Option<Case>) {
    var groups := Groups(p.candidates(unit, period));
    if |groups| == 1 then (LinksFor(p, f, groups[0], unit, 1.0), None)
    else if groups == [] then ([], Ask(f, "no_owner_in_period", Some("02"), None, OwnerCandidates))
    else ([], Ask(f, if HasPeriod(period) then "multiple_owners" else "no_period", Some("02"), None, OwnerCandidates))
  }

  function Units(all: seq<Assignment>): set<nat> {
    set a | a in all :: a.unit
  }

  function CoOwners(p: Parties, one: Assignment, period: Period): seq<Assignment> {
    Keep(p.candidates(one.unit, period), (a: Assignment) => a.from == one.from && a.until == one.until)
  }

  function OwnersOnly(p: Parties, f: Frame, owners: seq<nat>, period: Period): (seq<Link>, Option<Case>)
    requires owners != []
  {
    var all := p.ofOwners(owners, period);
    if |Units(all)| == 1 && all != [] then
      var full := CoOwners(p, all[0], period);
      (LinksFor(p, f, if full != [] then full else all, all[0].unit, 1.0), None)
    else if |Units(all)| > 1 then ([], Ask(f, "multiple_units", Some("02"), None, OwnerCandidates))
    else
      var file := p.fileUnknownUnit(owners[0]);
      ([Link(owners[0], None, None, file, f.subfolder, f.documentType, f.pages, 0.7, Suggested, true)],
       Ask(f, "owner_without_assignment", None, Some(file), OwnerCandidates))
  }

  function Checked(p: Parties, f: Frame, units: seq<nat>, owners: seq<nat>, period: Period): (seq<Link>, Option<Case>) {
    if units != [] then if owners != [] then UnitAndOwners(p, f, units[0], owners, period) else UnitOnly(p, f, units[0], period)
    else if owners != [] then OwnersOnly(p, f, owners, period)
    else ([], Ask(f, "no_owner_no_unit", None, Some(p.fileUnassigned), Unclear))
  }

  method CheckOwners(p: Parties, f: Frame, units: seq<nat>, owners: seq<nat>, period: Period) returns (links: seq<Link>, question: Option<Case>)
    ensures (links, question) == Checked(p, f, units, owners, period)
  {
    hide LinksFor, Groups;
    links, question := [], None;
    if units != [] {
      var unit := units[0];
      var candidates := p.candidates(unit, period);
      var groups := BuildGroups(candidates);
      if owners != [] {
        links, question := NamedOwners(p, f, unit, owners, period);
        return;
      }
      if |groups| == 1 {
        links := MakeLinks(p, f, groups[0], unit, 1.0);
        return;
      }
      question := Ask(f, if groups == [] then "no_owner_in_period" else if HasPeriod(period) then "multiple_owners" else "no_period",
                      Some("02"), None, OwnerCandidates);
      return;
    }
    if owners != [] {
      var all := p.ofOwners(owners, period);
      if |Units(all)| == 1 && all != [] {
        var full := CoOwners(p, all[0], period);
        links := MakeLinks(p, f, if full != [] then full else all, all[0].unit, 1.0);
        return;
      }
      if |Units(all)| > 1 {
        question := Ask(f, "multiple_units", Some("02"), None, OwnerCandidates);
        return;
      }
      var file := p.fileUnknownUnit(owners[0]);
      links := [Link(owners[0], None, None, file, f.subfolder, f.documentType, f.pages, 0.7, Suggested, true)];
      question := Ask(f, "owner_without_assignment", None, Some(file), OwnerCandidates);
      return;
    }
    question := Ask(f, "no_owner_no_unit", None, Some(p.fileUnassigned), Unclear);
  }

  method NamedOwners(p: Parties, f: Frame, unit: nat, owners: seq<nat>, period: Period) returns (links: seq<Link>, question: Option<Case>)
    ensures (links, question) == UnitAndOwners(p, f, unit, owners, period)
  {
    hide LinksFor, Groups;
    links, question := [], None;
    var groups := BuildGroups(p.candidates(unit, period));
    var named := Named(p, f, unit, owners, period);
    if named != [] {
      links := MakeLinks(p, f, named, unit, 1.0);
      return;
    }
    if |groups| > 1 {
      var hits := CandidateHits(p, unit, owners, period);
      if hits != [] {
        links := MakeLinks(p, f, hits, unit, 1.0);
        return;
      }
    }
    if !HasPeriod(period) {
      var ever := NamedAnyTime(p, unit, owners);
      if ever != [] {
        links := MakeLinks(p, f, ever, unit, 0.9);
        return;
      }
    }
    question := Ask(f, if IsOwnership(f.documentType) then "new_assignment_proposed" else "assignment_unknown", Some("02"), None, OwnerCandidates);
  }

  // ---------------------------------------------------------------- what the checks promise

  /** Either one link carries the document, or there is none and the case says where the document waits or which file it
    * goes to. */
  ghost predicate OneTarget(links: seq<Link>, question: Option<Case>) {
    if links == [] then question.Some? && (question.value.misc.Some? || question.value.file.Some?)
    else Primaries(links) == 1
  }

  lemma NamedOneTarget(p: Parties, f: Frame, unit: nat, owners: seq<nat>, period: Period)
    ensures var (links, question) := UnitAndOwners(p, f, unit, owners, period); OneTarget(links, question)
  {
    hide LinksFor, Groups, Named, CandidateHits, NamedAnyTime, Primaries;
    var hits, named, ever := CandidateHits(p, unit, owners, period), Named(p, f, unit, owners, period), NamedAnyTime(p, unit, owners);
    if named != [] { OnePrimary(p, f, named, unit, 1.0); }
    if hits != [] { OnePrimary(p, f, hits, unit, 1.0); }
    if ever != [] { OnePrimary(p, f, ever, unit, 0.9); }
  }

  /** The checks name one target, or say what is missing. */
  lemma ChecksOneTarget(p: Parties, f: Frame, units: seq<nat>, owners: seq<nat>, period: Period)
    ensures var (links, question) := Checked(p, f, units, owners, period); OneTarget(links, question)
  {
    hide LinksFor, Groups, UnitAndOwners, CoOwners;
    if units != [] {
      if owners != [] {
        NamedOneTarget(p, f, units[0], owners, period);
      } else {
        GroupsPartition(p.candidates(units[0], period));
        var groups := Groups(p.candidates(units[0], period));
        if |groups| == 1 { OnePrimary(p, f, groups[0], units[0], 1.0); }
      }
    } else if owners != [] {
      var all := p.ofOwners(owners, period);
      if all != [] {
        var full := CoOwners(p, all[0], period);
        OnePrimary(p, f, if full != [] then full else all, all[0].unit, 1.0);
      }
      var file := p.fileUnknownUnit(owners[0]);
      var one := [Link(owners[0], None, None, file, f.subfolder, f.documentType, f.pages, 0.7, Suggested, true)];
      assert one[..0] == [] && Primaries(one[..0]) == 0;
      assert Primaries(one) == 1;
    }
  }

  ghost predicate OnPages(links: seq<Link>, pages: Option<(int, int)>) {
    forall l :: l in links ==> l.pages == pages
  }

  lemma {:induction false} LinksKeepPages(p: Parties, f: Frame, groups: seq<seq<Assignment>>, unit: nat, confidence: real, n: nat)
    requires n <= |groups|
    ensures OnPages(LinksUpTo(p, f, groups, unit, confidence, n), f.pages)
  {
    if n > 0 { LinksKeepPages(p, f, groups, unit, confidence, n - 1); }
  }

  lemma LinksForPages(p: Parties, f: Frame, all: seq<Assignment>, unit: nat, confidence: real)
    ensures OnPages(LinksFor(p, f, all, unit, confidence), f.pages)
  {
    hide Groups;
    LinksKeepPages(p, f, Groups(all), unit, confidence, |Groups(all)|);
  }

  /** The checks of a segment give links to that segment. */
  lemma ChecksKeepPages(p: Parties, f: Frame, units: seq<nat>, owners: seq<nat>, period: Period)
    ensures OnPages(Checked(p, f, units, owners, period).0, f.pages)
  {
    hide LinksFor, Groups, Named, CandidateHits, NamedAnyTime, CoOwners;
    if units != [] {
      var unit := units[0];
      LinksForPages(p, f, CandidateHits(p, unit, owners, period), unit, 1.0);
      LinksForPages(p, f, Named(p, f, unit, owners, period), unit, 1.0);
      LinksForPages(p, f, NamedAnyTime(p, unit, owners), unit, 0.9);
      var groups := Groups(p.candidates(unit, period));
      if |groups| == 1 { LinksForPages(p, f, groups[0], unit, 1.0); }
    } else if owners != [] {
      var all := p.ofOwners(owners, period);
      if all != [] {
        LinksForPages(p, f, CoOwners(p, all[0], period), all[0].unit, 1.0);
        LinksForPages(p, f, all, all[0].unit, 1.0);
      }
    }
  }
}
