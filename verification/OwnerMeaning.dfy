/** The owner checks told from assignments, units, owners and periods alone: who is linked with what confidence, and which
  * question is asked instead (src/apps/classification/decide.py, owner_checks). */
module OwnerMeaning {
  import opened Wrappers
  import opened OwnerChecks

  // ---------------------------------------------------------------- groups are periods

  ghost predicate OnePeriod(all: seq<Assignment>) {
    all != [] && forall a, b :: a in all && b in all ==> a.from == b.from && a.until == b.until
  }

  ghost predicate SeveralPeriods(all: seq<Assignment>) {
    exists a, b :: a in all && b in all && (a.from != b.from || a.until != b.until)
  }

  /** Two assignments stand in the same group exactly when they hold the unit for the same period. */
  lemma SameGroupIff(all: seq<Assignment>, g: nat, h: nat, a: Assignment, b: Assignment)
    requires g < |Groups(all)| && h < |Groups(all)| && a in Groups(all)[g] && b in Groups(all)[h]
    ensures g == h <==> a.from == b.from && a.until == b.until
  {
    hide GroupOf, Keys, SortKeys;
    if g < h { SortedKeysOnce(Keys(all), g, h); }
    if h < g { SortedKeysOnce(Keys(all), h, g); }
  }

  lemma GroupCount(all: seq<Assignment>)
    ensures |Groups(all)| == 0 <==> all == []
    ensures |Groups(all)| == 1 <==> OnePeriod(all)
    ensures |Groups(all)| > 1 <==> SeveralPeriods(all)
  {
    hide Groups;
    GroupsPartition(all);
    var groups := Groups(all);
    if groups != [] { assert groups[0][0] in groups[0]; }
    if |groups| > 1 {
      assert groups[0][0] in groups[0] && groups[1][0] in groups[1];
      SameGroupIff(all, 0, 1, groups[0][0], groups[1][0]);
      assert SeveralPeriods(all);
    }
    if |groups| == 1 {
      forall a, b | a in all && b in all ensures a.from == b.from && a.until == b.until {
        assert InGroup(all, a) && InGroup(all, b);
        SameGroupIff(all, 0, 0, a, b);
      }
      assert all != [];
    }
  }

  lemma OnlyGroup(all: seq<Assignment>)
    requires OnePeriod(all)
    ensures |Groups(all)| == 1 && forall a :: a in Groups(all)[0] <==> a in all
  {
    hide Groups;
    GroupCount(all);
    GroupsPartition(all);
    forall a | a in all ensures a in Groups(all)[0] { assert InGroup(all, a); }
  }

  // ---------------------------------------------------------------- who is linked

  /** Exactly the assignments that qualify are linked, one link each in content, and exactly one link carries the document. */
  ghost predicate LinksOver(p: Parties, f: Frame, links: seq<Link>, unit: nat, confidence: real, q: Assignment -> bool) {
    && (forall l :: l in links ==> exists a :: q(a) && IsLink(f, l, a, unit, confidence))
    && (forall a :: q(a) ==> exists l :: l in links && IsLink(f, l, a, unit, confidence))
    && Primaries(links) == 1
  }

  ghost predicate IsLink(f: Frame, l: Link, a: Assignment, unit: nat, confidence: real) {
    l.owner == a.owner && l.unit == Some(unit) && l.assignment == Some(a.pk) && l.subfolder == f.subfolder && l.documentType == f.documentType
    && l.pages == f.pages && l.confidence == confidence && l.status == Confirmed
  }

  lemma {:induction false} LinksFrom(p: Parties, f: Frame, groups: seq<seq<Assignment>>, unit: nat, confidence: real, n: nat, l: Link)
    requires n <= |groups| && l in LinksUpTo(p, f, groups, unit, confidence, n)
    ensures exists g, a :: 0 <= g < n && a in groups[g] && IsLink(f, l, a, unit, confidence) && l.file == p.fileFor(unit, groups[g])
  {
    if n > 0 {
      if l in LinksUpTo(p, f, groups, unit, confidence, n - 1) {
        LinksFrom(p, f, groups, unit, confidence, n - 1, l);
      } else {
        var last := GroupLinks(f, groups[n - 1], unit, p.fileFor(unit, groups[n - 1]), confidence, n == 1);
        var i :| 0 <= i < |last| && last[i] == l;
        assert groups[n - 1][i] in groups[n - 1] && IsLink(f, l, groups[n - 1][i], unit, confidence);
      }
    }
  }

  lemma {:induction false} LinksTo(p: Parties, f: Frame, groups: seq<seq<Assignment>>, unit: nat, confidence: real, n: nat, g: nat, a: Assignment)
    requires g < n <= |groups| && a in groups[g]
    ensures exists l :: l in LinksUpTo(p, f, groups, unit, confidence, n) && IsLink(f, l, a, unit, confidence) && l.file == p.fileFor(unit, groups[g])
  {
    if g < n - 1 {
      LinksTo(p, f, groups, unit, confidence, n - 1, g, a);
      var l :| l in LinksUpTo(p, f, groups, unit, confidence, n - 1) && IsLink(f, l, a, unit, confidence) && l.file == p.fileFor(unit, groups[g]);
      assert l in LinksUpTo(p, f, groups, unit, confidence, n);
    } else {
      var last := GroupLinks(f, groups[n - 1], unit, p.fileFor(unit, groups[n - 1]), confidence, n == 1);
      var i :| 0 <= i < |groups[g]| && groups[g][i] == a;
      assert last[i] in last && last[i] in LinksUpTo(p, f, groups, unit, confidence, n);
    }
  }

  /** The file of a link belongs to the owners of one period: its group holds exactly those assignments with its period. */
  ghost predicate FileOfPeriod(p: Parties, all: seq<Assignment>, unit: nat, a: Assignment, file: nat) {
    exists group: seq<Assignment> :: file == p.fileFor(unit, group)
      && forall b :: b in group <==> b in all && b.from == a.from && b.until == a.until
  }

  lemma GroupIsPeriod(all: seq<Assignment>, g: nat, a: Assignment)
    requires g < |Groups(all)| && a in Groups(all)[g]
    ensures forall b :: b in Groups(all)[g] <==> b in all && b.from == a.from && b.until == a.until
  {
    hide Groups;
    GroupsPartition(all);
    forall b ensures b in Groups(all)[g] <==> b in all && b.from == a.from && b.until == a.until {
      if b in Groups(all)[g] { SameGroupIff(all, g, g, a, b); }
      if b in all && b.from == a.from && b.until == a.until {
        assert InGroup(all, b);
        var h: nat :| h < |Groups(all)| && b in Groups(all)[h];
        SameGroupIff(all, g, h, a, b);
      }
    }
  }

  lemma LinkedFile(p: Parties, f: Frame, all: seq<Assignment>, unit: nat, confidence: real, l: Link)
    requires l in LinksFor(p, f, all, unit, confidence)
    ensures exists a :: a in all && IsLink(f, l, a, unit, confidence) && FileOfPeriod(p, all, unit, a, l.file)
  {
    hide Groups, LinksUpTo, IsLink, FileOfPeriod;
    var groups := Groups(all);
    LinksFrom(p, f, groups, unit, confidence, |groups|, l);
    var g, a :| 0 <= g < |groups| && a in groups[g] && IsLink(f, l, a, unit, confidence) && l.file == p.fileFor(unit, groups[g]);
    GroupsPartition(all);
    FileIsOfPeriod(p, all, unit, g, a);
  }

  lemma FileIsOfPeriod(p: Parties, all: seq<Assignment>, unit: nat, g: nat, a: Assignment)
    requires g < |Groups(all)| && a in Groups(all)[g]
    ensures FileOfPeriod(p, all, unit, a, p.fileFor(unit, Groups(all)[g]))
  {
    hide Groups;
    GroupIsPeriod(all, g, a);
  }

  lemma LinksAre(p: Parties, f: Frame, all: seq<Assignment>, unit: nat, confidence: real, q: Assignment -> bool)
    requires all != [] && forall a :: a in all <==> q(a)
    ensures LinksOver(p, f, LinksFor(p, f, all, unit, confidence), unit, confidence, q)
  {
    hide Groups, LinksUpTo, IsLink, Primaries;
    var groups, links := Groups(all), LinksFor(p, f, all, unit, confidence);
    GroupsPartition(all);
    OnePrimary(p, f, all, unit, confidence);
    forall l | l in links ensures exists a :: q(a) && IsLink(f, l, a, unit, confidence) {
      LinksFrom(p, f, groups, unit, confidence, |groups|, l);
      var g, a :| 0 <= g < |groups| && a in groups[g] && IsLink(f, l, a, unit, confidence) && l.file == p.fileFor(unit, groups[g]);
      assert q(a);
    }
    forall a | q(a) ensures exists l :: l in links && IsLink(f, l, a, unit, confidence) {
      assert InGroup(all, a);
      var g: nat :| g < |groups| && a in groups[g];
      LinksTo(p, f, groups, unit, confidence, |groups|, g, a);
    }
  }

  // ---------------------------------------------------------------- who carries the document

  /** The place of an owner is where the document names it first, and after all of them if it does not. */
  lemma {:induction false} PlaceIs(owners: seq<nat>, owner: nat)
    ensures owner !in owners ==> Place(owners, owner) == |owners|
    ensures owner in owners ==> Place(owners, owner) < |owners| && owners[Place(owners, owner)] == owner && owner !in owners[..Place(owners, owner)]
  {
    if owners != [] && owners[0] != owner {
      PlaceIs(owners[1..], owner);
      assert owners == [owners[0]] + owners[1..];
      assert owners[..Place(owners, owner)] == [owners[0]] + owners[1..][..Place(owners[1..], owner)];
    }
  }

  lemma {:induction false} GroupFirst(all: seq<Assignment>, k: Key) returns (i: nat)
    requires GroupOf(all, k) != []
    ensures i < |all| && all[i] == GroupOf(all, k)[0] && KeyOf(all[i]) == k && forall j :: 0 <= j < i ==> KeyOf(all[j]) != k
    decreases |all|
  {
    var before := all[..|all| - 1];
    if GroupOf(before, k) == [] {
      i := |all| - 1;
      forall j | 0 <= j < i ensures KeyOf(all[j]) != k {
        assert before[j] == all[j] && before[j] in before;
      }
    } else {
      i := GroupFirst(before, k);
      forall j | 0 <= j < i ensures KeyOf(all[j]) != k { assert before[j] == all[j]; }
    }
  }

  /** The first of those who hold the unit for the earliest period: nobody precedes in time, and of the same period nobody
    * stands further ahead in the list. */
  ghost predicate Foremost(all: seq<Assignment>, i: nat) {
    i < |all| && (forall b :: b in all ==> Earlier(KeyOf(all[i]), KeyOf(b)))
    && forall j :: 0 <= j < i ==> KeyOf(all[j]) != KeyOf(all[i])
  }

  lemma ForemostCarries(p: Parties, f: Frame, all: seq<Assignment>, unit: nat, confidence: real) returns (i: nat)
    requires all != []
    ensures Foremost(all, i)
    ensures var links := LinksFor(p, f, all, unit, confidence);
      links != [] && IsLink(f, links[0], all[i], unit, confidence) && forall k :: 0 <= k < |links| ==> (links[k].primary <==> k == 0)
  {
    hide Groups, LinksUpTo, Earlier;
    var groups := Groups(all);
    GroupsPartition(all);
    FirstCarries(p, f, groups, unit, confidence, |groups|);
    var a := groups[0][0];
    i := FirstOfGroup(all);
    forall b | b in all ensures Earlier(KeyOf(a), KeyOf(b)) {
      assert InGroup(all, b);
      var g: nat :| g < |groups| && b in groups[g];
      if g > 0 { GroupsInTime(all, 0, g, a, b); } else { SameGroup(all, 0, a, b); }
    }
  }

  lemma FirstOfGroup(all: seq<Assignment>) returns (i: nat)
    requires Groups(all) != [] && Groups(all)[0] != []
    ensures i < |all| && all[i] == Groups(all)[0][0] && forall j :: 0 <= j < i ==> KeyOf(all[j]) != KeyOf(all[i])
  {
    hide GroupOf, SortKeys, Keys;
    i := GroupFirst(all, SortKeys(Keys(all))[0]);
  }

  /** Of the owners named in the document who hold the unit for the earliest period, the one named first carries it. */
  lemma FirstNamedCarries(p: Parties, f: Frame, units: seq<nat>, owners: seq<nat>, period: Period) returns (a: Assignment)
    requires units != [] && owners != [] && Anyone(NamedHolders(p, f, units[0], owners, period))
    ensures var named, links := NamedHolders(p, f, units[0], owners, period), Checked(p, f, units, owners, period).0;
      && named(a) && links != [] && links[0].primary && IsLink(f, links[0], a, units[0], 1.0)
      && forall b :: named(b) ==> Earlier(KeyOf(a), KeyOf(b)) && (KeyOf(b) == KeyOf(a) ==> Place(owners, a.owner) <= Place(owners, b.owner))
  {
    hide LinksFor, Groups, Earlier, IsLink, NamedAnyTime, CandidateHits, Anyone, Place;
    var unit, q := units[0], NamedHolders(p, f, units[0], owners, period);
    NamedIs(p, f, unit, owners, period);
    var all := Named(p, f, unit, owners, period);
    NamedSorted(p, f, unit, owners, period);
    var i := ForemostCarries(p, f, all, unit, 1.0);
    a := all[i];
    assert a in all;
    forall b | q(b) ensures Earlier(KeyOf(a), KeyOf(b)) && (KeyOf(b) == KeyOf(a) ==> Place(owners, a.owner) <= Place(owners, b.owner)) {
      assert b in all;
      var j :| 0 <= j < |all| && all[j] == b;
      assert i < j ==> Place(owners, all[i].owner) <= Place(owners, all[j].owner);
    }
  }

  lemma NamedSorted(p: Parties, f: Frame, unit: nat, owners: seq<nat>, period: Period)
    ensures NamedOrder(owners, Named(p, f, unit, owners, period))
  {
    hide InNamedOrder, NamedOrder, Keep;
    InNamedOrderIs(owners, Keep(if IsOwnership(f.documentType) then p.active(unit) else p.candidates(unit, period), (a: Assignment) => a.owner in owners));
  }

  /** A date the calendar knows. */
  predicate Dated(d: Option<int>) { d.Some? ==> 1 <= d.value <= 3652059 }

  /** An open beginning precedes every later first day, an open end follows every earlier last day, and the beginning counts
    * before the end. */
  lemma EarlierMeans(a: Key, b: Key)
    requires Dated(a.0) && Dated(a.1) && Dated(b.0) && Dated(b.1)
    ensures a.0.Some? && b.0.Some? && a.0.value < b.0.value ==> Earlier(a, b) && !Earlier(b, a)
    ensures a.0.None? && b.0.Some? && b.0.value > 1 ==> Earlier(a, b) && !Earlier(b, a)
    ensures a.0 == b.0 && a.1.Some? && b.1.Some? && a.1.value < b.1.value ==> Earlier(a, b) && !Earlier(b, a)
    ensures a.0 == b.0 && a.1.Some? && a.1.value < 3652059 && b.1.None? ==> Earlier(a, b) && !Earlier(b, a)
    ensures a == b ==> Earlier(a, b)
  {
  }

  // ---------------------------------------------------------------- which case applies

  predicate TransferType(documentType: Option<string>) {
    documentType == Some("kaufvertrag") || documentType == Some("veraeusserungsanzeige") || documentType == Some("mitteilung_eigentumswechsel")
    || documentType == Some("uebergang_nutzen_lasten") || documentType == Some("verwalterzustimmung") || documentType == Some("veraeusserungszustimmung")
  }

  predicate Timed(period: Period) { period.year.Some? || period.dated }

  /** The owners named in the document hold the unit: at any time for a change of ownership, else in its period. */
  function NamedHolders(p: Parties, f: Frame, unit: nat, owners: seq<nat>, period: Period): Assignment -> bool {
    (a: Assignment) => a.owner in owners && a in (if TransferType(f.documentType) then p.active(unit) else p.candidates(unit, period))
  }

  function InPeriod(p: Parties, unit: nat, owners: seq<nat>, period: Period): Assignment -> bool {
    (a: Assignment) => a.owner in owners && a in p.candidates(unit, period)
  }

  function AnyTime(p: Parties, unit: nat, owners: seq<nat>): Assignment -> bool {
    (a: Assignment) => a.owner in owners && a in p.active(unit)
  }

  function Candidates(p: Parties, unit: nat, period: Period): Assignment -> bool {
    (a: Assignment) => a in p.candidates(unit, period)
  }

  ghost predicate Anyone(q: Assignment -> bool) {
    exists a :: q(a)
  }

  ghost predicate AsksFor(question: Option<Case>, f: Frame, kind: CaseKind, subtype: string, misc: Option<string>, file: Option<nat>) {
    question == Some(Case(kind, subtype, file, misc, false, f.pages))
  }

  lemma SameMembers(a: seq<Assignment>, b: seq<Assignment>, q: Assignment -> bool)
    requires multiset(a) == multiset(b) && forall x :: x in b <==> q(x)
    ensures forall x :: x in a <==> q(x)
    ensures a == [] <==> !Anyone(q)
  {
    forall x ensures x in a <==> q(x) { assert x in multiset(a) <==> x in multiset(b); }
    if a != [] { assert a[0] in a; }
  }

  lemma NamedIs(p: Parties, f: Frame, unit: nat, owners: seq<nat>, period: Period)
    ensures var q := NamedHolders(p, f, unit, owners, period); var named := Named(p, f, unit, owners, period);
      (forall a :: a in named <==> q(a)) && (named == [] <==> !Anyone(q))
    ensures var q := AnyTime(p, unit, owners); var ever := NamedAnyTime(p, unit, owners);
      (forall a :: a in ever <==> q(a)) && (ever == [] <==> !Anyone(q))
    ensures var q := InPeriod(p, unit, owners, period); var hits := CandidateHits(p, unit, owners, period);
      (forall a :: a in hits <==> q(a)) && (hits == [] <==> !Anyone(q))
  {
    hide Anyone;
    var list := if IsOwnership(f.documentType) then p.active(unit) else p.candidates(unit, period);
    SameMembers(Named(p, f, unit, owners, period), Keep(list, (a: Assignment) => a.owner in owners), NamedHolders(p, f, unit, owners, period));
    SameMembers(NamedAnyTime(p, unit, owners), Keep(p.active(unit), (a: Assignment) => a.owner in owners), AnyTime(p, unit, owners));
    SameMembers(CandidateHits(p, unit, owners, period), CandidateHits(p, unit, owners, period), InPeriod(p, unit, owners, period));
  }

  /** A unit and owners are recognised. Owners who hold the unit are linked; failing that, those in the period if the unit
    * changes hands then; failing that and without a period, those of any time, with less confidence. Otherwise the question
    * is a new assignment for a change of ownership and an unknown one for anything else. */
  lemma UnitAndOwnersMeans(p: Parties, f: Frame, units: seq<nat>, owners: seq<nat>, period: Period)
    requires units != [] && owners != []
    ensures var (links, question) := Checked(p, f, units, owners, period); var unit := units[0];
      var named, now, ever := NamedHolders(p, f, unit, owners, period), InPeriod(p, unit, owners, period), AnyTime(p, unit, owners);
      if Anyone(named) then LinksOver(p, f, links, unit, 1.0, named) && question.None?
      else if SeveralPeriods(p.candidates(unit, period)) && Anyone(now) then LinksOver(p, f, links, unit, 1.0, now) && question.None?
      else if !Timed(period) && Anyone(ever) then LinksOver(p, f, links, unit, 0.9, ever) && question.None?
      else links == [] && AsksFor(question, f, OwnerCandidates, if TransferType(f.documentType) then "new_assignment_proposed" else "assignment_unknown", Some("02"), None)
  {
    hide LinksFor, LinksOver, Groups, Named, NamedAnyTime, CandidateHits, Anyone, SeveralPeriods, NamedHolders, InPeriod, AnyTime;
    var unit := units[0];
    NamedIs(p, f, unit, owners, period);
    GroupCount(p.candidates(unit, period));
    var named, now, ever := NamedHolders(p, f, unit, owners, period), InPeriod(p, unit, owners, period), AnyTime(p, unit, owners);
    if Anyone(named) { LinksAre(p, f, Named(p, f, unit, owners, period), unit, 1.0, named); }
    if Anyone(now) { LinksAre(p, f, CandidateHits(p, unit, owners, period), unit, 1.0, now); }
    if Anyone(ever) { LinksAre(p, f, NamedAnyTime(p, unit, owners), unit, 0.9, ever); }
  }

  /** Only a unit is recognised: everybody who holds it in the period is linked if it does not change hands then. */
  lemma UnitOnlyMeans(p: Parties, f: Frame, units: seq<nat>, period: Period)
    requires units != []
    ensures var (links, question) := Checked(p, f, units, [], period); var all := p.candidates(units[0], period);
      if OnePeriod(all) then LinksOver(p, f, links, units[0], 1.0, Candidates(p, units[0], period)) && question.None?
      else links == [] && AsksFor(question, f, OwnerCandidates,
             if all == [] then "no_owner_in_period" else if Timed(period) then "multiple_owners" else "no_period", Some("02"), None)
  {
    hide LinksFor, LinksOver, Groups, SeveralPeriods, OnePeriod;
    var all := p.candidates(units[0], period);
    GroupCount(all);
    if OnePeriod(all) {
      OnlyGroup(all);
      GroupsPartition(all);
      LinksAre(p, f, Groups(all)[0], units[0], 1.0, Candidates(p, units[0], period));
    }
  }

  ghost predicate OneUnit(all: seq<Assignment>) {
    all != [] && forall a, b :: a in all && b in all ==> a.unit == b.unit
  }

  /** The assignments of the unit in the period that begin and end with the first one the owners hold, or all they hold. */
  function WithCoOwners(p: Parties, all: seq<Assignment>, period: Period): Assignment -> bool
    requires all != []
  {
    (a: Assignment) => if exists b :: b in p.candidates(all[0].unit, period) && b.from == all[0].from && b.until == all[0].until
         then a in p.candidates(all[0].unit, period) && a.from == all[0].from && a.until == all[0].until
         else a in all
  }

  lemma UnitCount(all: seq<Assignment>)
    ensures |Units(all)| == 0 <==> all == []
    ensures |Units(all)| == 1 <==> OneUnit(all)
  {
    if all != [] {
      assert all[0].unit in Units(all);
      assert all[0] in all;
      if OneUnit(all) {
        assert Units(all) == {all[0].unit};
      } else {
        var a, b :| a in all && b in all && a.unit != b.unit;
        assert {a.unit, b.unit} <= Units(all);
        Pair(a.unit, b.unit, Units(all));
      }
    } else {
      assert Units(all) == {};
    }
  }

  lemma Pair(x: nat, y: nat, s: set<nat>)
    requires x in s && y in s && x != y
    ensures |s| > 1
  {
    assert |s - {x} - {y}| == |s| - 2;
  }

  /** Only owners are recognised: linked with their co-owners if they hold one unit, asked about if they hold several, and
    * put into a file of their own with a question if they hold none. */
  lemma OwnersOnlyMeans(p: Parties, f: Frame, owners: seq<nat>, period: Period)
    requires owners != []
    ensures var (links, question) := Checked(p, f, [], owners, period); var all := p.ofOwners(owners, period);
      if OneUnit(all) then LinksOver(p, f, links, all[0].unit, 1.0, WithCoOwners(p, all, period)) && question.None?
      else if all != [] then links == [] && AsksFor(question, f, OwnerCandidates, "multiple_units", Some("02"), None)
      else var file := p.fileUnknownUnit(owners[0]);
        && links == [Link(owners[0], None, None, file, f.subfolder, f.documentType, f.pages, 0.7, Suggested, true)]
        && AsksFor(question, f, OwnerCandidates, "owner_without_assignment", None, Some(file))
  {
    hide LinksFor, LinksOver, OneUnit, Units;
    var all := p.ofOwners(owners, period);
    UnitCount(all);
    if OneUnit(all) && all != [] {
      var full := CoOwners(p, all[0], period);
      if full != [] { assert full[0] in full; }
      LinksAre(p, f, if full != [] then full else all, all[0].unit, 1.0, WithCoOwners(p, all, period));
    }
  }

  lemma NobodyMeans(p: Parties, f: Frame, period: Period)
    ensures Checked(p, f, [], [], period).0 == []
    ensures AsksFor(Checked(p, f, [], [], period).1, f, Unclear, "no_owner_no_unit", None, Some(p.fileUnassigned))
  {
  }
}
