/** Where a document ends up and why, told from its category, confidence, year and parties alone, for every decision that
  * does not wait for the third stage (src/apps/classification/decide.py). */
module DecideMeaning {
  import opened Wrappers
  import opened OwnerChecks
  import opened Segments
  import opened Decide

  // ---------------------------------------------------------------- what is decided upon

  ghost predicate Waits(i: Input) { i.combined.stage3Required && i.stage3Enabled }

  /** The draft and the context once the third stage and the sender have been heard. */
  function Heard(i: Input): (Plan, Context) { AfterSender(i, AfterStage3(i, Base(i))) }

  ghost predicate Sure(i: Input, p: Plan) { p.category.Some? && p.confidence >= i.threshold }

  ghost predicate LacksYear(i: Input, p: Plan) {
    p.period.year.None? && p.documentType.Some? && p.documentType.value != ""
    && match i.types(p.documentType.value) { case None => false case Some(t) => t.requiresPeriod }
  }

  /** The document is sure of its category, which is not the miscellaneous one, and lacks no year. */
  ghost predicate Fileable(i: Input, p: Plan) {
    Sure(i, p) && p.category != Some("06") && !LacksYear(i, p)
  }

  /** Every category that is no master file and not that of the tenants is treated like that of the owners. */
  function FileOf(category: string): string {
    if category == "01" then "01" else if category == "02" then "02" else if category == "03" then "03"
    else if category == "04" then "04" else "05"
  }

  /** What the owner checks find for the whole document. */
  function OwnersFound(i: Input, p: Plan, ctx: Context): (seq<Link>, Option<Case>) {
    Checked(i.parties, Frame(p.subfolder, p.documentType, None), ctx.units, ctx.owners, p.period)
  }

  /** The owner checks send the document to wait in 06. */
  ghost predicate OwnersAsked(i: Input, p: Plan, ctx: Context) {
    !i.management.Rental? && match OwnersFound(i, p, ctx).1 { case None => false case Some(c) => c.misc.Some? }
  }

  /** The hint a decision gets: of the third stage, for a category other than 06 and with no other case. */
  ghost predicate Hinted(i: Input, p: Plan, q: Plan) {
    if i.s3.Some? && p.category.Some? && p.category != Some("06") && p.cases == [] && (i.s3.value.relatedForced || (p.decidedBy.Stage3By? && i.sample))
    then q == p.(cases := [Case(MoveProposal, if i.s3.value.relatedForced then "ai_object_unverified" else "ai_sample", None, None, true, None)])
    else q == p
  }

  lemma HintAfter(i: Input, p: Plan)
    ensures Hinted(i, p, p.(cases := p.cases + Hint(i, p)))
  {
    assert p.cases + [] == p.cases;
  }

  lemma HintIs(i: Input)
    requires !Waits(i)
    ensures Hinted(i, Filed(i, Heard(i).0, Heard(i).1), Decided(i))
  {
    hide Base, AfterStage3, AfterSender, Filed, Hint, Hinted;
    HintAfter(i, Filed(i, Heard(i).0, Heard(i).1));
  }

  // ---------------------------------------------------------------- the draft

  ghost predicate RuleSays(i: Input) { i.s1.category == i.combined.category }

  ghost predicate ModelSays(i: Input) { i.s2.Some? && !i.s2.value.coldStart && i.s2.value.top == i.combined.category }

  ghost predicate AiSays(i: Input) { i.s3.Some? && (i.aiDecided || i.s3.value.category == i.after.category) }

  ghost predicate AiRules(i: Input) { i.s3.Some? && i.aiDecided }

  /** Where the draft's fields come from: the category from the last stage heard, subfolder and type only from a stage that
    * chose that category, the rules before the trained model before the third stage, unless the third stage decided; it may
    * fill in a missing year and never replaces one. */
  lemma DraftOrigin(i: Input)
    ensures var d, c := AfterStage3(i, Base(i)), if i.s3.Some? then i.after else i.combined;
      d.category == c.category && d.confidence == c.confidence && d.decidedBy == c.decidedBy
    ensures var d := AfterStage3(i, Base(i));
      d.period == i.period.(year := if AiRules(i) && i.period.year.None? then i.s3.value.year else i.period.year)
    ensures var d := AfterStage3(i, Base(i));
      if AiRules(i) then d.subfolder == i.s3.value.subfolder && d.documentType == i.s3.value.documentType
      else
        && (RuleSays(i) && i.s1.subfolder.Some? ==> d.subfolder == i.s1.subfolder)
        && (RuleSays(i) && i.s1.subfolder.Some? && i.s1.documentType.Some? ==> d.documentType == i.s1.documentType)
        && (RuleSays(i) && !ModelSays(i) && i.s1.documentType.Some? ==> d.documentType == i.s1.documentType)
        && (!(RuleSays(i) && i.s1.subfolder.Some?) && ModelSays(i) && i.s2.value.subfolder.Some? ==> d.subfolder == i.s2.value.subfolder)
        && (!(RuleSays(i) && i.s1.subfolder.Some?) && ModelSays(i) && i.s2.value.documentType.Some? ==> d.documentType == i.s2.value.documentType)
    ensures var d := AfterStage3(i, Base(i));
      && (d.subfolder.Some? ==> (RuleSays(i) && d.subfolder == i.s1.subfolder) || (ModelSays(i) && d.subfolder == i.s2.value.subfolder)
                                || (AiSays(i) && d.subfolder == i.s3.value.subfolder))
      && (d.documentType.Some? ==> (RuleSays(i) && d.documentType == i.s1.documentType) || (ModelSays(i) && d.documentType == i.s2.value.documentType)
                                   || (AiSays(i) && d.documentType == i.s3.value.documentType))
      && (d.subfolder.None? && AiSays(i) ==> i.s3.value.subfolder.None? || i.s3.value.subfolder == Some(""))
      && (d.documentType.None? && AiSays(i) ==> i.s3.value.documentType.None? || i.s3.value.documentType == Some(""))
      && (d.subfolder.None? && !AiRules(i) && RuleSays(i) ==> i.s1.subfolder.None?)
  {
  }

  ghost predicate SenderKnown(i: Input) { i.sender.Some? && i.sender.value.id.Some? }

  /** A known sender decides unless the draft is sure of another category than those of owners, tenants and the unsorted. */
  ghost predicate SenderDecides(i: Input, p: Plan) {
    SenderKnown(i) && (p.category.None? || p.category == Some("04") || p.category == Some("05") || p.category == Some("06") || p.confidence < i.threshold)
  }

  /** What a sender that decides puts into the draft, and that any other sender is only noted. */
  lemma SenderPuts(i: Input, p: Plan)
    ensures var (q, ctx) := AfterSender(i, p);
      if !SenderDecides(i, p) then ctx == i.ctx && q == p.(sender := if i.sender.Some? then i.sender else p.sender)
      else
        && q == p.(category := Some(if i.sender.value.party.OwnerParty? then "05" else "04"), subfolder := q.subfolder, documentType := q.documentType,
                   confidence := if p.confidence >= 0.95 then p.confidence else 0.95, decidedBy := Stage1By, sender := i.sender)
        && (if i.sender.value.party.TenantParty? then
              q.subfolder.None? && q.documentType == (if p.category == Some("04") then p.documentType else Some("mieterkorrespondenz"))
            else if p.category == Some("05") && p.subfolder.Some? && p.subfolder.value != "" then q.subfolder == p.subfolder && q.documentType == p.documentType
            else q.subfolder == Some("08") && q.documentType == Some("schriftverkehr"))
  {
    hide First, Within, IsOwnership;
  }

  /** The first unit left is the first of the document that belongs to the owner who wrote. */
  lemma {:induction false} FirstUnitKept(units: seq<nat>, own: set<nat>) returns (k: nat)
    requires Within(units, own) != []
    ensures k < |units| && units[k] == Within(units, own)[0] && units[k] in own && forall j :: 0 <= j < k ==> units[j] !in own
  {
    var n := |units| - 1;
    WithinIs(units[..n], own);
    if Within(units[..n], own) == [] {
      k := n;
      forall j | 0 <= j < n ensures units[j] !in own { assert units[..n][j] == units[j] && units[..n][j] in units[..n]; }
    } else {
      k := FirstUnitKept(units[..n], own);
      forall j | 0 <= j < k ensures units[j] !in own { assert units[..n][j] == units[j]; }
    }
  }

  // ---------------------------------------------------------------- the ways to file

  /** Below the threshold: 06/01 under that category, with nothing attached; an e-mail without a case if the switch is on and
    * the third stage did not merely fail, anything else with the case, and an existing file then stays where it is. */
  lemma UnsureWaits(i: Input)
    requires !Waits(i) && !Sure(i, Heard(i).0)
    ensures var p, d := Heard(i).0, Decided(i);
      && d == p.(physical := Some("06"), physicalSub := Some("01"), category := Some("06"), subfolder := Some("01"), documentType := None,
                 decidedBy := d.decidedBy, emailAuto := d.emailAuto, moveAllowed := d.moveAllowed, cases := d.cases)
      && (d.emailAuto <==> i.email && i.autoMisc && (i.s3.Some? ==> !i.s3.value.failed))
      && d.decidedBy == (if d.emailAuto then EmailAutoBy else p.decidedBy)
      && (d.moveAllowed <==> d.emailAuto || !i.existing)
      && d.cases == if d.emailAuto then [] else [Case(if i.existing then MoveProposal else Unclear, "below_threshold", None, Some("01"), false, None)]
  {
    hide Base, AfterStage3, AfterSender;
    StartsBlank(i);
    HintIs(i);
  }

  /** Category 06 stays there with one case, under the subfolder the rules name if the catalogue knows it. */
  lemma MiscellaneousAsks(i: Input)
    requires !Waits(i) && Sure(i, Heard(i).0) && Heard(i).0.category == Some("06")
    ensures var p, d := Heard(i).0, Decided(i);
      && d == p.(physical := Some("06"), physicalSub := d.physicalSub, moveAllowed := d.moveAllowed, cases := d.cases)
      && d.physicalSub == (if i.s1.category == Some("06") && i.s1.subfolder.Some? && i.s1.subfolder.value != "" && i.known("06", i.s1.subfolder.value)
                           then i.s1.subfolder else Some("01"))
      && |d.cases| == 1 && d.cases[0] == Case(Unclear, d.cases[0].subtype, None, d.physicalSub, false, None)
      && (i.s1.subtype.Some? && i.s1.subtype.value != "" ==> d.cases[0].subtype == i.s1.subtype.value)
      && (i.s1.subtype.None? || i.s1.subtype.value == "" ==> d.cases[0].subtype == if d.physicalSub == Some("04") then "foreign_object" else "manual_check")
      && (d.moveAllowed <==> !i.existing || d.physicalSub == Some("03") || d.physicalSub == Some("04"))
  {
    hide Base, AfterStage3, AfterSender;
    StartsBlank(i);
    HintIs(i);
  }

  /** A type that needs a year and has none waits in 06/02 and asks for it. */
  lemma YearIsAsked(i: Input)
    requires !Waits(i) && Sure(i, Heard(i).0) && Heard(i).0.category != Some("06") && LacksYear(i, Heard(i).0)
    ensures Decided(i) == Heard(i).0.(physical := Some("06"), physicalSub := Some("02"), moveAllowed := !i.existing,
                                      cases := [Case(MissingMetadata, "period_year", None, Some("02"), false, None)])
  {
    hide Base, AfterStage3, AfterSender;
    StartsBlank(i);
    HintIs(i);
  }

  /** A tenant's document goes to 04 with exactly the tenants of the context and asks if there are none; in an owners'
    * association it waits in 06/02. */
  lemma TenantDocument(i: Input)
    requires !Waits(i) && Fileable(i, Heard(i).0) && Heard(i).0.category == Some("04")
    ensures var (p, ctx), d := Heard(i), Decided(i);
      && d == p.(physical := d.physical, physicalSub := d.physicalSub, tenants := ctx.tenants, moveAllowed := d.moveAllowed, cases := d.cases)
      && d.physical == Some(if i.management.Weg? then "06" else "04") && d.physicalSub == (if i.management.Weg? then Some("02") else None)
      && (if i.management.Weg? then d.cases == [Case(Unclear, "tenant_document_in_weg", None, Some("02"), false, None)]
          else if ctx.tenants == [] then d.cases == [Case(Unclear, "tenant_unknown", None, None, false, None)]
          else Hinted(i, p, p.(cases := d.cases)))
      && (d.moveAllowed <==> !i.existing || (!i.management.Weg? && ctx.tenants != []))
  {
    hide Base, AfterStage3, AfterSender;
    StartsBlank(i);
    HintIs(i);
  }

  /** An owner's document outside rented houses: its links are those the checks found, a question is asked as they put it,
    * and it goes to 05 unless the question says where in 06 it waits. */
  lemma OwnerDocument(i: Input)
    requires !Waits(i) && Fileable(i, Heard(i).0) && FileOf(Heard(i).0.category.value) == "05" && !i.management.Rental?
    ensures var (p, ctx), d := Heard(i), Decided(i); var (links, question) := OwnersFound(i, p, ctx);
      && d == p.(links := links, physical := d.physical, physicalSub := d.physicalSub, ownerFile := d.ownerFile, moveAllowed := d.moveAllowed, cases := d.cases)
      && (match question
          case None => d.physical == Some("05") && d.physicalSub == p.subfolder && d.ownerFile.None? && d.moveAllowed
                       && Hinted(i, p, p.(cases := d.cases))
          case Some(c) => d.cases == [c] && d.moveAllowed == !i.existing
                          && (if c.misc.Some? then d.physical == Some("06") && d.physicalSub == c.misc else d.physical == Some("05") && d.physicalSub == p.subfolder)
                          && d.ownerFile == if links == [] then c.file else None)
  {
    hide Base, AfterStage3, AfterSender, Checked;
    StartsBlank(i);
    HintIs(i);
  }

  // ---------------------------------------------------------------- rented houses

  ghost predicate OwnerNamed(i: Input, ctx: Context) {
    exists o :: o in ctx.owners && o in i.objectOwners
  }

  ghost predicate StrangerNamed(i: Input, ctx: Context) {
    exists o :: o in ctx.owners && o !in i.objectOwners
  }

  ghost predicate Linked(links: seq<Link>, o: nat) {
    exists l :: l in links && l.owner == o
  }

  lemma {:induction false} PartIs(ids: seq<nat>, among: seq<nat>, inside: bool)
    ensures forall o :: o in Part(ids, among, inside) <==> o in ids && (o in among) == inside
  {
    if ids != [] {
      PartIs(ids[..|ids| - 1], among, inside);
      assert ids == ids[..|ids| - 1] + [ids[|ids| - 1]];
    }
  }

  lemma TargetsAre(i: Input, ctx: Context)
    ensures forall o :: o in Targets(i, ctx) <==> o in i.objectOwners && (o in ctx.owners || !OwnerNamed(i, ctx))
    ensures Part(ctx.owners, i.objectOwners, false) != [] <==> StrangerNamed(i, ctx)
    ensures Part(ctx.owners, i.objectOwners, true) != [] <==> OwnerNamed(i, ctx)
    ensures Targets(i, ctx) != [] <==> i.objectOwners != []
    ensures !OwnerNamed(i, ctx) ==> Targets(i, ctx) == i.objectOwners
  {
    PartIs(ctx.owners, i.objectOwners, true);
    PartIs(ctx.owners, i.objectOwners, false);
    var yes, no := Part(ctx.owners, i.objectOwners, true), Part(ctx.owners, i.objectOwners, false);
    if yes != [] { assert yes[0] in yes; }
    if no != [] { assert no[0] in no; }
    if i.objectOwners != [] { assert i.objectOwners[0] in i.objectOwners; }
  }

  /** An owner's document in a rented house goes to the file of the house. It is linked to the owners of the house it names,
    * or to all of them; only the first link carries it. Without an owner, with a stranger or for a change of ownership it
    * asks, and the links are suggestions. */
  lemma RentalDocument(i: Input)
    requires !Waits(i) && Fileable(i, Heard(i).0) && FileOf(Heard(i).0.category.value) == "05" && i.management.Rental?
    ensures var (p, ctx), d := Heard(i), Decided(i); var clear := i.objectOwners != [] && !StrangerNamed(i, ctx) && !IsOwnership(p.documentType);
      && d == p.(physical := Some("05"), physicalSub := p.subfolder, ownerFile := Some(i.objectFile), links := d.links, moveAllowed := d.moveAllowed, cases := d.cases)
      && (forall o :: Linked(d.links, o) <==> o in i.objectOwners && (o in ctx.owners || !OwnerNamed(i, ctx)))
      && (forall k :: 0 <= k < |d.links| ==> d.links[k] == Link(d.links[k].owner, None, None, i.objectFile, p.subfolder, p.documentType, None,
            if !clear then 0.7 else if OwnerNamed(i, ctx) || |i.objectOwners| == 1 then 1.0 else 0.9, if clear then Confirmed else Suggested, k == 0))
      && (if clear then d.moveAllowed && Hinted(i, p, p.(cases := d.cases))
          else d.moveAllowed == !i.existing
               && d.cases == [Case(if i.objectOwners != [] then OwnerCandidates else Unclear,
                                   if i.objectOwners == [] then "no_owner_in_object" else if StrangerNamed(i, ctx) then "owner_mismatch" else "ownership_document",
                                   Some(i.objectFile), None, false, None)])
  {
    hide Base, AfterStage3, AfterSender, RentalDoc, Targets, Part, IsOwnership, Linked, OwnerNamed, StrangerNamed;
    StartsBlank(i);
    HintIs(i);
    var (p, ctx) := Heard(i);
    RentalFiled(i, p, ctx);
  }

  lemma RentalFiled(i: Input, p: Plan, ctx: Context)
    requires Blank(p)
    ensures var d := RentalDoc(i, p, ctx); var clear := i.objectOwners != [] && !StrangerNamed(i, ctx) && !IsOwnership(p.documentType);
      && d == p.(physical := Some("05"), physicalSub := p.subfolder, ownerFile := Some(i.objectFile), links := d.links, moveAllowed := d.moveAllowed, cases := d.cases)
      && (forall o :: Linked(d.links, o) <==> o in i.objectOwners && (o in ctx.owners || !OwnerNamed(i, ctx)))
      && (forall k :: 0 <= k < |d.links| ==> d.links[k] == Link(d.links[k].owner, None, None, i.objectFile, p.subfolder, p.documentType, None,
            if !clear then 0.7 else if OwnerNamed(i, ctx) || |i.objectOwners| == 1 then 1.0 else 0.9, if clear then Confirmed else Suggested, k == 0))
      && (if clear then d.moveAllowed && d.cases == []
          else d.moveAllowed == !i.existing
               && d.cases == [Case(if i.objectOwners != [] then OwnerCandidates else Unclear,
                                   if i.objectOwners == [] then "no_owner_in_object" else if StrangerNamed(i, ctx) then "owner_mismatch" else "ownership_document",
                                   Some(i.objectFile), None, false, None)])
  {
    hide Targets, Part, IsOwnership, Linked;
    TargetsAre(i, ctx);
    RentalOwners(i, p, Targets(i, ctx), 0.7, Suggested);
    RentalOwners(i, p, Targets(i, ctx), if OwnerNamed(i, ctx) || |Targets(i, ctx)| == 1 then 1.0 else 0.9, Confirmed);
  }

  lemma RentalOwners(i: Input, p: Plan, targets: seq<nat>, confidence: real, status: Status)
    ensures forall o :: Linked(RentalLinks(i, p, targets, confidence, status), o) <==> o in targets
  {
    var links := RentalLinks(i, p, targets, confidence, status);
    forall o | o in targets ensures Linked(links, o) {
      var k :| 0 <= k < |targets| && targets[k] == o;
      assert links[k] in links;
    }
  }

  // ---------------------------------------------------------------- master documents

  /** The subfolder of a master document is the one decided or, without any, that of its type, as far as the catalogue
    * knows it in this category. */
  ghost predicate SubfolderOf(i: Input, p: Plan, category: string, sub: Option<string>) {
    && (sub.Some? && sub.value != "" ==> i.known(category, sub.value))
    && (sub.Some? ==> sub == p.subfolder || (p.subfolder.None? && TypesSub(i, p, category) == sub))
    && (sub.None? ==> (p.subfolder.Some? ==> p.subfolder.value != "" && !i.known(category, p.subfolder.value))
                      && (p.subfolder.None? && TypesSub(i, p, category).Some? ==>
                            TypesSub(i, p, category).value != "" && !i.known(category, TypesSub(i, p, category).value)))
  }

  function TypesSub(i: Input, p: Plan, category: string): Option<string> {
    if p.documentType.Some? && p.documentType.value != "" && i.types(p.documentType.value).Some? && i.types(p.documentType.value).value.category == category
    then i.types(p.documentType.value).value.subfolder else None
  }

  /** What the owner checks find for the pages of a segment. */
  function FoundOn(i: Input, p: Plan, s: Stretch): (seq<Link>, Option<Case>) {
    Checked(i.parties, Frame(Some(s.subfolder), Some(s.documentType), Some(s.pages)), i.segmentUnits(s.pages), i.segmentOwners(s.pages), p.period)
  }

  ghost predicate LinkedOn(i: Input, p: Plan, s: Stretch, l: Link) {
    exists m :: m in FoundOn(i, p, s).0 && l == m.(primary := false, status := if i.segmentsReview then Suggested else m.status)
  }

  /** A segment asks its own question about its pages, or proposes itself where segments are reviewed. */
  ghost predicate AskedOn(i: Input, p: Plan, s: Stretch, c: Case) {
    match FoundOn(i, p, s).1
    case Some(q) => c == q.(misc := None, pages := Some(s.pages))
    case None => i.segmentsReview && c == Case(OwnerCandidates, "segment_proposed", None, None, false, Some(s.pages))
  }

  ghost predicate OnAny(i: Input, p: Plan, ss: seq<Stretch>, l: Link) {
    exists k :: 0 <= k < |ss| && LinkedOn(i, p, ss[k], l)
  }

  ghost predicate AskedOnAny(i: Input, p: Plan, ss: seq<Stretch>, c: Case) {
    exists k :: 0 <= k < |ss| && AskedOn(i, p, ss[k], c)
  }

  lemma OneMoreStretch(i: Input, p: Plan, ss: seq<Stretch>)
    requires ss != []
    ensures forall l :: OnAny(i, p, ss, l) <==> OnAny(i, p, ss[..|ss| - 1], l) || LinkedOn(i, p, ss[|ss| - 1], l)
    ensures forall c :: AskedOnAny(i, p, ss, c) <==> AskedOnAny(i, p, ss[..|ss| - 1], c) || AskedOn(i, p, ss[|ss| - 1], c)
  {
    hide LinkedOn, AskedOn;
    var before := ss[..|ss| - 1];
    assert forall k :: 0 <= k < |before| ==> before[k] == ss[k];
  }

  lemma LinksOfSegment(i: Input, p: Plan, s: Stretch)
    ensures forall l :: l in SegmentLinks(i, FoundOn(i, p, s).0) <==> LinkedOn(i, p, s, l)
  {
    hide FoundOn;
    var found := FoundOn(i, p, s).0;
    var links := SegmentLinks(i, found);
    forall l | LinkedOn(i, p, s, l) ensures l in links {
      var m :| m in found && l == m.(primary := false, status := if i.segmentsReview then Suggested else m.status);
      var k :| 0 <= k < |found| && found[k] == m;
      assert links[k] == l;
    }
    forall l | l in links ensures LinkedOn(i, p, s, l) {
      var k :| 0 <= k < |links| && links[k] == l;
      assert found[k] in found;
    }
  }

  /** Segments only add links and cases. */
  lemma {:induction false} StaysPut(i: Input, p: Plan, ss: seq<Stretch>)
    ensures var q := WithSegments(i, p, ss); q == p.(links := q.links, cases := q.cases)
    decreases |ss|
  {
    hide SegmentChecked;
    if ss != [] { StaysPut(i, p, ss[..|ss| - 1]); }
  }

  lemma {:induction false} SegmentsAre(i: Input, p: Plan, ss: seq<Stretch>)
    requires p.links == [] && p.cases == []
    ensures var q := WithSegments(i, p, ss);
      (forall l :: l in q.links <==> OnAny(i, p, ss, l)) && (forall c :: c in q.cases <==> AskedOnAny(i, p, ss, c))
    decreases |ss|
  {
    hide OnAny, AskedOnAny, LinkedOn, SegmentLinks, Checked;
    if ss == [] {
      NothingOn(i, p);
    } else {
      SegmentsAre(i, p, ss[..|ss| - 1]);
      OneMoreStretch(i, p, ss);
      LinksOfSegment(i, p, ss[|ss| - 1]);
      SamePeriod(i, p, ss[..|ss| - 1]);
    }
  }

  lemma NothingOn(i: Input, p: Plan)
    ensures forall l :: !OnAny(i, p, [], l)
    ensures forall c :: !AskedOnAny(i, p, [], c)
  {
  }

  /** A master document stays in its category and moves there at once; every segment gets the links the checks find for its
    * pages, none of which carries the document, and its question. */
  lemma MasterDocument(i: Input)
    requires !Waits(i) && Fileable(i, Heard(i).0) && FileOf(Heard(i).0.category.value) in {"01", "02", "03"}
    ensures var p, d := Heard(i).0, Decided(i); var ss := Stretches(i.hits, p.documentType);
      && d == p.(physical := p.category, physicalSub := d.subfolder, subfolder := d.subfolder, links := d.links, cases := d.cases)
      && d.moveAllowed && SubfolderOf(i, p, p.category.value, d.subfolder)
      && (forall l :: l in d.links <==> OnAny(i, p, ss, l))
      && if exists c :: AskedOnAny(i, p, ss, c) then forall c :: c in d.cases <==> AskedOnAny(i, p, ss, c) else Hinted(i, p, p.(cases := d.cases))
  {
    hide Base, AfterStage3, AfterSender, WithSegments, MasterSub, OnAny, AskedOnAny;
    StartsBlank(i);
    HintIs(i);
    var p := Heard(i).0;
    var sub, ss := MasterSub(i, p, p.category.value), Stretches(i.hits, p.documentType);
    var q := p.(subfolder := sub, physical := p.category, physicalSub := sub);
    StaysPut(i, q, ss);
    SegmentsAre(i, q, ss);
    MasterSubIs(i, p, p.category.value);
    SamePages(i, p, q, ss);
    var cases := WithSegments(i, q, ss).cases;
    if cases != [] { assert cases[0] in cases; }
  }

  lemma SamePages(i: Input, p: Plan, q: Plan, ss: seq<Stretch>)
    requires p.period == q.period
    ensures forall l :: OnAny(i, p, ss, l) <==> OnAny(i, q, ss, l)
    ensures forall c :: AskedOnAny(i, p, ss, c) <==> AskedOnAny(i, q, ss, c)
  {
    hide Checked;
    forall s: Stretch, l: Link ensures LinkedOn(i, p, s, l) <==> LinkedOn(i, q, s, l) {}
    forall s: Stretch, c: Case ensures AskedOn(i, p, s, c) <==> AskedOn(i, q, s, c) {}
  }

  lemma MasterSubIs(i: Input, p: Plan, category: string)
    ensures SubfolderOf(i, p, category, MasterSub(i, p, category))
  {
  }

  // ---------------------------------------------------------------- the place

  /** A document is filed in its own category, or in 06: when it is not sure, belongs there, lacks its year, is a tenant's in
    * an owners' association, or the owner checks leave a question that has to wait. */
  lemma PlaceOfDocument(i: Input)
    requires !Waits(i)
    ensures var (p, ctx), d := Heard(i), Decided(i);
      if Fileable(i, p) && !(p.category == Some("04") && i.management.Weg?) && !(FileOf(p.category.value) == "05" && OwnersAsked(i, p, ctx))
      then d.physical == Some(FileOf(p.category.value))
      else d.physical == Some("06")
  {
    hide Heard, Decided, OwnersFound, Stretches, Targets, OnAny, AskedOnAny, Hinted, SubfolderOf, StrangerNamed, OwnerNamed, IsOwnership, LacksYear;
    var p := Heard(i).0;
    if !Sure(i, p) {
      UnsureWaits(i);
    } else if p.category == Some("06") {
      MiscellaneousAsks(i);
    } else if LacksYear(i, p) {
      YearIsAsked(i);
    } else if p.category == Some("04") {
      TenantDocument(i);
    } else if FileOf(p.category.value) != "05" {
      MasterDocument(i);
    } else if i.management.Rental? {
      RentalDocument(i);
    } else {
      OwnerDocument(i);
    }
  }
}
