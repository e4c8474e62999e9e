/** The decision about a document (src/apps/classification/decide.py, decide and _decide_core): where it is filed, which
  * links and cases it gets, and whether its drive file may be moved. Database contents, switches and the results of the
  * three stages are inputs. */
module Decide {
  import opened Wrappers
  import opened OwnerChecks
  import opened Segments

  // ---------------------------------------------------------------- inputs

  datatype Decider = Stage1By | Stage2By | Stage3By | EmailAutoBy

  datatype Combined = Combined(category: Option<string>, confidence: real, decidedBy: Decider, stage3Required: bool)

  datatype Stage1 = Stage1(category: Option<string>, subfolder: Option<string>, documentType: Option<string>, subtype: Option<string>)

  datatype Stage2 = Stage2(coldStart: bool, top: Option<string>, subfolder: Option<string>, documentType: Option<string>)

  datatype Stage3 = Stage3(failed: bool, category: Option<string>, subfolder: Option<string>, documentType: Option<string>, year: Option<nat>,
                           relatedForced: bool)

  datatype Party = OwnerParty | TenantParty

  /** An e-mail sender found among owners or tenants; without an id the address is ambiguous. */
  datatype Sender = Sender(party: Party, id: Option<nat>)

  datatype TypeInfo = TypeInfo(requiresPeriod: bool, category: string, subfolder: Option<string>)

  datatype Management = Weg | Rental | OtherManagement

  datatype Context = Context(owners: seq<nat>, units: seq<nat>, tenants: seq<nat>)

  datatype Input = Input(
    ctx: Context, s1: Stage1, s2: Option<Stage2>, s3: Option<Stage3>, combined: Combined, after: Combined, aiDecided: bool,
    period: Period, stage3Enabled: bool, existing: bool, threshold: real, sender: Option<Sender>, email: bool, autoMisc: bool,
    segmentsReview: bool, sample: bool, management: Management, parties: Parties, objectFile: nat, objectOwners: seq<nat>, ownUnits: nat -> set<nat>,
    known: (string, string) -> bool, types: string -> Option<TypeInfo>, hits: Hits,
    segmentUnits: ((int, int)) -> seq<nat>, segmentOwners: ((int, int)) -> seq<nat>)

  datatype Plan = Plan(
    category: Option<string>, subfolder: Option<string>, documentType: Option<string>, confidence: real, decidedBy: Decider,
    sender: Option<Sender>, period: Period, physical: Option<string>, physicalSub: Option<string>, links: seq<Link>, tenants: seq<nat>,
    cases: seq<Case>, moveAllowed: bool, ownerFile: Option<nat>, stage3Required: bool, emailAuto: bool)

  // ---------------------------------------------------------------- the three stages

  /** A value that counts only when it comes from the same category. */
  function IfSame(a: Option<string>, b: Option<string>, value: Option<string>): Option<string> {
    if a == b then value else None
  }

  function Base(i: Input): Plan {
    var c := i.combined;
    var sub, dtype := IfSame(i.s1.category, c.category, i.s1.subfolder), IfSame(i.s1.category, c.category, i.s1.documentType);
    var fill := i.s2.Some? && !i.s2.value.coldStart && c.category == i.s2.value.top && sub.None?;
    Plan(c.category, if fill then i.s2.value.subfolder else sub, if fill then i.s2.value.documentType else dtype, c.confidence, c.decidedBy,
         None, i.period, None, None, [], [], [], true, None, false, false)
  }

  /** An empty code counts as none. */
  function Given(code: Option<string>): Option<string> { if code == Some("") then None else code }

  function AfterStage3(i: Input, p: Plan): Plan {
    if i.s3.None? then p
    else
      var s3 := i.s3.value;
      var q := p.(category := i.after.category, confidence := i.after.confidence, decidedBy := i.after.decidedBy);
      if i.aiDecided then
        q.(subfolder := s3.subfolder, documentType := s3.documentType,
           period := if p.period.year.None? && s3.year.Some? then p.period.(year := s3.year) else p.period)
      else if q.category == s3.category then
        q.(subfolder := if q.subfolder.None? then Given(s3.subfolder) else q.subfolder,
           documentType := if q.documentType.None? then Given(s3.documentType) else q.documentType)
      else q
  }

  // ---------------------------------------------------------------- an e-mail from an owner or tenant

  predicate Overridable(category: Option<string>) {
    category.None? || category.value in {"04", "05", "06"}
  }

  function First(id: nat, ids: seq<nat>): seq<nat> { [id] + Without(id, ids) }

  function Without(id: nat, ids: seq<nat>): seq<nat> {
    if ids == [] then [] else Without(id, ids[..|ids| - 1]) + (if ids[|ids| - 1] == id then [] else [ids[|ids| - 1]])
  }

  function Within(units: seq<nat>, own: set<nat>): seq<nat> {
    if units == [] then [] else Within(units[..|units| - 1], own) + (if units[|units| - 1] in own then [units[|units| - 1]] else [])
  }

  const SENDER_CONFIDENCE := 0.95

  function AtLeast(a: real, b: real): real { if a >= b then a else b }

  predicate SenderCounts(i: Input, p: Plan) {
    i.sender.Some? && i.sender.value.id.Some? && (Overridable(p.category) || p.confidence < i.threshold)
  }

  function OwnerMail(i: Input, p: Plan, id: nat): (Plan, Context) {
    var unknown := p.category != Some("05") || Given(p.subfolder).None?;
    var sub, dtype := if unknown then Some("08") else p.subfolder, if unknown then Some("schriftverkehr") else p.documentType;
    (p.(category := Some("05"), subfolder := sub, documentType := dtype, confidence := AtLeast(p.confidence, SENDER_CONFIDENCE),
        decidedBy := Stage1By, sender := i.sender),
     i.ctx.(owners := First(id, i.ctx.owners), units := if IsOwnership(dtype) then i.ctx.units else Within(i.ctx.units, i.ownUnits(id))))
  }

  function TenantMail(i: Input, p: Plan, id: nat): (Plan, Context) {
    (p.(category := Some("04"), subfolder := None, documentType := if p.category != Some("04") then Some("mieterkorrespondenz") else p.documentType,
        confidence := AtLeast(p.confidence, SENDER_CONFIDENCE), decidedBy := Stage1By, sender := i.sender),
     i.ctx.(tenants := First(id, i.ctx.tenants)))
  }

  function AfterSender(i: Input, p: Plan): (Plan, Context) {
    if !SenderCounts(i, p) then (if i.sender.Some? then p.(sender := i.sender) else p, i.ctx)
    else if i.sender.value.party.OwnerParty? then OwnerMail(i, p, i.sender.value.id.value)
    else TenantMail(i, p, i.sender.value.id.value)
  }

  /** The party is named first and once, and the others stay. */
  ghost predicate NamedFirst(id: nat, before: seq<nat>, after: seq<nat>) {
    after != [] && after[0] == id && id !in after[1..] && forall n :: n in after <==> n == id || n in before
  }

  lemma {:induction false} WithoutIs(id: nat, ids: seq<nat>)
    ensures forall n :: n in Without(id, ids) <==> n in ids && n != id
  {
    if ids != [] {
      WithoutIs(id, ids[..|ids| - 1]);
      assert ids == ids[..|ids| - 1] + [ids[|ids| - 1]];
    }
  }

  lemma FirstIs(id: nat, ids: seq<nat>)
    ensures NamedFirst(id, ids, First(id, ids))
  {
    WithoutIs(id, ids);
    assert First(id, ids)[1..] == Without(id, ids);
  }

  lemma {:induction false} WithinIs(units: seq<nat>, own: set<nat>)
    ensures forall u :: u in Within(units, own) <==> u in units && u in own
  {
    if units != [] {
      WithinIs(units[..|units| - 1], own);
      assert units == units[..|units| - 1] + [units[|units| - 1]];
    }
  }

  /** What a sender can change. A safe decision for another file stays as it is, and so does everything when the address is
    * unknown or ambiguous; confidence never falls. An owner's mail ends in 05 with a subfolder, about units of this owner
    * unless the document proves a change of ownership; a tenant's mail ends in 04. */
  lemma SenderFacts(i: Input, p: Plan)
    ensures var (q, ctx) := AfterSender(i, p);
      && (p.category.Some? && p.category.value in {"01", "02", "03"} && p.confidence >= i.threshold ==> q == p.(sender := q.sender) && ctx == i.ctx)
      && (i.sender.None? || i.sender.value.id.None? ==> q == p.(sender := q.sender) && ctx == i.ctx)
      && q.confidence >= p.confidence && (i.sender.Some? ==> q.sender == i.sender)
    ensures var (q, ctx) := AfterSender(i, p);
      SenderCounts(i, p) && i.sender.value.party.OwnerParty? ==>
        && q.category == Some("05") && q.subfolder.Some? && q.subfolder.value != "" && q.confidence >= SENDER_CONFIDENCE
        && (p.category == Some("05") && Given(p.subfolder).Some? ==> q.subfolder == p.subfolder && q.documentType == p.documentType)
        && NamedFirst(i.sender.value.id.value, i.ctx.owners, ctx.owners) && ctx.tenants == i.ctx.tenants
        && forall u :: u in ctx.units <==> u in i.ctx.units && (IsOwnership(q.documentType) || u in i.ownUnits(i.sender.value.id.value))
    ensures var (q, ctx) := AfterSender(i, p);
      SenderCounts(i, p) && i.sender.value.party.TenantParty? ==>
        && q.category == Some("04") && q.subfolder.None? && (p.category == Some("04") ==> q.documentType == p.documentType)
        && q.confidence >= SENDER_CONFIDENCE && NamedFirst(i.sender.value.id.value, i.ctx.tenants, ctx.tenants)
        && ctx.owners == i.ctx.owners && ctx.units == i.ctx.units
    ensures SenderCounts(i, p) && i.threshold <= SENDER_CONFIDENCE ==> !Uncertain(i, AfterSender(i, p).0)
  {
    hide First, Within, IsOwnership, NamedFirst;
    if SenderCounts(i, p) {
      var id := i.sender.value.id.value;
      FirstIs(id, i.ctx.owners);
      FirstIs(id, i.ctx.tenants);
      WithinIs(i.ctx.units, i.ownUnits(id));
    }
  }

  // ---------------------------------------------------------------- filing

  function Question(kind: CaseKind, subtype: string, misc: Option<string>): Case {
    Case(kind, subtype, None, misc, false, None)
  }

  predicate Uncertain(i: Input, p: Plan) { p.category.None? || p.confidence < i.threshold }

  /** An e-mail nobody can place goes to 06/01 without a case, if the switch says so and stage 3 did not merely fail for now. */
  predicate MailToMisc(i: Input) {
    i.email && i.autoMisc && !(i.s3.Some? && i.s3.value.failed)
  }

  function BelowThreshold(i: Input, p: Plan): Plan {
    var q := p.(physical := Some("06"), physicalSub := Some("01"), category := Some("06"), subfolder := Some("01"), documentType := None);
    if MailToMisc(i) then q.(decidedBy := EmailAutoBy, emailAuto := true, moveAllowed := true)
    else if i.existing then q.(moveAllowed := false, cases := p.cases + [Question(MoveProposal, "below_threshold", Some("01"))])
    else q.(cases := p.cases + [Question(Unclear, "below_threshold", Some("01"))])
  }

  function MiscSub(i: Input): string {
    if i.s1.category == Some("06") && i.s1.subfolder.Some? && i.s1.subfolder.value != "" && i.known("06", i.s1.subfolder.value)
    then i.s1.subfolder.value else "01"
  }

  function MiscSubtype(i: Input, sub: string): string {
    if i.s1.subtype.Some? && i.s1.subtype.value != "" then i.s1.subtype.value else if sub == "04" then "foreign_object" else "manual_check"
  }

  function Misc(i: Input, p: Plan): Plan {
    var sub := MiscSub(i);
    p.(physical := Some("06"), physicalSub := Some(sub), cases := p.cases + [Question(Unclear, MiscSubtype(i, sub), Some(sub))],
       moveAllowed := sub == "03" || sub == "04" || !i.existing)
  }

  function TypeOf(i: Input, p: Plan): Option<TypeInfo> {
    if p.documentType.Some? && p.documentType.value != "" then i.types(p.documentType.value) else None
  }

  predicate YearMissing(i: Input, p: Plan) {
    TypeOf(i, p).Some? && TypeOf(i, p).value.requiresPeriod && p.period.year.None?
  }

  function NoYear(i: Input, p: Plan): Plan {
    p.(physical := Some("06"), physicalSub := Some("02"), cases := p.cases + [Question(MissingMetadata, "period_year", Some("02"))],
       moveAllowed := !i.existing)
  }

  // ---------------------------------------------------------------- master documents

  function MasterSub(i: Input, p: Plan, category: string): Option<string> {
    var t := TypeOf(i, p);
    var sub := if p.subfolder.None? && t.Some? && t.value.subfolder.Some? && t.value.category == category then t.value.subfolder else p.subfolder;
    if sub.Some? && sub.value != "" && !i.known(category, sub.value) then None else sub
  }

  function SegmentChecked(i: Input, p: Plan, s: Stretch): (seq<Link>, Option<Case>) {
    Checked(i.parties, Frame(Some(s.subfolder), Some(s.documentType), Some(s.pages)), i.segmentUnits(s.pages), i.segmentOwners(s.pages), p.period)
  }

  /** Links of a segment never carry the document. */
  function SegmentLinks(i: Input, links: seq<Link>): (r: seq<Link>)
    ensures |r| == |links| && forall k :: 0 <= k < |r| ==> !r[k].primary && r[k].file == links[k].file
  {
    seq(|links|, k requires 0 <= k < |links| =>
      if i.segmentsReview then links[k].(primary := false, status := Suggested) else links[k].(primary := false))
  }

  function SegmentCases(i: Input, s: Stretch, question: Option<Case>): seq<Case> {
    if question.Some? then [question.value.(misc := None, pages := Some(s.pages))]
    else if i.segmentsReview then [Case(OwnerCandidates, "segment_proposed", None, None, false, Some(s.pages))]
    else []
  }

  function WithSegments(i: Input, p: Plan, ss: seq<Stretch>): Plan {
    if ss == [] then p
    else
      var q, s := WithSegments(i, p, ss[..|ss| - 1]), ss[|ss| - 1];
      var (links, question) := SegmentChecked(i, p, s);
      q.(links := q.links + SegmentLinks(i, links), cases := q.cases + SegmentCases(i, s, question))
  }

  function Master(i: Input, p: Plan, category: string): Plan {
    var sub := MasterSub(i, p, category);
    WithSegments(i, p.(subfolder := sub, physical := Some(category), physicalSub := sub), Stretches(i.hits, p.documentType)).(moveAllowed := true)
  }

  // ---------------------------------------------------------------- tenants and owners

  function TenantDoc(i: Input, p: Plan, ctx: Context): Plan {
    var q := p.(physical := Some("04"), physicalSub := None, tenants := ctx.tenants);
    if i.management.Weg? then
      q.(physical := Some("06"), physicalSub := Some("02"), cases := p.cases + [Question(Unclear, "tenant_document_in_weg", Some("02"))],
         moveAllowed := !i.existing)
    else if ctx.tenants == [] then q.(cases := p.cases + [Question(Unclear, "tenant_unknown", None)], moveAllowed := !i.existing)
    else q
  }

  function Part(ids: seq<nat>, among: seq<nat>, inside: bool): seq<nat> {
    if ids == [] then []
    else Part(ids[..|ids| - 1], among, inside) + (if (ids[|ids| - 1] in among) == inside then [ids[|ids| - 1]] else [])
  }

  /** Recognised owners of the house, or all of them. */
  function Targets(i: Input, ctx: Context): seq<nat> {
    var recognized := Part(ctx.owners, i.objectOwners, true);
    if recognized != [] then recognized else i.objectOwners
  }

  function RentalLinks(i: Input, p: Plan, targets: seq<nat>, confidence: real, status: Status): (links: seq<Link>)
    ensures |links| == |targets|
    ensures forall k :: 0 <= k < |links| ==> links[k].file == i.objectFile && (links[k].primary <==> k == 0)
  {
    seq(|targets|, k requires 0 <= k < |targets| =>
      Link(targets[k], None, None, i.objectFile, p.subfolder, p.documentType, None, confidence, status, k == 0))
  }

  function RentalAsked(i: Input, p: Plan, foreign: seq<nat>): Plan {
    var subtype := if i.objectOwners == [] then "no_owner_in_object" else if foreign != [] then "owner_mismatch" else "ownership_document";
    p.(cases := p.cases + [Case(if i.objectOwners != [] then OwnerCandidates else Unclear, subtype, Some(i.objectFile), None, false, None)],
       moveAllowed := !i.existing)
  }

  function RentalDoc(i: Input, p: Plan, ctx: Context): Plan {
    var q := p.(physical := Some("05"), physicalSub := p.subfolder, ownerFile := Some(i.objectFile));
    var targets, foreign, recognized := Targets(i, ctx), Part(ctx.owners, i.objectOwners, false), Part(ctx.owners, i.objectOwners, true);
    if targets != [] && foreign == [] && !IsOwnership(p.documentType) then
      q.(links := RentalLinks(i, p, targets, if recognized != [] || |targets| == 1 then 1.0 else 0.9, Confirmed), moveAllowed := true)
    else RentalAsked(i, q.(links := RentalLinks(i, p, targets, 0.7, Suggested)), foreign)
  }

  function OwnerDoc(i: Input, p: Plan, ctx: Context): Plan {
    var (links, question) := Checked(i.parties, Frame(p.subfolder, p.documentType, None), ctx.units, ctx.owners, p.period);
    var q := p.(links := links, physical := Some("05"), physicalSub := p.subfolder);
    if question.None? then q
    else
      var c := question.value;
      var f := q.(cases := p.cases + [c], ownerFile := if links == [] && c.file.Some? then c.file else p.ownerFile, moveAllowed := !i.existing);
      if c.misc.Some? then f.(physical := Some("06"), physicalSub := c.misc) else f
  }

  // ---------------------------------------------------------------- the whole decision

  function Filed(i: Input, p: Plan, ctx: Context): Plan {
    if Uncertain(i, p) then BelowThreshold(i, p)
    else if p.category == Some("06") then Misc(i, p)
    else if YearMissing(i, p) then NoYear(i, p)
    else if p.category.value in {"01", "02", "03"} then Master(i, p, p.category.value)
    else if p.category == Some("04") then TenantDoc(i, p, ctx)
    else if i.management.Rental? then RentalDoc(i, p, ctx)
    else OwnerDoc(i, p, ctx)
  }

  function Core(i: Input): Plan {
    if i.combined.stage3Required && i.stage3Enabled then Base(i).(stage3Required := true)
    else
      var (p, ctx) := AfterSender(i, AfterStage3(i, Base(i)));
      Filed(i, p, ctx)
  }

  /** A hint that does not hold up the filing. */
  function Hint(i: Input, p: Plan): seq<Case> {
    if i.s3.None? || p.category.None? || p.category == Some("06") || p.cases != [] then []
    else if i.s3.value.relatedForced then [Case(MoveProposal, "ai_object_unverified", None, None, true, None)]
    else if p.decidedBy.Stage3By? && i.sample then [Case(MoveProposal, "ai_sample", None, None, true, None)]
    else []
  }

  function Decided(i: Input): Plan {
    var p := Core(i);
    p.(cases := p.cases + Hint(i, p))
  }

  // ---------------------------------------------------------------- what every decision keeps

  /** Nothing goes to 06 without a case, except an e-mail filed automatically. */
  ghost predicate MiscHasCase(p: Plan) {
    p.physical == Some("06") ==> p.cases != [] || p.emailAuto
  }

  ghost predicate Serious(p: Plan) {
    exists k :: 0 <= k < |p.cases| && !p.cases[k].informational
  }

  /** Where an existing file may be moved although a question about it is open: 06/03, 06/04 and the master files. */
  ghost predicate MoveException(p: Plan) {
    (p.physical == Some("06") && (p.physicalSub == Some("03") || p.physicalSub == Some("04")))
    || (p.physical.Some? && p.physical.value in {"01", "02", "03"} && forall k :: 0 <= k < |p.cases| ==> p.cases[k].informational || p.cases[k].pages.Some?)
  }

  ghost predicate StaysUnderReview(i: Input, p: Plan) {
    i.existing && Serious(p) && p.moveAllowed ==> MoveException(p)
  }

  /** A document in 05 has one owner file: that of its one carrying link, or the one named for it, and these agree. */
  ghost predicate OneOwnerFile(p: Plan) {
    p.physical == Some("05") ==>
      && (Primaries(p.links) == 1 || (Primaries(p.links) == 0 && p.ownerFile.Some?))
      && forall k :: 0 <= k < |p.links| && p.links[k].primary && p.ownerFile.Some? ==> p.links[k].file == p.ownerFile.value
  }

  /** Master documents are carried by no owner file. */
  ghost predicate MasterUncarried(p: Plan) {
    p.physical.Some? && p.physical.value in {"01", "02", "03"} ==> forall k :: 0 <= k < |p.links| ==> !p.links[k].primary
  }

  ghost predicate Promises(i: Input, p: Plan) {
    p.physical.Some? && MiscHasCase(p) && StaysUnderReview(i, p) && OneOwnerFile(p) && MasterUncarried(p)
  }

  /** What reaches the filing step has no links, cases or owner file yet. */
  ghost predicate Blank(p: Plan) {
    p.links == [] && p.cases == [] && p.ownerFile.None? && p.moveAllowed && !p.emailAuto && !p.stage3Required && p.physical.None?
  }

  lemma StartsBlank(i: Input)
    ensures Blank(Base(i)) && Blank(AfterStage3(i, Base(i))) && Blank(AfterSender(i, AfterStage3(i, Base(i))).0)
  {
    hide First, Without, Within, IsOwnership;
  }

  lemma NoPrimaries(links: seq<Link>)
    requires forall k :: 0 <= k < |links| ==> !links[k].primary
    ensures Primaries(links) == 0
  {
    if links != [] { NoPrimaries(links[..|links| - 1]); }
  }

  /** Every case of a master document concerns a segment. */
  lemma {:induction false} SegmentsFacts(i: Input, p: Plan, ss: seq<Stretch>)
    requires p.links == [] && p.cases == []
    ensures var q := WithSegments(i, p, ss);
      && (forall k :: 0 <= k < |q.links| ==> !q.links[k].primary)
      && (forall k :: 0 <= k < |q.cases| ==> q.cases[k].pages.Some?)
      && q.physical == p.physical && q.physicalSub == p.physicalSub && q.emailAuto == p.emailAuto && q.stage3Required == p.stage3Required
    decreases |ss|
  {
    hide SegmentChecked;
    if ss != [] { SegmentsFacts(i, p, ss[..|ss| - 1]); }
  }

  /** These pages are those of one of the stretches. */
  ghost predicate OnStretch(ss: seq<Stretch>, pages: Option<(int, int)>) {
    exists s :: 0 <= s < |ss| && pages == Some(ss[s].pages)
  }

  lemma {:induction false} SegmentsOnStretches(i: Input, p: Plan, ss: seq<Stretch>)
    requires p.links == [] && p.cases == []
    ensures var q := WithSegments(i, p, ss);
      (forall l :: l in q.links ==> OnStretch(ss, l.pages)) && (forall c :: c in q.cases ==> OnStretch(ss, c.pages))
    decreases |ss|
  {
    hide Checked, OnStretch, SegmentLinks;
    if ss != [] {
      var n := |ss| - 1;
      SegmentsOnStretches(i, p, ss[..n]);
      forall pages | OnStretch(ss[..n], pages) ensures OnStretch(ss, pages) { LongerList(ss, pages); }
      LastStretch(ss);
      ChecksKeepPages(i.parties, Frame(Some(ss[n].subfolder), Some(ss[n].documentType), Some(ss[n].pages)), i.segmentUnits(ss[n].pages),
                      i.segmentOwners(ss[n].pages), p.period);
      SamePeriod(i, p, ss[..n]);
      SegmentLinksKeepPages(i, SegmentChecked(i, WithSegments(i, p, ss[..n]), ss[n]).0, Some(ss[n].pages));
    }
  }

  lemma SegmentLinksKeepPages(i: Input, links: seq<Link>, pages: Option<(int, int)>)
    requires OnPages(links, pages)
    ensures OnPages(SegmentLinks(i, links), pages)
  {
  }

  lemma {:induction false} SamePeriod(i: Input, p: Plan, ss: seq<Stretch>)
    ensures WithSegments(i, p, ss).period == p.period
    decreases |ss|
  {
    hide SegmentChecked;
    if ss != [] { SamePeriod(i, p, ss[..|ss| - 1]); }
  }

  lemma LongerList(ss: seq<Stretch>, pages: Option<(int, int)>)
    requires ss != [] && OnStretch(ss[..|ss| - 1], pages)
    ensures OnStretch(ss, pages)
  {
    var s :| 0 <= s < |ss| - 1 && pages == Some(ss[..|ss| - 1][s].pages);
    assert pages == Some(ss[s].pages);
  }

  lemma LastStretch(ss: seq<Stretch>)
    requires ss != []
    ensures OnStretch(ss, Some(ss[|ss| - 1].pages))
  {
  }

  predicate NoPageShared(a: Option<(int, int)>, b: Option<(int, int)>) {
    a.Some? && b.Some? && (a.value.1 < b.value.0 || b.value.1 < a.value.0)
  }

  /** The links of a master document belong to its segments, and links of different segments share no page. */
  lemma MasterCuts(i: Input, p: Plan, category: string, k: nat, l: nat)
    requires p.links == [] && p.cases == [] && Rising(i.hits.pages)
    requires k < |Master(i, p, category).links| && l < |Master(i, p, category).links|
    ensures var q := Master(i, p, category);
      && OnStretch(Stretches(i.hits, p.documentType), q.links[k].pages)
      && (q.links[k].pages == q.links[l].pages || NoPageShared(q.links[k].pages, q.links[l].pages))
  {
    hide WithSegments, MasterSub, SegmentsOf;
    var sub, ss, q := MasterSub(i, p, category), Stretches(i.hits, p.documentType), Master(i, p, category);
    SegmentsOnStretches(i, p.(subfolder := sub, physical := Some(category), physicalSub := sub), ss);
    StretchesFacts(i.hits, p.documentType);
    assert q.links[k] in q.links && q.links[l] in q.links;
    assert OnStretch(ss, q.links[k].pages) && OnStretch(ss, q.links[l].pages);
    var a :| 0 <= a < |ss| && q.links[k].pages == Some(ss[a].pages);
    var b :| 0 <= b < |ss| && q.links[l].pages == Some(ss[b].pages);
  }

  lemma MasterKeeps(i: Input, p: Plan, category: string)
    requires Blank(p) && category in {"01", "02", "03"}
    ensures Promises(i, Master(i, p, category)) && !Master(i, p, category).stage3Required
  {
    hide WithSegments, MasterSub;
    var sub := MasterSub(i, p, category);
    SegmentsFacts(i, p.(subfolder := sub, physical := Some(category), physicalSub := sub), Stretches(i.hits, p.documentType));
  }

  lemma RentalPrimaries(i: Input, p: Plan, targets: seq<nat>, confidence: real, status: Status)
    ensures Primaries(RentalLinks(i, p, targets, confidence, status)) == if targets == [] then 0 else 1
  {
    GroupPrimaries(RentalLinks(i, p, targets, confidence, status), true);
  }

  lemma RentalKeeps(i: Input, p: Plan, ctx: Context)
    requires Blank(p)
    ensures Promises(i, RentalDoc(i, p, ctx)) && !RentalDoc(i, p, ctx).stage3Required
  {
    hide Targets, Part, IsOwnership, Primaries;
    var targets, recognized := Targets(i, ctx), Part(ctx.owners, i.objectOwners, true);
    RentalPrimaries(i, p, targets, if recognized != [] || |targets| == 1 then 1.0 else 0.9, Confirmed);
    RentalPrimaries(i, p, targets, 0.7, Suggested);
  }

  lemma OwnerKeeps(i: Input, p: Plan, ctx: Context)
    requires Blank(p)
    ensures Promises(i, OwnerDoc(i, p, ctx)) && !OwnerDoc(i, p, ctx).stage3Required
  {
    hide Checked;
    var f := Frame(p.subfolder, p.documentType, None);
    ChecksOneTarget(i.parties, f, ctx.units, ctx.owners, p.period);
    MiscIsNot(i, p, ctx);
  }

  /** No check sends an existing file to 06 and lets it move. */
  lemma MiscIsNot(i: Input, p: Plan, ctx: Context)
    requires Blank(p)
    ensures OwnerDoc(i, p, ctx).cases != [] ==> OwnerDoc(i, p, ctx).moveAllowed == !i.existing
    ensures OwnerDoc(i, p, ctx).physical == Some("05") || OwnerDoc(i, p, ctx).physical == Some("06")
  {
    hide Checked;
  }

  lemma OthersKeep(i: Input, p: Plan, ctx: Context)
    requires Blank(p)
    ensures Promises(i, BelowThreshold(i, p)) && Promises(i, Misc(i, p)) && Promises(i, NoYear(i, p)) && Promises(i, TenantDoc(i, p, ctx))
    ensures !BelowThreshold(i, p).stage3Required && !Misc(i, p).stage3Required && !NoYear(i, p).stage3Required && !TenantDoc(i, p, ctx).stage3Required
  {
    hide MailToMisc, MiscSub, MiscSubtype;
  }

  lemma FiledKeeps(i: Input, p: Plan, ctx: Context)
    requires Blank(p)
    ensures Promises(i, Filed(i, p, ctx)) && !Filed(i, p, ctx).stage3Required
  {
    hide BelowThreshold, Misc, NoYear, Master, TenantDoc, RentalDoc, OwnerDoc, Promises, TypeOf;
    OthersKeep(i, p, ctx);
    RentalKeeps(i, p, ctx);
    OwnerKeeps(i, p, ctx);
    if p.category.Some? && p.category.value in {"01", "02", "03"} { MasterKeeps(i, p, p.category.value); }
  }

  /** A hint holds nothing up. */
  lemma HintKeeps(i: Input, p: Plan)
    requires Promises(i, p)
    ensures Promises(i, p.(cases := p.cases + Hint(i, p)))
  {
  }

  /** Every decision that does not wait for stage 3: a place, a case for everything in 06 but automatic e-mail, no move under
    * review but in the named exceptions, one owner file in 05, none for master documents. */
  lemma DecisionKeepsPromises(i: Input)
    ensures Decided(i).stage3Required <==> i.combined.stage3Required && i.stage3Enabled
    ensures !Decided(i).stage3Required ==> Promises(i, Decided(i))
  {
    hide Base, AfterStage3, AfterSender, Filed, Promises, Hint;
    StartsBlank(i);
    var (p, ctx) := AfterSender(i, AfterStage3(i, Base(i)));
    FiledKeeps(i, p, ctx);
    if !(i.combined.stage3Required && i.stage3Enabled) { HintKeeps(i, Filed(i, p, ctx)); }
  }

  // ---------------------------------------------------------------- the decision as it is built up

  /** The decision object, its fields kept in one record, is filled step by step; an e-mail's sender corrects the context. */
  class Draft {
    var plan: Plan
    var ctx: Context

    constructor (i: Input)
      ensures plan == Base(i) && ctx == i.ctx
    {
      var c := i.combined;
      var same := i.s1.category == c.category;
      plan := Plan(c.category, if same then i.s1.subfolder else None, if same then i.s1.documentType else None, c.confidence, c.decidedBy,
                   None, i.period, None, None, [], [], [], true, None, false, false);
      ctx := i.ctx;
      new;
      if i.s2.Some? && !i.s2.value.coldStart && plan.category == i.s2.value.top && plan.subfolder.None? {
        plan := plan.(subfolder := i.s2.value.subfolder, documentType := i.s2.value.documentType);
      }
    }

    method ApplyStage3(i: Input)
      modifies this`plan
      ensures plan == AfterStage3(i, old(plan))
    {
      if i.s3.None? { return; }
      var s3 := i.s3.value;
      plan := plan.(category := i.after.category, confidence := i.after.confidence, decidedBy := i.after.decidedBy);
      if i.aiDecided {
        plan := plan.(subfolder := s3.subfolder, documentType := s3.documentType);
        if plan.period.year.None? && s3.year.Some? { plan := plan.(period := plan.period.(year := s3.year)); }
      } else if plan.category == s3.category {
        if plan.subfolder.None? && s3.subfolder != Some("") { plan := plan.(subfolder := s3.subfolder); }
        if plan.documentType.None? && s3.documentType != Some("") { plan := plan.(documentType := s3.documentType); }
      }
    }

    method ApplySender(i: Input)
      requires ctx == i.ctx
      modifies this
      ensures (plan, ctx) == AfterSender(i, old(plan))
    {
      hide First, Within, IsOwnership;
      if i.sender.None? { return; }
      var s := i.sender.value;
      if s.id.None? || !(Overridable(plan.category) || plan.confidence < i.threshold) {
        plan := plan.(sender := i.sender);
        return;
      }
      if s.party.OwnerParty? {
        ctx := ctx.(owners := First(s.id.value, ctx.owners));
        if plan.category != Some("05") || plan.subfolder.None? || plan.subfolder.value == "" {
          plan := plan.(subfolder := Some("08"), documentType := Some("schriftverkehr"));
        }
        plan := plan.(category := Some("05"));
        if !IsOwnership(plan.documentType) { ctx := ctx.(units := Within(ctx.units, i.ownUnits(s.id.value))); }
      } else {
        ctx := ctx.(tenants := First(s.id.value, ctx.tenants));
        if plan.category != Some("04") { plan := plan.(documentType := Some("mieterkorrespondenz")); }
        plan := plan.(category := Some("04"), subfolder := None);
      }
      plan := plan.(confidence := AtLeast(plan.confidence, SENDER_CONFIDENCE), decidedBy := Stage1By, sender := i.sender);
    }

    method Place(category: string, subfolder: Option<string>)
      modifies this`plan
      ensures plan == old(plan).(physical := Some(category), physicalSub := subfolder)
    {
      plan := plan.(physical := Some(category), physicalSub := subfolder);
    }

    method AddCase(c: Case)
      modifies this`plan
      ensures plan == old(plan).(cases := old(plan).cases + [c])
    {
      plan := plan.(cases := plan.cases + [c]);
    }

    method AllowMove(allowed: bool)
      modifies this`plan
      ensures plan == old(plan).(moveAllowed := allowed)
    {
      plan := plan.(moveAllowed := allowed);
    }

    method FileBelowThreshold(i: Input)
      modifies this`plan
      ensures plan == BelowThreshold(i, old(plan))
    {
      hide MailToMisc;
      Place("06", Some("01"));
      plan := plan.(category := Some("06"), subfolder := Some("01"), documentType := None);
      if MailToMisc(i) {
        plan := plan.(decidedBy := EmailAutoBy, emailAuto := true, moveAllowed := true);
        return;
      }
      if i.existing { AllowMove(false); }
      AddCase(Question(if i.existing then MoveProposal else Unclear, "below_threshold", Some("01")));
    }

    method FileMisc(i: Input)
      modifies this`plan
      ensures plan == Misc(i, old(plan))
    {
      hide MiscSub, MiscSubtype;
      var sub := MiscSub(i);
      Place("06", Some(sub));
      AddCase(Question(Unclear, MiscSubtype(i, sub), Some(sub)));
      AllowMove(sub == "03" || sub == "04" || !i.existing);
    }

    method FileMaster(i: Input, category: string)
      modifies this`plan
      ensures plan == Master(i, old(plan), category)
    {
      hide Checked, MasterSub, SegmentLinks, SegmentCases;
      plan := plan.(subfolder := MasterSub(i, plan, category));
      Place(category, plan.subfolder);
      var segments := FindSegments(i.hits, plan.documentType);
      ghost var start := plan;
      for k := 0 to |segments|
        invariant plan == WithSegments(i, start, segments[..k]) && plan.period == start.period
      {
        assert segments[..k + 1][..k] == segments[..k];
        FileSegment(i, segments[k]);
      }
      assert segments[..|segments|] == segments;
      AllowMove(true);
    }

    method FileSegment(i: Input, s: Stretch)
      modifies this`plan
      ensures var (ls, question) := SegmentChecked(i, old(plan), s);
        plan == old(plan).(links := old(plan).links + SegmentLinks(i, ls), cases := old(plan).cases + SegmentCases(i, s, question))
    {
      hide Checked, SegmentLinks;
      var ls, question := CheckOwners(i.parties, Frame(Some(s.subfolder), Some(s.documentType), Some(s.pages)),
                                      i.segmentUnits(s.pages), i.segmentOwners(s.pages), plan.period);
      AddSegmentLinks(i, ls);
      if question.None? && i.segmentsReview {
        question := Some(Case(OwnerCandidates, "segment_proposed", None, None, false, Some(s.pages)));
      }
      if question.Some? {
        AddCase(question.value.(misc := None, pages := Some(s.pages)));
      } else {
        assert plan.cases == plan.cases + [];
      }
    }

    method AddSegmentLinks(i: Input, ls: seq<Link>)
      modifies this`plan
      ensures plan == old(plan).(links := old(plan).links + SegmentLinks(i, ls))
    {
      for k := 0 to |ls|
        invariant plan == old(plan).(links := old(plan).links + SegmentLinks(i, ls)[..k])
      {
        var link := ls[k].(primary := false);
        if i.segmentsReview { link := link.(status := Suggested); }
        plan := plan.(links := plan.links + [link]);
      }
      assert SegmentLinks(i, ls)[..|ls|] == SegmentLinks(i, ls);
    }

    method FileTenant(i: Input)
      modifies this`plan
      ensures plan == TenantDoc(i, old(plan), ctx)
    {
      Place("04", None);
      plan := plan.(tenants := ctx.tenants);
      if i.management.Weg? {
        AddCase(Question(Unclear, "tenant_document_in_weg", Some("02")));
        Place("06", Some("02"));
        AllowMove(!i.existing);
      } else if plan.tenants == [] {
        AddCase(Question(Unclear, "tenant_unknown", None));
        AllowMove(!i.existing);
      }
    }

    method FileRental(i: Input)
      modifies this`plan
      ensures plan == RentalDoc(i, old(plan), ctx)
    {
      hide Part, IsOwnership, RentalLinks, RentalAsked;
      ghost var p := plan;
      Place("05", plan.subfolder);
      plan := plan.(ownerFile := Some(i.objectFile));
      var recognized, foreign := Part(ctx.owners, i.objectOwners, true), Part(ctx.owners, i.objectOwners, false);
      var targets := if recognized != [] then recognized else i.objectOwners;
      SameRentalLinks(i, plan, p, targets);
      if targets != [] && foreign == [] && !IsOwnership(plan.documentType) {
        plan := plan.(links := RentalLinks(i, plan, targets, if recognized != [] || |targets| == 1 then 1.0 else 0.9, Confirmed));
        AllowMove(true);
      } else {
        plan := plan.(links := RentalLinks(i, plan, targets, 0.7, Suggested));
        AskRental(i, foreign);
      }
    }

    method AskRental(i: Input, foreign: seq<nat>)
      modifies this`plan
      ensures plan == RentalAsked(i, old(plan), foreign)
    {
      AddCase(Case(if i.objectOwners != [] then OwnerCandidates else Unclear,
                   if i.objectOwners == [] then "no_owner_in_object" else if foreign != [] then "owner_mismatch" else "ownership_document",
                   Some(i.objectFile), None, false, None));
      AllowMove(!i.existing);
    }

    method FileOwner(i: Input)
      modifies this`plan
      ensures plan == OwnerDoc(i, old(plan), ctx)
    {
      hide Checked;
      var links, question := CheckOwners(i.parties, Frame(plan.subfolder, plan.documentType, None), ctx.units, ctx.owners, plan.period);
      plan := plan.(links := links);
      Place("05", plan.subfolder);
      if question.Some? {
        var c := question.value;
        AddCase(c);
        if links == [] && c.file.Some? { plan := plan.(ownerFile := c.file); }
        if c.misc.Some? { Place("06", c.misc); }
        AllowMove(!i.existing);
      }
    }
  }

  /** Links depend on the subfolder and the document type only. */
  lemma SameRentalLinks(i: Input, p: Plan, q: Plan, targets: seq<nat>)
    requires q.subfolder == p.subfolder && q.documentType == p.documentType
    ensures forall confidence, status :: RentalLinks(i, p, targets, confidence, status) == RentalLinks(i, q, targets, confidence, status)
  {
  }

  method DecideCore(i: Input) returns (d: Draft)
    ensures fresh(d) && d.plan == Core(i)
  {
    hide Base, AfterStage3, AfterSender, BelowThreshold, Misc, Master, TenantDoc, RentalDoc, OwnerDoc, TypeOf;
    d := new Draft(i);
    if i.combined.stage3Required && i.stage3Enabled {
      d.plan := d.plan.(stage3Required := true);
      return;
    }
    d.ApplyStage3(i);
    d.ApplySender(i);
    if Uncertain(i, d.plan) {
      d.FileBelowThreshold(i);
    } else if d.plan.category == Some("06") {
      d.FileMisc(i);
    } else if YearMissing(i, d.plan) {
      d.AddCase(Question(MissingMetadata, "period_year", Some("02")));
      d.Place("06", Some("02"));
      d.AllowMove(!i.existing);
    } else if d.plan.category.value in {"01", "02", "03"} {
      d.FileMaster(i, d.plan.category.value);
    } else if d.plan.category == Some("04") {
      d.FileTenant(i);
    } else if i.management.Rental? {
      d.FileRental(i);
    } else {
      d.FileOwner(i);
    }
  }

  method DecideDocument(i: Input) returns (d: Draft)
    ensures fresh(d) && d.plan == Decided(i)
    ensures d.plan.stage3Required <==> i.combined.stage3Required && i.stage3Enabled
    ensures !d.plan.stage3Required ==> Promises(i, d.plan)
  {
    hide Core, Promises;
    d := DecideCore(i);
    DecisionKeepsPromises(i);
    ghost var p := d.plan;
    assert p.cases == p.cases + [];
    if i.s3.None? || d.plan.category.None? || d.plan.category == Some("06") || d.plan.cases != [] { return; }
    if i.s3.value.relatedForced {
      d.AddCase(Case(MoveProposal, "ai_object_unverified", None, None, true, None));
    } else if d.plan.decidedBy.Stage3By? && i.sample {
      d.AddCase(Case(MoveProposal, "ai_sample", None, None, true, None));
    }
  }
}
