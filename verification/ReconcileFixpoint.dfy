/** Reconciling twice: after an undisturbed run a second one writes nothing, and asks nothing new unless the catalogue
  * lists a category's own name among its old names. */
module ReconcileFixpoint {
  import opened Wrappers
  import opened Drive
  import opened Sorting
  import opened Tree
  import opened FileCount
  import opened ReconcilePlan
  import opened ReconcileRun
  import opened ReconcileSafety
  import opened ReconcileBuild
  import opened ReconcileCatalogue
  import opened ReconcileConsistent
  import opened ReconcileGrowth
  import opened ReconcileAgain
  import opened ReconcileSettled

  /** The plan for the object whose folder id the database stores. */
  function PlanFor(r: Rules, cfg: Config, t: Target, w: World): Option<Plan> {
    MakePlan(r, w.drive.entries, cfg, t.(stored := w.stored))
  }

  /** One run of the program, planning and execution. */
  function Reconcile(r: Rules, cfg: Config, t: Target, w: World, fails: nat -> bool): Option<Run> {
    match PlanFor(r, cfg, t, w)
    case None => None
    case Some(p) => Some(Execute(r, cfg, t.pk, w, p, fails))
  }

  // ---------------------------------------------------------------- what a run asks

  /** The log only grows. */
  ghost predicate Extends(x: Run, y: Run) {
    |x.log| <= |y.log| && y.log[..|x.log|] == x.log
  }

  lemma EnterOpens(x: Run, a: Action, o: Outcome, pk: nat, node: Id, place: Place)
    ensures var y := Enter(x, a, o, pk, node, place); y.w.open == x.w.open && Extends(x, y)
  {
    hide Registered, Clashes;
  }

  lemma TakeOpens(pk: nat, x: Run, a: Action, place: Place, e: Effect)
    ensures var y := Take(pk, x, a, place, e); y.w.open == x.w.open && Extends(x, y)
  {
    hide Enter, CountReview;
    if e.Entering? { EnterOpens(OnDrive(x, e.calls, e.s), a, e.outcome, pk, e.node, place); }
  }

  lemma OpenStep(r: Rules, pk: nat, x: Run, a: Action, fails: nat -> bool)
    ensures var y := ExecAction(r, pk, x, a, fails);
      && x.w.open <= y.w.open && y.w.open <= x.w.open + (if a.OpenReview? then {a.key} else {})
      && (a.OpenReview? && !x.aborted ==> a.key in y.w.open)
      && Extends(x, y)
  {
    hide CreateEffect, RenameEffect, Registered, Clashes, Take;
    match a
    case CreateFolder(place, ref, name) =>
      var parent := ParentId(x, ref);
      TakeOpens(pk, x, a, place, CreateEffect(x, parent, Existing(r, x, parent, name), name, fails));
    case RenameFolder(cat, node, name, before) =>
      TakeOpens(pk, x, a, MainPlace(cat), RenameEffect(r, x, node, name, before, fails));
    case _ =>
  }

  lemma {:induction false} OpenAll(r: Rules, pk: nat, x: Run, actions: seq<Action>, fails: nat -> bool, key: Key)
    ensures var y := ExecAll(r, pk, x, actions, fails);
      && (key in x.w.open ==> key in y.w.open)
      && (key in y.w.open ==> key in x.w.open || Asks(actions, key))
      && (!y.aborted && Asks(actions, key) ==> key in y.w.open)
    decreases |actions|
  {
    hide ExecAction;
    if actions != [] {
      var y := ExecAction(r, pk, x, actions[0], fails);
      OpenStep(r, pk, x, actions[0], fails);
      AbortedStays(r, pk, x, actions, fails);
      OpenAll(r, pk, y, actions[1..], fails, key);
      AsksSplit(actions, key);
    }
  }

  lemma AsksSplit(actions: seq<Action>, key: Key)
    requires actions != []
    ensures Asks(actions, key) <==> (actions[0].OpenReview? && actions[0].key == key) || Asks(actions[1..], key)
  {
    if i :| 0 <= i < |actions[1..]| && actions[1..][i].OpenReview? && actions[1..][i].key == key {
      assert actions[i + 1] == actions[1..][i];
    }
    if i :| 0 < i < |actions| && actions[i].OpenReview? && actions[i].key == key {
      assert actions[1..][i - 1] == actions[i];
    }
  }

  /** Nothing to write and every question open already. */
  ghost predicate Settles(actions: seq<Action>, open: set<Key>) {
    (forall a :: a in actions ==> !IsWrite(a)) && (forall key :: Asks(actions, key) ==> key in open)
  }

  lemma QuietStep(r: Rules, pk: nat, x: Run, a: Action, fails: nat -> bool)
    requires NoChanges(x) && !IsWrite(a) && (a.OpenReview? ==> a.key in x.w.open)
    ensures NoChanges(ExecAction(r, pk, x, a, fails)) && ExecAction(r, pk, x, a, fails).w.open == x.w.open
  {
    hide Registered, Clashes;
  }

  lemma {:induction false} QuietRun(r: Rules, pk: nat, x: Run, actions: seq<Action>, fails: nat -> bool)
    requires NoChanges(x) && Settles(actions, x.w.open)
    ensures NoChanges(ExecAll(r, pk, x, actions, fails)) && ExecAll(r, pk, x, actions, fails).w.open == x.w.open
    decreases |actions|
  {
    hide ExecAction, NoChanges;
    if actions != [] {
      HeadIs(actions);
      AsksSplit(actions, if actions[0].OpenReview? then actions[0].key else Key(None, BothExist));
      QuietStep(r, pk, x, actions[0], fails);
      forall key | Asks(actions[1..], key) ensures key in x.w.open { AsksSplit(actions, key); }
      QuietRun(r, pk, ExecAction(r, pk, x, actions[0], fails), actions[1..], fails);
    }
  }

  lemma HeadIs(actions: seq<Action>)
    requires actions != []
    ensures actions[0] in actions
  {
  }

  /** A list without writes leaves the drive alone. */
  lemma {:induction false} ReadOnly(r: Rules, pk: nat, x: Run, actions: seq<Action>, fails: nat -> bool)
    requires forall a :: a in actions ==> !IsWrite(a)
    ensures var y := ExecAll(r, pk, x, actions, fails); y.w.drive == x.w.drive && y.late == x.late
    decreases |actions|
  {
    if actions != [] {
      HeadIs(actions);
      ReadStep(r, pk, x, actions[0], fails);
      ReadOnly(r, pk, ExecAction(r, pk, x, actions[0], fails), actions[1..], fails);
    }
  }

  lemma ReadStep(r: Rules, pk: nat, x: Run, a: Action, fails: nat -> bool)
    requires !IsWrite(a)
    ensures var y := ExecAction(r, pk, x, a, fails); y.w.drive == x.w.drive && y.late == x.late
  {
    hide Registered, Clashes;
  }

  ghost predicate Opened(x: Run) {
    exists i :: 0 <= i < |x.log| && x.log[i].0.OpenReview? && x.log[i].1 == Done
  }

  /** A question that is not open yet leads to a new case. */
  lemma {:induction false} LoudRun(r: Rules, pk: nat, x: Run, actions: seq<Action>, fails: nat -> bool, key: Key)
    requires Opened(x) || (Asks(actions, key) && key !in x.w.open)
    requires !ExecAll(r, pk, x, actions, fails).aborted
    ensures Opened(ExecAll(r, pk, x, actions, fails))
    decreases |actions|
  {
    hide ExecAction, Opened, Asks;
    AsksNone(key);
    if actions != [] {
      AsksSplit(actions, key);
      AbortedStays(r, pk, x, actions, fails);
      LoudStep(r, pk, x, actions[0], fails, key);
      LoudRun(r, pk, ExecAction(r, pk, x, actions[0], fails), actions[1..], fails, key);
    }
  }

  lemma AsksNone(key: Key)
    ensures !Asks([], key)
  {
  }

  lemma LoudStep(r: Rules, pk: nat, x: Run, a: Action, fails: nat -> bool, key: Key)
    requires Opened(x) || key !in x.w.open
    requires !x.aborted
    ensures var y := ExecAction(r, pk, x, a, fails);
      (Opened(x) ==> Opened(y)) && (Opened(y) || (key !in y.w.open && !(a.OpenReview? && a.key == key)))
  {
    var y := ExecAction(r, pk, x, a, fails);
    if Opened(x) {
      OpenStep(r, pk, x, a, fails);
      var i :| 0 <= i < |x.log| && x.log[i].0.OpenReview? && x.log[i].1 == Done;
      assert y.log[i] == x.log[i];
    } else if a.OpenReview? {
      if a.key !in x.w.open { assert y.log[|x.log|] == (a, Done); }
    } else {
      OpenStep(r, pk, x, a, fails);
    }
  }

  // ---------------------------------------------------------------- the first run

  /** What the theorems ask of the drive, the catalogue and the comparison of names. */
  ghost predicate WellFormed(r: Rules, cfg: Config, w: World) {
    Sound(w.drive) && Acyclic(w.drive.entries) && SingleParent(w.drive.entries) && Separate(r, cfg) && NumberByForm(r)
  }

  ghost predicate RootKnown(r: Rules, cfg: Config, t: Target, w: World) {
    !FindRootFolder(r, w.drive.entries, cfg.root, t.(stored := w.stored)).RootUnclear?
  }

  function FoundRoot(r: Rules, cfg: Config, t: Target, w: World): RootFind {
    FindRootFolder(r, w.drive.entries, cfg.root, t.(stored := w.stored))
  }

  function Kids(r: Rules, cfg: Config, t: Target, w: World): seq<Id> {
    match FoundRoot(r, cfg, t, w)
    case RootFound(node) => FolderKids(r, w.drive.entries, node)
    case _ => []
  }

  function Parent(r: Rules, cfg: Config, t: Target, w: World): Ref {
    match FoundRoot(r, cfg, t, w)
    case RootFound(node) => ById(node)
    case _ => NewRoot
  }

  function Pre(r: Rules, cfg: Config, t: Target, w: World): seq<Action> {
    match FoundRoot(r, cfg, t, w)
    case RootFound(node) => [FindRoot]
    case _ => [FindRoot, CreateFolder(RootPlace, ById(cfg.root), if t.newName.Some? then t.newName.value else "")]
  }

  lemma RootIsFolder(r: Rules, cfg: Config, t: Target, w: World)
    ensures FoundRoot(r, cfg, t, w).RootFound? ==>
      var node := FoundRoot(r, cfg, t, w).node; IsFolder(w.drive.entries, node) && !w.drive.entries[node].trashed
  {
    var es := w.drive.entries;
    var active := Sorted(EntryKey(es, r.key), NumberedFolders(r, es, cfg.root, t.number, false));
    if w.stored.None? && |active| == 1 { assert active[0] in NumberedFolders(r, es, cfg.root, t.number, false); }
  }

  lemma PlanShape(r: Rules, cfg: Config, t: Target, w: World)
    requires PlanFor(r, cfg, t, w).Some?
    ensures cfg.root in w.drive.entries && IsFolder(w.drive.entries, cfg.root) && !w.drive.entries[cfg.root].trashed
    ensures RootKnown(r, cfg, t, w) ==>
      PlanFor(r, cfg, t, w).value.actions == Pre(r, cfg, t, w) + FolderActions(r, w.drive.entries, cfg, Kids(r, cfg, t, w), Parent(r, cfg, t, w))
    ensures FoundRoot(r, cfg, t, w).RootAbsent? ==> t.newName.Some? && r.number(t.newName.value) == Some(t.number)
    ensures PlanFor(r, cfg, t, w).value.root == (match FoundRoot(r, cfg, t, w) case RootFound(node) => Some(node) case _ => None)
  {
    hide FolderActions, FolderKids, Blocked, YearIds, AnyYearsChecked, FindRootFolder;
  }

  /** A new object folder gets a name that no folder beside it has, since that one would carry the number as well. */
  lemma NewRootAlone(r: Rules, cfg: Config, t: Target, w: World)
    requires NumberByForm(r) && FoundRoot(r, cfg, t, w).RootAbsent? && t.newName.Some? && r.number(t.newName.value) == Some(t.number)
    ensures forall q :: q in FolderSet(w.drive.entries, cfg.root) ==> r.nfc(w.drive.entries[q].name) != r.nfc(t.newName.value)
  {
    var es := w.drive.entries;
    assert Sorted(EntryKey(es, r.key), NumberedFolders(r, es, cfg.root, t.number, false)) == [];
    forall q | q in FolderSet(es, cfg.root) ensures r.nfc(es[q].name) != r.nfc(t.newName.value) {
      assert q !in Sorted(EntryKey(es, r.key), NumberedFolders(r, es, cfg.root, t.number, false));
      assert q !in NumberedFolders(r, es, cfg.root, t.number, false);
    }
  }

  lemma Opens(r: Rules, cfg: Config, t: Target, w: World)
    requires NumberByForm(r) && PlanFor(r, cfg, t, w).Some? && RootKnown(r, cfg, t, w)
    ensures Opening(r, w.drive.entries, cfg, Pre(r, cfg, t, w), Kids(r, cfg, t, w), Parent(r, cfg, t, w))
  {
    hide PlanFor, FindRootFolder, FolderKids, FolderSet, FolderActions, NumberByForm, IsFolder;
    PlanShape(r, cfg, t, w);
    RootIsFolder(r, cfg, t, w);
    if FoundRoot(r, cfg, t, w).RootAbsent? { NewRootAlone(r, cfg, t, w); }
  }

  /** The stored folder id follows the object folder. */
  ghost predicate RootLinked(x: Run) {
    NewRoot in x.resolved ==> x.w.stored == Some(x.resolved[NewRoot])
  }

  predicate RootAction(a: Action) {
    (a.RegisterFolder? || a.CreateFolder?) && a.place.RootPlace?
  }

  lemma RootTake(pk: nat, x: Run, a: Action, place: Place, e: Effect)
    requires RootLinked(x)
    ensures var y := Take(pk, x, a, place, e); RootLinked(y) && (!place.RootPlace? ==> y.w.stored == x.w.stored)
  {
    hide Registered, Clashes, CountReview;
  }

  lemma RootStep(r: Rules, pk: nat, x: Run, a: Action, fails: nat -> bool)
    requires RootLinked(x)
    ensures var y := ExecAction(r, pk, x, a, fails); RootLinked(y) && (!RootAction(a) ==> y.w.stored == x.w.stored)
  {
    hide CreateEffect, RenameEffect, Registered, Clashes, Take;
    match a
    case CreateFolder(place, ref, name) =>
      var parent := ParentId(x, ref);
      RootTake(pk, x, a, place, CreateEffect(x, parent, Existing(r, x, parent, name), name, fails));
    case RenameFolder(cat, node, name, before) =>
      RootTake(pk, x, a, MainPlace(cat), RenameEffect(r, x, node, name, before, fails));
    case _ =>
  }

  lemma {:induction false} RootAll(r: Rules, pk: nat, x: Run, actions: seq<Action>, fails: nat -> bool)
    requires RootLinked(x)
    ensures var y := ExecAll(r, pk, x, actions, fails);
      RootLinked(y) && ((forall a :: a in actions ==> !RootAction(a)) ==> y.w.stored == x.w.stored)
    decreases |actions|
  {
    hide ExecAction, RootLinked, RootAction;
    if actions != [] {
      HeadIs(actions);
      RootStep(r, pk, x, actions[0], fails);
      RootAll(r, pk, ExecAction(r, pk, x, actions[0], fails), actions[1..], fails);
    }
  }

  lemma NoRootAction(r: Rules, es: Entries, cfg: Config, kids: seq<Id>, parent: Ref, a: Action)
    requires a in [FindRoot] + FolderActions(r, es, cfg, kids, parent)
    ensures !RootAction(a)
  {
    hide FolderActions, Shaped;
    if a != FindRoot {
      NothingToRename(r, es, cfg, kids, parent, a);
      var o := ShapeOf(r, es, cfg, kids, parent, a);
      if a.CreateFolder? { CreateFacts(r, es, cfg, kids, parent, a, o); }
    }
  }

  lemma FromStart(r: Rules, pk: nat, es: Entries, x: Run, all: seq<Action>, fails: nat -> bool) returns (made: map<Place, Id>)
    requires NoFaults(fails) && x.w.drive.entries == es && Sound(x.w.drive) && x.resolved == map[] && !x.stop && x.late == []
    requires Consistent(r, es, all) && !ExecAll(r, pk, x, all, fails).aborted
    ensures var y := ExecAll(r, pk, x, all, fails);
      Undisturbed(y) && Preserved(es, y.w.drive.entries) && Built(es, y.w.drive.entries, all, made) && Linked(y, made)
      && Filed(x.w.rows, pk, all, made) == Some(y.w.rows)
  {
    hide Consistent, ExecAll, Sound, NoFaults, Filed;
    assert all[0..] == all && all[..0] == [];
    assert Built(es, es, all[..0], map[]);
    made := AllBuilt(r, pk, es, x, all, 0, map[], fails);
  }

  lemma RootStored(r: Rules, es: Entries, cfg: Config, pre: seq<Action>, kids: seq<Id>, parent: Ref, pk: nat, x: Run, fails: nat -> bool,
                   made: map<Place, Id>)
    requires Opening(r, es, cfg, pre, kids, parent) && RootLinked(x) && (parent.ById? ==> x.w.stored == Some(parent.id))
    requires var all := pre + FolderActions(r, es, cfg, kids, parent); var y := ExecAll(r, pk, x, all, fails);
      Linked(y, made) && Built(es, y.w.drive.entries, all, made)
    ensures var y := ExecAll(r, pk, x, pre + FolderActions(r, es, cfg, kids, parent), fails);
      y.w.stored == Some(NodeOf(made, parent)) && Firm(es, made, parent)
  {
    hide FolderActions, ExecAll, BuiltOld, RootAction, FolderSet, FolderKids;
    var all := pre + FolderActions(r, es, cfg, kids, parent);
    RootAll(r, pk, x, all, fails);
    if parent.ById? {
      forall a | a in all ensures !RootAction(a) { NoRootAction(r, es, cfg, kids, parent, a); }
    } else {
      assert all[1] == pre[1];
      assert Creates(all, RootPlace);
    }
  }

  lemma StartFacts(pk: nat, w: World, plan: Plan)
    ensures var x := Start(pk, w, plan);
      && x.w.drive == w.drive && x.resolved == map[] && !x.stop && x.late == [] && x.w.open == w.open && x.log == []
      && (plan.root.None? ==> x.w == w && !x.aborted)
      && (plan.root.Some? && !x.aborted ==> x.w.stored == plan.root)
  {
    hide Registered, Clashes;
  }

  lemma ExecuteFacts(r: Rules, cfg: Config, pk: nat, w: World, plan: Plan, fails: nat -> bool)
    ensures var x, y := ExecAll(r, pk, Start(pk, w, plan), plan.actions, fails), Execute(r, cfg, pk, w, plan, fails);
      x.late == [] ==> y.w.drive == x.w.drive && y.w.stored == x.w.stored && y.w.open == x.w.open && y.log == x.log && y.aborted == x.aborted
                       && (y.w == x.w || y.w.rows == DropYears(x.w.rows, pk, cfg.yearCode, plan.yearIds))
                       && (NoFaults(fails) && !y.aborted && plan.yearsChecked ==> y.w.rows == DropYears(x.w.rows, pk, cfg.yearCode, plan.yearIds))
    ensures ExecAll(r, pk, Start(pk, w, plan), plan.actions, fails).aborted ==> Execute(r, cfg, pk, w, plan, fails).aborted
  {
    hide Start, DropYears;
    var x := ExecAll(r, pk, Start(pk, w, plan), plan.actions, fails);
    AbortedStays(r, pk, x.(late := []), x.late, fails);
  }

  lemma ParentIs(r: Rules, cfg: Config, t: Target, w: World)
    ensures Parent(r, cfg, t, w) == (match FoundRoot(r, cfg, t, w) case RootFound(node) => ById(node) case _ => NewRoot)
  {
  }

  /** An undisturbed run carries out its whole list and stores the object folder. */
  lemma FirstRun(r: Rules, cfg: Config, t: Target, w: World, fails: nat -> bool) returns (made: map<Place, Id>)
    requires WellFormed(r, cfg, w) && NoFaults(fails) && RootKnown(r, cfg, t, w)
    requires Reconcile(r, cfg, t, w, fails).Some? && !Reconcile(r, cfg, t, w, fails).value.aborted
    ensures var es2 := Reconcile(r, cfg, t, w, fails).value.w.drive.entries;
      && Carried(r, w.drive.entries, es2, cfg, Pre(r, cfg, t, w), Kids(r, cfg, t, w), Parent(r, cfg, t, w), made)
      && Firm(w.drive.entries, made, Parent(r, cfg, t, w))
      && Reconcile(r, cfg, t, w, fails).value.w.stored == Some(NodeOf(made, Parent(r, cfg, t, w)))
    ensures var x := Start(t.pk, w, PlanFor(r, cfg, t, w).value); var y := ExecAll(r, t.pk, x, PlanFor(r, cfg, t, w).value.actions, fails);
      y.late == [] && Filed(x.w.rows, t.pk, PlanFor(r, cfg, t, w).value.actions, made) == Some(y.w.rows)
  {
    hide Acyclic, SingleParent, Separate, Opening, FolderActions, PlanFor, Execute, Start, ExecAll, Sound, NumberByForm, NoFaults, FoundRoot,
         Pre, Kids, Parent, RootKnown, Consistent, Built, Preserved, Filed;
    var plan := PlanFor(r, cfg, t, w).value;
    var all := plan.actions;
    var es := w.drive.entries;
    PlanShape(r, cfg, t, w);
    Opens(r, cfg, t, w);
    PlanConsistent(r, es, cfg, Pre(r, cfg, t, w), Kids(r, cfg, t, w), Parent(r, cfg, t, w));
    StartFacts(t.pk, w, plan);
    var x := Start(t.pk, w, plan);
    ExecuteFacts(r, cfg, t.pk, w, plan, fails);
    made := FromStart(r, t.pk, es, x, all, fails);
    AbortedStays(r, t.pk, x, all, fails);
    ParentIs(r, cfg, t, w);
    RootStored(r, es, cfg, Pre(r, cfg, t, w), Kids(r, cfg, t, w), Parent(r, cfg, t, w), t.pk, x, fails, made);
  }

  // ---------------------------------------------------------------- the second run

  /** A question the second run asks although the first did not: a category that got its folder by this run counts
    * that folder as an old one as well. */
  ghost predicate AsksAgain(r: Rules, cfg: Config, t: Target, w: World, key: Key) {
    RootKnown(r, cfg, t, w) && Flips(r, w.drive.entries, Kids(r, cfg, t, w), cfg, key)
  }

  /** What is planned for a settled object folder. */
  lemma SecondPlan(r: Rules, cfg: Config, t: Target, w: World, v: World, root: Id)
    requires Preserved(w.drive.entries, v.drive.entries) && IsFolder(w.drive.entries, cfg.root) && !w.drive.entries[cfg.root].trashed
    requires v.stored == Some(root) && IsFolder(v.drive.entries, root) && !v.drive.entries[root].trashed
    ensures PlanFor(r, cfg, t, v).Some?
    ensures PlanFor(r, cfg, t, v).value.root == Some(root)
    ensures PlanFor(r, cfg, t, v).value.actions
            == [FindRoot] + FolderActions(r, v.drive.entries, cfg, FolderKids(r, v.drive.entries, root), ById(root))
  {
    hide FolderActions, FolderKids, Blocked, YearIds, AnyYearsChecked;
  }

  lemma AsksPrefix(a: Action, list: seq<Action>, key: Key)
    requires !a.OpenReview?
    ensures Asks([a] + list, key) <==> Asks(list, key)
  {
    AsksSplit([a] + list, key);
    assert ([a] + list)[1..] == list;
  }

  lemma PreAsksNothing(r: Rules, cfg: Config, t: Target, w: World, list: seq<Action>, key: Key)
    ensures Asks(Pre(r, cfg, t, w) + list, key) <==> Asks(list, key)
  {
    var pre := Pre(r, cfg, t, w);
    if |pre| == 1 {
      AsksPrefix(pre[0], list, key);
      assert pre + list == [pre[0]] + list;
    } else {
      AsksPrefix(pre[1], list, key);
      AsksPrefix(pre[0], [pre[1]] + list, key);
      assert pre + list == [pre[0]] + ([pre[1]] + list);
    }
  }

  /** What is open after the first run. */
  lemma OpenAfter(r: Rules, cfg: Config, t: Target, w: World, fails: nat -> bool, key: Key)
    requires Reconcile(r, cfg, t, w, fails).Some? && !Reconcile(r, cfg, t, w, fails).value.aborted
    requires ExecAll(r, t.pk, Start(t.pk, w, PlanFor(r, cfg, t, w).value), PlanFor(r, cfg, t, w).value.actions, fails).late == []
    ensures key in Reconcile(r, cfg, t, w, fails).value.w.open <==> key in w.open || Asks(PlanFor(r, cfg, t, w).value.actions, key)
  {
    hide PlanFor, Execute, Start, ExecAll, Asks;
    var plan := PlanFor(r, cfg, t, w).value;
    StartFacts(t.pk, w, plan);
    ExecuteFacts(r, cfg, t.pk, w, plan, fails);
    OpenAll(r, t.pk, Start(t.pk, w, plan), plan.actions, fails, key);
  }

  lemma ExecuteQuiet(r: Rules, cfg: Config, pk: nat, v: World, plan: Plan, fails: nat -> bool)
    requires forall a :: a in plan.actions ==> !IsWrite(a)
    ensures Execute(r, cfg, pk, v, plan, fails).w.drive == v.drive
    ensures (forall key :: Asks(plan.actions, key) ==> key in v.open) ==> NoChanges(Execute(r, cfg, pk, v, plan, fails))
    ensures !Execute(r, cfg, pk, v, plan, fails).aborted && NoChanges(Execute(r, cfg, pk, v, plan, fails)) ==>
      forall key :: Asks(plan.actions, key) ==> key in v.open
  {
    hide Execute, Start, ExecAll, Asks, IsWrite;
    var x := Start(pk, v, plan);
    StartFacts(pk, v, plan);
    ReadOnly(r, pk, x, plan.actions, fails);
    ExecuteFacts(r, cfg, pk, v, plan, fails);
    if forall key :: Asks(plan.actions, key) ==> key in v.open { QuietRun(r, pk, x, plan.actions, fails); }
    if key :| Asks(plan.actions, key) && key !in v.open && !Execute(r, cfg, pk, v, plan, fails).aborted {
      LoudRun(r, pk, x, plan.actions, fails, key);
      OpenedChanges(ExecAll(r, pk, x, plan.actions, fails));
    }
  }

  lemma OpenedChanges(x: Run)
    ensures Opened(x) ==> !NoChanges(x)
  {
  }

  lemma RootLives(r: Rules, cfg: Config, t: Target, w: World, es2: Entries, made: map<Place, Id>)
    requires Preserved(w.drive.entries, es2) && RootKnown(r, cfg, t, w)
    requires Firm(w.drive.entries, made, Parent(r, cfg, t, w))
    requires Built(w.drive.entries, es2, Pre(r, cfg, t, w) + FolderActions(r, w.drive.entries, cfg, Kids(r, cfg, t, w), Parent(r, cfg, t, w)), made)
    ensures var root := NodeOf(made, Parent(r, cfg, t, w)); IsFolder(es2, root) && !es2[root].trashed
  {
    hide FolderActions, Pre, Kids, FindRootFolder, BuiltOld, Creates;
    RootIsFolder(r, cfg, t, w);
  }

  /** What the second plan asks, in terms of the first. */
  lemma SecondAsks(r: Rules, cfg: Config, es: Entries, kids: seq<Id>, es2: Entries, kids2: seq<Id>, own: seq<Option<Id>>, parent: Ref, parent2: Ref, key: Key)
    requires Settled(r, es, kids, es2, kids2, cfg, own)
    ensures Asks([FindRoot] + FolderActions(r, es2, cfg, kids2, parent2), key) ==>
            Asks(FolderActions(r, es, cfg, kids, parent), key) || Flips(r, es, kids, cfg, key)
    ensures Flips(r, es, kids, cfg, key) ==>
            Asks([FindRoot] + FolderActions(r, es2, cfg, kids2, parent2), key) && !Asks(FolderActions(r, es, cfg, kids, parent), key)
  {
    hide FolderActions, Flips, MainsGrown, SubsGrown, Separate;
    var list := FolderActions(r, es2, cfg, kids2, parent2);
    AsksPrefix(FindRoot, list, key);
    if Flips(r, es, kids, cfg, key) {
      FlipAsked(r, es, kids, es2, kids2, cfg, own, parent2, key);
      FlipNotAsked(r, es, kids, cfg, parent, key);
    } else if i :| 0 <= i < |list| && list[i].OpenReview? && list[i].key == key {
      SecondList(r, es, kids, es2, kids2, cfg, own, parent, parent2, list[i]);
    }
  }

  lemma SecondWritesNothing(r: Rules, cfg: Config, es: Entries, kids: seq<Id>, es2: Entries, kids2: seq<Id>, own: seq<Option<Id>>, parent: Ref, parent2: Ref)
    requires Settled(r, es, kids, es2, kids2, cfg, own)
    ensures forall a :: a in [FindRoot] + FolderActions(r, es2, cfg, kids2, parent2) ==> !IsWrite(a)
  {
    hide FolderActions, Settled, Flips, Asks;
    forall a | a in [FindRoot] + FolderActions(r, es2, cfg, kids2, parent2) ensures !IsWrite(a) {
      if a != FindRoot { SecondList(r, es, kids, es2, kids2, cfg, own, parent, parent2, a); }
    }
  }

  lemma KnownRootTwice(r: Rules, cfg: Config, t: Target, w: World, fails: nat -> bool)
    requires WellFormed(r, cfg, w) && NoFaults(fails) && RootKnown(r, cfg, t, w)
    requires Reconcile(r, cfg, t, w, fails).Some? && !Reconcile(r, cfg, t, w, fails).value.aborted
    ensures var v := Reconcile(r, cfg, t, w, fails).value.w;
      && PlanFor(r, cfg, t, v).Some?
      && (forall a :: a in PlanFor(r, cfg, t, v).value.actions ==> !IsWrite(a))
      && (forall key :: Asks(PlanFor(r, cfg, t, v).value.actions, key) ==> key in v.open || AsksAgain(r, cfg, t, w, key))
      && (forall key :: AsksAgain(r, cfg, t, w, key) ==>
            Asks(PlanFor(r, cfg, t, v).value.actions, key) && (key in v.open <==> key in w.open))
  {
    hide Acyclic, SingleParent, Separate, Opening, FolderActions, PlanFor, Execute, Start, ExecAll, Sound, NumberByForm, NoFaults, FoundRoot,
         Pre, Kids, Parent, RootKnown, Settled, Flips, Asks, Built, Firm, IsWrite;
    var es, kids, parent := w.drive.entries, Kids(r, cfg, t, w), Parent(r, cfg, t, w);
    var v := Reconcile(r, cfg, t, w, fails).value.w;
    var made := FirstRun(r, cfg, t, w, fails);
    var es2 := v.drive.entries;
    var root := NodeOf(made, parent);
    PlanShape(r, cfg, t, w);
    RootLives(r, cfg, t, w, es2, made);
    SecondPlan(r, cfg, t, w, v, root);
    AllSettled(r, es, es2, cfg, Pre(r, cfg, t, w), kids, parent, made);
    var kids2, own := FolderKids(r, es2, root), OwnAll(r, es, kids, cfg, made);
    SecondWritesNothing(r, cfg, es, kids, es2, kids2, own, parent, ById(root));
    forall key
      ensures Asks(PlanFor(r, cfg, t, v).value.actions, key) ==> key in v.open || AsksAgain(r, cfg, t, w, key)
      ensures AsksAgain(r, cfg, t, w, key) ==> Asks(PlanFor(r, cfg, t, v).value.actions, key) && (key in v.open <==> key in w.open)
    {
      SecondAsks(r, cfg, es, kids, es2, kids2, own, parent, ById(root), key);
      OpenAfter(r, cfg, t, w, fails, key);
      PreAsksNothing(r, cfg, t, w, FolderActions(r, es, cfg, kids, parent), key);
    }
  }

  /** While the object folder is unclear a run changes nothing but the open questions. */
  lemma UnclearTwice(r: Rules, cfg: Config, t: Target, w: World, fails: nat -> bool)
    requires !RootKnown(r, cfg, t, w) && Reconcile(r, cfg, t, w, fails).Some? && !Reconcile(r, cfg, t, w, fails).value.aborted
    ensures var v := Reconcile(r, cfg, t, w, fails).value.w;
      && PlanFor(r, cfg, t, v) == PlanFor(r, cfg, t, w)
      && (forall a :: a in PlanFor(r, cfg, t, v).value.actions ==> !IsWrite(a))
      && (forall key :: Asks(PlanFor(r, cfg, t, v).value.actions, key) ==> key in v.open)
  {
    hide ExecAll, Start, Execute, Asks, FindRootFolder;
    var plan := PlanFor(r, cfg, t, w).value;
    var x := Start(t.pk, w, plan);
    StartFacts(t.pk, w, plan);
    ReadOnly(r, t.pk, x, plan.actions, fails);
    ExecuteFacts(r, cfg, t.pk, w, plan, fails);
    UnclearStored(r, t.pk, x, plan.actions, fails);
    forall key | Asks(plan.actions, key) ensures key in Reconcile(r, cfg, t, w, fails).value.w.open {
      OpenAfter(r, cfg, t, w, fails, key);
    }
  }

  lemma UnclearStored(r: Rules, pk: nat, x: Run, actions: seq<Action>, fails: nat -> bool)
    requires x.resolved == map[] && forall a :: a in actions ==> a == FindRoot || a.OpenReview?
    ensures ExecAll(r, pk, x, actions, fails).w.stored == x.w.stored
  {
    hide ExecAll;
    RootAll(r, pk, x, actions, fails);
  }

  /** Fixpoint: after an undisturbed run the next one leaves the drive as it is; it reports no changes exactly when
    * every question about a category that counts its own new folder as an old one was open before. */
  lemma SecondRunChangesNothingIff(r: Rules, cfg: Config, t: Target, w: World, fails: nat -> bool, later: nat -> bool)
    requires WellFormed(r, cfg, w) && NoFaults(fails)
    requires Reconcile(r, cfg, t, w, fails).Some? && !Reconcile(r, cfg, t, w, fails).value.aborted
    ensures var v := Reconcile(r, cfg, t, w, fails).value.w;
      && Reconcile(r, cfg, t, v, later).Some?
      && var second := Reconcile(r, cfg, t, v, later).value;
         && second.w.drive == v.drive
         && ((forall key :: AsksAgain(r, cfg, t, w, key) ==> key in w.open) ==> NoChanges(second))
         && (!second.aborted && NoChanges(second) ==> forall key :: AsksAgain(r, cfg, t, w, key) ==> key in w.open)
  {
    hide WellFormed, AsksAgain, RootKnown, PlanFor, Execute, NoChanges, Asks, NoFaults, IsWrite;
    var v := Reconcile(r, cfg, t, w, fails).value.w;
    if RootKnown(r, cfg, t, w) {
      KnownRootTwice(r, cfg, t, w, fails);
    } else {
      UnclearTwice(r, cfg, t, w, fails);
      UnclearAsksNothing(r, cfg, t, w);
    }
    ExecuteQuiet(r, cfg, t.pk, v, PlanFor(r, cfg, t, v).value, later);
  }

  lemma UnclearAsksNothing(r: Rules, cfg: Config, t: Target, w: World)
    ensures !RootKnown(r, cfg, t, w) ==> forall key :: !AsksAgain(r, cfg, t, w, key)
  {
  }

  /** With a catalogue that keeps every name apart from its own old names the second run always changes nothing. */
  lemma SecondRunChangesNothing(r: Rules, cfg: Config, t: Target, w: World, fails: nat -> bool, later: nat -> bool)
    requires WellFormed(r, cfg, w) && NoFaults(fails)
    requires Reconcile(r, cfg, t, w, fails).Some? && !Reconcile(r, cfg, t, w, fails).value.aborted
    requires forall c :: 0 <= c < |cfg.cats| ==> !SelfAliased(r, cfg.cats[c])
    ensures var v := Reconcile(r, cfg, t, w, fails).value.w;
      Reconcile(r, cfg, t, v, later).Some? && NoChanges(Reconcile(r, cfg, t, v, later).value) && Reconcile(r, cfg, t, v, later).value.w.drive == v.drive
  {
    hide WellFormed, PlanFor, Execute, NoChanges, NoFaults, IsAlias, RootKnown, Written, Kids;
    SecondRunChangesNothingIff(r, cfg, t, w, fails, later);
  }

  // ---------------------------------------------------------------- every later run

  /** Nothing left to write and every question open: the next plan is the same one. */
  ghost predicate Calm(r: Rules, cfg: Config, t: Target, v: World) {
    && PlanFor(r, cfg, t, v).Some?
    && (forall a :: a in PlanFor(r, cfg, t, v).value.actions ==> !IsWrite(a) && !RootAction(a))
    && (forall key :: Asks(PlanFor(r, cfg, t, v).value.actions, key) ==> key in v.open)
    && (PlanFor(r, cfg, t, v).value.root.Some? ==> v.stored == PlanFor(r, cfg, t, v).value.root)
  }

  lemma CalmStays(r: Rules, cfg: Config, t: Target, v: World, fails: nat -> bool)
    requires Calm(r, cfg, t, v)
    ensures Reconcile(r, cfg, t, v, fails).Some? && NoChanges(Reconcile(r, cfg, t, v, fails).value)
    ensures Reconcile(r, cfg, t, v, fails).value.w.drive == v.drive && Calm(r, cfg, t, Reconcile(r, cfg, t, v, fails).value.w)
  {
    hide ExecAll, Start, Execute, Asks, NoChanges, IsWrite, RootAction, MakePlan;
    var plan := PlanFor(r, cfg, t, v).value;
    var x := Start(t.pk, v, plan);
    StartFacts(t.pk, v, plan);
    StartStored(t.pk, v, plan);
    ReadOnly(r, t.pk, x, plan.actions, fails);
    RootAll(r, t.pk, x, plan.actions, fails);
    ExecuteFacts(r, cfg, t.pk, v, plan, fails);
    ExecuteQuiet(r, cfg, t.pk, v, plan, fails);
    forall key | key in v.open ensures key in Reconcile(r, cfg, t, v, fails).value.w.open {
      OpenAll(r, t.pk, x, plan.actions, fails, key);
    }
  }

  lemma StartStored(pk: nat, w: World, plan: Plan)
    requires plan.root.Some? ==> w.stored == plan.root
    ensures Start(pk, w, plan).w.stored == w.stored
  {
    hide Registered, Clashes;
  }

  /** Runs one after the other, each with its own failing calls, none of which changes anything. */
  ghost predicate AllQuiet(r: Rules, cfg: Config, t: Target, v: World, faults: seq<nat -> bool>)
    decreases |faults|
  {
    faults == []
    || (Reconcile(r, cfg, t, v, faults[0]).Some? && NoChanges(Reconcile(r, cfg, t, v, faults[0]).value)
        && Reconcile(r, cfg, t, v, faults[0]).value.w.drive == v.drive
        && AllQuiet(r, cfg, t, Reconcile(r, cfg, t, v, faults[0]).value.w, faults[1..]))
  }

  lemma {:induction false} CalmForever(r: Rules, cfg: Config, t: Target, v: World, faults: seq<nat -> bool>)
    requires Calm(r, cfg, t, v)
    ensures AllQuiet(r, cfg, t, v, faults)
    decreases |faults|
  {
    hide Calm, Reconcile, NoChanges;
    if faults != [] {
      CalmStays(r, cfg, t, v, faults[0]);
      CalmForever(r, cfg, t, Reconcile(r, cfg, t, v, faults[0]).value.w, faults[1..]);
    }
  }

  lemma SecondPlanCalm(r: Rules, cfg: Config, t: Target, w: World, fails: nat -> bool)
    requires WellFormed(r, cfg, w) && NoFaults(fails) && RootKnown(r, cfg, t, w)
    requires Reconcile(r, cfg, t, w, fails).Some? && !Reconcile(r, cfg, t, w, fails).value.aborted
    ensures var v := Reconcile(r, cfg, t, w, fails).value.w;
      && PlanFor(r, cfg, t, v).Some? && v.stored == PlanFor(r, cfg, t, v).value.root
      && (forall a :: a in PlanFor(r, cfg, t, v).value.actions ==> !RootAction(a))
  {
    hide Acyclic, SingleParent, Separate, Opening, FolderActions, PlanFor, Execute, Start, ExecAll, Sound, NumberByForm, NoFaults, FoundRoot,
         Pre, Kids, Parent, RootKnown, Built, Firm, RootAction;
    var v := Reconcile(r, cfg, t, w, fails).value.w;
    var made := FirstRun(r, cfg, t, w, fails);
    var root := NodeOf(made, Parent(r, cfg, t, w));
    PlanShape(r, cfg, t, w);
    RootLives(r, cfg, t, w, v.drive.entries, made);
    SecondPlan(r, cfg, t, w, v, root);
    forall a | a in PlanFor(r, cfg, t, v).value.actions ensures !RootAction(a) {
      NoRootAction(r, v.drive.entries, cfg, FolderKids(r, v.drive.entries, root), ById(root), a);
    }
  }

  /** From then on no run, whatever calls fail, ever changes anything again. */
  lemma EveryLaterRunChangesNothing(r: Rules, cfg: Config, t: Target, w: World, fails: nat -> bool, faults: seq<nat -> bool>)
    requires WellFormed(r, cfg, w) && NoFaults(fails)
    requires Reconcile(r, cfg, t, w, fails).Some? && !Reconcile(r, cfg, t, w, fails).value.aborted
    requires forall key :: AsksAgain(r, cfg, t, w, key) ==> key in w.open
    ensures AllQuiet(r, cfg, t, Reconcile(r, cfg, t, w, fails).value.w, faults)
  {
    hide WellFormed, AsksAgain, RootKnown, PlanFor, Execute, NoChanges, Asks, NoFaults, IsWrite, RootAction, AllQuiet;
    var v := Reconcile(r, cfg, t, w, fails).value.w;
    if RootKnown(r, cfg, t, w) {
      KnownRootTwice(r, cfg, t, w, fails);
      SecondPlanCalm(r, cfg, t, w, fails);
    } else {
      UnclearTwice(r, cfg, t, w, fails);
      UnclearPlan(r, cfg, t, w);
    }
    CalmForever(r, cfg, t, v, faults);
  }

  lemma UnclearPlan(r: Rules, cfg: Config, t: Target, w: World)
    requires !RootKnown(r, cfg, t, w) && PlanFor(r, cfg, t, w).Some?
    ensures PlanFor(r, cfg, t, w).value.root.None?
    ensures forall a :: a in PlanFor(r, cfg, t, w).value.actions ==> !RootAction(a)
  {
    hide FindRootFolder;
  }

  // ---------------------------------------------------------------- runs that the database refuses

  /** No registered folder belongs to an owner file, a tenant file or a list. */
  ghost predicate FileFree(rows: seq<Row>) {
    forall i :: 0 <= i < |rows| ==> rows[i].file.None?
  }

  lemma FileFreeRegistered(rows: seq<Row>, pk: nat, node: Id, place: Place)
    requires FileFree(rows)
    ensures !Clashes(rows, pk, node, place) && FileFree(Registered(rows, pk, node, place))
  {
  }

  lemma FileFreeTake(pk: nat, x: Run, a: Action, place: Place, e: Effect)
    requires FileFree(x.w.rows) && !x.aborted
    ensures FileFree(Take(pk, x, a, place, e).w.rows) && !Take(pk, x, a, place, e).aborted
  {
    hide FileFree, Registered, Clashes, CountReview;
    if e.Entering? { FileFreeRegistered(x.w.rows, pk, e.node, place); }
  }

  lemma FileFreeStep(r: Rules, pk: nat, x: Run, a: Action, fails: nat -> bool)
    requires FileFree(x.w.rows) && !x.aborted
    ensures FileFree(ExecAction(r, pk, x, a, fails).w.rows) && !ExecAction(r, pk, x, a, fails).aborted
  {
    hide FileFree, Registered, Clashes, CreateEffect, RenameEffect, Take;
    match a
    case RegisterFolder(place, node) => FileFreeRegistered(x.w.rows, pk, node, place);
    case CreateFolder(place, ref, name) =>
      var parent := ParentId(x, ref);
      FileFreeTake(pk, x, a, place, CreateEffect(x, parent, Existing(r, x, parent, name), name, fails));
    case RenameFolder(cat, node, name, before) =>
      FileFreeTake(pk, x, a, MainPlace(cat), RenameEffect(r, x, node, name, before, fails));
    case _ =>
  }

  lemma {:induction false} FileFreeAll(r: Rules, pk: nat, x: Run, actions: seq<Action>, fails: nat -> bool)
    requires FileFree(x.w.rows) && !x.aborted
    ensures FileFree(ExecAll(r, pk, x, actions, fails).w.rows) && !ExecAll(r, pk, x, actions, fails).aborted
    decreases |actions|
  {
    hide ExecAction, FileFree;
    if actions != [] {
      FileFreeStep(r, pk, x, actions[0], fails);
      FileFreeAll(r, pk, ExecAction(r, pk, x, actions[0], fails), actions[1..], fails);
    }
  }

  /** Only folders of files can make the database refuse a run. */
  lemma FileFreeNeverAborts(r: Rules, cfg: Config, pk: nat, w: World, plan: Plan, fails: nat -> bool)
    requires FileFree(w.rows)
    ensures !Execute(r, cfg, pk, w, plan, fails).aborted && FileFree(Execute(r, cfg, pk, w, plan, fails).w.rows)
  {
    if plan.root.Some? { FileFreeRegistered(w.rows, pk, plan.root.value, RootPlace); }
    var x := Start(pk, w, plan);
    FileFreeAll(r, pk, x, plan.actions, fails);
    var y := ExecAll(r, pk, x, plan.actions, fails);
    FileFreeAll(r, pk, y.(late := []), y.late, fails);
  }
}
