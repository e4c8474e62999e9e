/** The writing half of the folder reconciliation (reconcile.py, _execute, _register_node, _create_review):
  * the plan is carried out action by action, with a stop after a failed write, a check before every creation,
  * a file count after every renaming and an index of registered folders. Any drive call may fail. */
module ReconcileRun {
  import opened Wrappers
  import opened Drive
  import opened Sorting
  import opened Tree
  import opened FileCount
  import opened ReconcilePlan

  // ---------------------------------------------------------------- the index

  /** A row of the folder index; `file` is the owner file, tenant file or list it belongs to, if any. */
  datatype Row = Row(node: Id, pk: nat, place: Place, file: Option<nat>, active: bool)

  predicate HasRow(rows: seq<Row>, node: Id) {
    exists i :: 0 <= i < |rows| && rows[i].node == node
  }

  predicate Holds(r: Row, pk: nat, place: Place) {
    r.active && r.pk == pk && r.place == place
  }

  /** Other folders lose the position. */
  function Displace(rows: seq<Row>, pk: nat, node: Id, place: Place): (res: seq<Row>)
    ensures |res| == |rows|
    ensures forall i :: 0 <= i < |rows| ==>
      res[i] == if Holds(rows[i], pk, place) && rows[i].file.None? && rows[i].node != node then rows[i].(active := false) else rows[i]
  {
    seq(|rows|, i requires 0 <= i < |rows| =>
      if Holds(rows[i], pk, place) && rows[i].file.None? && rows[i].node != node then rows[i].(active := false) else rows[i])
  }

  function Reassign(rows: seq<Row>, pk: nat, node: Id, place: Place): (res: seq<Row>)
    ensures |res| == |rows|
    ensures forall i :: 0 <= i < |rows| ==>
      res[i] == if rows[i].node == node then Row(node, pk, place, rows[i].file, true) else rows[i]
  {
    seq(|rows|, i requires 0 <= i < |rows| =>
      if rows[i].node == node then Row(node, pk, place, rows[i].file, true) else rows[i])
  }

  /** The folder's own row carries a file reference under which another folder holds the position;
    * the database refuses to store it. */
  predicate Clashes(rows: seq<Row>, pk: nat, node: Id, place: Place) {
    exists i, j :: 0 <= i < |rows| && 0 <= j < |rows| && rows[i].node == node && rows[i].file.Some?
                   && rows[j].node != node && Holds(rows[j], pk, place) && rows[j].file == rows[i].file
  }

  function Registered(rows: seq<Row>, pk: nat, node: Id, place: Place): seq<Row> {
    var rest := Displace(rows, pk, node, place);
    if Clashes(rows, pk, node, place) then rest
    else if HasRow(rows, node) then Reassign(rest, pk, node, place)
    else rest + [Row(node, pk, place, None, true)]
  }

  ghost predicate UniqueNodes(rows: seq<Row>) {
    forall i, j :: 0 <= i < j < |rows| ==> rows[i].node != rows[j].node
  }

  ghost predicate SamePosition(a: Row, b: Row) {
    a.active && b.active && a.pk == b.pk && a.place == b.place && a.file == b.file
  }

  /** Drive ids are unique, and at most one active row stands at a position. */
  ghost predicate Unambiguous(rows: seq<Row>) {
    UniqueNodes(rows) && forall i, j :: 0 <= i < j < |rows| ==> !SamePosition(rows[i], rows[j])
  }

  lemma RegisteredUnambiguous(rows: seq<Row>, pk: nat, node: Id, place: Place)
    requires Unambiguous(rows)
    ensures Unambiguous(Registered(rows, pk, node, place))
  {
    var res := Registered(rows, pk, node, place);
    forall i, j | 0 <= i < j < |res| ensures res[i].node != res[j].node && !SamePosition(res[i], res[j]) {
      if j < |rows| {
        assert rows[i].node != rows[j].node && !SamePosition(rows[i], rows[j]);
      }
    }
  }

  /** After a registration that was not refused the folder is the only active one at its place,
    * unless another one holds the place for a file. */
  lemma RegisteredHolds(rows: seq<Row>, pk: nat, node: Id, place: Place, i: nat)
    requires Unambiguous(rows) && !Clashes(rows, pk, node, place) && i < |Registered(rows, pk, node, place)|
    ensures var res := Registered(rows, pk, node, place);
      && (Holds(res[i], pk, place) ==> res[i].node == node || res[i].file.Some?)
      && (res[i].node == node ==> Holds(res[i], pk, place))
      && HasRow(res, node)
  {
    var res := Registered(rows, pk, node, place);
    if HasRow(rows, node) {
      var k :| 0 <= k < |rows| && rows[k].node == node;
      assert res[k].node == node;
    } else {
      assert res[|rows|].node == node;
    }
  }

  // ---------------------------------------------------------------- the world of one object

  datatype World = World(drive: Store, rows: seq<Row>, stored: Option<Id>, open: set<Key>)

  datatype Outcome = Done | Skipped | Refused

  /** `resolved` maps placeholders to created or registered folders; `late` are reviews raised while running. */
  datatype Run = Run(
    w: World, resolved: map<Ref, Id>, stop: bool, aborted: bool, calls: nat,
    log: seq<(Action, Outcome)>, late: seq<Action>)

  function Note(x: Run, a: Action, o: Outcome): Run {
    x.(log := x.log + [(a, o)])
  }

  function EnterNode(x: Run, pk: nat, node: Id, place: Place): Run {
    x.(w := x.w.(rows := Registered(x.w.rows, pk, node, place)), aborted := Clashes(x.w.rows, pk, node, place))
  }

  function Resolve(x: Run, node: Id, place: Place): Run {
    match place
    case RootPlace => x.(resolved := x.resolved[NewRoot := node], w := x.w.(stored := Some(node)))
    case MainPlace(cat) => x.(resolved := x.resolved[NewCategory(cat) := node])
    case _ => x
  }

  function ParentId(x: Run, ref: Ref): Option<Id> {
    if ref in x.resolved then Some(x.resolved[ref])
    else match ref
      case ById(id) => Some(id)
      case _ => None
  }

  function Enter(x: Run, a: Action, o: Outcome, pk: nat, node: Id, place: Place): Run {
    var y := EnterNode(x, pk, node, place);
    if y.aborted then y else Resolve(Note(y, a, o), node, place)
  }

  function ExistingFolders(r: Rules, es: Entries, parent: Id, name: string): seq<Id> {
    Pick(FolderKids(r, es, parent), (c: Id) => r.nfc(NameOf(es, c)) == r.nfc(name))
  }

  function NewEntry(parent: Id, name: string): Entry {
    Entry(name, Folder, [parent], false, "", 1, map[])
  }

  function WithFolder(s: Store, parent: Id, name: string): Store {
    Store(s.entries[s.nextId := NewEntry(parent, name)], s.nextId + 1,
          s.log[s.nextId := Stamp(s.changes + 1, false)], s.changes + 1)
  }

  function WithName(s: Store, f: Id, name: string): Store
    requires f in s.entries
  {
    Store(s.entries[f := s.entries[f].(name := name)], s.nextId, s.log[f := Stamp(s.changes + 1, false)], s.changes + 1)
  }

  /** The two writes of a run are the drive's own operations. */
  lemma WritesAreDriveOperations(s: Store, parent: Id, f: Id, name: string)
    ensures parent in s.entries ==> After(s, Create(NewEntry(parent, name))) == WithFolder(s, parent, name)
    ensures f in s.entries ==> After(s, Mutation.Rename(f, name)) == WithName(s, f, name)
  {
  }

  // ---------------------------------------------------------------- one write

  /** What a write does to the drive and which folder, if any, it goes on to register. */
  datatype Effect =
    | Stuck(calls: nat)                                       // parent folder unknown, old folder gone
    | Broken(calls: nat, s: Store)                            // a drive call failed, possibly after the renaming
    | Entering(calls: nat, s: Store, outcome: Outcome, node: Id)
    | Miscounted(calls: nat, s: Store)

  function CreateEffect(x: Run, parent: Option<Id>, existing: seq<Id>, name: string, fails: nat -> bool): Effect {
    var s := x.w.drive;
    if parent.None? then Stuck(0)
    else if fails(x.calls) then Broken(1, s)
    else if existing != [] then Entering(1, s, Skipped, existing[0])
    else if fails(x.calls + 1) || parent.value !in s.entries then Broken(2, s)
    else Entering(2, WithFolder(s, parent.value, name), Done, s.nextId)
  }

  function Existing(r: Rules, x: Run, parent: Option<Id>, name: string): seq<Id> {
    if parent.None? then [] else ExistingFolders(r, x.w.drive.entries, parent.value, name)
  }

  function RenameEffect(r: Rules, x: Run, node: Id, name: string, before: multiset<Id>, fails: nat -> bool): Effect {
    var s := x.w.drive;
    if fails(x.calls) then Broken(1, s)
    else if node !in s.entries then Stuck(1)
    else if r.nfc(s.entries[node].name) == r.nfc(name) then Entering(1, s, Skipped, node)
    else if fails(x.calls + 1) then Broken(2, s)
    else
      var t := WithName(s, node, name);
      if fails(x.calls + 2) then Broken(3, t)
      else if FileBag(t.entries, r.key, node) != before then Miscounted(3, t)
      else Entering(3, t, Done, node)
  }

  /** A drive error or a wrong count stops all later writes; an unknown folder does not. */
  function Take(pk: nat, x: Run, a: Action, place: Place, e: Effect): Run {
    match e
    case Stuck(n) => Note(OnDrive(x, n, x.w.drive), a, Refused)
    case Broken(n, s) => Note(OnDrive(x, n, s), a, Refused).(stop := true)
    case Miscounted(n, s) =>
      Note(OnDrive(x, n, s), a, Refused).(stop := true, late := x.late + [CountReview(a)])
    case Entering(n, s, o, node) => Enter(OnDrive(x, n, s), a, o, pk, node, place)
  }

  function CountReview(a: Action): Action {
    if a.RenameFolder? then OpenReview(Key(Some(a.cat), CountMismatch), [a.node]) else a
  }

  function OnDrive(x: Run, n: nat, s: Store): Run {
    x.(calls := x.calls + n, w := x.w.(drive := s))
  }

  function ExecReview(x: Run, a: Action): Run
    requires a.OpenReview?
  {
    if a.key in x.w.open then Note(x, a, Skipped)
    else Note(x.(w := x.w.(open := x.w.open + {a.key})), a, Done)
  }

  function ExecAction(r: Rules, pk: nat, x: Run, a: Action, fails: nat -> bool): Run {
    if x.aborted then x
    else if IsWrite(a) && x.stop then Note(x, a, Skipped)
    else match a
      case FindRoot => x
      case RegisterFolder(place, node) => Enter(x, a, Done, pk, node, place)
      case CreateFolder(place, ref, name) =>
        var parent := ParentId(x, ref);
        Take(pk, x, a, place, CreateEffect(x, parent, Existing(r, x, parent, name), name, fails))
      case RenameFolder(cat, node, name, before) =>
        Take(pk, x, a, MainPlace(cat), RenameEffect(r, x, node, name, before, fails))
      case OpenReview(_, _) => ExecReview(x, a)
  }

  function ExecAll(r: Rules, pk: nat, x: Run, actions: seq<Action>, fails: nat -> bool): Run
    decreases |actions|
  {
    if actions == [] then x else ExecAll(r, pk, ExecAction(r, pk, x, actions[0], fails), actions[1..], fails)
  }

  /** Year rows of the category whose folder no longer lies in the main folder count as missing. */
  function DropYears(rows: seq<Row>, pk: nat, yearCode: string, seen: set<Id>): (res: seq<Row>)
    ensures |res| == |rows|
    ensures forall i :: 0 <= i < |rows| ==>
      res[i] == rows[i] || (res[i] == rows[i].(active := false) && rows[i].place.YearPlace?)
  {
    seq(|rows|, i requires 0 <= i < |rows| =>
      if rows[i].active && rows[i].pk == pk && rows[i].place.YearPlace? && rows[i].place.cat == yearCode && rows[i].node !in seen
      then rows[i].(active := false) else rows[i])
  }

  function Start(pk: nat, w: World, plan: Plan): Run {
    var x := Run(w, map[], false, false, 0, [], []);
    match plan.root
    case None => x
    case Some(node) =>
      var y := EnterNode(x, pk, node, RootPlace);
      if y.aborted then y else y.(w := y.w.(stored := Some(node)))
  }

  /** Found before the run or made in it. */
  predicate FolderKnown(plan: Plan, x: Run) {
    plan.root.Some? || NewRoot in x.resolved
  }

  /** The files of a known object folder are counted once more; a failing count ends the run before the year rows. */
  function Finish(cfg: Config, pk: nat, plan: Plan, x: Run, fails: nat -> bool): Run {
    if x.aborted then x
    else
      var y := if FolderKnown(plan, x) then x.(calls := x.calls + 1) else x;
      if (FolderKnown(plan, x) && fails(x.calls)) || !plan.yearsChecked then y
      else y.(w := x.w.(rows := DropYears(x.w.rows, pk, cfg.yearCode, plan.yearIds)))
  }

  /** Reviews raised while running are appended to the plan and so come last. */
  function Execute(r: Rules, cfg: Config, pk: nat, w: World, plan: Plan, fails: nat -> bool): Run {
    var x := ExecAll(r, pk, Start(pk, w, plan), plan.actions, fails);
    Finish(cfg, pk, plan, ExecAll(r, pk, x.(late := []), x.late, fails), fails)
  }

  /** No write carried out and no review opened. */
  ghost predicate NoChanges(x: Run) {
    forall i :: 0 <= i < |x.log| && (IsWrite(x.log[i].0) || x.log[i].0.OpenReview?) ==> x.log[i].1 != Done
  }
}
