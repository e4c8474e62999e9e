/** The run as the program carries it out (reconcile.py, _execute, _register_node): rows are displaced and rewritten in
  * place, results are noted action by action, and a stopped renaming appends a case to the list being worked off.
  * Each method is proved to do what ReconcileRun specifies. */
module ReconcileRunner {
  import opened Wrappers
  import opened Drive
  import opened Sorting
  import opened Tree
  import opened FileCount
  import opened ReconcilePlan
  import opened ReconcileRun
  import opened ReconcileBuild
  import opened ReconcilePlanner

  class Runner {
    const r: Rules
    const cfg: Config
    const pk: nat
    const drive: InMemoryDrive
    const fails: nat -> bool
    var rows: seq<Row>
    var stored: Option<Id>
    var open: set<Key>
    var resolved: map<Ref, Id>
    var stop: bool
    var aborted: bool
    var calls: nat
    var log: seq<(Action, Outcome)>
    /** The list being worked off; it may grow. */
    var actions: seq<Action>
    ghost var late: seq<Action>

    ghost function Now(): Run
      reads this, drive
    {
      Run(World(drive.State(), rows, stored, open), resolved, stop, aborted, calls, log, late)
    }

    constructor (r: Rules, cfg: Config, pk: nat, drive: InMemoryDrive, rows: seq<Row>, stored: Option<Id>, open: set<Key>, fails: nat -> bool,
                 actions: seq<Action>)
      ensures this.r == r && this.cfg == cfg && this.pk == pk && this.drive == drive && this.fails == fails && this.actions == actions
      ensures Now() == Run(World(drive.State(), rows, stored, open), map[], false, false, 0, [], [])
    {
      this.r, this.cfg, this.pk, this.drive, this.fails, this.actions := r, cfg, pk, drive, fails, actions;
      this.rows, this.stored, this.open := rows, stored, open;
      resolved, stop, aborted, calls, log, late := map[], false, false, 0, [], [];
    }

    method NoteOutcome(a: Action, o: Outcome)
      modifies this`log
      ensures Now() == Note(old(Now()), a, o)
    {
      log := log + [(a, o)];
    }

    /** One drive call; the answer says whether it failed. */
    method Call() returns (failed: bool)
      modifies this`calls
      ensures failed == fails(old(calls)) && calls == old(calls) + 1
    {
      failed := fails(calls);
      calls := calls + 1;
    }

    // -------------------------------------------------------------- the index

    method RegisterNode(node: Id, place: Place)
      modifies this`rows, this`aborted
      ensures Now() == EnterNode(old(Now()), pk, node, place)
    {
      hide Clashes, HasRow;
      var before := rows;
      DisplaceOthers(node, place);
      aborted := Clashes(before, pk, node, place);
      if aborted { return; }
      if HasRow(before, node) {
        Rewrite(node, place);
      } else {
        rows := rows + [Row(node, pk, place, None, true)];
      }
    }

    method DisplaceOthers(node: Id, place: Place)
      modifies this`rows
      ensures rows == Displace(old(rows), pk, node, place)
    {
      for i := 0 to |rows|
        invariant |rows| == |old(rows)|
        invariant forall j :: 0 <= j < i ==> rows[j] == Displace(old(rows), pk, node, place)[j]
        invariant forall j :: i <= j < |rows| ==> rows[j] == old(rows)[j]
      {
        if Holds(rows[i], pk, place) && rows[i].file.None? && rows[i].node != node {
          rows := rows[i := rows[i].(active := false)];
        }
      }
    }

    method Rewrite(node: Id, place: Place)
      modifies this`rows
      ensures rows == Reassign(old(rows), pk, node, place)
    {
      for i := 0 to |rows|
        invariant |rows| == |old(rows)|
        invariant forall j :: 0 <= j < i ==> rows[j] == Reassign(old(rows), pk, node, place)[j]
        invariant forall j :: i <= j < |rows| ==> rows[j] == old(rows)[j]
      {
        if rows[i].node == node {
          rows := rows[i := Row(node, pk, place, rows[i].file, true)];
        }
      }
    }

    method EnterFolder(a: Action, o: Outcome, node: Id, place: Place)
      modifies this`rows, this`aborted, this`log, this`resolved, this`stored
      ensures Now() == Enter(old(Now()), a, o, pk, node, place)
    {
      hide Registered, Clashes;
      RegisterNode(node, place);
      if aborted { return; }
      NoteOutcome(a, o);
      match place {
        case RootPlace => resolved := resolved[NewRoot := node]; stored := Some(node);
        case MainPlace(cat) => resolved := resolved[NewCategory(cat) := node];
        case _ =>
      }
    }

    // -------------------------------------------------------------- the actions

    /** At most one case was appended, to the list as to the cases raised. */
    static ghost predicate Grew(late0: seq<Action>, late: seq<Action>, actions0: seq<Action>, actions: seq<Action>) {
      (late == late0 && actions == actions0)
      || (exists b: Action :: b.OpenReview? && late == late0 + [b] && actions == actions0 + [b])
    }

    method Create(a: Action)
      requires a.CreateFolder? && !aborted && !stop
      modifies this`rows, this`aborted, this`log, this`resolved, this`stored, this`stop, this`calls, drive
      ensures Now() == ExecAction(r, pk, old(Now()), a, fails)
    {
      hide Enter, ExistingFolders, FolderKids, Clashes, Registered;
      var parent := ParentOf(a.parent);
      if parent.None? {
        NoteOutcome(a, Refused);
        return;
      }
      WritesAreDriveOperations(drive.State(), parent.value, 0, a.name);
      var listing := Call();
      var existing := ExistingFolders(r, drive.entries, parent.value, a.name);
      if listing {
        NoteOutcome(a, Refused);
        stop := true;
        return;
      }
      if existing != [] {
        EnterFolder(a, Skipped, existing[0], a.place);
        return;
      }
      var creating := Call();
      var made := drive.CreateFolder(parent.value, a.name, creating);
      if made.Err? {
        NoteOutcome(a, Refused);
        stop := true;
        return;
      }
      EnterFolder(a, Done, made.value, a.place);
    }

    method ParentOf(ref: Ref) returns (parent: Option<Id>)
      ensures parent == ParentId(Now(), ref)
    {
      if ref in resolved { return Some(resolved[ref]); }
      match ref {
        case ById(id) => return Some(id);
        case _ => return None;
      }
    }

    /** The drive calls of a renaming, up to the count that has to agree with the planner's. */
    method TryRename(a: Action) returns (e: Effect)
      requires a.RenameFolder?
      modifies this`calls, drive
      ensures e == RenameEffect(r, old(Now()), a.node, a.name, a.before, fails)
      ensures Now() == OnDrive(old(Now()), e.calls, drive.State()) && drive.State() == if e.Stuck? then old(drive.State()) else e.s
    {
      hide FileBag;
      WritesAreDriveOperations(drive.State(), 0, a.node, a.name);
      var reading := Call();
      if reading { return Broken(1, drive.State()); }
      if a.node !in drive.entries { return Stuck(1); }
      if r.nfc(drive.entries[a.node].name) == r.nfc(a.name) { return Entering(1, drive.State(), Skipped, a.node); }
      var renaming := Call();
      var done := drive.RenameEntry(a.node, a.name, renaming);
      if done.Err? { return Broken(2, drive.State()); }
      var counting := Call();
      if counting { return Broken(3, drive.State()); }
      if FileBag(drive.entries, r.key, a.node) != a.before { return Miscounted(3, drive.State()); }
      return Entering(3, drive.State(), Done, a.node);
    }

    method Rename(a: Action)
      requires a.RenameFolder? && !aborted && !stop
      modifies this`rows, this`aborted, this`log, this`resolved, this`stored, this`stop, this`calls, this`actions, this`late, drive
      ensures Now() == ExecAction(r, pk, old(Now()), a, fails)
      ensures Grew(old(late), late, old(actions), actions)
    {
      hide Enter, RenameEffect;
      var e := TryRename(a);
      match e {
        case Stuck(_) => NoteOutcome(a, Refused);
        case Broken(_, _) =>
          NoteOutcome(a, Refused);
          stop := true;
        case Miscounted(_, _) =>
          NoteOutcome(a, Refused);
          stop := true;
          actions := actions + [CountReview(a)];
          late := late + [CountReview(a)];
        case Entering(_, _, o, node) => EnterFolder(a, o, node, MainPlace(a.cat));
      }
    }

    method CreateReview(a: Action)
      requires a.OpenReview? && !aborted
      modifies this`open, this`log
      ensures Now() == ExecAction(r, pk, old(Now()), a, fails)
    {
      if a.key in open {
        NoteOutcome(a, Skipped);
      } else {
        open := open + {a.key};
        NoteOutcome(a, Done);
      }
    }

    /** One turn of the loop. */
    method Step(a: Action)
      modifies this`rows, this`aborted, this`log, this`resolved, this`stored, this`stop, this`calls, this`actions, this`late, this`open, drive
      ensures Now() == ExecAction(r, pk, old(Now()), a, fails)
      ensures Grew(old(late), late, old(actions), actions) && (!a.RenameFolder? ==> actions == old(actions) && late == old(late))
    {
      hide Enter, Take, CreateEffect, RenameEffect;
      if aborted || a.FindRoot? { return; }
      if IsWrite(a) && stop {
        NoteOutcome(a, Skipped);
        return;
      }
      match a {
        case RegisterFolder(place, node) => EnterFolder(a, Done, node, place);
        case CreateFolder(_, _, _) => Create(a);
        case RenameFolder(_, _, _, _) => Rename(a);
        case OpenReview(_, _) => CreateReview(a);
        case FindRoot =>
      }
    }

    /** The loop over a list that grows while it is worked off: the cases it appends come last. */
    method RunAll()
      requires late == []
      modifies this`rows, this`aborted, this`log, this`resolved, this`stored, this`stop, this`calls, this`actions, this`late, this`open, drive
      ensures var first := ExecAll(r, pk, old(Now()), old(actions), fails);
        Now() == ExecAll(r, pk, first.(late := []), first.late, fails)
    {
      hide ExecAction;
      ghost var plan := actions;
      ghost var n := |plan|;
      ghost var first := ExecAll(r, pk, Now(), plan, fails);
      ghost var last := ExecAll(r, pk, first.(late := []), first.late, fails);
      var i := 0;
      while i < |actions|
        invariant n <= |actions|
        invariant forall b :: b in late ==> b.OpenReview?
        invariant i <= n ==> actions == plan + late && ExecAll(r, pk, Now(), plan[i..], fails) == first
        invariant i > n ==> i <= |actions| && actions == plan + first.late && late == [] && (forall b :: b in first.late ==> b.OpenReview?)
                            && ExecAll(r, pk, Now(), first.late[i - n..], fails) == last
        decreases if i < n then n - i else 0, |actions| - i
      {
        if i == n { late := []; }
        if i < n {
          assert plan[i..][0] == actions[i] && plan[i..][1..] == plan[i + 1..];
        } else {
          assert first.late[i - n..][0] == actions[i] && first.late[i - n..][1..] == first.late[i + 1 - n..];
          assert actions[i] in first.late;
        }
        Step(actions[i]);
        i := i + 1;
      }
    }

    method DropMissingYears(plan: Plan)
      modifies this`rows
      ensures rows == DropYears(old(rows), pk, cfg.yearCode, plan.yearIds)
    {
      for i := 0 to |rows|
        invariant |rows| == |old(rows)|
        invariant forall j :: 0 <= j < i ==> rows[j] == DropYears(old(rows), pk, cfg.yearCode, plan.yearIds)[j]
        invariant forall j :: i <= j < |rows| ==> rows[j] == old(rows)[j]
      {
        var row := rows[i];
        if row.active && row.pk == pk && row.place.YearPlace? && row.place.cat == cfg.yearCode && row.node !in plan.yearIds {
          rows := rows[i := row.(active := false)];
        }
      }
    }

    /** The last count, then the year rows. */
    method Conclude(plan: Plan)
      modifies this`rows, this`calls
      ensures Now() == Finish(cfg, pk, plan, old(Now()), fails)
    {
      hide DropYears;
      if aborted { return; }
      if plan.root.Some? || NewRoot in resolved {
        var failed := Call();
        if failed { return; }
      }
      if plan.yearsChecked { DropMissingYears(plan); }
    }
  }

  /** Planning and execution in one call, as reconcile_object does. A dry run, and a run whose plan fails, leaves the
    * drive and the rows as they were. */
  method ReconcileObject(drive: InMemoryDrive, r: Rules, cfg: Config, t: Target, rows: seq<Row>, open: set<Key>, fails: nat -> bool,
                         dryRun: bool)
    returns (plan: Option<Plan>, run: Option<Runner>)
    requires Catalogue(cfg.cats)
    modifies drive
    ensures plan == MakePlan(r, old(drive.entries), cfg, t)
    ensures run.Some? <==> plan.Some? && !dryRun
    ensures run.None? ==> drive.State() == old(drive.State())
    ensures run.Some? ==>
      run.value.drive == drive && fresh(run.value)
      && run.value.Now() == Execute(r, cfg, t.pk, World(old(drive.State()), rows, t.stored, open), plan.value, fails)
  {
    hide MakePlan, ExecAll, Registered, Clashes, DropYears, Finish;
    plan := PlanObject(drive, r, cfg, t);
    if plan.None? || dryRun { return plan, None; }
    var p := plan.value;
    var x := new Runner(r, cfg, t.pk, drive, rows, t.stored, open, fails, p.actions);
    if p.root.Some? {
      x.RegisterNode(p.root.value, RootPlace);
      if !x.aborted { x.stored := p.root; }
    }
    x.RunAll();
    x.Conclude(p);
    return plan, Some(x);
  }
}
