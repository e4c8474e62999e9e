/** What every reconciliation run keeps, whatever the plan and whatever calls fail: the files and their places,
  * and the index. */
module ReconcileSafety {
  import opened Wrappers
  import opened Drive
  import opened Sorting
  import opened Tree
  import opened FileCount
  import opened ReconcilePlan
  import opened ReconcileRun

  /** Ids in use, also as parents, were handed out earlier. */
  ghost predicate Sound(s: Store) {
    Valid(s) && forall c, p :: c in s.entries && p in s.entries[c].parents ==> p < s.nextId
  }

  lemma PreservedTwice(a: Entries, b: Entries, c: Entries)
    requires Preserved(a, b) && Preserved(b, c)
    ensures Preserved(a, c)
  {
  }

  lemma CreateKeeps(s: Store, parent: Id, name: string)
    requires Sound(s) && parent in s.entries
    ensures Sound(WithFolder(s, parent, name)) && Preserved(s.entries, WithFolder(s, parent, name).entries)
  {
  }

  lemma RenameKeeps(s: Store, f: Id, name: string)
    requires Sound(s) && f in s.entries
    ensures Sound(WithName(s, f, name)) && Preserved(s.entries, WithName(s, f, name).entries)
  {
  }

  /** One run step or run: nothing but names changed on the drive, folders were added, the index is unambiguous. */
  ghost predicate Keeps(before: World, after: World) {
    && Sound(after.drive) && Preserved(before.drive.entries, after.drive.entries)
    && (Unambiguous(before.rows) ==> Unambiguous(after.rows))
  }

  lemma EnterKeeps(x: Run, a: Action, o: Outcome, pk: nat, node: Id, place: Place)
    ensures var y := Enter(x, a, o, pk, node, place);
      && (Unambiguous(x.w.rows) ==> Unambiguous(y.w.rows))
      && y.w.drive == x.w.drive && y.late == x.late
  {
    if Unambiguous(x.w.rows) { RegisteredUnambiguous(x.w.rows, pk, node, place); }
  }

  /** The drive after a write is the drive before it with at most one new folder or one new name. */
  ghost predicate Harmless(s: Store, e: Effect) {
    e.Stuck? || (Sound(e.s) && Preserved(s.entries, e.s.entries))
  }

  lemma CreateHarmless(x: Run, parent: Option<Id>, existing: seq<Id>, name: string, fails: nat -> bool)
    requires Sound(x.w.drive)
    ensures Harmless(x.w.drive, CreateEffect(x, parent, existing, name, fails))
  {
    if parent.Some? && parent.value in x.w.drive.entries { CreateKeeps(x.w.drive, parent.value, name); }
  }

  lemma RenameHarmless(r: Rules, x: Run, node: Id, name: string, before: multiset<Id>, fails: nat -> bool)
    requires Sound(x.w.drive)
    ensures Harmless(x.w.drive, RenameEffect(r, x, node, name, before, fails))
  {
    if node in x.w.drive.entries { RenameKeeps(x.w.drive, node, name); }
  }

  lemma TakeKeeps(pk: nat, x: Run, a: Action, place: Place, e: Effect)
    requires Sound(x.w.drive) && Harmless(x.w.drive, e)
    ensures Keeps(x.w, Take(pk, x, a, place, e).w)
  {
    if e.Entering? { EnterKeeps(OnDrive(x, e.calls, e.s), a, e.outcome, pk, e.node, place); }
  }

  lemma TakeNotLate(pk: nat, x: Run, a: Action, place: Place, e: Effect)
    requires !e.Miscounted?
    ensures Take(pk, x, a, place, e).late == x.late
  {
    if e.Entering? { EnterKeeps(OnDrive(x, e.calls, e.s), a, e.outcome, pk, e.node, place); }
  }

  lemma ActionKeeps(r: Rules, pk: nat, x: Run, a: Action, fails: nat -> bool)
    requires Sound(x.w.drive)
    ensures Keeps(x.w, ExecAction(r, pk, x, a, fails).w)
  {
    match a
    case RegisterFolder(place, node) => EnterKeeps(x, a, Done, pk, node, place);
    case CreateFolder(place, ref, name) =>
      var parent := ParentId(x, ref);
      var existing := Existing(r, x, parent, name);
      CreateHarmless(x, parent, existing, name, fails);
      TakeKeeps(pk, x, a, place, CreateEffect(x, parent, existing, name, fails));
    case RenameFolder(cat, node, name, before) =>
      RenameHarmless(r, x, node, name, before, fails);
      TakeKeeps(pk, x, a, MainPlace(cat), RenameEffect(r, x, node, name, before, fails));
    case _ =>
  }

  lemma {:induction false} AllKeeps(r: Rules, pk: nat, x: Run, actions: seq<Action>, fails: nat -> bool)
    requires Sound(x.w.drive)
    ensures Keeps(x.w, ExecAll(r, pk, x, actions, fails).w)
    decreases |actions|
  {
    if actions != [] {
      var y := ExecAction(r, pk, x, actions[0], fails);
      ActionKeeps(r, pk, x, actions[0], fails);
      AllKeeps(r, pk, y, actions[1..], fails);
      PreservedTwice(x.w.drive.entries, y.w.drive.entries, ExecAll(r, pk, y, actions[1..], fails).w.drive.entries);
    }
  }

  lemma DropYearsKeeps(rows: seq<Row>, pk: nat, yearCode: string, seen: set<Id>)
    requires Unambiguous(rows)
    ensures Unambiguous(DropYears(rows, pk, yearCode, seen))
  {
    var res := DropYears(rows, pk, yearCode, seen);
    forall i, j | 0 <= i < j < |res| ensures res[i].node != res[j].node && !SamePosition(res[i], res[j]) {
      assert rows[i].node != rows[j].node && !SamePosition(rows[i], rows[j]);
    }
  }

  /** Over any run, with any plan and any failing calls, the drive keeps all entries with their parents, kinds,
    * contents and trash state, gains live folders only, and the index stays unambiguous. */
  lemma RunKeeps(r: Rules, cfg: Config, pk: nat, w: World, plan: Plan, fails: nat -> bool)
    requires Sound(w.drive)
    ensures Keeps(w, Execute(r, cfg, pk, w, plan, fails).w)
  {
    hide ExecAll, DropYears, Registered, Clashes, Unambiguous, Preserved, Sound;
    var s := Start(pk, w, plan);
    if plan.root.Some? && Unambiguous(w.rows) { RegisteredUnambiguous(w.rows, pk, plan.root.value, RootPlace); }
    var x := ExecAll(r, pk, s, plan.actions, fails);
    AllKeeps(r, pk, s, plan.actions, fails);
    var y := ExecAll(r, pk, x.(late := []), x.late, fails);
    AllKeeps(r, pk, x.(late := []), x.late, fails);
    PreservedTwice(w.drive.entries, x.w.drive.entries, y.w.drive.entries);
    if Unambiguous(y.w.rows) { DropYearsKeeps(y.w.rows, pk, cfg.yearCode, plan.yearIds); }
  }

  /** No run changes the set of files below a folder, nor the bag the program counts and hashes. */
  lemma RunConservesFiles(r: Rules, cfg: Config, pk: nat, w: World, plan: Plan, fails: nat -> bool, f: Id)
    requires Sound(w.drive) && f in w.drive.entries
    ensures FileBag(Execute(r, cfg, pk, w, plan, fails).w.drive.entries, r.key, f) == FileBag(w.drive.entries, r.key, f)
  {
    RunKeeps(r, cfg, pk, w, plan, fails);
    FilesKept(w.drive.entries, Execute(r, cfg, pk, w, plan, fails).w.drive.entries, r.key, f);
  }

  // ---------------------------------------------------------------- the count never differs

  /** Every planned renaming carries the count of its folder as the planner saw it. */
  ghost predicate Counted(r: Rules, es: Entries, actions: seq<Action>) {
    forall i :: 0 <= i < |actions| && actions[i].RenameFolder? ==>
      actions[i].node in es && actions[i].before == FileBag(es, r.key, actions[i].node)
  }

  lemma RenameMatches(r: Rules, x: Run, es: Entries, node: Id, name: string, before: multiset<Id>, fails: nat -> bool)
    requires Sound(x.w.drive) && Preserved(es, x.w.drive.entries) && node in es && before == FileBag(es, r.key, node)
    ensures !RenameEffect(r, x, node, name, before, fails).Miscounted?
  {
    hide FileBag, Sound;
    assert node in x.w.drive.entries;
    RenameKeeps(x.w.drive, node, name);
    PreservedTwice(es, x.w.drive.entries, WithName(x.w.drive, node, name).entries);
    FilesKept(es, WithName(x.w.drive, node, name).entries, r.key, node);
  }

  lemma ActionNotLate(r: Rules, pk: nat, es: Entries, x: Run, a: Action, fails: nat -> bool)
    requires Sound(x.w.drive) && Preserved(es, x.w.drive.entries)
    requires a.RenameFolder? ==> a.node in es && a.before == FileBag(es, r.key, a.node)
    ensures ExecAction(r, pk, x, a, fails).late == x.late
  {
    match a
    case RegisterFolder(place, node) => EnterKeeps(x, a, Done, pk, node, place);
    case CreateFolder(place, ref, name) =>
      var parent := ParentId(x, ref);
      TakeNotLate(pk, x, a, place, CreateEffect(x, parent, Existing(r, x, parent, name), name, fails));
    case RenameFolder(cat, node, name, before) =>
      RenameMatches(r, x, es, node, name, before, fails);
      TakeNotLate(pk, x, a, MainPlace(cat), RenameEffect(r, x, node, name, before, fails));
    case _ =>
  }

  /** Without foreign changes between planning and execution, no renaming is ever stopped for a differing count. */
  lemma {:induction false} NoLateReview(r: Rules, pk: nat, es: Entries, x: Run, actions: seq<Action>, fails: nat -> bool)
    requires Sound(x.w.drive) && Preserved(es, x.w.drive.entries) && Counted(r, es, actions)
    ensures ExecAll(r, pk, x, actions, fails).late == x.late
    decreases |actions|
  {
    if actions != [] {
      var y := ExecAction(r, pk, x, actions[0], fails);
      ActionKeeps(r, pk, x, actions[0], fails);
      ActionNotLate(r, pk, es, x, actions[0], fails);
      PreservedTwice(es, x.w.drive.entries, y.w.drive.entries);
      assert Counted(r, es, actions[1..]) by {
        assert forall i :: 0 <= i < |actions[1..]| ==> actions[1..][i] == actions[i + 1];
      }
      NoLateReview(r, pk, es, y, actions[1..], fails);
    }
  }

  // ---------------------------------------------------------------- failures and questions

  /** Once writing has stopped, nothing is written and no drive call is made any more. */
  lemma StoppedStep(r: Rules, pk: nat, x: Run, a: Action, fails: nat -> bool)
    requires x.stop
    ensures var y := ExecAction(r, pk, x, a, fails); y.stop && y.calls == x.calls && y.w.drive == x.w.drive
  {
    hide Registered, Clashes, CreateEffect, RenameEffect;
  }

  lemma {:induction false} StoppedStays(r: Rules, pk: nat, x: Run, actions: seq<Action>, fails: nat -> bool)
    requires x.stop
    ensures var y := ExecAll(r, pk, x, actions, fails); y.stop && y.calls == x.calls && y.w.drive == x.w.drive
    decreases |actions|
  {
    hide ExecAction;
    if actions != [] {
      StoppedStep(r, pk, x, actions[0], fails);
      StoppedStays(r, pk, ExecAction(r, pk, x, actions[0], fails), actions[1..], fails);
    }
  }

  /** Only the last of the calls numbered from `from` to before `to` may fail, and if it does, the flag is set. */
  ghost predicate LastFails(fails: nat -> bool, from: nat, to: nat, flag: bool) {
    from <= to && (forall k :: from <= k < to - 1 ==> !fails(k)) && (to > from && fails(to - 1) ==> flag)
  }

  lemma CreateBreaks(x: Run, parent: Option<Id>, existing: seq<Id>, name: string, fails: nat -> bool)
    ensures var e := CreateEffect(x, parent, existing, name, fails); LastFails(fails, x.calls, x.calls + e.calls, e.Broken?)
  {
    hide WithFolder;
  }

  lemma RenameBreaks(r: Rules, x: Run, node: Id, name: string, before: multiset<Id>, fails: nat -> bool)
    ensures var e := RenameEffect(r, x, node, name, before, fails); LastFails(fails, x.calls, x.calls + e.calls, e.Broken?)
  {
    hide WithName, FileBag;
  }

  lemma TakeCalls(pk: nat, x: Run, a: Action, place: Place, e: Effect)
    ensures var y := Take(pk, x, a, place, e); y.calls == x.calls + e.calls && (e.Broken? ==> y.stop) && y.w.open == x.w.open
  {
    hide Registered, Clashes, CountReview;
  }

  /** A step fails with its last call if at all, and then writing stops. */
  lemma FailureStops(r: Rules, pk: nat, x: Run, a: Action, fails: nat -> bool)
    requires !x.stop
    ensures var y := ExecAction(r, pk, x, a, fails); LastFails(fails, x.calls, y.calls, y.stop)
  {
    hide Registered, Clashes, Existing, CreateEffect, RenameEffect, Take;
    match a
    case CreateFolder(place, ref, name) =>
      var parent := ParentId(x, ref);
      CreateBreaks(x, parent, Existing(r, x, parent, name), name, fails);
      TakeCalls(pk, x, a, place, CreateEffect(x, parent, Existing(r, x, parent, name), name, fails));
    case RenameFolder(cat, node, name, before) =>
      RenameBreaks(r, x, node, name, before, fails);
      TakeCalls(pk, x, a, MainPlace(cat), RenameEffect(r, x, node, name, before, fails));
    case _ =>
  }

  /** No drive call follows a failed one, and no write follows it either. */
  lemma {:induction false} NothingAfterFailure(r: Rules, pk: nat, x: Run, actions: seq<Action>, fails: nat -> bool)
    requires !x.stop
    ensures var y := ExecAll(r, pk, x, actions, fails);
      x.calls <= y.calls && forall k :: x.calls <= k < y.calls && fails(k) ==> k == y.calls - 1 && y.stop
    decreases |actions|
  {
    hide ExecAction;
    if actions != [] {
      var next := ExecAction(r, pk, x, actions[0], fails);
      FailureStops(r, pk, x, actions[0], fails);
      if next.stop { StoppedStays(r, pk, next, actions[1..], fails); } else { NothingAfterFailure(r, pk, next, actions[1..], fails); }
    }
  }

  function KeysOf(actions: seq<Action>): set<Key> {
    set a | a in actions && a.OpenReview? :: a.key
  }

  /** A run that is not cut short leaves open exactly the cases that were open and those its list asks for, failures or not. */
  lemma {:induction false} CasesOpened(r: Rules, pk: nat, x: Run, actions: seq<Action>, fails: nat -> bool)
    requires !ExecAll(r, pk, x, actions, fails).aborted
    ensures ExecAll(r, pk, x, actions, fails).w.open == x.w.open + KeysOf(actions)
    decreases |actions|
  {
    hide ExecAction, KeysOf;
    if actions == [] {
      NoKeys();
    } else {
      var next := ExecAction(r, pk, x, actions[0], fails);
      CutShort(r, pk, next, actions[1..], fails);
      CasesOpened(r, pk, next, actions[1..], fails);
      OneCase(r, pk, x, actions[0], fails);
      MoreKeys(actions);
    }
  }

  lemma NoKeys()
    ensures KeysOf([]) == {}
  {
  }

  lemma MoreKeys(actions: seq<Action>)
    requires actions != []
    ensures KeysOf(actions) == KeysOf(actions[1..]) + if actions[0].OpenReview? then {actions[0].key} else {}
  {
    assert actions == [actions[0]] + actions[1..];
  }

  lemma OneCase(r: Rules, pk: nat, x: Run, a: Action, fails: nat -> bool)
    requires !ExecAction(r, pk, x, a, fails).aborted
    ensures ExecAction(r, pk, x, a, fails).w.open == x.w.open + if a.OpenReview? then {a.key} else {}
  {
    hide Registered, Clashes, CreateEffect, RenameEffect, Existing, Take;
    match a
    case CreateFolder(place, ref, name) =>
      var parent := ParentId(x, ref);
      TakeCalls(pk, x, a, place, CreateEffect(x, parent, Existing(r, x, parent, name), name, fails));
    case RenameFolder(cat, node, name, before) =>
      TakeCalls(pk, x, a, MainPlace(cat), RenameEffect(r, x, node, name, before, fails));
    case _ =>
  }

  lemma {:induction false} CutShort(r: Rules, pk: nat, x: Run, actions: seq<Action>, fails: nat -> bool)
    ensures x.aborted ==> ExecAll(r, pk, x, actions, fails) == x
    decreases |actions|
  {
    hide CreateEffect, RenameEffect, Registered, Clashes;
    if actions != [] && x.aborted { CutShort(r, pk, x, actions[1..], fails); }
  }

  /** At the end exactly the active year rows of the object whose folder was not seen count as missing, if the years were
    * looked at and the final count did not fail; every other row stays. */
  lemma YearRowsAfter(cfg: Config, pk: nat, plan: Plan, x: Run, fails: nat -> bool, i: nat)
    requires i < |x.w.rows| && !x.aborted
    ensures var res, row := Finish(cfg, pk, plan, x, fails).w.rows, x.w.rows[i];
      && |res| == |x.w.rows|
      && var dropped := plan.yearsChecked && !((plan.root.Some? || NewRoot in x.resolved) && fails(x.calls))
           && row.active && row.pk == pk && row.place == YearPlace(cfg.yearCode, if row.place.YearPlace? then row.place.year else 0) && row.node !in plan.yearIds;
         res[i] == if dropped then row.(active := false) else row
  {
  }
}
