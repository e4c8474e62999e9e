/** What an undisturbed run builds: every planned folder exactly once, every planned name, and nothing else. */
module ReconcileBuild {
  import opened Wrappers
  import opened Drive
  import opened Sorting
  import opened Tree
  import opened FileCount
  import opened ReconcilePlan
  import opened ReconcileRun
  import opened ReconcileSafety

  /** The folder a reference stands for, once the folders of `made` exist. */
  function NodeOf(made: map<Place, Id>, ref: Ref): Id {
    match ref
    case ById(id) => id
    case NewRoot => if RootPlace in made then made[RootPlace] else 0
    case NewCategory(cat) => if MainPlace(cat) in made then made[MainPlace(cat)] else 0
  }

  function PlaceOf(ref: Ref): Place {
    match ref
    case ById(id) => OtherPlace(id)
    case NewRoot => RootPlace
    case NewCategory(cat) => MainPlace(cat)
  }

  ghost predicate Creates(actions: seq<Action>, place: Place) {
    exists i :: 0 <= i < |actions| && actions[i].CreateFolder? && actions[i].place == place
  }

  ghost predicate Renames(actions: seq<Action>, node: Id) {
    exists i :: 0 <= i < |actions| && actions[i].RenameFolder? && actions[i].node == node
  }

  /** Every created folder is there once, under the name and in the parent that were planned. */
  ghost predicate BuiltNew(es: Entries, later: Entries, done: seq<Action>, made: map<Place, Id>) {
    && (forall p :: p in made <==> Creates(done, p))
    && (forall p, q :: p in made && q in made && made[p] == made[q] ==> p == q)
    && (forall p :: p in made ==> made[p] !in es && made[p] in later)
    && (forall c :: c in later && c !in es ==> exists p :: p in made && made[p] == c)
    && (forall i :: 0 <= i < |done| && done[i].CreateFolder? ==>
          later[made[done[i].place]] == NewEntry(NodeOf(made, done[i].parent), done[i].name)
          && (done[i].parent.ById? || PlaceOf(done[i].parent) in made))
  }

  /** Everything else is as it was, but for the planned names. */
  ghost predicate BuiltOld(es: Entries, later: Entries, done: seq<Action>) {
    && (forall c :: c in es ==> c in later && (!Renames(done, c) ==> later[c] == es[c]))
    && (forall i :: 0 <= i < |done| && done[i].RenameFolder? ==>
          done[i].node in es && later[done[i].node] == es[done[i].node].(name := done[i].name))
  }

  /** `later` is `es` with the actions `done` carried out; `made` says which id each created folder got. */
  ghost predicate Built(es: Entries, later: Entries, done: seq<Action>, made: map<Place, Id>) {
    BuiltNew(es, later, done, made) && BuiltOld(es, later, done)
  }

  /** No folder is planned where one of that name is or will be; placeholders are created before they are used. */
  ghost predicate Consistent(r: Rules, es: Entries, all: seq<Action>) {
    && (forall i, j :: 0 <= i < j < |all| && all[i].CreateFolder? && all[j].CreateFolder? ==>
          all[i].place != all[j].place && (all[i].parent == all[j].parent ==> r.nfc(all[i].name) != r.nfc(all[j].name)))
    && (forall i :: 0 <= i < |all| && all[i].CreateFolder? ==> Fits(r, es, all, i))
    && (forall i :: 0 <= i < |all| && all[i].RenameFolder? ==>
          all[i].node in es && r.nfc(es[all[i].node].name) != r.nfc(all[i].name)
          && all[i].before == FileBag(es, r.key, all[i].node))
    && (forall i, j :: 0 <= i < j < |all| && all[i].RenameFolder? && all[j].RenameFolder? ==> all[i].node != all[j].node)
  }

  ghost predicate Fits(r: Rules, es: Entries, all: seq<Action>, i: nat)
    requires i < |all| && all[i].CreateFolder?
  {
    && (all[i].parent.ById? ==>
          && all[i].parent.id in es
          && (forall q :: q in FolderSet(es, all[i].parent.id) ==> r.nfc(es[q].name) != r.nfc(all[i].name))
          && (forall j :: 0 <= j < |all| && all[j].RenameFolder? && Child(es, all[i].parent.id, all[j].node) ==>
                r.nfc(all[j].name) != r.nfc(all[i].name)))
    && (!all[i].parent.ById? ==> Creates(all[..i], PlaceOf(all[i].parent)))
    && (forall j :: 0 <= j < |all| && all[i].place.MainPlace? ==>
          && (all[j].RegisterFolder? ==> all[j].place != all[i].place)
          && (all[j].RenameFolder? ==> all[j].cat != all[i].place.cat))
    && (forall j :: 0 <= j < |all| && all[i].place.RootPlace? && all[j].RegisterFolder? ==> !all[j].place.RootPlace?)
  }

  /** Placeholders of created folders resolve to them; a drive id is never a placeholder. */
  ghost predicate Linked(x: Run, made: map<Place, Id>) {
    && (forall ref :: ref in x.resolved ==> !ref.ById?)
    && (forall cat :: MainPlace(cat) in made ==> NewCategory(cat) in x.resolved && x.resolved[NewCategory(cat)] == made[MainPlace(cat)])
    && (RootPlace in made ==> NewRoot in x.resolved && x.resolved[NewRoot] == made[RootPlace])
  }

  ghost predicate Undisturbed(x: Run) {
    !x.stop && x.late == [] && Sound(x.w.drive)
  }

  ghost predicate NoFaults(fails: nat -> bool) {
    forall n :: !fails(n)
  }

  lemma EnterLinks(x: Run, a: Action, o: Outcome, pk: nat, node: Id, place: Place, made: map<Place, Id>)
    requires Linked(x, made) && (place.MainPlace? || place.RootPlace? ==> place in made ==> made[place] == node)
    ensures Linked(Enter(x, a, o, pk, node, place), made)
    ensures !Enter(x, a, o, pk, node, place).aborted && (place.MainPlace? || place.RootPlace?) ==>
      Linked(Enter(x, a, o, pk, node, place), made[place := node])
  {
  }

  lemma OneMoreAction(done: seq<Action>, a: Action)
    ensures forall p :: Creates(done + [a], p) <==> Creates(done, p) || (a.CreateFolder? && a.place == p)
    ensures forall c :: Renames(done + [a], c) <==> Renames(done, c) || (a.RenameFolder? && a.node == c)
  {
    var all := done + [a];
    assert all[|done|] == a;
    forall p ensures Creates(all, p) <==> Creates(done, p) || (a.CreateFolder? && a.place == p) {
      if i :| 0 <= i < |done| && done[i].CreateFolder? && done[i].place == p { assert all[i] == done[i]; }
    }
    forall c ensures Renames(all, c) <==> Renames(done, c) || (a.RenameFolder? && a.node == c) {
      if i :| 0 <= i < |done| && done[i].RenameFolder? && done[i].node == c { assert all[i] == done[i]; }
    }
  }

  lemma BuiltOther(es: Entries, later: Entries, done: seq<Action>, made: map<Place, Id>, a: Action)
    requires Built(es, later, done, made) && !IsWrite(a)
    ensures Built(es, later, done + [a], made)
  {
    OneMoreAction(done, a);
  }

  lemma BuiltRename(es: Entries, later: Entries, done: seq<Action>, made: map<Place, Id>, a: Action)
    requires Built(es, later, done, made) && a.RenameFolder? && a.node in es && !Renames(done, a.node)
    ensures a.node in later && Built(es, later[a.node := later[a.node].(name := a.name)], done + [a], made)
  {
    hide BuiltNew;
    OneMoreAction(done, a);
    RenameBuildsNothing(es, later, done, made, a);
  }

  lemma RenameBuildsNothing(es: Entries, later: Entries, done: seq<Action>, made: map<Place, Id>, a: Action)
    requires BuiltNew(es, later, done, made) && a.RenameFolder? && a.node in es && a.node in later
    ensures BuiltNew(es, later[a.node := later[a.node].(name := a.name)], done + [a], made)
  {
    OneMoreAction(done, a);
  }

  lemma BuiltCreate(es: Entries, later: Entries, done: seq<Action>, made: map<Place, Id>, a: Action, node: Id)
    requires Built(es, later, done, made) && a.CreateFolder? && !Creates(done, a.place) && node !in later && node !in es
    requires a.parent.ById? || PlaceOf(a.parent) in made
    ensures Built(es, later[node := NewEntry(NodeOf(made, a.parent), a.name)], done + [a], made[a.place := node])
  {
    NewBuilt(es, later, done, made, a, node);
    OneMoreAction(done, a);
  }

  lemma NewBuilt(es: Entries, later: Entries, done: seq<Action>, made: map<Place, Id>, a: Action, node: Id)
    requires BuiltNew(es, later, done, made) && a.CreateFolder? && !Creates(done, a.place) && node !in later && node !in es
    requires a.parent.ById? || PlaceOf(a.parent) in made
    ensures BuiltNew(es, later[node := NewEntry(NodeOf(made, a.parent), a.name)], done + [a], made[a.place := node])
  {
    var all, next := done + [a], later[node := NewEntry(NodeOf(made, a.parent), a.name)];
    var made' := made[a.place := node];
    OneMoreAction(done, a);
    forall i | 0 <= i < |all| && all[i].CreateFolder?
      ensures next[made'[all[i].place]] == NewEntry(NodeOf(made', all[i].parent), all[i].name)
      ensures all[i].parent.ById? || PlaceOf(all[i].parent) in made'
    {
      EntryStays(es, later, done, made, a, node, i);
    }
    NewCovered(es, later, done, made, a, node);
  }

  lemma NewCovered(es: Entries, later: Entries, done: seq<Action>, made: map<Place, Id>, a: Action, node: Id)
    requires BuiltNew(es, later, done, made) && a.CreateFolder? && a.place !in made && node !in later
    ensures var made' := made[a.place := node];
      forall c :: (c in later || c == node) && c !in es ==> exists p :: p in made' && made'[p] == c
  {
    var made' := made[a.place := node];
    forall c | (c in later || c == node) && c !in es ensures exists p :: p in made' && made'[p] == c {
      if c == node {
        assert made'[a.place] == c;
      } else {
        var p :| p in made && made[p] == c;
        assert made'[p] == c;
      }
    }
  }

  lemma EntryStays(es: Entries, later: Entries, done: seq<Action>, made: map<Place, Id>, a: Action, node: Id, i: nat)
    requires BuiltNew(es, later, done, made) && a.CreateFolder? && a.place !in made && node !in later
    requires a.parent.ById? || PlaceOf(a.parent) in made
    requires i < |done + [a]| && (done + [a])[i].CreateFolder?
    ensures var made', b := made[a.place := node], (done + [a])[i];
      && b.place in made' && (b.parent.ById? || PlaceOf(b.parent) in made')
      && (if made'[b.place] == node then NewEntry(NodeOf(made, a.parent), a.name)
          else if made'[b.place] in later then later[made'[b.place]] else NewEntry(0, ""))
         == NewEntry(NodeOf(made', b.parent), b.name)
  {
    if i < |done| {
      assert (done + [a])[i] == done[i];
      assert Creates(done, done[i].place);
    }
  }

  // ---------------------------------------------------------------- what is entered in the index

  /** The place an action registers a folder for. */
  function PlaceFor(a: Action): Option<Place> {
    match a
    case RegisterFolder(place, _) => Some(place)
    case CreateFolder(place, _, _) => Some(place)
    case RenameFolder(cat, _, _, _) => Some(MainPlace(cat))
    case _ => None
  }

  function NodeFor(a: Action, made: map<Place, Id>): Id {
    if a.CreateFolder? then (if a.place in made then made[a.place] else 0)
    else if a.RegisterFolder? || a.RenameFolder? then a.node
    else 0
  }

  /** The index after the folders of the list were registered one by one; None if the database refuses one. */
  function Filed(rows: seq<Row>, pk: nat, actions: seq<Action>, made: map<Place, Id>): Option<seq<Row>>
    decreases |actions|
  {
    if actions == [] then Some(rows)
    else if PlaceFor(actions[0]).None? then Filed(rows, pk, actions[1..], made)
    else
      var place, node := PlaceFor(actions[0]).value, NodeFor(actions[0], made);
      if Clashes(rows, pk, node, place) then None else Filed(Registered(rows, pk, node, place), pk, actions[1..], made)
  }

  /** One action of an undisturbed run enters its folder. */
  ghost predicate Entered(x: Run, y: Run, pk: nat, a: Action, made: map<Place, Id>) {
    if PlaceFor(a).None? then y.w.rows == x.w.rows
    else !Clashes(x.w.rows, pk, NodeFor(a, made), PlaceFor(a).value)
         && y.w.rows == Registered(x.w.rows, pk, NodeFor(a, made), PlaceFor(a).value)
  }

  // ---------------------------------------------------------------- one action of an undisturbed run

  lemma StepRename(r: Rules, pk: nat, es: Entries, x: Run, done: seq<Action>, made: map<Place, Id>, a: Action, fails: nat -> bool)
    requires NoFaults(fails) && Undisturbed(x) && !x.aborted && Linked(x, made) && Preserved(es, x.w.drive.entries)
    requires Built(es, x.w.drive.entries, done, made) && a.RenameFolder? && a.node in es && !Renames(done, a.node)
    requires r.nfc(es[a.node].name) != r.nfc(a.name) && a.before == FileBag(es, r.key, a.node)
    requires MainPlace(a.cat) !in made
    ensures var y := ExecAction(r, pk, x, a, fails);
      Undisturbed(y) && Linked(y, made) && Built(es, y.w.drive.entries, done + [a], made) && Preserved(es, y.w.drive.entries)
      && (!y.aborted ==> Entered(x, y, pk, a, made))
  {
    hide Built, Linked, Preserved, Sound, FileBag, Renames, RenameEffect, Take, Keeps, NoFaults, Registered, Clashes;
    var y := ExecAction(r, pk, x, a, fails);
    var e := RenameEffect(r, x, a.node, a.name, a.before, fails);
    BuiltRename(es, x.w.drive.entries, done, made, a);
    RenameGoesThrough(r, es, x, done, made, a, fails);
    ActionKeeps(r, pk, x, a, fails);
    KeepsBoth(es, x.w, y.w);
    AfterTake(pk, x, a, MainPlace(a.cat), e, made);
  }

  lemma KeepsBoth(es: Entries, before: World, after: World)
    requires Preserved(es, before.drive.entries) && Keeps(before, after)
    ensures Preserved(es, after.drive.entries) && Sound(after.drive)
  {
    PreservedTwice(es, before.drive.entries, after.drive.entries);
  }

  lemma RenameGoesThrough(r: Rules, es: Entries, x: Run, done: seq<Action>, made: map<Place, Id>, a: Action, fails: nat -> bool)
    requires NoFaults(fails) && Sound(x.w.drive) && Preserved(es, x.w.drive.entries) && Built(es, x.w.drive.entries, done, made)
    requires a.RenameFolder? && a.node in es && !Renames(done, a.node)
    requires r.nfc(es[a.node].name) != r.nfc(a.name) && a.before == FileBag(es, r.key, a.node)
    ensures a.node in x.w.drive.entries
    ensures RenameEffect(r, x, a.node, a.name, a.before, fails) == Entering(3, WithName(x.w.drive, a.node, a.name), Done, a.node)
  {
    hide BuiltNew, Renames, FileBag, Preserved, Sound;
    RenameMatches(r, x, es, a.node, a.name, a.before, fails);
    assert x.w.drive.entries[a.node] == es[a.node];
  }

  lemma AfterTake(pk: nat, x: Run, a: Action, place: Place, e: Effect, made: map<Place, Id>)
    requires e.Entering? && Linked(x, made)
    requires place in made ==> made[place] == e.node
    ensures var y := Take(pk, x, a, place, e);
      && y.w.drive == e.s && y.stop == x.stop && y.late == x.late && Linked(y, made)
      && (!y.aborted ==> !Clashes(x.w.rows, pk, e.node, place) && y.w.rows == Registered(x.w.rows, pk, e.node, place))
      && (!y.aborted && (place.MainPlace? || place.RootPlace?) ==> Linked(y, made[place := e.node]))
      && (!place.MainPlace? && !place.RootPlace? ==> Linked(y, made[place := e.node]))
  {
    hide Linked, Registered, Clashes;
    SameLinks(x, OnDrive(x, e.calls, e.s), made);
    EnterLinks(OnDrive(x, e.calls, e.s), a, e.outcome, pk, e.node, place, made);
    MinorPlace(Take(pk, x, a, place, e), made, place, e.node);
  }

  lemma MinorPlace(x: Run, made: map<Place, Id>, place: Place, node: Id)
    ensures Linked(x, made) && !place.MainPlace? && !place.RootPlace? ==> Linked(x, made[place := node])
  {
  }

  lemma SameLinks(x: Run, y: Run, made: map<Place, Id>)
    requires x.resolved == y.resolved
    ensures Linked(x, made) <==> Linked(y, made)
  {
  }

  lemma FoundMatches(r: Rules, es: Entries, parent: Id, name: string, i: nat)
    requires i < |ExistingFolders(r, es, parent, name)|
    ensures var q := ExistingFolders(r, es, parent, name)[i];
      q in FolderSet(es, parent) && r.nfc(es[q].name) == r.nfc(name)
  {
    var q := ExistingFolders(r, es, parent, name)[i];
    assert q in ExistingFolders(r, es, parent, name);
    assert r.nfc(NameOf(es, q)) == r.nfc(name);
  }

  lemma NoneFound(r: Rules, es: Entries, parent: Id, name: string)
    requires forall q :: q in FolderSet(es, parent) ==> r.nfc(es[q].name) != r.nfc(name)
    ensures ExistingFolders(r, es, parent, name) == []
  {
    if ExistingFolders(r, es, parent, name) != [] {
      FoundMatches(r, es, parent, name, 0);
      assert false;
    }
  }

  /** No folder of that name stands in the parent when a planned folder is created. */
  lemma NothingExists(r: Rules, es: Entries, later: Entries, all: seq<Action>, done: seq<Action>, made: map<Place, Id>, i: nat)
    requires Consistent(r, es, all) && i < |all| && done == all[..i] && all[i].CreateFolder?
    requires Built(es, later, done, made) && Preserved(es, later)
    requires all[i].parent.ById? || PlaceOf(all[i].parent) in made
    ensures forall q :: q in FolderSet(later, NodeOf(made, all[i].parent)) ==> r.nfc(later[q].name) != r.nfc(all[i].name)
  {
    forall q | q in FolderSet(later, NodeOf(made, all[i].parent)) ensures r.nfc(later[q].name) != r.nfc(all[i].name) {
      if q in es {
        OldNeighbour(r, es, later, all, done, made, i, q);
      } else {
        var p :| p in made && made[p] == q;
        NewNeighbour(r, es, later, all, done, made, i, p);
      }
    }
  }

  lemma OldNeighbour(r: Rules, es: Entries, later: Entries, all: seq<Action>, done: seq<Action>, made: map<Place, Id>, i: nat, q: Id)
    requires Consistent(r, es, all) && i < |all| && done == all[..i] && all[i].CreateFolder?
    requires Built(es, later, done, made) && Preserved(es, later)
    requires all[i].parent.ById? || PlaceOf(all[i].parent) in made
    requires q in es && q in FolderSet(later, NodeOf(made, all[i].parent))
    ensures r.nfc(later[q].name) != r.nfc(all[i].name)
  {
    var parent := NodeOf(made, all[i].parent);
    assert Fits(r, es, all, i);
    assert parent in es[q].parents && parent in es;
    if all[i].parent.ById? {
      assert q in FolderSet(es, parent);
      if Renames(done, q) {
        var j :| 0 <= j < |done| && done[j].RenameFolder? && done[j].node == q;
        assert all[j] == done[j];
        assert Child(es, parent, all[j].node);
      }
    }
  }

  lemma NewNeighbour(r: Rules, es: Entries, later: Entries, all: seq<Action>, done: seq<Action>, made: map<Place, Id>, i: nat, p: Place)
    requires Consistent(r, es, all) && i < |all| && done == all[..i] && all[i].CreateFolder?
    requires Built(es, later, done, made)
    requires all[i].parent.ById? || PlaceOf(all[i].parent) in made
    requires p in made && made[p] in FolderSet(later, NodeOf(made, all[i].parent))
    ensures r.nfc(later[made[p]].name) != r.nfc(all[i].name)
  {
    assert Creates(done, p);
    var j :| 0 <= j < |done| && done[j].CreateFolder? && done[j].place == p;
    assert all[j] == done[j];
    assert later[made[p]] == NewEntry(NodeOf(made, done[j].parent), done[j].name);
    assert NodeOf(made, done[j].parent) == NodeOf(made, all[i].parent);
    assert Fits(r, es, all, i) && Fits(r, es, all, j);
    SameRef(es, later, done, made, done[j].parent, all[i].parent);
  }

  lemma SameRef(es: Entries, later: Entries, done: seq<Action>, made: map<Place, Id>, a: Ref, b: Ref)
    requires Built(es, later, done, made) && NodeOf(made, a) == NodeOf(made, b)
    requires if a.ById? then a.id in es else PlaceOf(a) in made
    requires if b.ById? then b.id in es else PlaceOf(b) in made
    ensures a == b
  {
    if !a.ById? { assert made[PlaceOf(a)] !in es; }
    if !b.ById? { assert made[PlaceOf(b)] !in es; }
  }

  lemma CreateGoesThrough(r: Rules, es: Entries, x: Run, all: seq<Action>, i: nat, made: map<Place, Id>, fails: nat -> bool)
    requires NoFaults(fails) && Undisturbed(x) && Linked(x, made) && Preserved(es, x.w.drive.entries)
    requires Consistent(r, es, all) && i < |all| && all[i].CreateFolder? && Built(es, x.w.drive.entries, all[..i], made)
    ensures all[i].parent.ById? || PlaceOf(all[i].parent) in made
    ensures var parent := ParentId(x, all[i].parent);
      && parent == Some(NodeOf(made, all[i].parent))
      && CreateEffect(x, parent, Existing(r, x, parent, all[i].name), all[i].name, fails)
         == Entering(2, WithFolder(x.w.drive, parent.value, all[i].name), Done, x.w.drive.nextId)
  {
    hide Consistent, Built, Preserved, Sound, ExistingFolders, FolderSet;
    var a, s := all[i], x.w.drive;
    var parent := NodeOf(made, a.parent);
    ParentThere(r, es, s.entries, all, i, made);
    NothingExists(r, es, s.entries, all, all[..i], made, i);
    NoneFound(r, s.entries, parent, a.name);
  }

  lemma ParentThere(r: Rules, es: Entries, later: Entries, all: seq<Action>, i: nat, made: map<Place, Id>)
    requires Consistent(r, es, all) && i < |all| && all[i].CreateFolder? && Built(es, later, all[..i], made)
    ensures all[i].parent.ById? || PlaceOf(all[i].parent) in made
    ensures NodeOf(made, all[i].parent) in later
  {
    assert Fits(r, es, all, i);
  }

  lemma StepCreate(r: Rules, pk: nat, es: Entries, x: Run, all: seq<Action>, i: nat, made: map<Place, Id>, fails: nat -> bool)
    requires NoFaults(fails) && Undisturbed(x) && !x.aborted && Linked(x, made) && Preserved(es, x.w.drive.entries)
    requires Consistent(r, es, all) && i < |all| && all[i].CreateFolder? && Built(es, x.w.drive.entries, all[..i], made)
    ensures var y := ExecAction(r, pk, x, all[i], fails);
      && Undisturbed(y) && Preserved(es, y.w.drive.entries)
      && Built(es, y.w.drive.entries, all[..i + 1], made[all[i].place := x.w.drive.nextId])
      && (!y.aborted ==> Linked(y, made[all[i].place := x.w.drive.nextId])
                         && Entered(x, y, pk, all[i], made[all[i].place := x.w.drive.nextId]))
  {
    var a, s := all[i], x.w.drive;
    CreateGoesThrough(r, es, x, all, i, made, fails);
    var e := Entering(2, WithFolder(s, NodeOf(made, a.parent), a.name), Done, s.nextId);
    var y := ExecAction(r, pk, x, a, fails);
    assert y == Take(pk, x, a, a.place, e);
    ActionKeeps(r, pk, x, a, fails);
    PreservedTwice(es, s.entries, y.w.drive.entries);
    NotYetCreated(r, es, all, i);
    BuiltCreate(es, s.entries, all[..i], made, a, s.nextId);
    Prefixes(all, i);
    AfterTake(pk, x, a, a.place, e, made);
  }

  lemma Prefixes(all: seq<Action>, i: nat)
    requires i < |all|
    ensures all[..i + 1] == all[..i] + [all[i]]
  {
  }

  lemma NotYetCreated(r: Rules, es: Entries, all: seq<Action>, i: nat)
    requires Consistent(r, es, all) && i < |all|
    ensures all[i].CreateFolder? ==> !Creates(all[..i], all[i].place)
    ensures all[i].RenameFolder? ==> !Renames(all[..i], all[i].node)
  {
  }

  // ---------------------------------------------------------------- the whole list

  /** An undisturbed run carries out every action of a consistent plan. */
  lemma {:induction false} AllBuilt(r: Rules, pk: nat, es: Entries, x: Run, all: seq<Action>, i: nat, made: map<Place, Id>,
                                    fails: nat -> bool)
    returns (made': map<Place, Id>)
    requires NoFaults(fails) && Undisturbed(x) && Linked(x, made) && Preserved(es, x.w.drive.entries)
    requires Consistent(r, es, all) && i <= |all| && Built(es, x.w.drive.entries, all[..i], made)
    requires !ExecAll(r, pk, x, all[i..], fails).aborted
    ensures var y := ExecAll(r, pk, x, all[i..], fails);
      Undisturbed(y) && Preserved(es, y.w.drive.entries) && Built(es, y.w.drive.entries, all, made') && Linked(y, made')
      && (forall p :: p in made ==> p in made' && made'[p] == made[p]) && Filed(x.w.rows, pk, all[i..], made') == Some(y.w.rows)
    decreases |all| - i
  {
    hide Built, Linked, Preserved, Undisturbed, Consistent, ExecAction, Registered, Clashes, NoFaults;
    if i == |all| {
      assert all[..i] == all;
      made' := made;
    } else {
      var a := all[i];
      var y := ExecAction(r, pk, x, a, fails);
      assert all[i..][0] == a && all[i..][1..] == all[i + 1..];
      AbortedStays(r, pk, y, all[i + 1..], fails);
      AbortedStays(r, pk, x, all[i..], fails);
      var next := StepAny(r, pk, es, x, all, i, made, fails);
      made' := AllBuilt(r, pk, es, y, all, i + 1, next, fails);
      assert NodeFor(a, made') == NodeFor(a, next);
    }
  }

  lemma {:induction false} AbortedStays(r: Rules, pk: nat, x: Run, actions: seq<Action>, fails: nat -> bool)
    ensures x.aborted ==> ExecAll(r, pk, x, actions, fails) == x
    decreases |actions|
  {
    if actions != [] { AbortedStays(r, pk, x, actions[1..], fails); }
  }

  lemma StepAny(r: Rules, pk: nat, es: Entries, x: Run, all: seq<Action>, i: nat, made: map<Place, Id>, fails: nat -> bool)
    returns (next: map<Place, Id>)
    requires NoFaults(fails) && Undisturbed(x) && Linked(x, made) && Preserved(es, x.w.drive.entries)
    requires Consistent(r, es, all) && i < |all| && Built(es, x.w.drive.entries, all[..i], made)
    requires !x.aborted && !ExecAction(r, pk, x, all[i], fails).aborted
    ensures var y := ExecAction(r, pk, x, all[i], fails);
      && Undisturbed(y) && Preserved(es, y.w.drive.entries) && Linked(y, next)
      && Built(es, y.w.drive.entries, all[..i + 1], next)
      && Entered(x, y, pk, all[i], next) && (forall p :: p in made ==> p in next && next[p] == made[p])
      && (all[i].CreateFolder? ==> all[i].place in next)
  {
    hide Built, Linked, Preserved, Consistent, ExecAction, Registered, Clashes, NoFaults, Entered, Sound;
    var a := all[i];
    if a.CreateFolder? {
      StepCreate(r, pk, es, x, all, i, made, fails);
      next := made[a.place := x.w.drive.nextId];
      NotYetCreated(r, es, all, i);
      FreshPlace(es, x.w.drive.entries, all[..i], made, a.place);
    } else {
      next := made;
      Prefixes(all, i);
      NotYetCreated(r, es, all, i);
      if a.RenameFolder? {
        NotMade(r, es, x.w.drive.entries, all, i, made, a.cat);
        RenameKnown(r, es, all, i);
        StepRename(r, pk, es, x, all[..i], made, a, fails);
      } else {
        StepOther(r, pk, es, x, all, i, made, fails);
      }
    }
  }

  lemma FreshPlace(es: Entries, later: Entries, done: seq<Action>, made: map<Place, Id>, p: Place)
    requires Built(es, later, done, made) && !Creates(done, p)
    ensures p !in made
  {
  }

  lemma RenameKnown(r: Rules, es: Entries, all: seq<Action>, i: nat)
    requires Consistent(r, es, all) && i < |all| && all[i].RenameFolder?
    ensures all[i].node in es && r.nfc(es[all[i].node].name) != r.nfc(all[i].name) && all[i].before == FileBag(es, r.key, all[i].node)
  {
  }

  lemma StepOther(r: Rules, pk: nat, es: Entries, x: Run, all: seq<Action>, i: nat, made: map<Place, Id>, fails: nat -> bool)
    requires Undisturbed(x) && Linked(x, made) && Preserved(es, x.w.drive.entries)
    requires Consistent(r, es, all) && i < |all| && !IsWrite(all[i]) && Built(es, x.w.drive.entries, all[..i], made)
    ensures var y := ExecAction(r, pk, x, all[i], fails);
      && Undisturbed(y) && Preserved(es, y.w.drive.entries) && Linked(y, made)
      && Built(es, y.w.drive.entries, all[..i] + [all[i]], made) && (!x.aborted && !y.aborted ==> Entered(x, y, pk, all[i], made))
  {
    var a := all[i];
    BuiltOther(es, x.w.drive.entries, all[..i], made, a);
    if a.RegisterFolder? && a.place.MainPlace? { NotMade(r, es, x.w.drive.entries, all, i, made, a.place.cat); }
    if a.RegisterFolder? && a.place.RootPlace? { RootNotMade(r, es, x.w.drive.entries, all, i, made); }
    OtherStep(r, pk, x, a, made, fails);
  }

  lemma OtherStep(r: Rules, pk: nat, x: Run, a: Action, made: map<Place, Id>, fails: nat -> bool)
    requires !IsWrite(a) && Linked(x, made)
    requires a.RegisterFolder? && (a.place.MainPlace? || a.place.RootPlace?) ==> a.place !in made
    ensures var y := ExecAction(r, pk, x, a, fails);
      y.w.drive == x.w.drive && y.stop == x.stop && y.late == x.late && Linked(y, made)
      && (!x.aborted && !y.aborted ==> Entered(x, y, pk, a, made))
  {
    if a.RegisterFolder? {
      EnterLinks(x, a, Done, pk, a.node, a.place, made);
      EnterKeeps(x, a, Done, pk, a.node, a.place);
    }
  }

  /** A main folder that the plan renames or registers is not one it creates. */
  lemma NotMade(r: Rules, es: Entries, later: Entries, all: seq<Action>, i: nat, made: map<Place, Id>, cat: string)
    requires Consistent(r, es, all) && i < |all| && Built(es, later, all[..i], made)
    requires (all[i].RenameFolder? && all[i].cat == cat) || (all[i].RegisterFolder? && all[i].place == MainPlace(cat))
    ensures MainPlace(cat) !in made
  {
  }

  lemma RootNotMade(r: Rules, es: Entries, later: Entries, all: seq<Action>, i: nat, made: map<Place, Id>)
    requires Consistent(r, es, all) && i < |all| && Built(es, later, all[..i], made)
    requires all[i].RegisterFolder? && all[i].place.RootPlace?
    ensures RootPlace !in made
  {
  }
}
