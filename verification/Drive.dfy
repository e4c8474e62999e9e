/** The in-memory drive (src/apps/drive/adapter.py): entries, parents, trash and the change log.
  * An operation is specified by `Apply` on a `Store` value; the class `InMemoryDrive` carries the same fields
  * and updates them in place. */
module Drive {
  import opened Wrappers

  /** File ids are handed out by a counter and never reused. */
  type Id = nat

  datatype Kind = Folder | Shortcut | GoogleDoc | Binary

  datatype Entry = Entry(
    name: string, kind: Kind, parents: seq<Id>, trashed: bool,
    content: string, revisions: nat, properties: map<string, string>)

  type Entries = map<Id, Entry>

  /** Last change of a file: running number and whether it was a permanent deletion. */
  datatype Stamp = Stamp(number: nat, removed: bool)

  datatype Store = Store(entries: Entries, nextId: Id, log: map<Id, Stamp>, changes: nat)

  datatype Error = NotFound | CursorInvalid | Permanent | Unavailable

  datatype Mutation =
    | Add(entry: Entry)
    | Create(entry: Entry)
    | Copy(source: Id, target: Id, copyName: string)
    | SetContent(id: Id, data: string)
    | UpdateContent(id: Id, data: string, mime: Kind)
    | SetTrashed(id: Id, value: bool)
    | Delete(id: Id)
    | Rename(id: Id, newName: string)
    | Move(id: Id, source: Id, target: Id)
    | SetProperties(id: Id, values: map<string, Option<string>>)

  // ---------------------------------------------------------------- specification

  function Touch(s: Store, f: Id, removed: bool): Store {
    s.(changes := s.changes + 1, log := s.log[f := Stamp(s.changes + 1, removed)])
  }

  function Without(parents: seq<Id>, p: Id): seq<Id> {
    if parents == [] then []
    else (if parents[0] == p then [] else [parents[0]]) + Without(parents[1..], p)
  }

  /** A value of None removes the key. */
  function Merged(props: map<string, string>, values: map<string, Option<string>>): map<string, string> {
    (map k | k in props && k !in values :: props[k]) + (map k | k in values && values[k].Some? :: values[k].value)
  }

  predicate ParentsExist(s: Store, e: Entry) {
    forall p :: p in e.parents ==> p in s.entries
  }

  predicate Adds(m: Mutation) {
    m.Add? || m.Create? || m.Copy?
  }

  /** The file an operation stamps: a fresh id for the three that add one. */
  function Target(s: Store, m: Mutation): Id {
    if Adds(m) then s.nextId else m.id
  }

  /** Otherwise the operation raises NotFound and changes nothing. */
  predicate Allowed(s: Store, m: Mutation) {
    match m
    case Add(_) => true
    case Create(e) => ParentsExist(s, e)
    case Copy(f, _, _) => f in s.entries
    case Move(f, _, to) => f in s.entries && to in s.entries
    case _ => m.id in s.entries
  }

  /** The target's entry after the operation; None for a permanent deletion. */
  function Edited(s: Store, m: Mutation): Option<Entry>
    requires Allowed(s, m)
  {
    match m
    case Add(e) => Some(e)
    case Create(e) => Some(e)
    case Copy(f, to, name) => Some(s.entries[f].(name := name, parents := [to], trashed := false, revisions := 1))
    case SetContent(f, data) => Some(s.entries[f].(content := data, revisions := s.entries[f].revisions + 1))
    case UpdateContent(f, data, mime) =>
      Some(s.entries[f].(content := data, kind := mime, revisions := s.entries[f].revisions + 1))
    case SetTrashed(f, value) => Some(s.entries[f].(trashed := value))
    case Delete(f) => None
    case Rename(f, name) => Some(s.entries[f].(name := name))
    case Move(f, from, to) => Some(s.entries[f].(parents := Without(s.entries[f].parents, from) + [to]))
    case SetProperties(f, values) => Some(s.entries[f].(properties := Merged(s.entries[f].properties, values)))
  }

  function Apply(s: Store, m: Mutation): Result<Store, Error> {
    if !Allowed(s, m) then Err(NotFound)
    else Ok(Commit(s.(nextId := if Adds(m) then s.nextId + 1 else s.nextId), Target(s, m), Edited(s, m)))
  }

  function Commit(s: Store, f: Id, e: Option<Entry>): Store {
    if e.Some? then Touch(s.(entries := s.entries[f := e.value]), f, false)
    else Touch(s.(entries := s.entries - {f}), f, true)
  }

  function After(s: Store, m: Mutation): Store {
    match Apply(s, m)
    case Ok(t) => t
    case Err(_) => s
  }

  /** Ids are fresh, change numbers are handed out once, and a removal stamp means the entry is gone for good. */
  ghost predicate Valid(s: Store) {
    && (forall f :: f in s.entries ==> f < s.nextId)
    && (forall f :: f in s.log ==> f < s.nextId && 1 <= s.log[f].number <= s.changes)
    && (forall f, g :: f in s.log && g in s.log && s.log[f].number == s.log[g].number ==> f == g)
    && (forall f :: f in s.log ==> (s.log[f].removed <==> f !in s.entries))
  }

  /** Every operation, refused or carried out, keeps ids fresh and change numbers unique. */
  lemma ApplyKeepsValid(s: Store, m: Mutation)
    requires Valid(s)
    ensures Valid(After(s, m))
  {
    if Allowed(s, m) {
      CommitKeepsValid(s, Target(s, m), Edited(s, m), Adds(m));
    }
  }

  lemma CommitKeepsValid(s: Store, f: Id, e: Option<Entry>, added: bool)
    requires Valid(s) && (if added then f == s.nextId && e.Some? else f in s.entries)
    ensures Valid(Commit(s.(nextId := if added then s.nextId + 1 else s.nextId), f, e))
  {
  }

  // ---------------------------------------------------------------- what an operation does

  /** Which files an operation must find. */
  ghost predicate FilesThere(s: Store, m: Mutation) {
    match m
    case Add(_) => true
    case Create(e) => forall p :: p in e.parents ==> p in s.entries
    case Copy(f, _, _) => f in s.entries
    case SetContent(f, _) => f in s.entries
    case UpdateContent(f, _, _) => f in s.entries
    case SetTrashed(f, _) => f in s.entries
    case Delete(f) => f in s.entries
    case Rename(f, _) => f in s.entries
    case Move(f, _, to) => f in s.entries && to in s.entries
    case SetProperties(f, _) => f in s.entries
  }

  /** The file an operation is about: the next id for a new one. */
  function About(s: Store, m: Mutation): Id {
    match m
    case Add(_) => s.nextId
    case Create(_) => s.nextId
    case Copy(_, _, _) => s.nextId
    case SetContent(f, _) => f
    case UpdateContent(f, _, _) => f
    case SetTrashed(f, _) => f
    case Delete(f) => f
    case Rename(f, _) => f
    case Move(f, _, _) => f
    case SetProperties(f, _) => f
  }

  /** Refused without a trace when a file is missing; otherwise one change is counted, stamped on the file the operation is
    * about, and no other file is touched. */
  lemma OneFileTouched(s: Store, m: Mutation, g: Id)
    ensures var t, f := After(s, m), About(s, m);
      && (Apply(s, m).Ok? <==> FilesThere(s, m)) && (!FilesThere(s, m) ==> t == s)
      && (FilesThere(s, m) ==> t.changes == s.changes + 1 && f in t.log && t.log[f] == Stamp(t.changes, m.Delete?) && (f in t.entries <==> !m.Delete?)
                               && t.nextId == s.nextId + (if m.Add? || m.Create? || m.Copy? then 1 else 0))
      && (g != f ==> (g in t.entries <==> g in s.entries) && (g in s.entries ==> t.entries[g] == s.entries[g])
                     && (g in t.log <==> g in s.log) && (g in s.log ==> t.log[g] == s.log[g]))
  {
  }

  lemma {:induction false} WithoutIs(parents: seq<Id>, p: Id)
    ensures forall q :: q in Without(parents, p) <==> q in parents && q != p
    ensures p !in parents ==> Without(parents, p) == parents
  {
    if parents != [] {
      WithoutIs(parents[1..], p);
      assert parents == [parents[0]] + parents[1..];
    }
  }

  /** What becomes of the file: only what the operation names changes; a move takes out one parent and appends the other; a
    * value of None removes its key. */
  lemma FileAfter(s: Store, m: Mutation)
    requires FilesThere(s, m) && !m.Delete?
    ensures var t, f := After(s, m), About(s, m); f in t.entries && var e := t.entries[f];
      match m
      case Add(given) => e == given
      case Create(given) => e == given
      case Copy(g, to, name) => e == Entry(name, s.entries[g].kind, [to], false, s.entries[g].content, 1, s.entries[g].properties)
      case SetContent(_, data) => e == s.entries[f].(content := data, revisions := s.entries[f].revisions + 1)
      case UpdateContent(_, data, kind) => e == s.entries[f].(content := data, kind := kind, revisions := s.entries[f].revisions + 1)
      case SetTrashed(_, value) => e == s.entries[f].(trashed := value)
      case Delete(_) => true
      case Rename(_, name) => e == s.entries[f].(name := name)
      case Move(_, from, to) =>
        e == s.entries[f].(parents := e.parents) && e.parents != [] && e.parents[|e.parents| - 1] == to
        && forall p :: p in e.parents <==> p == to || (p in s.entries[f].parents && p != from)
      case SetProperties(_, values) =>
        e == s.entries[f].(properties := e.properties)
        && (forall k :: k in e.properties <==> if k in values then values[k].Some? else k in s.entries[f].properties)
        && forall k :: k in e.properties ==> e.properties[k] == if k in values then values[k].value else s.entries[f].properties[k]
  {
    if m.Move? { WithoutIs(s.entries[m.id].parents, m.source); }
  }

  /** A file moved back lies where it lay, and one taken out of the trash or given its old name is as it was. */
  lemma UndoneIsAsBefore(s: Store, f: Id, from: Id, to: Id, name: string)
    requires f in s.entries && from in s.entries && to in s.entries && s.entries[f].parents == [from] && !s.entries[f].trashed
    ensures After(After(s, Move(f, from, to)), Move(f, to, from)).entries == s.entries
    ensures After(After(s, SetTrashed(f, true)), SetTrashed(f, false)).entries == s.entries
    ensures After(After(s, Rename(f, name)), Rename(f, s.entries[f].name)).entries == s.entries
  {
    var e := s.entries[f];
    Replaced(from, to);
    Replaced(to, from);
    assert e.(parents := [to]).(parents := [from]) == e;
    assert After(s, Move(f, from, to)).entries == s.entries[f := e.(parents := [to])];
    assert After(After(s, Move(f, from, to)), Move(f, to, from)).entries == s.entries[f := e.(parents := [to])][f := e];
  }

  lemma Replaced(p: Id, q: Id)
    ensures Without([p], p) + [q] == [q]
  {
    assert Without([p][1..], p) == [];
  }

  // ---------------------------------------------------------------- the adapter

  class InMemoryDrive {
    var entries: Entries
    var nextId: Id
    var log: map<Id, Stamp>
    var changes: nat

    function State(): Store
      reads this
    {
      Store(entries, nextId, log, changes)
    }

    /** Only the root folder exists, and it has no change entry. */
    constructor (rootName: string)
      ensures Valid(State())
      ensures entries == map[0 := Entry(rootName, Folder, [], false, "", 1, map[])] && log == map[] && changes == 0
    {
      entries := map[0 := Entry(rootName, Folder, [], false, "", 1, map[])];
      nextId := 1;
      log := map[];
      changes := 0;
    }

    method TouchEntry(f: Id, removed: bool)
      modifies this`changes, this`log
      ensures State() == Touch(old(State()), f, removed)
    {
      changes := changes + 1;
      log := log[f := Stamp(changes, removed)];
    }

    method AddEntry(e: Entry) returns (f: Id)
      modifies this
      ensures f == old(nextId) && State() == After(old(State()), Add(e))
    {
      f := nextId;
      nextId := nextId + 1;
      Put(f, e);
    }

    method CreateFolder(parent: Id, name: string, fault: bool) returns (r: Result<Id, Error>)
      modifies this
      ensures fault ==> r == Err(Unavailable) && State() == old(State())
      ensures !fault ==>
        var m := Create(Entry(name, Folder, [parent], false, "", 1, map[]));
        && State() == After(old(State()), m)
        && r == if Apply(old(State()), m).Ok? then Ok(old(nextId)) else Err(NotFound)
    {
      if fault { return Err(Unavailable); }
      if parent !in entries { return Err(NotFound); }
      var f := AddEntry(Entry(name, Folder, [parent], false, "", 1, map[]));
      return Ok(f);
    }

    method SetTrash(f: Id, value: bool, fault: bool) returns (r: Result<(), Error>)
      modifies this
      ensures fault ==> r == Err(Unavailable) && State() == old(State())
      ensures !fault ==> State() == After(old(State()), SetTrashed(f, value))
                         && (r.Ok? <==> f in old(entries)) && (r.Err? ==> r.error == NotFound)
    {
      if fault { return Err(Unavailable); }
      if f !in entries { return Err(NotFound); }
      Put(f, entries[f].(trashed := value));
      return Ok(());
    }

    method RenameEntry(f: Id, name: string, fault: bool) returns (r: Result<(), Error>)
      modifies this
      ensures fault ==> r == Err(Unavailable) && State() == old(State())
      ensures !fault ==> State() == After(old(State()), Rename(f, name))
                         && (r.Ok? <==> f in old(entries)) && (r.Err? ==> r.error == NotFound)
    {
      if fault { return Err(Unavailable); }
      if f !in entries { return Err(NotFound); }
      Put(f, entries[f].(name := name));
      return Ok(());
    }

    method Put(f: Id, e: Entry)
      modifies this`entries, this`changes, this`log
      ensures State() == Commit(old(State()), f, Some(e))
    {
      entries := entries[f := e];
      TouchEntry(f, false);
    }

    method MoveEntry(f: Id, from: Id, to: Id) returns (r: Result<(), Error>)
      modifies this
      ensures State() == After(old(State()), Move(f, from, to))
      ensures r.Ok? <==> f in old(entries) && to in old(entries)
    {
      if f !in entries || to !in entries { return Err(NotFound); }
      var kept := WithoutParent(entries[f].parents, from);
      Put(f, entries[f].(parents := kept + [to]));
      return Ok(());
    }

    method DeletePermanently(f: Id) returns (r: Result<(), Error>)
      modifies this
      ensures State() == After(old(State()), Delete(f))
      ensures r.Ok? <==> f in old(entries)
    {
      if f !in entries { return Err(NotFound); }
      entries := entries - {f};
      TouchEntry(f, true);
      return Ok(());
    }

    method SetAppProperties(f: Id, values: map<string, Option<string>>) returns (r: Result<(), Error>)
      modifies this
      ensures State() == After(old(State()), SetProperties(f, values))
      ensures r.Ok? <==> f in old(entries)
    {
      if f !in entries { return Err(NotFound); }
      var props := MergedProperties(entries[f].properties, values);
      Put(f, entries[f].(properties := props));
      return Ok(());
    }
  }

  method WithoutParent(parents: seq<Id>, p: Id) returns (kept: seq<Id>)
    ensures kept == Without(parents, p)
  {
    kept := [];
    for i := 0 to |parents|
      invariant kept + Without(parents[i..], p) == Without(parents, p)
    {
      if parents[i] != p { kept := kept + [parents[i]]; }
    }
  }

  method MergedProperties(before: map<string, string>, values: map<string, Option<string>>) returns (props: map<string, string>)
    ensures props == Merged(before, values)
  {
    props := before;
    var todo := values.Keys;
    while todo != {}
      invariant todo <= values.Keys
      invariant forall k :: k in props <==> if k in values && k !in todo then values[k].Some? else k in before
      invariant forall k :: k in props ==> props[k] == if k in values && k !in todo then values[k].value else before[k]
      decreases todo
    {
      var key :| key in todo;
      match values[key] {
        case None => props := props - {key};
        case Some(v) => props := props[key := v];
      }
      todo := todo - {key};
    }
  }
}
