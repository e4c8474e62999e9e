/** Taking a document over into another object (src/apps/documents/transfer.py): a new row takes the place, the drive file
  * and the UUID of the old one, which stays behind as a pointer. */
module Transfer {
  import opened Wrappers

  type Pk = nat
  type Uuid = nat

  datatype Status = Active | Duplicate | MovedOut

  datatype Row = Row(obj: nat, sha: Option<string>, drive: Option<string>, status: Status, uuid: Uuid, duplicateOf: Option<Pk>)

  /** `born` is the UUID a document was registered with; it is history, the program does not store it. */
  datatype Table = Table(rows: map<Pk, Row>, nextPk: Pk, born: map<Pk, Uuid>)

  datatype Refusal = SameObject | NotMovable | Gone | NotUnique

  // ---------------------------------------------------------------- one transfer

  /** Hash and drive file occur at most once per object. */
  predicate Taken(rows: map<Pk, Row>, obj: nat, sha: Option<string>, drive: Option<string>) {
    exists p :: p in rows && rows[p].obj == obj && ((sha.Some? && rows[p].sha == sha) || (drive.Some? && rows[p].drive == drive))
  }

  /** What the caller read earlier decides whether the document is movable; the row itself is read under lock only later. */
  function Refused(t: Table, pk: Pk, read: Row, target: nat): Option<Refusal> {
    if read.obj == target then Some(SameObject)
    else if read.status == MovedOut || read.status == Duplicate then Some(NotMovable)
    else if pk !in t.rows then Some(Gone)
    else if Taken(t.rows, target, t.rows[pk].sha, t.rows[pk].drive) then Some(NotUnique)
    else None
  }

  /** The successor gets the UUID, the old row a new one. */
  function Moved(t: Table, pk: Pk, target: nat, anew: Uuid): Table
    requires pk in t.rows && pk in t.born
  {
    var old_ := t.rows[pk];
    Table(t.rows[pk := old_.(status := MovedOut, drive := None, uuid := anew, duplicateOf := Some(t.nextPk))]
                [t.nextPk := Row(target, old_.sha, old_.drive, Active, old_.uuid, None)],
          t.nextPk + 1, t.born[t.nextPk := t.born[pk]])
  }

  class Documents {
    var rows: map<Pk, Row>
    var nextPk: Pk
    ghost var born: map<Pk, Uuid>

    ghost function State(): Table
      reads this
    {
      Table(rows, nextPk, born)
    }

    /** `temporary` is the UUID the new row is created with, `anew` the one the old row is left with. */
    method TransferDocument(pk: Pk, read: Row, target: nat, temporary: Uuid, anew: Uuid) returns (r: Result<Pk, Refusal>)
      requires nextPk !in rows && (pk in rows ==> pk in born && pk < nextPk)
      modifies this
      ensures Refused(old(State()), pk, read, target).Some? ==>
        State() == old(State()) && r == Err(Refused(old(State()), pk, read, target).value)
      ensures Refused(old(State()), pk, read, target).None? ==>
        State() == Moved(old(State()), pk, target, anew) && r == Ok(old(nextPk))
      ensures r.Ok? <==>
        read.obj != target && read.status == Active && pk in old(rows)
        && forall p :: p in old(rows) && old(rows)[p].obj == target ==>
             (old(rows)[pk].sha.Some? ==> old(rows)[p].sha != old(rows)[pk].sha)
             && (old(rows)[pk].drive.Some? ==> old(rows)[p].drive != old(rows)[pk].drive)
      ensures r == Err(SameObject) <==> read.obj == target
      ensures r == Err(NotMovable) <==> read.obj != target && read.status != Active
      ensures r == Err(Gone) <==> read.obj != target && read.status == Active && pk !in old(rows)
      ensures if r.Ok? then r.value == old(nextPk) && nextPk == old(nextPk) + 1 else rows == old(rows) && nextPk == old(nextPk)
      ensures r.Ok? ==>
        var doc, n := old(rows)[pk], r.value;
        && n in rows && rows[n] == Row(target, doc.sha, doc.drive, Active, doc.uuid, None)
        && pk in rows && rows[pk] == Row(doc.obj, doc.sha, None, MovedOut, anew, Some(n))
        && rows.Keys == old(rows).Keys + {n} && forall p :: p in old(rows) && p != pk ==> rows[p] == old(rows)[p]
    {
      if target == read.obj { return Err(SameObject); }
      if read.status == MovedOut || read.status == Duplicate { return Err(NotMovable); }
      if pk !in rows { return Err(Gone); }
      var doc := rows[pk];
      if Taken(rows, target, doc.sha, doc.drive) { return Err(NotUnique); }
      var new_ := nextPk;
      rows := rows[new_ := Row(target, doc.sha, doc.drive, Active, temporary, None)];
      nextPk := nextPk + 1;
      var former := doc.uuid;
      rows := rows[pk := doc.(status := MovedOut, duplicateOf := Some(new_), drive := None, uuid := anew)];
      rows := rows[new_ := rows[new_].(uuid := former)];
      born := born[new_ := born[pk]];
      return Ok(new_);
    }
  }

  // ---------------------------------------------------------------- the invariant

  predicate HasMoved(t: Table, p: Pk) { p in t.rows && t.rows[p].status == MovedOut }

  ghost predicate Keyed(t: Table) {
    t.rows.Keys == t.born.Keys && forall p :: p in t.rows ==> p < t.nextPk
  }

  ghost predicate UniqueUuids(t: Table) {
    forall p, q :: p in t.rows && q in t.rows && t.rows[p].uuid == t.rows[q].uuid ==> p == q
  }

  /** Hash and drive file are unique per object, as the database demands; a drive file is unique altogether. */
  ghost predicate UniqueHashes(t: Table) {
    forall p, q :: p in t.rows && q in t.rows && t.rows[p].obj == t.rows[q].obj && t.rows[p].sha.Some? && t.rows[p].sha == t.rows[q].sha ==> p == q
  }

  ghost predicate UniqueDrives(t: Table) {
    forall p, q :: p in t.rows && q in t.rows && t.rows[p].drive.Some? && t.rows[p].drive == t.rows[q].drive ==> p == q
  }

  /** A row that moved out points to a later row of the same document with the same hash. */
  ghost predicate Points(t: Table, p: Pk)
    requires p in t.rows
  {
    var n := t.rows[p].duplicateOf;
    && n.Some? && n.value in t.rows && p < n.value && p in t.born && n.value in t.born
    && t.born[n.value] == t.born[p] && t.rows[n.value].sha == t.rows[p].sha && t.rows[p].drive.None?
  }

  /** Rows in place bear the UUID their document was born with; the others lead on. */
  ghost predicate Chained(t: Table) {
    && (forall p :: p in t.rows && !HasMoved(t, p) ==> p in t.born && t.rows[p].uuid == t.born[p])
    && (forall p :: HasMoved(t, p) ==> Points(t, p))
  }

  ghost predicate Sound(t: Table) {
    Keyed(t) && UniqueUuids(t) && UniqueHashes(t) && UniqueDrives(t) && Chained(t)
  }

  /** A UUID nobody has or had. */
  ghost predicate Fresh(t: Table, u: Uuid) {
    (forall p :: p in t.rows ==> t.rows[p].uuid != u) && (forall p :: p in t.born ==> t.born[p] != u)
  }

  lemma MovedChained(t: Table, pk: Pk, target: nat, anew: Uuid)
    requires Keyed(t) && Chained(t) && pk in t.rows && !HasMoved(t, pk)
    ensures Chained(Moved(t, pk, target, anew)) && Keyed(Moved(t, pk, target, anew))
  {
    var u := Moved(t, pk, target, anew);
    forall p | HasMoved(u, p) ensures Points(u, p) {
      if p != pk { assert HasMoved(t, p) && Points(t, p); }
    }
  }

  lemma MovedUnique(t: Table, pk: Pk, read: Row, target: nat, anew: Uuid)
    requires Keyed(t) && UniqueUuids(t) && UniqueHashes(t) && UniqueDrives(t) && Fresh(t, anew)
    requires pk in t.rows && Refused(t, pk, read, target).None?
    ensures var u := Moved(t, pk, target, anew); UniqueUuids(u) && UniqueHashes(u) && UniqueDrives(u)
  {
    hide UniqueUuids, UniqueHashes, UniqueDrives;
    UuidsAfter(t, pk, target, anew);
    HashesAfter(t, pk, target, anew);
    DrivesAfter(t, pk, target, anew);
  }

  lemma UuidsAfter(t: Table, pk: Pk, target: nat, anew: Uuid)
    requires Keyed(t) && UniqueUuids(t) && Fresh(t, anew) && pk in t.rows
    ensures UniqueUuids(Moved(t, pk, target, anew))
  {
  }

  lemma HashesAfter(t: Table, pk: Pk, target: nat, anew: Uuid)
    requires Keyed(t) && UniqueHashes(t) && pk in t.rows && !Taken(t.rows, target, t.rows[pk].sha, t.rows[pk].drive)
    ensures UniqueHashes(Moved(t, pk, target, anew))
  {
  }

  lemma DrivesAfter(t: Table, pk: Pk, target: nat, anew: Uuid)
    requires Keyed(t) && UniqueDrives(t) && pk in t.rows
    ensures UniqueDrives(Moved(t, pk, target, anew))
  {
  }

  /** A transfer keeps everything in order exactly when the row had not moved out before it was locked: what the caller
    * read earlier does not tell. */
  lemma TransferKeepsIff(t: Table, pk: Pk, read: Row, target: nat, anew: Uuid)
    requires Sound(t) && Fresh(t, anew) && Refused(t, pk, read, target).None?
    ensures Sound(Moved(t, pk, target, anew)) <==> !HasMoved(t, pk)
  {
    MovedUnique(t, pk, read, target, anew);
    if HasMoved(t, pk) {
      var u := Moved(t, pk, target, anew);
      var live := End(t, pk);
      EndFacts(t, pk);
      assert u.rows[t.nextPk].uuid == t.rows[pk].uuid;
      assert u.born[t.nextPk] == t.rows[live].uuid;
    } else {
      MovedChained(t, pk, target, anew);
    }
  }

  // ---------------------------------------------------------------- chains

  /** The row reached by following the pointers of rows that moved out. */
  ghost function End(t: Table, p: Pk): Pk
    requires Keyed(t) && Chained(t) && p in t.rows
    decreases t.nextPk - p
  {
    if HasMoved(t, p) then assert Points(t, p); End(t, t.rows[p].duplicateOf.value) else p
  }

  /** The objects passed on the way, the row's own one first. */
  ghost function Trail(t: Table, p: Pk): seq<Pk>
    requires Keyed(t) && Chained(t) && p in t.rows
    decreases t.nextPk - p
  {
    if HasMoved(t, p) then assert Points(t, p); [p] + Trail(t, t.rows[p].duplicateOf.value) else [p]
  }

  /** Every chain ends at a row in place that bears the UUID the document was born with. */
  lemma {:induction false} EndFacts(t: Table, p: Pk)
    requires Keyed(t) && Chained(t) && p in t.rows
    ensures var e := End(t, p); e in t.rows && !HasMoved(t, e) && t.rows[e].uuid == t.born[p]
    decreases t.nextPk - p
  {
    if HasMoved(t, p) {
      assert Points(t, p);
      EndFacts(t, t.rows[p].duplicateOf.value);
    }
  }

  /** A UUID a document was born with belongs to exactly one row in place, the end of every chain of that document. */
  lemma OneRowInPlace(t: Table, p: Pk, q: Pk)
    requires Sound(t) && p in t.rows && q in t.rows && !HasMoved(t, q) && t.rows[q].uuid == t.born[p]
    ensures q == End(t, p)
  {
    EndFacts(t, p);
  }

  lemma {:induction false} TrailFacts(t: Table, p: Pk)
    requires Keyed(t) && Chained(t) && p in t.rows
    ensures var s := Trail(t, p);
      && s[0] == p && s[|s| - 1] == End(t, p)
      && (forall i :: 0 <= i < |s| ==> s[i] in t.rows && t.rows[s[i]].sha == t.rows[p].sha)
      && (forall i, j :: 0 <= i < j < |s| ==> s[i] < s[j])
    decreases t.nextPk - p
  {
    if HasMoved(t, p) {
      assert Points(t, p);
      var n := t.rows[p].duplicateOf.value;
      TrailFacts(t, n);
      assert Trail(t, p)[1..] == Trail(t, n);
    }
  }

  /** With a known hash a chain passes each object at most once. */
  lemma TrailVisitsOnce(t: Table, p: Pk, i: nat, j: nat)
    requires Sound(t) && p in t.rows && t.rows[p].sha.Some? && i < j < |Trail(t, p)|
    ensures var s := Trail(t, p); s[i] in t.rows && s[j] in t.rows && t.rows[s[i]].obj != t.rows[s[j]].obj
  {
    TrailFacts(t, p);
    var s := Trail(t, p);
    assert s[i] < s[j];
  }

  // ---------------------------------------------------------------- whole runs

  /** One call: the row as the caller read it earlier, the target and a new UUID. */
  datatype Call = Call(pk: Pk, read: Row, target: nat, anew: Uuid)

  function After(t: Table, c: Call): Table
    requires t.rows.Keys == t.born.Keys
  {
    if Refused(t, c.pk, c.read, c.target).Some? then t else Moved(t, c.pk, c.target, c.anew)
  }

  /** No caller goes by a reading from before a transfer of the same row. */
  ghost predicate Timely(t: Table, calls: seq<Call>)
    requires t.rows.Keys == t.born.Keys
    decreases |calls|
  {
    calls != [] ==>
      && Fresh(t, calls[0].anew)
      && (Refused(t, calls[0].pk, calls[0].read, calls[0].target).None? ==> !HasMoved(t, calls[0].pk))
      && After(t, calls[0]).rows.Keys == After(t, calls[0]).born.Keys
      && Timely(After(t, calls[0]), calls[1..])
  }

  function AfterAll(t: Table, calls: seq<Call>): Table
    requires t.rows.Keys == t.born.Keys
    decreases |calls|
  {
    if calls == [] then t else AfterAll(After(t, calls[0]), calls[1..])
  }

  /** Over any sequence of transfers the chains stay in order. */
  lemma {:induction false} TransfersKeep(t: Table, calls: seq<Call>)
    requires Sound(t) && Timely(t, calls)
    ensures Sound(AfterAll(t, calls))
    decreases |calls|
  {
    if calls != [] {
      var c := calls[0];
      if Refused(t, c.pk, c.read, c.target).None? { TransferKeepsIff(t, c.pk, c.read, c.target, c.anew); }
      TransfersKeep(After(t, c), calls[1..]);
    }
  }

  // ---------------------------------------------------------------- where documents and their files end up

  /** After a transfer the document is in place in the target object, with the hash and the drive file it had. */
  lemma TransferredTo(t: Table, pk: Pk, read: Row, target: nat, anew: Uuid)
    requires Sound(t) && Fresh(t, anew) && Refused(t, pk, read, target).None? && !HasMoved(t, pk)
    ensures var u := Moved(t, pk, target, anew);
      && Sound(u) && pk in u.rows && End(u, pk) in u.rows
      && u.rows[End(u, pk)].obj == target && u.rows[End(u, pk)].status == Active
      && u.rows[End(u, pk)].sha == t.rows[pk].sha && u.rows[End(u, pk)].drive == t.rows[pk].drive
  {
    TransferKeepsIff(t, pk, read, target, anew);
    var u := Moved(t, pk, target, anew);
    assert HasMoved(u, pk) && !HasMoved(u, t.nextPk);
    assert End(u, pk) == End(u, t.nextPk) == t.nextPk;
  }

  /** One transfer, seen from any row: its chain ends with the same hash and the same drive file as before. */
  lemma {:induction false} MovedEnd(t: Table, pk: Pk, read: Row, target: nat, anew: Uuid, p: Pk)
    requires Sound(t) && Fresh(t, anew) && Refused(t, pk, read, target).None? && pk in t.rows && !HasMoved(t, pk) && p in t.rows
    ensures var u := Moved(t, pk, target, anew);
      && Sound(u) && p in u.rows && End(u, p) in u.rows && End(t, p) in t.rows
      && u.rows[End(u, p)].sha == t.rows[End(t, p)].sha && u.rows[End(u, p)].drive == t.rows[End(t, p)].drive
      && (End(t, p) != pk ==> End(u, p) == End(t, p))
    decreases t.nextPk - p
  {
    hide Fresh, Refused, UniqueUuids, UniqueHashes, UniqueDrives;
    TransferredTo(t, pk, read, target, anew);
    var u := Moved(t, pk, target, anew);
    EndFacts(t, p);
    if HasMoved(t, p) {
      assert Points(t, p);
      MovedEnd(t, pk, read, target, anew, t.rows[p].duplicateOf.value);
      assert HasMoved(u, p);
      assert u.rows[p] == t.rows[p];
    } else if p != pk {
      assert !HasMoved(u, p);
    }
  }

  lemma {:induction false} ChainsFollow(t: Table, calls: seq<Call>, p: Pk)
    requires Sound(t) && Timely(t, calls) && p in t.rows
    ensures var u := AfterAll(t, calls);
      && Sound(u) && p in u.rows && End(u, p) in u.rows && End(t, p) in t.rows
      && u.rows[End(u, p)].sha == t.rows[End(t, p)].sha && u.rows[End(u, p)].drive == t.rows[End(t, p)].drive
    decreases |calls|
  {
    EndFacts(t, p);
    if calls != [] {
      hide End;
      var c := calls[0];
      if Refused(t, c.pk, c.read, c.target).None? { MovedEnd(t, c.pk, c.read, c.target, c.anew, p); }
      ChainsFollow(After(t, c), calls[1..], p);
    }
  }

  /** No file is lost: over any sequence of transfers a drive file that a row held is held by exactly one row, the one at which
    * the chain of the former holder ends. */
  lemma FilesFollow(t: Table, calls: seq<Call>, p: Pk, q: Pk)
    requires Sound(t) && Timely(t, calls) && p in t.rows && t.rows[p].drive.Some?
    requires q in AfterAll(t, calls).rows
    ensures var u := AfterAll(t, calls); Sound(u) && p in u.rows && (u.rows[q].drive == t.rows[p].drive <==> q == End(u, p))
  {
    ChainsFollow(t, calls, p);
    assert HasMoved(t, p) ==> Points(t, p);
    assert End(t, p) == p;
  }

  /** Documents that were never transferred are in order. */
  lemma FirstState(t: Table)
    requires Keyed(t) && UniqueUuids(t) && UniqueHashes(t) && UniqueDrives(t)
    requires forall p :: p in t.rows ==> t.rows[p].status != MovedOut && t.born[p] == t.rows[p].uuid
    ensures Sound(t)
  {
  }

  /** A second transfer on the strength of an old reading: the chain of the document no longer ends where its UUID is. */
  lemma StaleReading()
    ensures exists t, pk, read, target, anew ::
      Sound(t) && Fresh(t, anew) && pk in t.rows && Refused(t, pk, read, target).None? && !Sound(Moved(t, pk, target, anew))
  {
    var doc := Row(1, None, Some("f"), Active, 7, None);
    var t0 := Table(map[0 := doc], 1, map[0 := 7]);
    FirstState(t0);
    assert Refused(t0, 0, doc, 2).None?;
    TransferKeepsIff(t0, 0, doc, 2, 8);
    var t := Moved(t0, 0, 2, 8);
    assert Refused(t, 0, doc, 3).None?;
    TransferKeepsIff(t, 0, doc, 3, 9);
  }
}
