/** Removing the receipts and snapshots of a cell that is gone, while anybody may still rewrite them. */
module Receipts {
  import opened Wrappers

  datatype Owner = Owner(cell: bool, name: string, uid: nat)

  /** `verified`: the teardown receipt's data names this namespace as verified absent. */
  datatype ConfigMap = ConfigMap(name: string, uid: nat, version: nat, owners: seq<Owner>, verified: Option<string>)

  /** The cell being removed: its resource, the uid its record is bound to, and its receipt. */
  datatype Cell = Cell(resource: string, bound: Option<nat>, receipt: string, namespace: string)

  predicate Owned(m: ConfigMap, cell: Cell) {
    exists i :: 0 <= i < |m.owners| && m.owners[i].cell && m.owners[i].name == cell.resource && cell.bound == Some(m.owners[i].uid)
  }

  predicate Removable(m: ConfigMap, cell: Cell) {
    Owned(m, cell) || (m.name == cell.receipt && m.verified == Some(cell.namespace))
  }

  /** What others do: write an object, with a version never used before, or delete one. */
  datatype Change = Put(m: ConfigMap) | Remove(name: string)

  /** Around one call: others' changes, then perhaps a failed call. */
  datatype Slot = Slot(changes: seq<Change>, fault: bool)

  datatype Deletion = Deleted | NotFound | Conflict | Fault

  const ATTEMPTS := 5

  type Maps = map<string, ConfigMap>

  function Apply(maps: Maps, clock: nat, change: Change): Maps {
    match change
    case Put(m) => maps[m.name := m.(version := clock)]
    case Remove(name) => maps - {name}
  }

  ghost predicate Unshared(maps: Maps) {
    forall m, n :: m in maps && n in maps && maps[m].version == maps[n].version ==> m == n
  }

  /** The objects by the version they are at. */
  ghost function ByVersion(maps: Maps): (written: map<nat, ConfigMap>)
    requires Unshared(maps)
    ensures forall n :: n in maps ==> maps[n].version in written && written[maps[n].version] == maps[n]
    ensures forall v :: v in written ==> exists n :: n in maps && maps[n].version == v
  {
    map n | n in maps :: maps[n].version := maps[n]
  }

  /** The control namespace as a client meets it. */
  class Api {
    var maps: Maps
    var clock: nat
    var tape: seq<Slot>
    ghost var written: map<nat, ConfigMap> // every version ever written
    ghost var deleted: seq<ConfigMap>      // what this client has deleted, as it was

    ghost predicate Valid()
      reads this
    {
      && (forall n :: n in maps ==> maps[n].name == n && Known(maps[n]))
      && (forall v :: v in written ==> v < clock)
    }

    /** The object really is what was written under its version. */
    ghost predicate Known(m: ConfigMap)
      reads this
    {
      m.version in written && written[m.version] == m
    }

    constructor (maps: Maps, tape: seq<Slot>)
      requires (forall n :: n in maps ==> maps[n].name == n) && Unshared(maps)
      ensures Valid() && this.maps == maps && this.tape == tape && deleted == []
    {
      var unused := FirstUnused(maps);
      this.maps, this.tape, this.deleted := maps, tape, [];
      this.clock, this.written := unused, ByVersion(maps);
    }

    /** A version past every one in use. */
    static method FirstUnused(maps: Maps) returns (unused: nat)
      ensures forall n :: n in maps ==> maps[n].version < unused
    {
      unused := 0;
      var rest := maps.Keys;
      while rest != {}
        invariant rest <= maps.Keys
        invariant forall n :: n in maps && n !in rest ==> maps[n].version < unused
      {
        var n :| n in rest;
        if maps[n].version >= unused { unused := maps[n].version + 1; }
        rest := rest - {n};
      }
    }

    /** Others act, and the slot says whether the call then fails. */
    method Await() returns (fault: bool)
      requires Valid()
      modifies this
      ensures Valid() && deleted == old(deleted) && Remembers(old(written), written)
      ensures forall v :: v in old(written) && Absent(old(maps), v) ==> Absent(maps, v)
      ensures Calm(old(tape)) ==> !fault && maps == old(maps) && Calm(tape)
    {
      if tape == [] { return false; }
      var slot := tape[0];
      tape := tape[1..];
      fault := slot.fault;
      var i := 0;
      while i < |slot.changes|
        invariant Valid() && deleted == old(deleted) && Remembers(old(written), written)
        invariant forall v :: v in old(written) && Absent(old(maps), v) ==> Absent(maps, v)
        invariant Calm(old(tape)) ==> !fault && maps == old(maps) && Calm(tape)
      {
        var change := slot.changes[i];
        if change.Put? { written := written[clock := change.m.(version := clock)]; }
        maps, clock := Apply(maps, clock, change), clock + 1;
        i := i + 1;
      }
    }

    /** Delete the object only if it still is the version that was looked at. */
    method Delete(m: ConfigMap) returns (r: Deletion)
      requires Valid() && Known(m)
      modifies this
      ensures Valid() && Remembers(old(written), written)
      ensures deleted == if r == Deleted then old(deleted) + [m] else old(deleted)
      ensures forall v :: v in old(written) && Absent(old(maps), v) ==> Absent(maps, v)
      ensures r != Fault ==> Absent(maps, m.version)
      ensures Calm(old(tape)) ==>
                Calm(tape) && (m.name in old(maps) && old(maps)[m.name] == m ==> r == Deleted && maps == old(maps) - {m.name})
    {
      var fault := Await();
      if fault { return Fault; }
      NameOfVersion(m);
      if m.name !in maps { return NotFound; }
      if maps[m.name].uid != m.uid || maps[m.name].version != m.version { return Conflict; }
      maps := maps - {m.name};
      deleted := deleted + [m];
      return Deleted;
    }

    lemma NameOfVersion(m: ConfigMap)
      requires Valid() && Known(m)
      ensures forall n :: n in maps && maps[n].version == m.version ==> n == m.name && maps[n] == m
    {
    }

    method Get(name: string) returns (r: Result<Option<ConfigMap>, ()>)
      requires Valid()
      modifies this
      ensures Valid() && Remembers(old(written), written) && deleted == old(deleted)
      ensures forall v :: v in old(written) && Absent(old(maps), v) ==> Absent(maps, v)
      ensures r.Ok? && r.value.Some? ==> r.value.value.name == name && Known(r.value.value)
    {
      var fault := Await();
      if fault { return Err(()); }
      return Ok(if name in maps then Some(maps[name]) else None);
    }
  }

  ghost predicate Remembers(before: map<nat, ConfigMap>, after: map<nat, ConfigMap>) {
    forall v :: v in before ==> v in after && after[v] == before[v]
  }

  /** No object is at that version any more. */
  ghost predicate Absent(maps: Maps, version: nat) {
    forall n :: n in maps ==> maps[n].version != version
  }

  predicate Calm(tape: seq<Slot>) {
    forall i :: 0 <= i < |tape| ==> tape[i] == Slot([], false)
  }

  predicate AllRemovable(ms: seq<ConfigMap>, cell: Cell) {
    forall i :: 0 <= i < |ms| ==> Removable(ms[i], cell)
  }

  lemma AppendRemovable(a: seq<ConfigMap>, b: seq<ConfigMap>, c: seq<ConfigMap>, cell: Cell)
    requires a <= b <= c && AllRemovable(b[|a|..], cell) && AllRemovable(c[|b|..], cell)
    ensures a <= c && AllRemovable(c[|a|..], cell)
  {
    forall i | 0 <= i < |c| - |a| ensures Removable(c[|a|..][i], cell) {
      if i < |b| - |a| { assert c[|a|..][i] == b[|a|..][i]; } else { assert c[|a|..][i] == c[|b|..][i - (|b| - |a|)]; }
    }
  }

  /** One listed object: delete it as it was judged; after a conflict, judge what is there now. */
  method RemoveOne(api: Api, cell: Cell, listed: ConfigMap) returns (ok: bool)
    requires api.Valid() && api.Known(listed) && Removable(listed, cell)
    modifies api
    ensures api.Valid() && Remembers(old(api.written), api.written)
    ensures old(api.deleted) <= api.deleted && AllRemovable(api.deleted[|old(api.deleted)|..], cell)
    ensures |api.deleted| <= |old(api.deleted)| + 1
    ensures forall v :: v in old(api.written) && Absent(old(api.maps), v) ==> Absent(api.maps, v)
    ensures ok ==> Absent(api.maps, listed.version)
    ensures Calm(old(api.tape)) && listed.name in old(api.maps) && old(api.maps)[listed.name] == listed ==>
              ok && Calm(api.tape) && api.maps == old(api.maps) - {listed.name}
  {
    var m, attempts := listed, 0;
    while true
      invariant attempts <= ATTEMPTS
      invariant api.Valid() && api.Known(m) && api.Known(listed) && Removable(m, cell) && Remembers(old(api.written), api.written)
      invariant api.deleted == old(api.deleted)
      invariant forall v :: v in old(api.written) && Absent(old(api.maps), v) ==> Absent(api.maps, v)
      invariant attempts > 0 ==> Absent(api.maps, listed.version)
      invariant attempts == 0 ==> m == listed && api.maps == old(api.maps) && api.tape == old(api.tape)
      invariant Calm(old(api.tape)) && listed.name in old(api.maps) && old(api.maps)[listed.name] == listed ==> attempts == 0
      decreases ATTEMPTS - attempts
    {
      var r := api.Delete(m);
      if r == Fault || (r == Conflict && attempts >= ATTEMPTS) { return false; }
      if r == Deleted || r == NotFound { return true; }
      attempts := attempts + 1;
      var current := api.Get(m.name);
      if current.Err? { return false; }
      if current.value.None? || !Removable(current.value.value, cell) { return true; }
      m := current.value.value;
    }
  }

  /** Every listed object that was removable when listed. */
  ghost predicate ListedGone(listed: seq<ConfigMap>, cell: Cell, maps: Maps) {
    forall i :: 0 <= i < |listed| && Removable(listed[i], cell) ==> Absent(maps, listed[i].version)
  }

  /** What a cell leaves behind once its receipts are removed. */
  function Without(maps: Maps, cell: Cell): Maps {
    map n | n in maps && !Removable(maps[n], cell) :: maps[n]
  }

  /**
   `remove_receipts` over the listed objects: whatever others write meanwhile, it deletes only
   objects that were removable at the very version deleted, and when it succeeds no version
   that was removable when listed is left; undisturbed, it removes exactly the removable ones.
  */
  method RemoveReceipts(api: Api, cell: Cell, listed: seq<ConfigMap>) returns (ok: bool)
    requires api.Valid() && (forall i :: 0 <= i < |listed| ==> listed[i].name in api.maps && api.maps[listed[i].name] == listed[i])
    requires forall i, j :: 0 <= i < j < |listed| ==> listed[i].name != listed[j].name
    modifies api
    ensures api.Valid() && old(api.deleted) <= api.deleted && AllRemovable(api.deleted[|old(api.deleted)|..], cell)
    ensures ok ==> ListedGone(listed, cell, api.maps)
    ensures Calm(old(api.tape)) && (forall n :: n in old(api.maps) ==> old(api.maps)[n] in listed) ==>
              ok && api.maps == Without(old(api.maps), cell)
  {
    var i := 0;
    while i < |listed|
      invariant i <= |listed| && api.Valid() && Remembers(old(api.written), api.written)
      invariant old(api.deleted) <= api.deleted && AllRemovable(api.deleted[|old(api.deleted)|..], cell)
      invariant ListedGone(listed[..i], cell, api.maps)
      invariant Calm(old(api.tape)) ==> Calm(api.tape) && api.maps == old(api.maps) - RemovedNames(listed[..i], cell)
    {
      assert listed[..i + 1] == listed[..i] + [listed[i]];
      RemovedSnoc(listed[..i], listed[i], cell);
      if Removable(listed[i], cell) {
        assert Calm(old(api.tape)) ==> listed[i].name !in RemovedNames(listed[..i], cell);
        label before:
        var removed := RemoveNext(api, cell, listed[..i], listed[i]);
        AppendRemovable(old(api.deleted), old@before(api.deleted), api.deleted, cell);
        if !removed { return false; }
      }
      i := i + 1;
    }
    assert listed[..i] == listed;
    WithoutRemoved(old(api.maps), listed, cell);
    return true;
  }

  /** `RemoveOne`, with what it means for the objects handled before. */
  method RemoveNext(api: Api, cell: Cell, ghost done: seq<ConfigMap>, m: ConfigMap) returns (ok: bool)
    requires api.Valid() && api.Known(m) && Removable(m, cell)
    requires ListedGone(done, cell, api.maps) && forall i :: 0 <= i < |done| ==> api.Known(done[i])
    modifies api
    ensures api.Valid() && Remembers(old(api.written), api.written)
    ensures old(api.deleted) <= api.deleted && AllRemovable(api.deleted[|old(api.deleted)|..], cell)
    ensures ok ==> ListedGone(done + [m], cell, api.maps)
    ensures Calm(old(api.tape)) && m.name in old(api.maps) && old(api.maps)[m.name] == m ==>
              ok && Calm(api.tape) && api.maps == old(api.maps) - {m.name}
  {
    ok := RemoveOne(api, cell, m);
    if ok {
      var more := done + [m];
      forall i | 0 <= i < |more| && Removable(more[i], cell) ensures Absent(api.maps, more[i].version) {
        if i < |done| { assert more[i] == done[i] && done[i].version in old(api.written); }
      }
    }
  }

  lemma RemovedSnoc(listed: seq<ConfigMap>, m: ConfigMap, cell: Cell)
    ensures RemovedNames(listed + [m], cell) == RemovedNames(listed, cell) + if Removable(m, cell) then {m.name} else {}
  {
    var more := listed + [m];
    assert more[|listed|] == m && forall i :: 0 <= i < |listed| ==> more[i] == listed[i];
  }

  lemma WithoutRemoved(maps: Maps, listed: seq<ConfigMap>, cell: Cell)
    requires forall i :: 0 <= i < |listed| ==> listed[i].name in maps && maps[listed[i].name] == listed[i]
    ensures (forall n :: n in maps ==> maps[n] in listed) && (forall n :: n in maps ==> maps[n].name == n) ==>
              maps - RemovedNames(listed, cell) == Without(maps, cell)
  {
    if (forall n :: n in maps ==> maps[n] in listed) && (forall n :: n in maps ==> maps[n].name == n) {
      forall n | n in maps ensures n in RemovedNames(listed, cell) <==> Removable(maps[n], cell) {
        if Removable(maps[n], cell) {
          var i :| 0 <= i < |listed| && listed[i] == maps[n];
          assert listed[i].name in RemovedNames(listed, cell);
        }
      }
    }
  }

  function RemovedNames(listed: seq<ConfigMap>, cell: Cell): set<string> {
    set i | 0 <= i < |listed| && Removable(listed[i], cell) :: listed[i].name
  }
}
