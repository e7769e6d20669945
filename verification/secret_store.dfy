/**
 The store of device keys (client/libclient/secret_store.go). Rows are appended,
 replaced and spliced in a list; key exchange first writes a provisional row and
 clears its bit once the server has the device.
 */
module SecretStores {
  import opened Common

  datatype Row = Row(user: nat, role: nat, id: nat, provisional: bool, bundle: nat)

  datatype StoreError = Exists | NotFound | Mismatch | SaveFailed

  predicate IsDevice(r: Row, user: nat, id: nat) { r.user == user && r.id == id }
  predicate IsRole(r: Row, user: nat, role: nat, noProvisional: bool) {
    r.user == user && r.role == role && !(noProvisional && r.provisional)
  }

  /** One row for each device of each user. */
  ghost predicate DevicesUnique(rows: seq<Row>) {
    forall i, j :: 0 <= i < j < |rows| ==> !(rows[i].user == rows[j].user && rows[i].id == rows[j].id)
  }

  predicate SameRole(a: Row, b: Row) { a.user == b.user && a.role == b.role }

  /** At most one settled row for each user and role. */
  ghost predicate RolesUnique(rows: seq<Row>) {
    forall i, j :: 0 <= i < j < |rows| && !rows[i].provisional && !rows[j].provisional ==> !SameRole(rows[i], rows[j])
  }

  predicate Cleared(r: Row, user: nat, ids: set<nat>) { r.user == user && r.id in ids }

  function Clear(r: Row, user: nat, ids: set<nat>): (r': Row) {
    if Cleared(r, user, ids) then r.(provisional := false) else r
  }

  function ClearAll(rows: seq<Row>, user: nat, ids: set<nat>): (rows': seq<Row>)
    ensures |rows'| == |rows| && forall i :: 0 <= i < |rows| ==> rows'[i] == Clear(rows[i], user, ids)
  {
    seq(|rows|, i requires 0 <= i < |rows| => Clear(rows[i], user, ids))
  }

  /** What to look for: a device of a user, or a role of a user with or without provisional rows. */
  datatype GetBy = ByDevice(user: nat, id: nat) | ByRole(user: nat, role: nat, noProvisional: bool) {
    predicate Matches(r: Row) {
      if ByDevice? then IsDevice(r, user, id) else IsRole(r, user, role, noProvisional)
    }
  }

  /** Some row is of this device. */
  predicate HasDevice(rows: seq<Row>, user: nat, id: nat) {
    exists i :: 0 <= i < |rows| && IsDevice(rows[i], user, id)
  }

  /** Row `i` is the last one of this user and role. */
  predicate Newest(rows: seq<Row>, i: int, user: nat, role: nat) {
    && 0 <= i < |rows| && IsRole(rows[i], user, role, false)
    && forall j :: i < j < |rows| ==> !IsRole(rows[j], user, role, false)
  }

  class SecretStore {
    var keys: seq<Row>
    var disk: seq<Row>
    var dirty: bool

    constructor (disk: seq<Row>)
      ensures keys == this.disk == disk && !dirty
    {
      keys, this.disk, dirty := disk, disk, false;
    }

    ghost predicate Valid()
      reads this
    {
      DevicesUnique(keys) && DevicesUnique(disk)
    }

    /** A clean store has nothing left to write. */
    ghost predicate InSync()
      reads this
    {
      !dirty ==> disk == keys
    }

    /** `lookupGeneric`: the first match, or going backwards the most recent one. */
    method Lookup(fwd: bool, p: Row -> bool) returns (at: Option<nat>)
      ensures at.None? <==> forall i :: 0 <= i < |keys| ==> !p(keys[i])
      ensures at.Some? ==> at.value < |keys| && p(keys[at.value])
      ensures at.Some? && fwd ==> forall i :: 0 <= i < at.value ==> !p(keys[i])
      ensures at.Some? && !fwd ==> forall i :: at.value < i < |keys| ==> !p(keys[i])
    {
      var i: int, lim: int, inc: int := if fwd then 0 else |keys| - 1, if fwd then |keys| else -1,
        if fwd then 1 else -1;
      while i != lim
        invariant fwd ==> 0 <= i <= |keys| && forall j :: 0 <= j < i ==> !p(keys[j])
        invariant !fwd ==> -1 <= i < |keys| && forall j :: i < j < |keys| ==> !p(keys[j])
        decreases if fwd then |keys| - i else i + 1
      {
        if p(keys[i]) { return Some(i); }
        i := i + inc;
      }
      return None;
    }

    /** Writes the rows if there is anything to write. */
    method Save(works: bool) returns (ok: bool)
      requires Valid()
      modifies this`disk, this`dirty
      ensures Valid() && (ok <==> works || !old(dirty))
      ensures disk == if works && old(dirty) then keys else old(disk)
      ensures dirty == (old(dirty) && !works)
      ensures old(InSync()) ==> InSync() && (ok ==> disk == keys)
    {
      if !dirty { return true; }
      if !works { return false; }
      disk, dirty := keys, false;
      return true;
    }

    /** Refuses a device that is there already, or a role with a settled row. A new row is found first from then on. */
    method Put(row: Row) returns (r: Result<(), StoreError>)
      requires Valid()
      modifies this`keys, this`dirty
      ensures Valid() && (old(InSync()) ==> InSync())
      ensures r.Ok? <==> forall i :: 0 <= i < |old(keys)| ==>
                                       && !IsDevice(old(keys)[i], row.user, row.id)
                                       && !IsRole(old(keys)[i], row.user, row.role, true)
      ensures keys == if r.Ok? then old(keys) + [row] else old(keys)
      ensures dirty == (old(dirty) || r.Ok?)
      ensures RolesUnique(old(keys)) ==> RolesUnique(keys)
    {
      var ex := Lookup(true, x => IsDevice(x, row.user, row.id));
      if ex.Some? { return Err(Exists); }
      var tmp := Lookup(false, x => IsRole(x, row.user, row.role, true));
      if tmp.Some? { return Err(Exists); }
      keys := keys + [row];
      dirty := true;
      return Ok(());
    }

    /** By device, the row of that device; by role, the most recent row that qualifies. */
    method Get(what: GetBy) returns (row: Option<Row>)
      requires Valid()
      ensures row.None? <==> forall i :: 0 <= i < |keys| ==> !what.Matches(keys[i])
      ensures row.Some? ==> what.Matches(row.value) && row.value in keys
      ensures row.Some? && what.ByDevice? ==> forall i :: 0 <= i < |keys| && what.Matches(keys[i]) ==>
                keys[i] == row.value
      ensures row.Some? && what.ByRole? ==>
                exists i :: && 0 <= i < |keys| && keys[i] == row.value
                            && forall j :: i < j < |keys| ==> !what.Matches(keys[j])
    {
      var at := Lookup(what.ByDevice?, x => what.Matches(x));
      if at.None? { return None; }
      return Some(keys[at.value]);
    }

    /** Settles the named devices of one user, and saves if that changed anything. */
    method ClearProvisionalBits(user: nat, ids: set<nat>, saveWorks: bool) returns (r: Result<nat, StoreError>)
      requires Valid()
      modifies this
      ensures Valid() && (old(InSync()) ==> InSync())
      ensures keys == ClearAll(old(keys), user, ids)
      ensures r.Err? <==> !saveWorks && keys != old(keys)
      ensures r.Ok? ==> (r.value == 0 <==> keys == old(keys))
      ensures r.Ok? && keys != old(keys) ==> disk == keys
    {
      var n := 0;
      ghost var before := keys;
      for i := 0 to |keys|
        invariant |keys| == |before| && dirty == old(dirty) && disk == old(disk)
        invariant forall j :: 0 <= j < i ==> keys[j] == Clear(before[j], user, ids)
        invariant forall j :: i <= j < |keys| ==> keys[j] == before[j]
        invariant n == 0 <==> forall j :: 0 <= j < i ==> keys[j] == before[j]
      {
        var row := keys[i];
        if row.user == user && row.id in ids && row.provisional {
          keys := keys[i := row.(provisional := false)];
          n := n + 1;
          assert keys[i] != before[i];
        }
      }
      assert keys == ClearAll(before, user, ids);
      if n == 0 {
        assert keys == before;
        return Ok(0);
      }
      dirty := true;
      var saved := Save(saveWorks);
      if !saved { return Err(SaveFailed); }
      return Ok(n);
    }

    /**
     Replaces a device's row and saves; if saving fails the old row is put back and the
     store counts as clean. Starting in sync, that is wrong exactly when the device is
     there, saving does not work, and something was unsaved before the call.
     */
    method UpdateAndSave(row: Row, saveWorks: bool) returns (r: Result<(), StoreError>)
      requires Valid()
      modifies this
      ensures Valid()
      ensures r == if !HasDevice(old(keys), row.user, row.id) then Err(NotFound)
                   else if saveWorks then Ok(()) else Err(SaveFailed)
      ensures r.Ok? ==>
                exists i :: && 0 <= i < |old(keys)| && IsDevice(old(keys)[i], row.user, row.id)
                            && keys == old(keys)[i := row]
      ensures r.Ok? ==> disk == keys
      ensures r.Err? ==> keys == old(keys) && disk == old(disk)
      ensures dirty == (old(dirty) && !HasDevice(old(keys), row.user, row.id))
      ensures old(InSync()) ==>
                (!InSync() <==> HasDevice(old(keys), row.user, row.id) && !saveWorks && old(disk != keys))
    {
      var pos := Lookup(true, x => IsDevice(x, row.user, row.id));
      if pos.None? { return Err(NotFound); }
      var prev := keys[pos.value];
      keys := keys[pos.value := row];
      dirty := true;
      var saved := Save(saveWorks);
      if !saved {
        keys := keys[pos.value := prev];
        dirty := false;
        assert keys == old(keys);
        return Err(SaveFailed);
      }
      return Ok(());
    }

    /** Deletes the row a role resolves to, if it is the device meant. */
    method Delete(user: nat, role: nat, id: nat) returns (r: Result<(), StoreError>)
      requires Valid()
      modifies this`keys, this`dirty
      ensures Valid() && (old(InSync()) ==> InSync())
      ensures r == Err(NotFound) <==> forall i :: 0 <= i < |old(keys)| ==> !IsRole(old(keys)[i], user, role, false)
      ensures r == Err(NotFound) || exists i :: && Newest(old(keys), i, user, role)
                                                && r == (if old(keys)[i].id == id then Ok(()) else Err(Mismatch))
                                                && (r.Ok? ==> keys == old(keys)[..i] + old(keys)[i + 1..])
      ensures r.Err? ==> keys == old(keys) && dirty == old(dirty)
      ensures r.Ok? ==> dirty
      ensures RolesUnique(old(keys)) ==> RolesUnique(keys)
    {
      var pos := Lookup(false, x => IsRole(x, user, role, false));
      if pos.None? { return Err(NotFound); }
      assert Newest(keys, pos.value, user, role);
      if keys[pos.value].id != id { return Err(Mismatch); }
      keys := keys[..pos.value] + keys[pos.value + 1..];
      dirty := true;
      return Ok(());
    }
  }

  /** A row is settled after clearing: it was before, or it is one of those cleared. */
  predicate SettledBy(r: Row, user: nat, ids: set<nat>) { !r.provisional || Cleared(r, user, ids) }

  /**
   Clearing keeps one settled row for each role exactly when no two rows of the user
   at one role are each either settled or about to be.
   */
  lemma ClearKeepsRolesUniqueIff(rows: seq<Row>, user: nat, ids: set<nat>)
    requires RolesUnique(rows)
    ensures RolesUnique(ClearAll(rows, user, ids)) <==>
            forall i, j :: 0 <= i < j < |rows| && rows[i].user == user && SameRole(rows[i], rows[j]) ==>
                             !(SettledBy(rows[i], user, ids) && SettledBy(rows[j], user, ids))
  {
    var after := ClearAll(rows, user, ids);
    forall i, j | 0 <= i < j < |rows|
      ensures !after[i].provisional && !after[j].provisional && SameRole(after[i], after[j]) ==>
                SameRole(rows[i], rows[j]) && SettledBy(rows[i], user, ids) && SettledBy(rows[j], user, ids)
    {
    }
    if RolesUnique(after) {
      forall i, j | 0 <= i < j < |rows| && rows[i].user == rows[j].user == user && rows[i].role == rows[j].role
        ensures !(SettledBy(rows[i], user, ids) && SettledBy(rows[j], user, ids))
      {
        assert !(!after[i].provisional && !after[j].provisional && SameRole(after[i], after[j]));
      }
    }
  }

  /** Two failed attempts leave two provisional rows; settling both breaks uniqueness. */
  lemma ClearingTwoRowsBreaksRolesUnique()
    ensures var rows := [Row(1, 3, 10, true, 0), Row(1, 3, 11, true, 0)];
            RolesUnique(rows) && DevicesUnique(rows) && !RolesUnique(ClearAll(rows, 1, {10, 11}))
  {
    var rows := [Row(1, 3, 10, true, 0), Row(1, 3, 11, true, 0)];
    var after := ClearAll(rows, 1, {10, 11});
    assert after[0] == Row(1, 3, 10, false, 0) && after[1] == Row(1, 3, 11, false, 0);
  }

  /**
   A new row, then a change to it that cannot be saved: the row is in memory only, and
   the store has forgotten that it still has to write it, so that a later save does nothing.
   */
  method FailedUpdateForgetsNewRow(row: Row, changed: Row) returns (store: SecretStore, saved: bool)
    requires IsDevice(changed, row.user, row.id)
    ensures fresh(store) && store.Valid()
    ensures saved && !store.dirty && store.disk == [] && store.keys == [row]
  {
    store := new SecretStore([]);
    var put := store.Put(row);
    assert store.keys[0] == row;
    var updated := store.UpdateAndSave(changed, false);
    saved := store.Save(true);
  }
}
