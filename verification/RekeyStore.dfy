/** The rotation as the store runs it: batches in a loop, each one transaction. */
module RekeyStore {
  import opened Prelude
  import opened Vault
  import opened VaultLaws

  /** At most `batch` keys of `space` after `cursor`, in order. */
  method WalkEntries(records: map<Place, Sealed>, space: nat, cursor: Option<Key>, batch: nat)
    returns (entries: seq<Key>)
    ensures entries == First(KeysAfter(records, space, cursor), batch)
  {
    entries := [];
    var rest := KeysAfter(records, space, cursor);
    assert [] + First(rest, batch) == First(rest, batch);
    while rest != {} && |entries| < batch
      invariant |entries| <= batch
      invariant First(KeysAfter(records, space, cursor), batch) == entries + First(rest, batch - |entries|)
      decreases |rest|
    {
      LeastExists(rest);
      var k :| k in rest && forall o :: o in rest ==> o == k || Less(k, o);
      LeastUnique(rest, k, Least(rest));
      assert First(rest, batch - |entries|) == [k] + First(rest - {k}, batch - |entries| - 1);
      entries, rest := entries + [k], rest - {k};
    }
  }

  /** Tries each kind the keyspace holds, as the walk does. */
  method Reseal(t: TenantId, from: KeyId, to: KeyId, p: Place, sealed: Sealed) returns (moved: Option<Sealed>)
    ensures Resealed(t, from, to, p, sealed) == if moved.Some? then moved.value else sealed
  {
    if sealed.key.id != from {
      return None;
    }
    var slots, key := SlotsOf(p.space), TenantSealing(t, from, RoleOf(p.space));
    for i := 0 to |slots|
      invariant OpensAs(key, slots, p.key, sealed) == OpensAs(key, slots[i..], p.key, sealed)
    {
      assert slots[i..][0] == slots[i] && slots[i..][1..] == slots[i + 1..];
      var plain := Open([key], slots[i], p.key, sealed);
      if plain.Ok? {
        return Some(Sealed(TenantSealing(t, to, RoleOf(p.space)), slots[i], p.key, plain.value));
      }
    }
    return None;
  }

  method ResealEntries(records: map<Place, Sealed>, t: TenantId, from: KeyId, to: KeyId, space: nat, entries: seq<Key>)
    returns (r: map<Place, Sealed>)
    requires forall k :: k in entries ==> Place(space, k) in records
    requires forall i, j :: 0 <= i < j < |entries| ==> entries[i] != entries[j]
    ensures r == ResealBatch(records, t, from, to, space, entries)
  {
    r := records;
    for i := 0 to |entries|
      invariant r == ResealBatch(records, t, from, to, space, entries[..i])
    {
      var p := Place(space, entries[i]);
      assert entries[i] !in entries[..i];
      var moved := Reseal(t, from, to, p, r[p]);
      assert entries[..i + 1] == entries[..i] + [entries[i]];
      if moved.Some? {
        r := r[p := moved.value];
      }
    }
    assert entries[..|entries|] == entries;
  }

  lemma {:induction false} FirstDistinct(s: set<Key>, n: nat)
    ensures forall i, j :: 0 <= i < j < |First(s, n)| ==> First(s, n)[i] != First(s, n)[j]
    decreases n
  {
    if n > 0 && s != {} {
      FirstDistinct(s - {Least(s)}, n - 1);
      FirstMeaning(s - {Least(s)}, n - 1);
    }
  }

  lemma EntriesStored(records: map<Place, Sealed>, space: nat, cursor: Option<Key>, n: nat)
    ensures forall k :: k in First(KeysAfter(records, space, cursor), n) ==> Place(space, k) in records
  {
    FirstMeaning(KeysAfter(records, space, cursor), n);
  }

  function KeyspacesLeft(r: Rekey): nat { if r.keyspace < WALK_LEN then WALK_LEN - r.keyspace else 0 }

  /** The walk's measure: keyspaces left, then records after the cursor. */
  lemma BatchProgress(v: Vault, t: TenantId, batch: nat)
    requires batch > 0 && InProgress(v, t) && v.rekeys[t].keyspace < WALK_LEN && RekeyBatch(v, t, batch).Ok?
    ensures var next := RekeyBatch(v, t, batch).value;
            && InProgress(next, t) && next.rekeys[t].from == v.rekeys[t].from && next.rekeys[t].to == v.rekeys[t].to
            && (KeyspacesLeft(next.rekeys[t]) < KeyspacesLeft(v.rekeys[t])
                || (next.rekeys[t].keyspace == v.rekeys[t].keyspace
                    && |KeysAfter(next.records, next.rekeys[t].keyspace, next.rekeys[t].cursor)|
                       < |KeysAfter(v.records, v.rekeys[t].keyspace, v.rekeys[t].cursor)|))
  {
    var next, r := RekeyBatch(v, t, batch).value, v.rekeys[t];
    var rest := KeysAfter(v.records, r.keyspace, r.cursor);
    var entries := First(rest, batch);
    FirstMeaning(rest, batch);
    if |entries| == batch {
      var last := entries[|entries| - 1];
      assert last in rest;
      LessTotal(last, last);
      var after := KeysAfter(next.records, r.keyspace, Some(last));
      forall k | k in after ensures k in rest { if r.cursor.Some? { LessTrans(r.cursor.value, last, k); } }
      assert after <= rest - {last};
      SubsetSmaller(after, rest, last);
    }
  }

  lemma SubsetSmaller(a: set<Key>, b: set<Key>, k: Key)
    requires k in b && a <= b - {k}
    ensures |a| < |b|
  {
    Smaller(a, b - {k});
  }

  lemma {:induction false} Smaller(a: set<Key>, b: set<Key>)
    requires a <= b
    ensures |a| <= |b|
    decreases |a|
  {
    if a != {} {
      var x :| x in a;
      Smaller(a - {x}, b - {x});
    }
  }

  class KeyVault {
    var v: Vault

    method Begin(t: TenantId) returns (r: Result<Rekey, VaultError>)
      modifies this
      ensures v == if BeginRekey(old(v), t).Ok? then BeginRekey(old(v), t).value else old(v)
      ensures r.Ok? <==> BeginRekey(old(v), t).Ok?
      ensures r.Ok? ==> t in v.rekeys && r.value == v.rekeys[t]
    {
      var next := BeginRekey(v, t);
      if next.Err? {
        return Err(next.error);
      }
      v := next.value;
      return Ok(v.rekeys[t]);
    }

    method Batch(t: TenantId, batch: nat) returns (r: Result<Rekey, VaultError>)
      requires batch > 0
      modifies this
      ensures v == if RekeyBatch(old(v), t, batch).Ok? then RekeyBatch(old(v), t, batch).value else old(v)
      ensures r.Ok? <==> RekeyBatch(old(v), t, batch).Ok?
      ensures r.Ok? ==> t in v.rekeys && r.value == v.rekeys[t]
    {
      if !InProgress(v, t) {
        return Err(RekeyNotInProgress(t));
      }
      var record := v.rekeys[t];
      if record.keyspace >= WALK_LEN {
        v := Retire(v, t);
        return Ok(v.rekeys[t]);
      }
      var keys := LoadKeyring(v, t);
      if keys.Err? {
        return Err(keys.error);
      }
      var entries := WalkEntries(v.records, record.keyspace, record.cursor, batch);
      EntriesStored(v.records, record.keyspace, record.cursor, batch);
      FirstDistinct(KeysAfter(v.records, record.keyspace, record.cursor), batch);
      var records := ResealEntries(v.records, t, record.from, keys.value.active, record.keyspace, entries);
      v := v.(records := records, rekeys := v.rekeys[t := Advance(record, entries, batch)]);
      return Ok(v.rekeys[t]);
    }

    /** One batch or the retirement of a rotation in progress; each is a step forward. */
    method Continue(t: TenantId, batch: nat) returns (status: Rekey)
      requires Inv(v) && InProgress(v, t) && batch > 0
      modifies this
      ensures Inv(v) && View(v) == View(old(v))
      ensures t in v.rekeys && status == v.rekeys[t] && status.from == old(v).rekeys[t].from
      ensures status.done || KeyspacesLeft(status) < KeyspacesLeft(old(v).rekeys[t])
              || (KeyspacesLeft(status) == KeyspacesLeft(old(v).rekeys[t])
                  && |KeysAfter(v.records, status.keyspace, status.cursor)|
                     < |KeysAfter(old(v).records, old(v).rekeys[t].keyspace, old(v).rekeys[t].cursor)|)
    {
      ghost var before := v;
      assert TenantOk(v, t);
      var next := Batch(t, batch);
      BatchInvisible(before, t, batch);
      if before.rekeys[t].keyspace < WALK_LEN {
        BatchKeeps(before, t, batch);
        BatchProgress(before, t, batch);
      } else {
        RetireKeeps(before, t);
      }
      return next.value;
    }

    /**
     * Rotates to completion, resuming a rotation in progress. With no other
     * writer it always ends, with the old key gone, no record left under it,
     * and nothing a user can see changed.
     */
    method RekeyTenant(t: TenantId, batch: nat) returns (r: Result<Rekey, VaultError>)
      requires Inv(v) && batch > 0
      modifies this
      ensures Inv(v) && View(v) == View(old(v))
      ensures r.Ok? <==> t in old(v).tenants && (InProgress(old(v), t) || old(v).tenants[t] < KEY_ID_MAX)
      ensures r.Err? ==> v == old(v)
      ensures r.Ok? ==> Rotated(old(v), v, t)
    {
      ghost var before := v;
      assert t in v.tenants ==> TenantOk(v, t);
      var status: Rekey;
      if InProgress(v, t) {
        status := v.rekeys[t];
      } else {
        var begun := Begin(t);
        if begun.Err? {
          return begun;
        }
        BeginRekeyKeeps(before, t);
        DirectoryRefines(before, t);
        status := begun.value;
      }
      while !status.done
        invariant Inv(v) && View(v) == View(before)
        invariant t in v.rekeys && status == v.rekeys[t]
        invariant status.from == if InProgress(before, t) then before.rekeys[t].from else before.tenants[t]
        decreases !status.done, KeyspacesLeft(status), |KeysAfter(v.records, status.keyspace, status.cursor)|
      {
        status := Continue(t, batch);
      }
      RotatedNow(before, v, t);
      return Ok(status);
    }
  }

  /** The rotation of `t` that was due, or already running, in `before` is complete in `v`. */
  ghost predicate Rotated(before: Vault, v: Vault, t: TenantId)
    requires t in before.tenants
  {
    var from := if InProgress(before, t) then before.rekeys[t].from else before.tenants[t];
    && t in v.tenants && t in v.rekeys && v.rekeys[t].done
    && v.tenants[t] == v.rekeys[t].to && v.rekeys[t].from == from && v.tenants[t] > from
    && (forall k :: (t, k) in v.keys <==> k == v.tenants[t])
    && (forall p :: p in v.records ==> v.records[p].key != TenantSealing(t, from, RoleOf(p.space)))
  }

  lemma RotatedNow(before: Vault, v: Vault, t: TenantId)
    requires t in before.tenants && Inv(v) && t in v.rekeys && v.rekeys[t].done
    requires v.rekeys[t].from == if InProgress(before, t) then before.rekeys[t].from else before.tenants[t]
    ensures Rotated(before, v, t)
  {
    assert TenantOk(v, t);
    forall p | p in v.records ensures v.records[p].key != TenantSealing(t, v.rekeys[t].from, RoleOf(p.space)) {
      assert RecordOk(v, p, v.records[p]);
    }
  }
}
