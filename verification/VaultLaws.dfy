/**
 * What the rotation protocol keeps over every interleaving of batches,
 * writers, registrations, shreds and crashes.
 */
module VaultLaws {
  import opened Prelude
  import opened Vault

  // ---- the invariant -----------------------------------------------------------------

  /** The walk has passed `p`. */
  ghost predicate Passed(r: Rekey, p: Place) {
    p.space < r.keyspace || (p.space == r.keyspace && r.cursor.Some? && !Less(r.cursor.value, p.key))
  }

  /** Exactly the active key, the retiring key and, after the first rotation, the addressing subkeys of data key 1. */
  ghost predicate TenantOk(v: Vault, t: TenantId)
    requires t in v.tenants
  {
    && t !in v.tombstones
    && v.tenants[t] >= INITIAL_DATA_KEY_ID
    && (t in v.address <==> v.tenants[t] != INITIAL_DATA_KEY_ID)
    && (t in v.address ==> v.address[t] == INITIAL_DATA_KEY_ID)
    && (forall k :: (t, k) in v.keys <==> k == v.tenants[t] || Retiring(v, t) == Some(k))
    && (t in v.rekeys ==> v.rekeys[t].to == v.tenants[t] && v.rekeys[t].from < v.rekeys[t].to)
  }

  ghost predicate KeysOk(v: Vault) {
    && (forall t {:trigger TenantOk(v, t)} :: t in v.tenants ==> TenantOk(v, t))
    && v.rekeys.Keys <= v.tenants.Keys && v.address.Keys <= v.tenants.Keys
    && (forall e :: e in v.keys ==> e.0 in v.tenants)
  }

  /** A tenant's record is under its active key, or under the retiring key at a place the walk has not passed. */
  ghost predicate RecordOk(v: Vault, p: Place, sealed: Sealed) {
    && sealed.at == p.key
    && match sealed.key
       case StoreMeta(_) => sealed.slot.LocatorSlot?
       case TenantSealing(t, id, role) =>
         && role == RoleOf(p.space) && sealed.slot in SlotsOf(p.space)
         && (t in v.tenants || t in v.tombstones)
         && (t in v.tenants ==> id == v.tenants[t] || (Retiring(v, t) == Some(id) && !Passed(v.rekeys[t], p)))
  }

  ghost predicate RecordsOk(v: Vault) {
    forall p {:trigger RecordOk(v, p, v.records[p])} :: p in v.records ==> RecordOk(v, p, v.records[p])
  }

  ghost predicate Inv(v: Vault) { KeysOk(v) && RecordsOk(v) }

  lemma KeysElsewhere(v: Vault, next: Vault, t: TenantId)
    requires KeysOk(v)
    requires forall u :: u != t ==> (u in next.tenants <==> u in v.tenants)
    requires forall u :: u != t && u in v.tenants ==>
               && next.tenants[u] == v.tenants[u] && (u in next.tombstones <==> u in v.tombstones)
               && (u in next.address <==> u in v.address) && (u in v.address ==> next.address[u] == v.address[u])
               && (u in next.rekeys <==> u in v.rekeys) && (u in v.rekeys ==> next.rekeys[u] == v.rekeys[u])
               && (forall k :: (u, k) in next.keys <==> (u, k) in v.keys)
    requires t in next.tenants ==> TenantOk(next, t)
    requires next.rekeys.Keys <= next.tenants.Keys && next.address.Keys <= next.tenants.Keys
    requires forall e :: e in next.keys ==> e.0 in next.tenants
    ensures KeysOk(next)
  {
    forall u {:trigger TenantOk(next, u)} | u in next.tenants ensures TenantOk(next, u) {
      if u != t { assert TenantOk(v, u); }
    }
  }

  // ---- each transaction ----------------------------------------------------------------

  lemma RegisterKeeps(v: Vault, t: TenantId)
    requires Inv(v)
    ensures Inv(Register(v, t))
  {
    var next := Register(v, t);
    if next != v {
      KeysElsewhere(v, next, t);
      forall p {:trigger RecordOk(next, p, next.records[p])} | p in next.records
        ensures RecordOk(next, p, next.records[p])
      {
        assert RecordOk(v, p, v.records[p]);
      }
    }
  }

  lemma ShredKeeps(v: Vault, t: TenantId)
    requires Inv(v)
    ensures Inv(Shred(v, t))
  {
    if t in v.tenants {
      var next := Shred(v, t);
      assert TenantOk(v, t);
      KeysElsewhere(v, next, t);
      forall p {:trigger RecordOk(next, p, next.records[p])} | p in next.records
        ensures RecordOk(next, p, next.records[p])
      {
        assert RecordOk(v, p, v.records[p]);
      }
    }
  }

  /** Replacing records leaves the key directory well formed. */
  lemma SameKeys(v: Vault, records: map<Place, Sealed>)
    requires KeysOk(v)
    ensures KeysOk(v.(records := records))
  {
    var next := v.(records := records);
    forall u {:trigger TenantOk(next, u)} | u in next.tenants ensures TenantOk(next, u) { assert TenantOk(v, u); }
  }

  lemma WriteKeeps(v: Vault, records: map<Place, Sealed>, at: Place)
    requires Inv(v)
    requires forall p :: p in records && p != at ==> p in v.records && records[p] == v.records[p]
    requires at in records ==> RecordOk(v, at, records[at])
    ensures Inv(v.(records := records))
  {
    var next := v.(records := records);
    SameKeys(v, records);
    forall p {:trigger RecordOk(next, p, next.records[p])} | p in next.records
      ensures RecordOk(next, p, next.records[p])
    {
      if p != at { assert RecordOk(v, p, v.records[p]); } else { assert RecordOk(v, at, records[at]); }
    }
  }

  lemma BeginRekeyKeeps(v: Vault, t: TenantId)
    requires Inv(v) && BeginRekey(v, t).Ok?
    ensures Inv(BeginRekey(v, t).value)
  {
    var next := BeginRekey(v, t).value;
    assert TenantOk(v, t);
    assert TenantOk(next, t);
    KeysElsewhere(v, next, t);
    forall p {:trigger RecordOk(next, p, next.records[p])} | p in next.records
      ensures RecordOk(next, p, next.records[p])
    {
      assert RecordOk(v, p, v.records[p]);
    }
  }

  lemma RetireKeeps(v: Vault, t: TenantId)
    requires Inv(v) && InProgress(v, t) && v.rekeys[t].keyspace >= WALK_LEN
    ensures Inv(Retire(v, t))
  {
    var next := Retire(v, t);
    assert TenantOk(v, t);
    assert TenantOk(next, t);
    KeysElsewhere(v, next, t);
    forall p {:trigger RecordOk(next, p, next.records[p])} | p in next.records
      ensures RecordOk(next, p, next.records[p])
    {
      assert RecordOk(v, p, v.records[p]);
    }
  }

  /** Re-sealing a well-formed record changes only its key, and only for this tenant's records under the old key. */
  lemma ResealedExact(v: Vault, t: TenantId, p: Place)
    requires Inv(v) && InProgress(v, t) && p in v.records
    ensures var sealed, r := v.records[p], v.rekeys[t];
            Resealed(t, r.from, v.tenants[t], p, sealed)
            == if sealed.key == TenantSealing(t, r.from, RoleOf(p.space))
               then sealed.(key := TenantSealing(t, v.tenants[t], RoleOf(p.space))) else sealed
  {
    assert RecordOk(v, p, v.records[p]);
    var key := TenantSealing(t, v.rekeys[t].from, RoleOf(p.space));
    if v.records[p].key == key {
      OpensAsOwn(key, SlotsOf(p.space), p.key, v.records[p]);
    } else {
      OpensAsOther(key, SlotsOf(p.space), p.key, v.records[p]);
    }
  }

  lemma OpenOne(key: SealingKey, slot: Slot, at: Key, sealed: Sealed)
    ensures Open([key], slot, at, sealed)
            == if key.id != sealed.key.id then Err(UnknownKeyId)
               else if key == sealed.key && slot == sealed.slot && at == sealed.at then Ok(sealed.plain)
               else Err(OpenFailed)
  {
    assert [key][1..] == [];
  }

  lemma {:induction false} OpensAsOwn(key: SealingKey, slots: seq<Slot>, at: Key, sealed: Sealed)
    requires sealed.key == key && sealed.at == at && sealed.slot in slots
    ensures OpensAs(key, slots, at, sealed) == Some((sealed.slot, sealed.plain))
    decreases |slots|
  {
    if slots[0] != sealed.slot {
      OpensAsOwn(key, slots[1..], at, sealed);
    }
  }

  lemma {:induction false} OpensAsOther(key: SealingKey, slots: seq<Slot>, at: Key, sealed: Sealed)
    requires sealed.key != key
    ensures OpensAs(key, slots, at, sealed) == None
    decreases |slots|
  {
    if slots != [] {
      OpenOne(key, slots[0], at, sealed);
      OpensAsOther(key, slots[1..], at, sealed);
    }
  }

  /** After a batch the walk has passed exactly what it had passed before and the batch itself. */
  lemma AdvancePasses(v: Vault, t: TenantId, batch: nat, p: Place)
    requires InProgress(v, t) && batch > 0 && p in v.records
    ensures var r := v.rekeys[t];
            var entries := First(KeysAfter(v.records, r.keyspace, r.cursor), batch);
            Passed(Advance(r, entries, batch), p) <==> Passed(r, p) || (p.space == r.keyspace && p.key in entries)
  {
    var r := v.rekeys[t];
    var rest := KeysAfter(v.records, r.keyspace, r.cursor);
    var entries := First(rest, batch);
    FirstMeaning(rest, batch);
    if p.space == r.keyspace {
      assert p.key in rest <==> !Passed(r, p);
      if |entries| == batch && Passed(r, p) {
        var last := entries[|entries| - 1];
        assert last in rest;
        if Less(last, p.key) { LessTrans(r.cursor.value, last, p.key); }
      }
    }
  }

  lemma BatchKeeps(v: Vault, t: TenantId, batch: nat)
    requires Inv(v) && InProgress(v, t) && v.rekeys[t].keyspace < WALK_LEN && batch > 0 && RekeyBatch(v, t, batch).Ok?
    ensures Inv(RekeyBatch(v, t, batch).value)
  {
    var next := RekeyBatch(v, t, batch).value;
    var r := v.rekeys[t];
    var entries := First(KeysAfter(v.records, r.keyspace, r.cursor), batch);
    assert TenantOk(v, t);
    assert TenantOk(next, t);
    KeysElsewhere(v, next, t);
    forall p {:trigger RecordOk(next, p, next.records[p])} | p in next.records
      ensures RecordOk(next, p, next.records[p])
    {
      assert RecordOk(v, p, v.records[p]);
      ResealedExact(v, t, p);
      AdvancePasses(v, t, batch, p);
    }
  }

  // ---- runs --------------------------------------------------------------------------------

  datatype Event =
    | DoRegister(tenant: TenantId)
    | DoShred(tenant: TenantId)
    | DoPut(tenant: TenantId, at: Place, slot: Slot, plain: Plaintext)
    | DoDrop(tenant: TenantId, at: Place)
    | DoLocator(root: KeyId, key: Key, plain: Plaintext)
    | DoBegin(tenant: TenantId)
    | DoBatch(tenant: TenantId, batch: nat)
    | Lost // a crash before any commit

  ghost function Apply(v: Vault, e: Event): Vault {
    match e
    case DoRegister(t) => Register(v, t)
    case DoShred(t) => Shred(v, t)
    case DoPut(t, p, slot, plain) => Put(v, t, p, slot, plain)
    case DoDrop(t, p) => Drop(v, t, p)
    case DoLocator(root, key, plain) => PutLocator(v, root, key, plain)
    case DoBegin(t) => if BeginRekey(v, t).Ok? then BeginRekey(v, t).value else v
    case DoBatch(t, batch) => if batch > 0 && RekeyBatch(v, t, batch).Ok? then RekeyBatch(v, t, batch).value else v
    case Lost => v
  }

  ghost function Run(v: Vault, events: seq<Event>): Vault
    decreases |events|
  {
    if events == [] then v else Apply(Run(v, events[..|events| - 1]), events[|events| - 1])
  }

  lemma ApplyKeeps(v: Vault, e: Event)
    requires Inv(v)
    ensures Inv(Apply(v, e))
  {
    match e {
      case DoRegister(t) => RegisterKeeps(v, t);
      case DoShred(t) => ShredKeeps(v, t);
      case DoPut(t, p, slot, plain) => if Apply(v, e) != v { WriteKeeps(v, Apply(v, e).records, p); }
      case DoDrop(t, p) => if Apply(v, e) != v { WriteKeeps(v, Apply(v, e).records, p); }
      case DoLocator(root, key, plain) => if Apply(v, e) != v { WriteKeeps(v, Apply(v, e).records, Place(1, key)); }
      case DoBegin(t) => if BeginRekey(v, t).Ok? { BeginRekeyKeeps(v, t); }
      case DoBatch(t, batch) =>
        if batch > 0 && RekeyBatch(v, t, batch).Ok? {
          if v.rekeys[t].keyspace >= WALK_LEN { RetireKeeps(v, t); } else { BatchKeeps(v, t, batch); }
        }
      case Lost =>
    }
  }

  lemma {:induction false} RunKeeps(events: seq<Event>)
    ensures Inv(Run(EMPTY, events))
    decreases |events|
  {
    if events != [] {
      RunKeeps(events[..|events| - 1]);
      ApplyKeeps(Run(EMPTY, events[..|events| - 1]), events[|events| - 1]);
    }
  }

  // ---- what a reader and an auditor rely on ----------------------------------------------------

  /** A live tenant's keyring loads, and opens each of its records whichever of the two keys seals it. */
  lemma ReadsAt(v: Vault, t: TenantId, p: Place)
    requires Inv(v) && t in v.tenants
    ensures LoadKeyring(v, t) == Ok(Keyring(t, v.tenants[t], Retiring(v, t), INITIAL_DATA_KEY_ID))
    ensures p in v.records && v.records[p].key.TenantSealing? && v.records[p].key.tenant == t ==>
              Open(LoadKeyring(v, t).value.Openers(RoleOf(p.space)), v.records[p].slot, p.key, v.records[p])
              == Ok(v.records[p].plain)
  {
    assert TenantOk(v, t);
    if p in v.records {
      assert RecordOk(v, p, v.records[p]);
    }
  }

  /**
   * After any run every live tenant's keyring loads, addresses records under
   * data key 1, and opens each of the tenant's records with its plaintext,
   * whichever of the two keys seals it.
   */
  lemma ReadsNeverFail(events: seq<Event>, t: TenantId, p: Place)
    requires var v := Run(EMPTY, events); t in v.tenants
    ensures var v := Run(EMPTY, events);
            && LoadKeyring(v, t) == Ok(Keyring(t, v.tenants[t], Retiring(v, t), INITIAL_DATA_KEY_ID))
            && (p in v.records && v.records[p].key.TenantSealing? && v.records[p].key.tenant == t ==>
                  Open(LoadKeyring(v, t).value.Openers(RoleOf(p.space)), v.records[p].slot, p.key, v.records[p])
                  == Ok(v.records[p].plain))
  {
    RunKeeps(events);
    ReadsAt(Run(EMPTY, events), t, p);
  }

  /** Behind the cursor no record of the tenant is under the old key, and once retired none is anywhere. */
  lemma OldKeyBehindCursor(events: seq<Event>, t: TenantId, p: Place)
    requires var v := Run(EMPTY, events); t in v.tenants && t in v.rekeys && p in v.records
    ensures var v := Run(EMPTY, events);
            v.rekeys[t].done || Passed(v.rekeys[t], p) ==>
              v.records[p].key != TenantSealing(t, v.rekeys[t].from, RoleOf(p.space))
  {
    RunKeeps(events);
    var v := Run(EMPTY, events);
    assert TenantOk(v, t);
    assert RecordOk(v, p, v.records[p]);
  }

  /** What `claim` and `claimed` do: open the entry with the active key alone. */
  function OpenActiveOnly(v: Vault, t: TenantId, p: Place): Result<Plaintext, OpenError>
    requires t in v.tenants && p in v.records
  {
    Open([TenantSealing(t, v.tenants[t], RoleOf(p.space))], v.records[p].slot, p.key, v.records[p])
  }

  lemma ActiveOnlyAt(v: Vault, t: TenantId, p: Place)
    requires Inv(v)
    requires t in v.tenants && p in v.records && v.records[p].key.TenantSealing? && v.records[p].key.tenant == t
    ensures v.records[p].key.id == v.tenants[t] ==> OpenActiveOnly(v, t, p) == Ok(v.records[p].plain)
    ensures v.records[p].key.id != v.tenants[t] ==>
              OpenActiveOnly(v, t, p) == Err(UnknownKeyId) && InProgress(v, t) && !Passed(v.rekeys[t], p)
  {
    assert TenantOk(v, t);
    assert RecordOk(v, p, v.records[p]);
    OpenOne(TenantSealing(t, v.tenants[t], RoleOf(p.space)), v.records[p].slot, p.key, v.records[p]);
  }

  /**
   * A reader with the active key alone succeeds on a tenant's record exactly
   * when its header names the active key; otherwise a rotation is in progress
   * that has not passed the record, and the reader fails on the key id.
   */
  lemma ActiveOnlyExact(events: seq<Event>, t: TenantId, p: Place)
    requires var v := Run(EMPTY, events);
             t in v.tenants && p in v.records && v.records[p].key.TenantSealing? && v.records[p].key.tenant == t
    ensures var v := Run(EMPTY, events);
            && (OpenActiveOnly(v, t, p) == Ok(v.records[p].plain) <==> v.records[p].key.id == v.tenants[t])
            && (v.records[p].key.id != v.tenants[t] ==>
                  OpenActiveOnly(v, t, p) == Err(UnknownKeyId) && InProgress(v, t) && !Passed(v.rekeys[t], p))
  {
    RunKeeps(events);
    ActiveOnlyAt(Run(EMPTY, events), t, p);
  }

  /** Mid-rotation that failure is reachable: an idempotency entry written before the rotation began. */
  lemma ActiveOnlyFails(t: TenantId, key: Key, plain: Plaintext)
    ensures var p := Place(0, key);
            var v := Run(EMPTY, [DoRegister(t), DoPut(t, p, IdemSlot, plain), DoBegin(t)]);
            t in v.tenants && p in v.records && OpenActiveOnly(v, t, p) == Err(UnknownKeyId)
  {
    var p := Place(0, key);
    var v1 := Register(EMPTY, t);
    var v2 := Put(v1, t, p, IdemSlot, plain);
    RunNext(EMPTY, [], DoRegister(t));
    RunNext(EMPTY, [DoRegister(t)], DoPut(t, p, IdemSlot, plain));
    RunNext(EMPTY, [DoRegister(t), DoPut(t, p, IdemSlot, plain)], DoBegin(t));
    assert [DoRegister(t)] == [] + [DoRegister(t)];
    assert [DoRegister(t), DoPut(t, p, IdemSlot, plain)] == [DoRegister(t)] + [DoPut(t, p, IdemSlot, plain)];
    assert [DoRegister(t), DoPut(t, p, IdemSlot, plain), DoBegin(t)]
        == [DoRegister(t), DoPut(t, p, IdemSlot, plain)] + [DoBegin(t)];
    OpenOne(TenantSealing(t, 2, Meta), IdemSlot, key, v2.records[p]);
  }

  lemma RunNext(v: Vault, events: seq<Event>, e: Event)
    ensures Run(v, events + [e]) == Apply(Run(v, events), e)
  {
    assert (events + [e])[..|events|] == events;
  }

  // ---- refinement: rotation is invisible -----------------------------------------------------------

  /** A record without its seal: who owns it, its kind and its plaintext. */
  datatype Item = Item(owner: Option<TenantId>, slot: Slot, plain: Plaintext)

  /** The store as its users know it: tenants, shredded tenants, and items by place. */
  datatype Shelf = Shelf(live: set<TenantId>, gone: set<TenantId>, items: map<Place, Item>)

  ghost function Unsealed(sealed: Sealed): Item {
    Item(if sealed.key.TenantSealing? then Some(sealed.key.tenant) else None, sealed.slot, sealed.plain)
  }

  ghost function View(v: Vault): Shelf {
    Shelf(v.tenants.Keys, v.tombstones, map p | p in v.records :: Unsealed(v.records[p]))
  }

  ghost predicate OwnItem(s: Shelf, t: TenantId, p: Place) { p in s.items ==> s.items[p].owner == Some(t) }

  /** The same event on the shelf; rotation events do nothing. */
  ghost function ShelfApply(s: Shelf, e: Event): Shelf {
    match e
    case DoRegister(t) => if t in s.live || t in s.gone then s else s.(live := s.live + {t})
    case DoShred(t) => if t !in s.live then s else s.(live := s.live - {t}, gone := s.gone + {t})
    case DoPut(t, p, slot, plain) =>
      if t !in s.live || slot !in SlotsOf(p.space) || !OwnItem(s, t, p) then s
      else s.(items := s.items[p := Item(Some(t), slot, plain)])
    case DoDrop(t, p) => if t !in s.live || !OwnItem(s, t, p) then s else s.(items := s.items - {p})
    case DoLocator(_, key, plain) =>
      if Place(1, key) in s.items && s.items[Place(1, key)].owner.Some? then s
      else s.(items := s.items[Place(1, key) := Item(None, LocatorSlot, plain)])
    case DoBegin(_) => s
    case DoBatch(_, _) => s
    case Lost => s
  }

  ghost function ShelfRun(s: Shelf, events: seq<Event>): Shelf
    decreases |events|
  {
    if events == [] then s else ShelfApply(ShelfRun(s, events[..|events| - 1]), events[|events| - 1])
  }

  lemma BatchInvisible(v: Vault, t: TenantId, batch: nat)
    requires Inv(v) && batch > 0 && RekeyBatch(v, t, batch).Ok?
    ensures View(RekeyBatch(v, t, batch).value) == View(v)
  {
    var next := RekeyBatch(v, t, batch).value;
    forall p | p in v.records ensures p in next.records && Unsealed(next.records[p]) == Unsealed(v.records[p]) {
      ResealedExact(v, t, p);
    }
    assert View(next).items == View(v).items;
  }

  lemma WriteRefines(v: Vault, t: TenantId, p: Place, slot: Slot, plain: Plaintext)
    ensures View(Put(v, t, p, slot, plain)) == ShelfApply(View(v), DoPut(t, p, slot, plain))
    ensures View(Drop(v, t, p)) == ShelfApply(View(v), DoDrop(t, p))
  {
    assert Own(v, t, p) <==> OwnItem(View(v), t, p);
    assert View(Put(v, t, p, slot, plain)).items == ShelfApply(View(v), DoPut(t, p, slot, plain)).items;
    assert View(Drop(v, t, p)).items == ShelfApply(View(v), DoDrop(t, p)).items;
  }

  lemma LocatorRefines(v: Vault, root: KeyId, key: Key, plain: Plaintext)
    ensures View(PutLocator(v, root, key, plain)) == ShelfApply(View(v), DoLocator(root, key, plain))
  {
    assert View(PutLocator(v, root, key, plain)).items == ShelfApply(View(v), DoLocator(root, key, plain)).items;
  }

  lemma DirectoryRefines(v: Vault, t: TenantId)
    ensures View(Register(v, t)) == ShelfApply(View(v), DoRegister(t))
    ensures View(Shred(v, t)) == ShelfApply(View(v), DoShred(t))
    ensures BeginRekey(v, t).Ok? ==> View(BeginRekey(v, t).value) == View(v)
  {
  }

  lemma ApplyRefines(v: Vault, e: Event)
    requires Inv(v)
    ensures View(Apply(v, e)) == ShelfApply(View(v), e)
  {
    match e {
      case DoRegister(t) => DirectoryRefines(v, t);
      case DoShred(t) => DirectoryRefines(v, t);
      case DoPut(t, p, slot, plain) => WriteRefines(v, t, p, slot, plain);
      case DoDrop(t, p) => WriteRefines(v, t, p, IdemSlot, Bytes(0));
      case DoLocator(root, key, plain) => LocatorRefines(v, root, key, plain);
      case DoBegin(t) => DirectoryRefines(v, t);
      case DoBatch(t, batch) => if batch > 0 && RekeyBatch(v, t, batch).Ok? { BatchInvisible(v, t, batch); }
      case Lost =>
    }
  }

  /** Over any run, rotation changes nothing a user of the store can see. */
  lemma {:induction false} RotationInvisible(events: seq<Event>)
    ensures View(Run(EMPTY, events)) == ShelfRun(View(EMPTY), events)
    decreases |events|
  {
    if events != [] {
      RotationInvisible(events[..|events| - 1]);
      RunKeeps(events[..|events| - 1]);
      ApplyRefines(Run(EMPTY, events[..|events| - 1]), events[|events| - 1]);
    }
  }
}
