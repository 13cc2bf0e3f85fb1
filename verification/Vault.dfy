/**
 * Tenant data keys and the records sealed under them: the keyring a reader
 * loads, and the rotation that re-seals a tenant's records in batches behind a
 * cursor while other writers run. Sealing is ideal: a value opens exactly
 * under the key, kind and record key it was sealed with.
 */
module Vault {
  import opened Prelude
  import Records

  const KEY_ID_MAX: nat := 0xFFFF_FFFF
  type KeyId = n: nat | n <= KEY_ID_MAX
  const INITIAL_DATA_KEY_ID: KeyId := 1

  // ---- record keys in byte order ---------------------------------------------------

  type Key = seq<nat>

  /** Lexicographic order on bytes. */
  predicate Less(a: Key, b: Key) {
    b != [] && (a == [] || a[0] < b[0] || (a[0] == b[0] && Less(a[1..], b[1..])))
  }

  lemma {:induction false} LessTotal(a: Key, b: Key)
    ensures Less(a, b) || a == b || Less(b, a)
    ensures !(Less(a, b) && Less(b, a)) && !Less(a, a)
    decreases |a|
  {
    if a != [] {
      if b != [] && a[0] == b[0] {
        LessTotal(a[1..], b[1..]);
        assert a == [a[0]] + a[1..] && b == [b[0]] + b[1..];
      }
      LessTotal(a[1..], a[1..]);
    }
  }

  lemma {:induction false} LessTrans(a: Key, b: Key, c: Key)
    requires Less(a, b) && Less(b, c)
    ensures Less(a, c)
    decreases |a|
  {
    if a != [] && a[0] == b[0] == c[0] {
      LessTrans(a[1..], b[1..], c[1..]);
    }
  }

  ghost predicate IsLeast(s: set<Key>, k: Key) { k in s && forall o :: o in s ==> o == k || Less(k, o) }

  lemma {:induction false} LeastExists(s: set<Key>)
    requires s != {}
    ensures exists k :: IsLeast(s, k)
    decreases |s|
  {
    var x :| x in s;
    if s == {x} {
      assert IsLeast(s, x);
    } else {
      var rest := s - {x};
      assert s == rest + {x};
      LeastExists(rest);
      var k :| IsLeast(rest, k);
      LessTotal(x, k);
      if Less(x, k) {
        forall o | o in rest && o != k ensures Less(x, o) { LessTrans(x, k, o); }
        assert IsLeast(s, x);
      } else {
        assert IsLeast(s, k);
      }
    }
  }

  ghost function Least(s: set<Key>): (k: Key)
    requires s != {}
    ensures IsLeast(s, k)
  {
    LeastExists(s);
    var k :| IsLeast(s, k);
    k
  }

  lemma LeastUnique(s: set<Key>, a: Key, b: Key)
    requires IsLeast(s, a) && IsLeast(s, b)
    ensures a == b
  {
    LessTotal(a, b);
  }

  /** The first `n` keys of `s` in order. */
  ghost function First(s: set<Key>, n: nat): seq<Key>
    decreases n
  {
    if n == 0 || s == {} then [] else [Least(s)] + First(s - {Least(s)}, n - 1)
  }

  /** The first `n` keys are exactly those not after the last of them, or all of them. */
  lemma {:induction false} FirstMeaning(s: set<Key>, n: nat)
    ensures |First(s, n)| == if |s| < n then |s| else n
    ensures forall k :: k in First(s, n) ==> k in s
    ensures |First(s, n)| < n ==> forall k :: k in s ==> k in First(s, n)
    ensures First(s, n) != [] ==>
              forall k :: k in s ==> (k in First(s, n) <==> !Less(First(s, n)[|First(s, n)| - 1], k))
    decreases n
  {
    if n > 0 && s != {} {
      var least := Least(s);
      var rest := First(s - {least}, n - 1);
      FirstMeaning(s - {least}, n - 1);
      assert First(s, n) == [least] + rest;
      if rest == [] {
        forall k | k in s ensures k in First(s, n) <==> !Less(least, k) { LessTotal(least, k); }
      } else {
        assert rest[|rest| - 1] in rest;
        LessTotal(rest[|rest| - 1], least);
      }
    }
  }

  // ---- sealed records ------------------------------------------------------------------

  datatype Role = Meta | Blob | Audit

  datatype Slot = IdemSlot | ArtifactSlot | PendingSlot | BlobSlot | SessionIndexSlot | AuditSlot | LocatorSlot

  /** The tenant-sealed keyspaces, in walk order. */
  const WALK_LEN: nat := 5

  /** The tenant-sealed kinds of each walked keyspace; `Artifacts` also holds store-sealed locators. */
  function SlotsOf(space: nat): seq<Slot> {
    match space
    case 0 => [IdemSlot]
    case 1 => [ArtifactSlot, PendingSlot]
    case 2 => [BlobSlot]
    case 3 => [SessionIndexSlot]
    case 4 => [AuditSlot]
    case _ => []
  }

  function RoleOf(space: nat): Role { if space == 2 then Blob else if space == 4 then Audit else Meta }

  datatype SealingKey =
    | StoreMeta(id: KeyId)
    | TenantSealing(tenant: TenantId, id: KeyId, role: Role)

  /** An idempotency entry, or bytes this model does not look into. */
  datatype Plaintext = Entry(record: Records.IdemRecord) | Bytes(bytes: nat)

  /** An ideal sealed value; only the key's id shows in its header. */
  datatype Sealed = Sealed(key: SealingKey, slot: Slot, at: Key, plain: Plaintext)

  datatype Place = Place(space: nat, key: Key)

  datatype OpenError = UnknownKeyId | OpenFailed

  /** Opens with the first key whose id the header names. */
  function Open(keys: seq<SealingKey>, slot: Slot, at: Key, sealed: Sealed): Result<Plaintext, OpenError>
    decreases |keys|
  {
    if keys == [] then Err(UnknownKeyId)
    else if keys[0].id == sealed.key.id then
      if keys[0] == sealed.key && slot == sealed.slot && at == sealed.at then Ok(sealed.plain) else Err(OpenFailed)
    else Open(keys[1..], slot, at, sealed)
  }

  // ---- the key directory -----------------------------------------------------------------

  datatype Rekey = Rekey(from: KeyId, to: KeyId, keyspace: nat, cursor: Option<Key>, done: bool)

  datatype Vault = Vault(
    tenants: map<TenantId, KeyId>,
    tombstones: set<TenantId>,
    rekeys: map<TenantId, Rekey>,
    keys: set<(TenantId, KeyId)>,
    address: map<TenantId, KeyId>,
    records: map<Place, Sealed>)

  const EMPTY := Vault(map[], {}, map[], {}, map[], map[])

  datatype VaultError =
    | Missing(tenant: TenantId) | Shredded(tenant: TenantId) | RekeyInProgress(tenant: TenantId)
    | RekeyNotInProgress(tenant: TenantId) | KeyIdsExhausted | DataKeyMissing | AddressMissing | NoRetiringKey

  predicate InProgress(v: Vault, t: TenantId) { t in v.rekeys && !v.rekeys[t].done }

  function Retiring(v: Vault, t: TenantId): Option<KeyId> { if InProgress(v, t) then Some(v.rekeys[t].from) else None }

  /** `addressFrom` is the data key the addressing subkeys derive from; record keys are computed under them. */
  datatype Keyring = Keyring(tenant: TenantId, active: KeyId, retiring: Option<KeyId>, addressFrom: KeyId)
  {
    function Sealer(role: Role): SealingKey { TenantSealing(tenant, active, role) }

    /** The active key and the retiring one, or the active key twice. */
    function Openers(role: Role): seq<SealingKey> {
      [Sealer(role), TenantSealing(tenant, if retiring.Some? then retiring.value else active, role)]
    }
  }

  function Absent(v: Vault, t: TenantId): VaultError { if t in v.tombstones then Shredded(t) else Missing(t) }

  /** Addressing subkeys come from their own entry once stored, and from data key 1 before. */
  function LoadKeyring(v: Vault, t: TenantId): Result<Keyring, VaultError> {
    if t !in v.tenants then Err(Absent(v, t))
    else if (t, v.tenants[t]) !in v.keys then Err(DataKeyMissing)
    else if t !in v.address && v.tenants[t] != INITIAL_DATA_KEY_ID then Err(AddressMissing)
    else if Retiring(v, t).Some? && (t, Retiring(v, t).value) !in v.keys then Err(DataKeyMissing)
    else Ok(Keyring(t, v.tenants[t], Retiring(v, t), if t in v.address then v.address[t] else v.tenants[t]))
  }

  // ---- transactions ------------------------------------------------------------------------

  function Register(v: Vault, t: TenantId): Vault {
    if t in v.tenants || t in v.tombstones then v
    else v.(tenants := v.tenants[t := INITIAL_DATA_KEY_ID], keys := v.keys + {(t, INITIAL_DATA_KEY_ID)})
  }

  /** Deletes the tenant's keys and records a tombstone. */
  function Shred(v: Vault, t: TenantId): Vault {
    if t !in v.tenants then v else
      var retired := if InProgress(v, t) then {(t, v.rekeys[t].from)} else {};
      Vault(v.tenants - {t}, v.tombstones + {t}, v.rekeys - {t}, v.keys - {(t, v.tenants[t])} - retired,
            v.address - {t}, v.records)
  }

  /** The place is free or holds a record of `t`; record keys of different tenants never meet. */
  predicate Own(v: Vault, t: TenantId, p: Place) {
    p in v.records ==> v.records[p].key.TenantSealing? && v.records[p].key.tenant == t
  }

  /** A writer seals a record of a live tenant under its active key. */
  function Put(v: Vault, t: TenantId, p: Place, slot: Slot, plain: Plaintext): Vault {
    if t !in v.tenants || slot !in SlotsOf(p.space) || !Own(v, t, p) then v
    else v.(records := v.records[p := Sealed(TenantSealing(t, v.tenants[t], RoleOf(p.space)), slot, p.key, plain)])
  }

  function Drop(v: Vault, t: TenantId, p: Place): Vault {
    if t !in v.tenants || !Own(v, t, p) then v else v.(records := v.records - {p})
  }

  /** A locator is sealed under the store's own key, whose ids overlap tenants' ids. */
  function PutLocator(v: Vault, root: KeyId, key: Key, plain: Plaintext): Vault {
    var p := Place(1, key);
    if p in v.records && !v.records[p].key.StoreMeta? then v
    else v.(records := v.records[p := Sealed(StoreMeta(root), LocatorSlot, key, plain)])
  }

  function BeginRekey(v: Vault, t: TenantId): Result<Vault, VaultError> {
    if t !in v.tenants then Err(Absent(v, t))
    else if InProgress(v, t) then Err(RekeyInProgress(t))
    else if LoadKeyring(v, t).Err? then Err(LoadKeyring(v, t).error)
    else if v.tenants[t] == KEY_ID_MAX then Err(KeyIdsExhausted)
    else
      var from := v.tenants[t];
      Ok(v.(tenants := v.tenants[t := from + 1],
            keys := v.keys + {(t, from + 1)},
            address := if t in v.address then v.address else v.address[t := LoadKeyring(v, t).value.addressFrom],
            rekeys := v.rekeys[t := Rekey(from, from + 1, 0, None, false)]))
  }

  /** The first kind among `slots` under which the value opens, tried in order. */
  function OpensAs(key: SealingKey, slots: seq<Slot>, at: Key, sealed: Sealed): Option<(Slot, Plaintext)>
    decreases |slots|
  {
    if slots == [] then None
    else if Open([key], slots[0], at, sealed).Ok? then Some((slots[0], Open([key], slots[0], at, sealed).value))
    else OpensAs(key, slots[1..], at, sealed)
  }

  /** The value re-sealed under the new key when it is one of the tenant's records under the old one. */
  function Resealed(t: TenantId, from: KeyId, to: KeyId, p: Place, sealed: Sealed): Sealed {
    if sealed.key.id != from then sealed else
      match OpensAs(TenantSealing(t, from, RoleOf(p.space)), SlotsOf(p.space), p.key, sealed)
      case None => sealed
      case Some((slot, plain)) => Sealed(TenantSealing(t, to, RoleOf(p.space)), slot, p.key, plain)
  }

  /** Keys of one keyspace after the cursor. */
  function KeysAfter(records: map<Place, Sealed>, space: nat, cursor: Option<Key>): set<Key> {
    set p | p in records && p.space == space && (cursor.None? || Less(cursor.value, p.key)) :: p.key
  }

  ghost function ResealBatch(records: map<Place, Sealed>, t: TenantId, from: KeyId, to: KeyId, space: nat,
                             batch: seq<Key>)
    : map<Place, Sealed>
  {
    map p | p in records ::
      if p.space == space && p.key in batch then Resealed(t, from, to, p, records[p]) else records[p]
  }

  function Advance(r: Rekey, entries: seq<Key>, batch: nat): Rekey {
    if |entries| < batch then r.(keyspace := r.keyspace + 1, cursor := None)
    else if entries == [] then r
    else r.(cursor := Some(entries[|entries| - 1]))
  }

  function Retire(v: Vault, t: TenantId): Vault
    requires t in v.rekeys
  {
    v.(keys := v.keys - {(t, v.rekeys[t].from)}, rekeys := v.rekeys[t := v.rekeys[t].(done := true, cursor := None)])
  }

  ghost function RekeyBatch(v: Vault, t: TenantId, batch: nat): Result<Vault, VaultError>
    requires batch > 0
  {
    if !InProgress(v, t) then Err(RekeyNotInProgress(t))
    else
      var r := v.rekeys[t];
      if r.keyspace >= WALK_LEN then Ok(Retire(v, t))
      else if LoadKeyring(v, t).Err? then Err(LoadKeyring(v, t).error)
      else
        var entries := First(KeysAfter(v.records, r.keyspace, r.cursor), batch);
        Ok(v.(records := ResealBatch(v.records, t, r.from, v.tenants[t], r.keyspace, entries),
              rekeys := v.rekeys[t := Advance(r, entries, batch)]))
  }
}
