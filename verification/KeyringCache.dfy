/**
 * The keyring cache under concurrency: readers on old snapshots or on the open
 * write transaction, one writer at a time, commits that do not hold the cache
 * lock, and evictions that follow them.
 */
module KeyringCache {
  import opened Prelude
  import Vault

  type Material = nat
  type KeyId = Vault.KeyId
  type Minted = map<(TenantId, KeyId), Material>

  const FIRST := Vault.INITIAL_DATA_KEY_ID

  // ---- the key directory as one reader sees it ---------------------------------------------

  datatype Ids = Ids(active: KeyId, retiring: Option<KeyId>)

  /** `address` holds the data key the stored addressing subkeys derive from. */
  datatype Dir = Dir(tenants: map<TenantId, Ids>, dead: set<TenantId>, keys: Minted, address: map<TenantId, Material>)

  const NONE := Dir(map[], {}, map[], map[])

  datatype CachedKeys = CachedKeys(ids: Ids, active: Material, retiring: Option<Material>, address: Material)

  datatype LoadError = TenantAbsent | KeyMissing | AddressMissing

  function LoadCached(d: Dir, t: TenantId): Result<CachedKeys, LoadError> {
    if t !in d.tenants then Err(TenantAbsent)
    else
      var ids := d.tenants[t];
      if (t, ids.active) !in d.keys then Err(KeyMissing)
      else if t !in d.address && ids.active != FIRST then Err(AddressMissing)
      else if ids.retiring.Some? && (t, ids.retiring.value) !in d.keys then Err(KeyMissing)
      else Ok(CachedKeys(ids, d.keys[(t, ids.active)],
                      if ids.retiring.Some? then Some(d.keys[(t, ids.retiring.value)]) else None,
                      if t in d.address then d.address[t] else d.keys[(t, ids.active)]))
  }

  /** The writes to the directory one transaction can stage; each draws new material where it makes a key. */
  datatype Op = Register(tenant: TenantId, drawn: Material) | Rotate(tenant: TenantId, drawn: Material)
    | Retire(tenant: TenantId) | Shred(tenant: TenantId)

  /** The new directory, or `None` when the operation refuses. */
  function Stage(d: Dir, op: Op): Option<Dir> {
    match op
    case Register(t, m) =>
      if t in d.tenants || t in d.dead then None
      else Some(d.(tenants := d.tenants[t := Ids(FIRST, None)], keys := d.keys[(t, FIRST) := m]))
    case Rotate(t, m) =>
      if t !in d.tenants || d.tenants[t].retiring.Some? || LoadCached(d, t).Err?
         || d.tenants[t].active == Vault.KEY_ID_MAX then None
      else
        var from := d.tenants[t].active;
        Some(d.(tenants := d.tenants[t := Ids(from + 1, Some(from))],
                keys := d.keys[(t, from + 1) := m],
                address := if t in d.address then d.address else d.address[t := LoadCached(d, t).value.address]))
    case Retire(t) =>
      if t !in d.tenants || d.tenants[t].retiring.None? then None
      else Some(d.(tenants := d.tenants[t := Ids(d.tenants[t].active, None)],
                   keys := d.keys - {(t, d.tenants[t].retiring.value)}))
    case Shred(t) =>
      if t !in d.tenants then None
      else
        var retired := if d.tenants[t].retiring.Some? then {(t, d.tenants[t].retiring.value)} else {};
        Some(Dir(d.tenants - {t}, d.dead + {t}, d.keys - {(t, d.tenants[t].active)} - retired, d.address - {t}))
  }

  /** Rotation and shredding evict the tenant after they commit; registration does not. */
  function Evicts(op: Op): multiset<TenantId> { if op.Register? then multiset{} else multiset{op.tenant} }

  // ---- the concurrent system -------------------------------------------------------------------

  datatype Phase =
    | Looking
    | Missed
    | Loaded(keyring: CachedKeys)
    | Checked(keyring: CachedKeys) // holds the cache lock
    | Returned(result: Result<CachedKeys, LoadError>)

  /** One call; `own` marks a reader that is the open write transaction itself. */
  datatype Reader = Reader(tenant: TenantId, view: Dir, own: bool, phase: Phase)

  datatype Writer = Writer(view: Dir, evicts: multiset<TenantId>)

  /** `history` is every committed directory, oldest first. */
  datatype System = System(
    history: seq<Dir>, writer: Option<Writer>, cache: map<TenantId, CachedKeys>, lock: Option<nat>,
    readers: map<nat, Reader>, pending: multiset<TenantId>)
  {
    function Latest(): Dir requires history != [] { history[|history| - 1] }
  }

  const START := System([NONE], None, map[], None, map[], multiset{})

  datatype Action =
    | OpenSnapshot(reader: nat, tenant: TenantId, version: nat)
    | OpenOwn(reader: nat, tenant: TenantId)
    | Lookup(reader: nat)
    | LoadKeys(reader: nat)
    | Check(reader: nat)
    | Insert(reader: nat)
    | BeginTx
    | StageOp(op: Op)
    | Commit
    | DropTx
    | Evict(tenant: TenantId)
    | Restart

  function IdsOf(d: Dir, t: TenantId): Option<Ids> { if t in d.tenants then Some(d.tenants[t]) else None }

  /** No call of the open transaction is still running. */
  predicate OwnIdle(s: System) { forall i :: i in s.readers && s.readers[i].own ==> s.readers[i].phase.Returned? }

  /** The next system, or `None` when the action cannot happen now. */
  function Next(s: System, a: Action): (r: Option<System>)
    requires s.history != []
    ensures r.Some? ==> r.value.history != []
  {
    match a
    case OpenSnapshot(i, t, version) =>
      if i in s.readers || version >= |s.history| then None
      else Some(s.(readers := s.readers[i := Reader(t, s.history[version], false, Looking)]))
    case OpenOwn(i, t) =>
      if i in s.readers || s.writer.None? || !OwnIdle(s) then None
      else Some(s.(readers := s.readers[i := Reader(t, s.writer.value.view, true, Looking)]))
    case Lookup(i) =>
      if i !in s.readers || !s.readers[i].phase.Looking? || s.lock.Some? then None else
        var r := s.readers[i];
        if r.tenant !in r.view.tenants then
          Some(s.(readers := s.readers[i := r.(phase := Returned(Err(TenantAbsent)))]))
        else if r.tenant in s.cache && s.cache[r.tenant].ids == r.view.tenants[r.tenant] then
          Some(s.(readers := s.readers[i := r.(phase := Returned(Ok(s.cache[r.tenant])))]))
        else Some(s.(readers := s.readers[i := r.(phase := Missed)]))
    case LoadKeys(i) =>
      if i !in s.readers || !s.readers[i].phase.Missed? then None else
        var r := s.readers[i];
        (match LoadCached(r.view, r.tenant)
         case Err(e) => Some(s.(readers := s.readers[i := r.(phase := Returned(Err(e)))]))
         case Ok(k) => Some(s.(readers := s.readers[i := r.(phase := Loaded(k))])))
    case Check(i) =>
      if i !in s.readers || !s.readers[i].phase.Loaded? || s.lock.Some? then None else
        var r := s.readers[i];
        if IdsOf(s.Latest(), r.tenant) == Some(r.phase.keyring.ids) then
          Some(s.(lock := Some(i), readers := s.readers[i := r.(phase := Checked(r.phase.keyring))]))
        else Some(s.(readers := s.readers[i := r.(phase := Returned(Ok(r.phase.keyring)))]))
    case Insert(i) =>
      if i !in s.readers || !s.readers[i].phase.Checked? then None else
        var r := s.readers[i];
        Some(s.(lock := None, cache := s.cache[r.tenant := r.phase.keyring],
                readers := s.readers[i := r.(phase := Returned(Ok(r.phase.keyring)))]))
    case BeginTx => if s.writer.Some? then None else Some(s.(writer := Some(Writer(s.Latest(), multiset{}))))
    case StageOp(op) =>
      if s.writer.None? || !OwnIdle(s) || Stage(s.writer.value.view, op).None? then None
      else Some(s.(writer := Some(Writer(Stage(s.writer.value.view, op).value, s.writer.value.evicts + Evicts(op)))))
    case Commit =>
      if s.writer.None? || !OwnIdle(s) then None
      else Some(s.(history := s.history + [s.writer.value.view], writer := None,
                   pending := s.pending + s.writer.value.evicts))
    case DropTx => if s.writer.None? || !OwnIdle(s) then None else Some(s.(writer := None))
    case Evict(t) =>
      if t !in s.pending || s.lock.Some? then None
      else Some(s.(cache := s.cache - {t}, pending := s.pending - multiset{t}))
    case Restart => Some(System(s.history, None, map[], None, map[], multiset{}))
  }

  /** The system after the actions that can happen; the others are skipped. */
  function Run(actions: seq<Action>): (s: System)
    ensures s.history != []
    decreases |actions|
  {
    if actions == [] then START else
      var s := Run(actions[..|actions| - 1]);
      var next := Next(s, actions[|actions| - 1]);
      if next.Some? then next.value else s
  }

  // ---- what every directory satisfies -----------------------------------------------------------

  /** `d` is well formed and its keys are among those minted. */
  ghost predicate TenantOk(d: Dir, m: Minted, t: TenantId)
    requires t in d.tenants
  {
    var ids := d.tenants[t];
    && t !in d.dead && ids.active >= FIRST
    && (t, ids.active) in d.keys
    && (ids.retiring.Some? ==> (t, ids.retiring.value) in d.keys && ids.retiring.value < ids.active)
    && (t in d.address <==> ids.active != FIRST)
    && (t in d.address ==> (t, FIRST) in m && d.address[t] == m[(t, FIRST)])
  }

  ghost predicate DirOk(d: Dir, m: Minted) {
    && (forall t {:trigger TenantOk(d, m, t)} :: t in d.tenants ==> TenantOk(d, m, t))
    && Extends(d.keys, m) && d.address.Keys <= d.tenants.Keys
  }

  /** Nothing minted lies beyond `d`: each key's tenant is dead or has reached its id. */
  ghost predicate Frontier(d: Dir, m: Minted) {
    forall k :: k in m ==> k.0 in d.dead || (k.0 in d.tenants && k.1 <= d.tenants[k.0].active)
  }

  /** `k` is the keyring its ids name, with minted material. */
  ghost predicate Genuine(k: CachedKeys, t: TenantId, m: Minted) {
    && (t, k.ids.active) in m && k.active == m[(t, k.ids.active)]
    && (k.retiring.Some? <==> k.ids.retiring.Some?)
    && (k.ids.retiring.Some? ==> (t, k.ids.retiring.value) in m && k.retiring.value == m[(t, k.ids.retiring.value)])
    && (t, FIRST) in m && k.address == m[(t, FIRST)]
  }

  lemma LoadGenuine(d: Dir, t: TenantId, m: Minted)
    requires DirOk(d, m) && t in d.tenants
    ensures LoadCached(d, t).Ok? && Genuine(LoadCached(d, t).value, t, m) && LoadCached(d, t).value.ids == d.tenants[t]
  {
    assert TenantOk(d, m, t);
  }

  /** The ids determine the keyring. */
  lemma GenuineUnique(a: CachedKeys, b: CachedKeys, t: TenantId, m: Minted, wider: Minted)
    requires Genuine(a, t, m) && Genuine(b, t, wider) && Extends(m, wider) && a.ids == b.ids
    ensures a == b
  {
  }

  lemma DirWider(d: Dir, m: Minted, wider: Minted)
    requires DirOk(d, m) && Extends(m, wider)
    ensures DirOk(d, wider)
  {
    forall t {:trigger TenantOk(d, wider, t)} | t in d.tenants
      ensures TenantOk(d, wider, t)
    {
      assert TenantOk(d, m, t);
    }
  }

  ghost function Mint(d: Dir, op: Op, m: Minted): Minted {
    match op
    case Register(t, drawn) => m[(t, FIRST) := drawn]
    case Rotate(t, drawn) =>
      if t in d.tenants && d.tenants[t].active < Vault.KEY_ID_MAX then m[(t, d.tenants[t].active + 1) := drawn] else m
    case _ => m
  }

  lemma StageOk(d: Dir, op: Op, m: Minted)
    requires DirOk(d, m) && Frontier(d, m) && Stage(d, op).Some?
    ensures var next := Stage(d, op).value;
            Extends(m, Mint(d, op, m)) && DirOk(next, Mint(d, op, m)) && Frontier(next, Mint(d, op, m))
    ensures forall t :: t in d.tenants && t !in Evicts(op) ==>
              t in Stage(d, op).value.tenants && Stage(d, op).value.tenants[t] == d.tenants[t]
  {
    var next, wider := Stage(d, op).value, Mint(d, op, m);
    if op.tenant in d.tenants {
      assert TenantOk(d, m, op.tenant);
      if op.Rotate? { LoadGenuine(d, op.tenant, m); }
    }
    forall t {:trigger TenantOk(next, wider, t)} | t in next.tenants ensures TenantOk(next, wider, t) {
      if t != op.tenant { assert TenantOk(d, m, t); }
    }
  }

  // ---- the invariant ------------------------------------------------------------------------------

  /** `k` for `t` is what the latest commit names, or an eviction of `t` is still due. */
  ghost predicate Fresh(s: System, t: TenantId, k: CachedKeys)
    requires s.history != []
  {
    t in s.pending || IdsOf(s.Latest(), t) == Some(k.ids)
  }

  ghost predicate ReaderOk(s: System, i: nat, r: Reader, m: Minted)
    requires s.history != []
  {
    && (!r.own ==> DirOk(r.view, m))
    && (r.own && !r.phase.Returned? ==> s.writer.Some? && r.view == s.writer.value.view)
    && match r.phase
       case Looking => true
       case Missed => true
       case Loaded(k) => LoadCached(r.view, r.tenant) == Ok(k)
       case Checked(k) =>
         LoadCached(r.view, r.tenant) == Ok(k) && s.lock == Some(i) && Genuine(k, r.tenant, m) && Fresh(s, r.tenant, k)
       case Returned(result) => result == LoadCached(r.view, r.tenant)
  }

  ghost predicate CacheOk(s: System, t: TenantId, k: CachedKeys, m: Minted)
    requires s.history != []
  {
    Genuine(k, t, m) && Fresh(s, t, k)
  }

  ghost predicate WriterOk(latest: Dir, w: Writer, m: Minted, wm: Minted) {
    && Extends(m, wm) && DirOk(w.view, wm) && Frontier(w.view, wm)
    && (forall t :: t in latest.tenants ==> t in w.evicts || IdsOf(w.view, t) == Some(latest.tenants[t]))
  }

  /** `m` is what committed directories minted, `wm` adds what the open transaction drew. */
  ghost predicate Inv(s: System, m: Minted, wm: Minted) {
    && s.history != []
    && (forall d {:trigger DirOk(d, m)} :: d in s.history ==> DirOk(d, m))
    && Frontier(s.Latest(), m)
    && (s.writer.Some? ==> WriterOk(s.Latest(), s.writer.value, m, wm))
    && (forall i {:trigger ReaderOk(s, i, s.readers[i], m)} :: i in s.readers ==> ReaderOk(s, i, s.readers[i], m))
    && (forall t {:trigger CacheOk(s, t, s.cache[t], m)} :: t in s.cache ==> CacheOk(s, t, s.cache[t], m))
    && (s.lock.Some? ==> s.lock.value in s.readers && s.readers[s.lock.value].phase.Checked?)
  }

  /** A reader's directory is well formed against everything minted so far, its own transaction's draws included. */
  lemma ViewOk(s: System, i: nat, m: Minted, wm: Minted) returns (vm: Minted)
    requires Inv(s, m, wm) && i in s.readers && !s.readers[i].phase.Returned?
    ensures DirOk(s.readers[i].view, vm) && Extends(m, vm)
  {
    assert ReaderOk(s, i, s.readers[i], m);
    vm := if s.readers[i].own then wm else m;
  }

  /** Changing one reader's phase, with no other effect on what readers and the cache rely on. */
  lemma PhaseKeeps(s: System, next: System, i: nat, r: Reader, m: Minted, wm: Minted)
    requires Inv(s, m, wm) && (i in s.readers ==> !s.readers[i].phase.Checked?)
    requires next == s.(readers := s.readers[i := r]) && ReaderOk(next, i, r, m) && !r.phase.Checked?
    ensures Inv(next, m, wm)
  {
    forall j {:trigger ReaderOk(next, j, next.readers[j], m)} | j in next.readers
      ensures ReaderOk(next, j, next.readers[j], m)
    {
      if j != i { assert ReaderOk(s, j, s.readers[j], m); }
    }
    forall t {:trigger CacheOk(next, t, next.cache[t], m)} | t in next.cache
      ensures CacheOk(next, t, next.cache[t], m)
    {
      assert CacheOk(s, t, s.cache[t], m);
    }
  }

  lemma OpenKeeps(s: System, a: Action, m: Minted, wm: Minted)
    requires Inv(s, m, wm) && (a.OpenSnapshot? || a.OpenOwn?) && Next(s, a).Some?
    ensures Inv(Next(s, a).value, m, wm)
  {
    var next := Next(s, a).value;
    if a.OpenSnapshot? { assert DirOk(s.history[a.version], m); }
    PhaseKeeps(s, next, a.reader, next.readers[a.reader], m, wm);
  }

  /** A cached keyring whose ids match the reader's is the one the reader would load. */
  lemma HitAgrees(s: System, i: nat, m: Minted, wm: Minted)
    requires Inv(s, m, wm) && i in s.readers && !s.readers[i].phase.Returned?
    requires var r := s.readers[i];
             r.tenant in s.cache && r.tenant in r.view.tenants && s.cache[r.tenant].ids == r.view.tenants[r.tenant]
    ensures LoadCached(s.readers[i].view, s.readers[i].tenant) == Ok(s.cache[s.readers[i].tenant])
  {
    var r := s.readers[i];
    var vm := ViewOk(s, i, m, wm);
    LoadGenuine(r.view, r.tenant, vm);
    assert CacheOk(s, r.tenant, s.cache[r.tenant], m);
    GenuineUnique(s.cache[r.tenant], LoadCached(r.view, r.tenant).value, r.tenant, m, vm);
  }

  lemma LookupKeeps(s: System, i: nat, m: Minted, wm: Minted)
    requires Inv(s, m, wm) && Next(s, Lookup(i)).Some?
    ensures Inv(Next(s, Lookup(i)).value, m, wm)
  {
    var next := Next(s, Lookup(i)).value;
    var r := s.readers[i];
    assert ReaderOk(s, i, r, m);
    if r.tenant in r.view.tenants && r.tenant in s.cache && s.cache[r.tenant].ids == r.view.tenants[r.tenant] {
      HitAgrees(s, i, m, wm);
    }
    PhaseKeeps(s, next, i, next.readers[i], m, wm);
  }

  lemma LoadKeeps(s: System, i: nat, m: Minted, wm: Minted)
    requires Inv(s, m, wm) && Next(s, LoadKeys(i)).Some?
    ensures Inv(Next(s, LoadKeys(i)).value, m, wm)
  {
    var next := Next(s, LoadKeys(i)).value;
    assert ReaderOk(s, i, s.readers[i], m);
    PhaseKeeps(s, next, i, next.readers[i], m, wm);
  }

  /** A loaded keyring the latest commit names is genuine, even when read from an uncommitted transaction. */
  lemma LatestGenuine(s: System, i: nat, m: Minted, wm: Minted)
    requires Inv(s, m, wm) && i in s.readers && s.readers[i].phase.Loaded?
    requires IdsOf(s.Latest(), s.readers[i].tenant) == Some(s.readers[i].phase.keyring.ids)
    ensures Genuine(s.readers[i].phase.keyring, s.readers[i].tenant, m)
  {
    var r := s.readers[i];
    assert ReaderOk(s, i, r, m);
    var vm := ViewOk(s, i, m, wm);
    LoadGenuine(r.view, r.tenant, vm);
    assert DirOk(s.Latest(), m);
    LoadGenuine(s.Latest(), r.tenant, m);
    GenuineUnique(LoadCached(s.Latest(), r.tenant).value, r.phase.keyring, r.tenant, m, vm);
  }

  lemma CheckKeeps(s: System, i: nat, m: Minted, wm: Minted)
    requires Inv(s, m, wm) && Next(s, Check(i)).Some?
    ensures Inv(Next(s, Check(i)).value, m, wm)
  {
    var next := Next(s, Check(i)).value;
    var r := s.readers[i];
    assert ReaderOk(s, i, r, m);
    if next.lock.None? {
      PhaseKeeps(s, next, i, next.readers[i], m, wm);
    } else {
      LatestGenuine(s, i, m, wm);
      forall j {:trigger ReaderOk(next, j, next.readers[j], m)} | j in next.readers
        ensures ReaderOk(next, j, next.readers[j], m)
      {
        if j != i { assert ReaderOk(s, j, s.readers[j], m); }
      }
      forall t {:trigger CacheOk(next, t, next.cache[t], m)} | t in next.cache
        ensures CacheOk(next, t, next.cache[t], m)
      {
        assert CacheOk(s, t, s.cache[t], m);
      }
    }
  }

  lemma InsertKeeps(s: System, i: nat, m: Minted, wm: Minted)
    requires Inv(s, m, wm) && Next(s, Insert(i)).Some?
    ensures Inv(Next(s, Insert(i)).value, m, wm)
  {
    var next := Next(s, Insert(i)).value;
    assert ReaderOk(s, i, s.readers[i], m);
    forall j {:trigger ReaderOk(next, j, next.readers[j], m)} | j in next.readers
      ensures ReaderOk(next, j, next.readers[j], m)
    {
      if j != i { assert ReaderOk(s, j, s.readers[j], m); }
    }
    forall t {:trigger CacheOk(next, t, next.cache[t], m)} | t in next.cache
      ensures CacheOk(next, t, next.cache[t], m)
    {
      if t in s.cache { assert CacheOk(s, t, s.cache[t], m); }
    }
  }

  lemma EvictKeeps(s: System, t: TenantId, m: Minted, wm: Minted)
    requires Inv(s, m, wm) && Next(s, Evict(t)).Some?
    ensures Inv(Next(s, Evict(t)).value, m, wm)
  {
    var next := Next(s, Evict(t)).value;
    forall j {:trigger ReaderOk(next, j, next.readers[j], m)} | j in next.readers
      ensures ReaderOk(next, j, next.readers[j], m)
    {
      assert ReaderOk(s, j, s.readers[j], m);
    }
    forall u {:trigger CacheOk(next, u, next.cache[u], m)} | u in next.cache
      ensures CacheOk(next, u, next.cache[u], m)
    {
      assert CacheOk(s, u, s.cache[u], m);
    }
  }

  /** Replacing the open transaction while none of its calls is running. */
  lemma WriterKeeps(s: System, next: System, m: Minted, wm: Minted, drawn: Minted)
    requires Inv(s, m, wm) && OwnIdle(s) && next == s.(writer := next.writer)
    requires next.writer.Some? ==> WriterOk(s.Latest(), next.writer.value, m, drawn)
    ensures Inv(next, m, drawn)
  {
    forall j {:trigger ReaderOk(next, j, next.readers[j], m)} | j in next.readers
      ensures ReaderOk(next, j, next.readers[j], m)
    {
      assert ReaderOk(s, j, s.readers[j], m);
    }
    forall u {:trigger CacheOk(next, u, next.cache[u], m)} | u in next.cache
      ensures CacheOk(next, u, next.cache[u], m)
    {
      assert CacheOk(s, u, s.cache[u], m);
    }
  }

  /** Opening, staging on and dropping the transaction. */
  lemma TxKeeps(s: System, a: Action, m: Minted, wm: Minted) returns (drawn: Minted)
    requires Inv(s, m, wm) && (a.BeginTx? || a.StageOp? || a.DropTx?) && Next(s, a).Some?
    ensures Inv(Next(s, a).value, m, drawn)
  {
    match a {
      case BeginTx =>
        drawn := m;
        assert DirOk(s.Latest(), m);
        forall j | j in s.readers && s.readers[j].own ensures s.readers[j].phase.Returned? {
          assert ReaderOk(s, j, s.readers[j], m);
        }
      case StageOp(op) => drawn := Mint(s.writer.value.view, op, wm); StageOk(s.writer.value.view, op, wm);
      case _ => drawn := wm;
    }
    WriterKeeps(s, Next(s, a).value, m, wm, drawn);
  }

  /** A commit mints what its transaction drew, and every keyring it replaces has an eviction due. */
  lemma CommitKeeps(s: System, m: Minted, wm: Minted)
    requires Inv(s, m, wm) && Next(s, Commit).Some?
    ensures Inv(Next(s, Commit).value, wm, wm)
  {
    var next := Next(s, Commit).value;
    var w := s.writer.value;
    forall d {:trigger DirOk(d, wm)} | d in next.history ensures DirOk(d, wm) {
      if d in s.history { assert DirOk(d, m); DirWider(d, m, wm); }
    }
    forall j {:trigger ReaderOk(next, j, next.readers[j], wm)} | j in next.readers
      ensures ReaderOk(next, j, next.readers[j], wm)
    {
      assert ReaderOk(s, j, s.readers[j], m);
      if !s.readers[j].own { DirWider(s.readers[j].view, m, wm); }
      if s.readers[j].phase.Checked? { FreshAfter(s, s.readers[j].tenant, s.readers[j].phase.keyring, m, wm); }
    }
    forall u {:trigger CacheOk(next, u, next.cache[u], wm)} | u in next.cache
      ensures CacheOk(next, u, next.cache[u], wm)
    {
      assert CacheOk(s, u, s.cache[u], m);
      FreshAfter(s, u, s.cache[u], m, wm);
    }
  }

  lemma FreshAfter(s: System, t: TenantId, k: CachedKeys, m: Minted, wm: Minted)
    requires Inv(s, m, wm) && Next(s, Commit).Some? && Fresh(s, t, k)
    ensures Fresh(Next(s, Commit).value, t, k)
  {
    var next := Next(s, Commit).value;
    assert next.Latest() == s.writer.value.view;
    if t !in s.pending {
      assert t in s.Latest().tenants;
    }
  }

  lemma RestartKeeps(s: System, m: Minted, wm: Minted)
    requires Inv(s, m, wm)
    ensures Inv(Next(s, Restart).value, m, wm)
  {
  }

  lemma {:induction false} RunKeeps(actions: seq<Action>) returns (m: Minted, wm: Minted)
    ensures Inv(Run(actions), m, wm)
    decreases |actions|
  {
    if actions == [] {
      m, wm := map[], map[];
    } else {
      m, wm := RunKeeps(actions[..|actions| - 1]);
      var s, a := Run(actions[..|actions| - 1]), actions[|actions| - 1];
      if Next(s, a).Some? {
        m, wm := StepKeeps(s, a, m, wm);
      }
    }
  }

  lemma StepKeeps(s: System, a: Action, m: Minted, wm: Minted) returns (m': Minted, wm': Minted)
    requires Inv(s, m, wm) && Next(s, a).Some?
    ensures Inv(Next(s, a).value, m', wm')
  {
    m', wm' := m, wm;
    match a {
      case OpenSnapshot(_, _, _) => OpenKeeps(s, a, m, wm);
      case OpenOwn(_, _) => OpenKeeps(s, a, m, wm);
      case Lookup(i) => LookupKeeps(s, i, m, wm);
      case LoadKeys(i) => LoadKeeps(s, i, m, wm);
      case Check(i) => CheckKeeps(s, i, m, wm);
      case Insert(i) => InsertKeeps(s, i, m, wm);
      case BeginTx => wm' := TxKeeps(s, a, m, wm);
      case StageOp(_) => wm' := TxKeeps(s, a, m, wm);
      case Commit => CommitKeeps(s, m, wm); m' := wm;
      case DropTx => wm' := TxKeeps(s, a, m, wm);
      case Evict(t) => EvictKeeps(s, t, m, wm);
      case Restart => RestartKeeps(s, m, wm);
    }
  }

  // ---- what callers rely on ----------------------------------------------------------------------------

  /** Whatever the interleaving, a call returns exactly what loading through its own reader gives. */
  lemma CacheAgrees(actions: seq<Action>, i: nat)
    requires i in Run(actions).readers && Run(actions).readers[i].phase.Returned?
    ensures var r := Run(actions).readers[i]; r.phase.result == LoadCached(r.view, r.tenant)
  {
    var m, wm := RunKeeps(actions);
    assert ReaderOk(Run(actions), i, Run(actions).readers[i], m);
  }

  /** A cached keyring other than the one the latest commit names has an eviction due. */
  lemma NothingStaleCached(actions: seq<Action>, t: TenantId)
    requires t in Run(actions).cache && t !in Run(actions).pending
    ensures LoadCached(Run(actions).Latest(), t) == Ok(Run(actions).cache[t])
  {
    var m, wm := RunKeeps(actions);
    var s := Run(actions);
    assert CacheOk(s, t, s.cache[t], m);
    assert DirOk(s.Latest(), m);
    LoadGenuine(s.Latest(), t, m);
    GenuineUnique(s.cache[t], LoadCached(s.Latest(), t).value, t, m, m);
  }

  // ---- a replaced keyring never comes back ---------------------------------------------------------------

  /** Rises with every rotation and every retirement. */
  function Rank(ids: Ids): int { 2 * ids.active - (if ids.retiring.Some? then 1 else 0) }

  /** `d` has left `ids` of `t` behind for good: the tenant is shredded or its ids rank higher. */
  predicate Beyond(d: Dir, t: TenantId, ids: Ids) {
    if t in d.tenants then Rank(d.tenants[t]) > Rank(ids) else t in d.dead
  }

  /** `later` keeps every tenant of `d`, shreds it, or has moved it on, and brings none back. */
  ghost predicate Follows(d: Dir, later: Dir) {
    && d.dead <= later.dead
    && (forall t :: t in d.dead && t !in d.tenants ==> t !in later.tenants)
    && (forall t :: t in d.tenants ==> IdsOf(later, t) == Some(d.tenants[t]) || Beyond(later, t, d.tenants[t]))
  }

  lemma FollowsTrans(a: Dir, b: Dir, c: Dir)
    requires Follows(a, b) && Follows(b, c)
    ensures Follows(a, c)
  {
  }

  lemma StageFollows(d: Dir, op: Op)
    requires Stage(d, op).Some?
    ensures Follows(d, Stage(d, op).value)
  {
  }

  lemma FollowsBeyond(d: Dir, later: Dir, t: TenantId, ids: Ids)
    requires Follows(d, later) && Beyond(d, t, ids)
    ensures Beyond(later, t, ids)
  {
  }

  /** Commits only move tenants on, and the open transaction follows the latest of them. */
  ghost predicate Ordered(s: System) {
    && s.history != []
    && (forall d {:trigger Follows(d, s.Latest())} :: d in s.history ==> Follows(d, s.Latest()))
    && (s.writer.Some? ==> Follows(s.Latest(), s.writer.value.view))
  }

  lemma CommitOrdered(s: System, latest: Dir)
    requires Ordered(s) && Follows(s.Latest(), latest)
    ensures forall d :: d in s.history + [latest] ==> Follows(d, latest)
  {
    forall d | d in s.history ensures Follows(d, latest) {
      assert Follows(d, s.Latest());
      FollowsTrans(d, s.Latest(), latest);
    }
  }

  lemma StepOrdered(s: System, a: Action)
    requires Ordered(s) && Next(s, a).Some?
    ensures Ordered(Next(s, a).value)
  {
    var next := Next(s, a).value;
    match a {
      case BeginTx => assert Follows(s.Latest(), s.Latest());
      case StageOp(op) =>
        StageFollows(s.writer.value.view, op);
        FollowsTrans(s.Latest(), s.writer.value.view, next.writer.value.view);
      case Commit => CommitOrdered(s, next.Latest());
      case _ => assert next.Latest() == s.Latest();
    }
  }

  lemma {:induction false} RunOrdered(actions: seq<Action>)
    ensures Ordered(Run(actions))
    decreases |actions|
  {
    if actions != [] {
      RunOrdered(actions[..|actions| - 1]);
      var s, a := Run(actions[..|actions| - 1]), actions[|actions| - 1];
      if Next(s, a).Some? { StepOrdered(s, a); }
    }
  }

  /** Directories have left `ids` behind, and neither the cache nor a call about to insert holds them. */
  ghost predicate Gone(s: System, t: TenantId, ids: Ids) {
    && s.history != [] && Beyond(s.Latest(), t, ids)
    && (s.writer.Some? ==> Beyond(s.writer.value.view, t, ids))
    && (t in s.cache ==> Rank(s.cache[t].ids) > Rank(ids))
    && (forall i :: i in s.readers && s.readers[i].tenant == t && s.readers[i].phase.Checked? ==>
          Rank(s.readers[i].phase.keyring.ids) > Rank(ids))
  }

  lemma TxGone(s: System, a: Action, t: TenantId, ids: Ids)
    requires Gone(s, t, ids) && (a.BeginTx? || a.StageOp? || a.Commit? || a.DropTx?) && Next(s, a).Some?
    ensures Gone(Next(s, a).value, t, ids)
  {
    if a.StageOp? {
      StageFollows(s.writer.value.view, a.op);
      FollowsBeyond(s.writer.value.view, Stage(s.writer.value.view, a.op).value, t, ids);
    }
  }

  lemma CacheGone(s: System, a: Action, t: TenantId, ids: Ids)
    requires Gone(s, t, ids) && (a.Check? || a.Insert? || a.Evict? || a.Restart?) && Next(s, a).Some?
    ensures Gone(Next(s, a).value, t, ids)
  {
  }

  lemma StepGone(s: System, a: Action, t: TenantId, ids: Ids)
    requires Gone(s, t, ids) && Next(s, a).Some?
    ensures Gone(Next(s, a).value, t, ids)
  {
    if a.BeginTx? || a.StageOp? || a.Commit? || a.DropTx? {
      TxGone(s, a, t, ids);
    } else if a.Check? || a.Insert? || a.Evict? || a.Restart? {
      CacheGone(s, a, t, ids);
    }
  }

  lemma RunNext(actions: seq<Action>, a: Action)
    ensures var s := Run(actions); Run(actions + [a]) == if Next(s, a).Some? then Next(s, a).value else s
  {
    assert (actions + [a])[..|actions|] == actions;
  }

  lemma {:induction false} RunGone(a: seq<Action>, b: seq<Action>, t: TenantId, ids: Ids)
    requires Gone(Run(a), t, ids)
    ensures Gone(Run(a + b), t, ids)
    decreases |b|
  {
    if b == [] {
      assert a + b == a;
    } else {
      var init, last := b[..|b| - 1], b[|b| - 1];
      RunGone(a, init, t, ids);
      assert a + b == (a + init) + [last];
      RunNext(a + init, last);
      if Next(Run(a + init), last).Some? { StepGone(Run(a + init), last, t, ids); }
    }
  }

  /** Only the holder of the cache lock is about to insert. */
  lemma UnlockedIdle(actions: seq<Action>, i: nat)
    requires Run(actions).lock.None? && i in Run(actions).readers
    ensures !Run(actions).readers[i].phase.Checked?
  {
    var m, wm := RunKeeps(actions);
    assert ReaderOk(Run(actions), i, Run(actions).readers[i], m);
  }

  /** An eviction of a tenant whose keys were replaced leaves the replaced ids behind for good. */
  lemma EvictGone(s: System, t: TenantId, ids: Ids)
    requires Ordered(s) && Beyond(s.Latest(), t, ids) && Next(s, Evict(t)).Some?
    requires forall i :: i in s.readers ==> !s.readers[i].phase.Checked?
    ensures Gone(Next(s, Evict(t)).value, t, ids)
  {
    if s.writer.Some? { FollowsBeyond(s.Latest(), s.writer.value.view, t, ids); }
  }

  /**
   * Once an eviction has run after a commit that replaced or shredded a
   * tenant's keys, no keyring with the replaced ids, nor an older one, is
   * cached at any later moment, however many rotations and evictions follow.
   */
  lemma ReplacedNeverCached(a: seq<Action>, b: seq<Action>, t: TenantId, version: nat)
    requires version < |Run(a).history| && t in Run(a).history[version].tenants
    requires IdsOf(Run(a).Latest(), t) != Some(Run(a).history[version].tenants[t]) && Next(Run(a), Evict(t)).Some?
    ensures var later := Run(a + [Evict(t)] + b);
            t in later.cache ==> Rank(later.cache[t].ids) > Rank(Run(a).history[version].tenants[t])
  {
    var s, ids := Run(a), Run(a).history[version].tenants[t];
    RunOrdered(a);
    assert Follows(s.history[version], s.Latest());
    forall i | i in s.readers ensures !s.readers[i].phase.Checked? { UnlockedIdle(a, i); }
    EvictGone(s, t, ids);
    RunNext(a, Evict(t));
    RunGone(a + [Evict(t)], b, t, ids);
  }
}
