/**
 * The custody store together with the sealed records behind its idempotency
 * keys. A claim opens its entry with the tenant's active data key alone, so
 * what it answers depends on where a rotation has come to; a begin opens it
 * with both keys. Custody transactions and rotations interleave freely.
 */
module Claims {
  import opened Prelude
  import opened Records
  import opened Grants
  import opened Custody
  import opened CustodyInv
  import opened TransitionRuns
  import opened StoreLaws
  import Vault
  import VaultLaws

  datatype Store = Store(db: Db, vault: Vault.Vault)

  const START := Store(EMPTY, Vault.EMPTY)

  // ---- entries ------------------------------------------------------------------------

  function Code(c: Capability): nat {
    match c
    case SessionCreate => 0
    case SessionFork => 1
    case Capture => 2
    case Ingest => 3
    case Read => 4
    case Query => 5
    case GrantIssue => 6
    case GrantRevoke => 7
    case AuditQuery => 8
  }

  /** Where the entry of `slot` is stored, under addressing subkeys of data key `address`. */
  function EntryPlace(address: Vault.KeyId, slot: IdemKey): Vault.Place {
    Vault.Place(0, [address, slot.tenant, Code(slot.capability), slot.key])
  }

  lemma PlaceInjective(address: Vault.KeyId, a: IdemKey, b: IdemKey)
    requires EntryPlace(address, a) == EntryPlace(address, b)
    ensures a == b
  {
    var x, y := EntryPlace(address, a).key, EntryPlace(address, b).key;
    assert x[1] == y[1] && x[2] == y[2] && x[3] == y[3];
  }

  datatype ClaimError = NoKeys(error: Vault.VaultError) | Unopened(fault: Vault.OpenError) | Undecodable

  /** Reads and opens an idempotency entry. */
  function Lookup(v: Vault.Vault, keys: seq<Vault.SealingKey>, p: Vault.Place): Result<Option<IdemRecord>, ClaimError> {
    if p !in v.records then Ok(None) else
      match Vault.Open(keys, Vault.IdemSlot, p.key, v.records[p])
      case Err(e) => Err(Unopened(e))
      case Ok(Entry(entry)) => Ok(Some(entry))
      case Ok(Bytes(_)) => Err(Undecodable)
  }

  // ---- transactions ---------------------------------------------------------------------

  datatype Claimed = Fresh(invocation: InvocationId) | Replay(invocation: InvocationId) | ClaimConflict

  function Compare(existing: IdemRecord, binding: Binding): Claimed {
    if existing.binding == binding then Replay(existing.invocation) else ClaimConflict
  }

  /** Seals the entry of a newly bound key under the active key. */
  function PutEntry(v: Vault.Vault, slot: IdemKey, entry: IdemRecord): Vault.Vault {
    match Vault.LoadKeyring(v, slot.tenant)
    case Err(_) => v
    case Ok(keys) => Vault.Put(v, slot.tenant, EntryPlace(keys.addressFrom, slot), Vault.IdemSlot, Vault.Entry(entry))
  }

  /** What a claim finds, with the active key alone; `None` when the key is unbound. */
  function ClaimedFor(v: Vault.Vault, claim: IdemClaim): Result<Option<Claimed>, ClaimError> {
    match Vault.LoadKeyring(v, claim.tenant)
    case Err(e) => Err(NoKeys(e))
    case Ok(keys) =>
      match Lookup(v, [keys.Sealer(Vault.Meta)], EntryPlace(keys.addressFrom, claim.Slot()))
      case Err(e) => Err(e)
      case Ok(None) => Ok(None)
      case Ok(Some(entry)) => Ok(Some(Compare(entry, claim.Binding())))
  }

  function ClaimOn(s: Store, claim: IdemClaim): (Store, Result<Claimed, ClaimError>) {
    match ClaimedFor(s.vault, claim)
    case Err(e) => (s, Err(e))
    case Ok(Some(found)) => (s, Ok(found))
    case Ok(None) =>
      (Store(s.db.(idem := s.db.idem[claim.Slot() := claim.Entry()]), PutEntry(s.vault, claim.Slot(), claim.Entry())),
       Ok(Fresh(claim.invocation)))
  }

  /** The keys and entries a custody transaction from `db` to `next` writes beside the content. */
  function Follow(v: Vault.Vault, db: Db, r: Request, next: Db): Vault.Vault {
    match r
    case Register(t) => if t.id in next.tenants then Vault.Register(v, t.id) else v
    case Shred(t) => if t !in next.tenants then Vault.Shred(v, t) else v
    case Begin(intent) =>
      if intent.Slot() !in db.idem && intent.Slot() in next.idem then
        PutEntry(v, intent.Slot(), next.idem[intent.Slot()])
      else v
    case _ => v
  }

  /** A rotation step, or a write to a record other than an idempotency entry. */
  predicate Beside(e: VaultLaws.Event) {
    match e
    case DoRegister(_) => false
    case DoShred(_) => false
    case DoPut(_, p, _, _) => p.space != 0
    case DoDrop(_, p) => p.space != 0
    case _ => true
  }

  datatype Event = Txn(event: Custody.Event) | Keys(keys: VaultLaws.Event)

  ghost function Next(s: Store, e: Event): Store {
    match e
    case Txn(event) =>
      if event.lost then s
      else if event.request.Claim? then ClaimOn(s, event.request.claim).0
      else
        var next := Perform(s.db, event.request, event.now);
        Store(next, Follow(s.vault, s.db, event.request, next))
    case Keys(event) => if Beside(event) then s.(vault := VaultLaws.Apply(s.vault, event)) else s
  }

  ghost function Run(events: seq<Event>): Store
    decreases |events|
  {
    if events == [] then START else Next(Run(events[..|events| - 1]), events[|events| - 1])
  }

  // ---- the entries mirror the bindings ------------------------------------------------------

  /** The sealed value is the entry of `slot`. */
  predicate Holds(sealed: Vault.Sealed, slot: IdemKey, entry: IdemRecord) {
    && sealed.key.TenantSealing? && sealed.key.tenant == slot.tenant && sealed.slot.IdemSlot?
    && sealed.plain == Vault.Entry(entry)
  }

  const ADDRESS: Vault.KeyId := Vault.INITIAL_DATA_KEY_ID

  ghost predicate EntryOk(idem: map<IdemKey, IdemRecord>, records: map<Vault.Place, Vault.Sealed>, slot: IdemKey) {
    && (slot in idem <==> EntryPlace(ADDRESS, slot) in records)
    && (slot in idem ==> Holds(records[EntryPlace(ADDRESS, slot)], slot, idem[slot]))
  }

  ghost predicate Entries(idem: map<IdemKey, IdemRecord>, records: map<Vault.Place, Vault.Sealed>) {
    forall slot {:trigger EntryOk(idem, records, slot)} :: EntryOk(idem, records, slot)
  }

  ghost predicate Mirrors(s: Store) {
    && VaultLaws.Inv(s.vault)
    && s.vault.tenants.Keys == s.db.tenants.Keys && s.vault.tombstones == s.db.tombstones
    && Entries(s.db.idem, s.vault.records)
  }

  ghost predicate StoreOk(s: Store) { Inv(s.db) && Mirrors(s) }

  lemma EntryAdded(idem: map<IdemKey, IdemRecord>, records: map<Vault.Place, Vault.Sealed>, slot: IdemKey,
                   entry: IdemRecord, sealed: Vault.Sealed)
    requires Entries(idem, records) && slot !in idem && Holds(sealed, slot, entry)
    ensures Entries(idem[slot := entry], records[EntryPlace(ADDRESS, slot) := sealed])
  {
    var next, stored := idem[slot := entry], records[EntryPlace(ADDRESS, slot) := sealed];
    forall k {:trigger EntryOk(next, stored, k)} ensures EntryOk(next, stored, k) {
      assert EntryOk(idem, records, k);
      if k != slot && EntryPlace(ADDRESS, k) == EntryPlace(ADDRESS, slot) { PlaceInjective(ADDRESS, k, slot); }
    }
  }

  /** Binding an unbound key of a live tenant, in the content and in the vault. */
  lemma BindMirrors(s: Store, slot: IdemKey, entry: IdemRecord)
    requires Mirrors(s) && slot.tenant in s.db.tenants && slot !in s.db.idem
    ensures Mirrors(Store(s.db.(idem := s.db.idem[slot := entry]), PutEntry(s.vault, slot, entry)))
  {
    var v, p := s.vault, EntryPlace(ADDRESS, slot);
    assert EntryOk(s.db.idem, v.records, slot);
    VaultLaws.ReadsAt(v, slot.tenant, p);
    var event := VaultLaws.DoPut(slot.tenant, p, Vault.IdemSlot, Vault.Entry(entry));
    assert PutEntry(v, slot, entry) == VaultLaws.Apply(v, event);
    VaultLaws.ApplyKeeps(v, event);
    EntryAdded(s.db.idem, v.records, slot, entry, PutEntry(v, slot, entry).records[p]);
  }

  // ---- rotation and other records leave the entries alone ---------------------------------------

  ghost predicate SameItem(a: map<Vault.Place, Vault.Sealed>, b: map<Vault.Place, Vault.Sealed>, p: Vault.Place) {
    (p in a <==> p in b) && (p in a ==> VaultLaws.Unsealed(a[p]) == VaultLaws.Unsealed(b[p]))
  }

  lemma BesideSame(v: Vault.Vault, e: VaultLaws.Event, p: Vault.Place)
    requires VaultLaws.Inv(v) && Beside(e) && p.space == 0
    ensures SameItem(v.records, VaultLaws.Apply(v, e).records, p)
    ensures VaultLaws.Apply(v, e).tenants.Keys == v.tenants.Keys && VaultLaws.Apply(v, e).tombstones == v.tombstones
  {
    VaultLaws.ApplyRefines(v, e);
    var before, after := VaultLaws.View(v), VaultLaws.View(VaultLaws.Apply(v, e));
    assert p in before.items <==> p in after.items;
    assert p in before.items ==> before.items[p] == after.items[p];
  }

  lemma KeysMirror(s: Store, e: VaultLaws.Event)
    requires Mirrors(s) && Beside(e)
    ensures Mirrors(s.(vault := VaultLaws.Apply(s.vault, e)))
  {
    VaultLaws.ApplyKeeps(s.vault, e);
    var next := VaultLaws.Apply(s.vault, e);
    BesideSame(s.vault, e, Vault.Place(0, []));
    forall k {:trigger EntryOk(s.db.idem, next.records, k)} ensures EntryOk(s.db.idem, next.records, k) {
      assert EntryOk(s.db.idem, s.vault.records, k);
      BesideSame(s.vault, e, EntryPlace(ADDRESS, k));
    }
  }

  // ---- custody transactions ------------------------------------------------------------------

  lemma RegisterMirrors(s: Store, t: TenantRecord)
    requires Mirrors(s)
    ensures var next := RegisterTenant(s.db, t).After(s.db);
            Mirrors(Store(next, Follow(s.vault, s.db, Register(t), next)))
  {
    VaultLaws.RegisterKeeps(s.vault, t.id);
  }

  lemma ShredMirrors(s: Store, t: TenantId)
    requires Mirrors(s)
    ensures var next := ShredTx(s.db, t).After(s.db); Mirrors(Store(next, Follow(s.vault, s.db, Shred(t), next)))
  {
    VaultLaws.ShredKeeps(s.vault, t);
  }

  /** Only the idempotency key `slot` of a live tenant is newly bound, if any. */
  ghost predicate BindsAtMost(db: Db, next: Db, slot: IdemKey) {
    && next.tenants == db.tenants && next.tombstones == db.tombstones
    && (next.idem == db.idem
        || (slot !in db.idem && slot in next.idem && next.idem == db.idem[slot := next.idem[slot]]))
  }

  lemma IntentBinds(db: Db, intent: Intent, decision: Result<Decision, Fault>)
    requires intent.Slot() !in db.idem
    ensures BindsAtMost(db, StoreIntent(db, intent, decision).After(db), intent.Slot())
  {
    var tx := StoreIntent(db, intent, decision);
    if tx.Commit? {
      if tx.reply.Persisted? {
        assert tx.db == db.(ledgers := tx.db.ledgers, invocations := tx.db.invocations,
                            idem := db.idem[intent.Slot() := IdemRecord(intent.invocation, intent.Binding())]);
      } else {
        assert tx.db == db.(audit := tx.db.audit);
      }
    }
  }

  lemma BeginBinds(db: Db, intent: Intent, now: Timestamp)
    ensures BindsAtMost(db, BeginTx(db, intent, now).After(db), intent.Slot())
    ensures BeginTx(db, intent, now).Commit? ==> intent.authz.tenant in db.tenants
  {
    if intent.Slot() !in db.idem { IntentBinds(db, intent, Authorize(db, intent.authz, now)); }
  }

  lemma BeginMirrors(s: Store, intent: Intent, now: Timestamp)
    requires Mirrors(s)
    ensures var next := BeginTx(s.db, intent, now).After(s.db);
            Mirrors(Store(next, Follow(s.vault, s.db, Begin(intent), next)))
  {
    BeginBinds(s.db, intent, now);
    var next := BeginTx(s.db, intent, now).After(s.db);
    if next.idem != s.db.idem { BindMirrors(s, intent.Slot(), next.idem[intent.Slot()]); }
  }

  /** The directory and the bindings are unchanged. */
  ghost predicate Quiet(db: Db, next: Db) {
    next.tenants == db.tenants && next.tombstones == db.tombstones && next.idem == db.idem
  }

  lemma ActQuiet(db: Db, id: InvocationId, action: Action, now: Timestamp)
    ensures Quiet(db, TransitionTx(db, id, action, now).After(db))
  {
  }

  lemma RootQuiet(db: Db, root: RootGrant)
    ensures Quiet(db, InstallRoot(db, root).After(db))
  {
  }

  lemma IssueQuiet(db: Db, issuer: TenantId, designated: GrantId, child: GrantId, request: IssueRequest,
                   via: InvocationId, now: Timestamp)
    ensures Quiet(db, IssueTx(db, issuer, designated, child, request, via, now).After(db))
  {
  }

  lemma RevokeQuiet(db: Db, actor: TenantId, grant: GrantId, via: InvocationId, now: Timestamp)
    ensures Quiet(db, RevokeTx(db, actor, grant, via, now).After(db))
  {
  }

  lemma OpenQuiet(db: Db, session: SessionRecord, via: InvocationId)
    ensures Quiet(db, OpenSessionTx(db, session, via).After(db))
  {
  }

  /** The other transactions bind no key and neither register nor shred. */
  lemma OthersQuiet(db: Db, r: Request, now: Timestamp)
    requires !r.Register? && !r.Shred? && !r.Begin? && !r.Claim?
    ensures Quiet(db, Perform(db, r, now))
  {
    match r {
      case Act(id, action) => ActQuiet(db, id, action, now);
      case Root(root) => RootQuiet(db, root);
      case Issue(issuer, designated, child, request, via) =>
        IssueQuiet(db, issuer, designated, child, request, via, now);
      case RevokeG(actor, grant, via) => RevokeQuiet(db, actor, grant, via, now);
      case Open(session, via) => OpenQuiet(db, session, via);
      case Note(_) =>
    }
  }

  // ---- claims --------------------------------------------------------------------------------

  /** The header of the entry names the tenant's active data key. */
  predicate UnderActive(v: Vault.Vault, slot: IdemKey)
    requires slot.tenant in v.tenants
  {
    var p := EntryPlace(ADDRESS, slot);
    p in v.records && v.records[p].key.id == v.tenants[slot.tenant]
  }

  /** What a claim answers in a well-formed store, told without opening anything. */
  ghost function ClaimAnswer(s: Store, claim: IdemClaim): Result<Claimed, ClaimError>
    requires Mirrors(s)
  {
    var slot := claim.Slot();
    if claim.tenant !in s.db.tenants then Err(NoKeys(Vault.Absent(s.vault, claim.tenant)))
    else if slot !in s.db.idem then Ok(Fresh(claim.invocation))
    else if !UnderActive(s.vault, slot) then Err(Unopened(Vault.UnknownKeyId))
    else Ok(Compare(s.db.idem[slot], claim.Binding()))
  }

  lemma ClaimAnswers(s: Store, claim: IdemClaim)
    requires Mirrors(s)
    ensures ClaimOn(s, claim).1 == ClaimAnswer(s, claim)
    ensures ClaimOn(s, claim).0.db == ClaimTx(s.db, claim).After(s.db)
    ensures claim.Slot() in s.db.idem ==> ClaimOn(s, claim).0 == s
    ensures Mirrors(ClaimOn(s, claim).0)
  {
    var place := EntryPlace(ADDRESS, claim.Slot());
    assert EntryOk(s.db.idem, s.vault.records, claim.Slot());
    if claim.tenant in s.db.tenants {
      VaultLaws.ReadsAt(s.vault, claim.tenant, place);
      if claim.Slot() in s.db.idem {
        VaultLaws.ActiveOnlyAt(s.vault, claim.tenant, place);
      } else {
        BindMirrors(s, claim.Slot(), claim.Entry());
      }
    }
  }

  lemma TxnKeeps(s: Store, e: Custody.Event)
    requires StoreOk(s)
    ensures Mirrors(Next(s, Txn(e))) && Next(s, Txn(e)).db == Custody.Apply(s.db, e)
  {
    if !e.lost {
      match e.request {
        case Claim(claim) => ClaimAnswers(s, claim);
        case Register(t) => RegisterMirrors(s, t);
        case Shred(t) => ShredMirrors(s, t);
        case Begin(intent) => BeginMirrors(s, intent, e.now);
        case _ => OthersQuiet(s.db, e.request, e.now);
      }
    }
  }

  lemma NextKeeps(s: Store, e: Event)
    requires StoreOk(s)
    ensures StoreOk(Next(s, e)) && Extends(s.db.idem, Next(s, e).db.idem)
    ensures Next(s, e).db == if e.Txn? then Custody.Apply(s.db, e.event) else s.db
  {
    match e {
      case Txn(event) =>
        TxnKeeps(s, event);
        if !event.lost {
          PerformKeeps(s.db, event.request, event.now);
          PerformGrows(s.db, event.request, event.now);
        }
      case Keys(event) => if Beside(event) { KeysMirror(s, event); }
    }
  }

  lemma StartOk()
    ensures StoreOk(START)
  {
    EmptyInv();
    forall slot {:trigger EntryOk(START.db.idem, START.vault.records, slot)}
      ensures EntryOk(START.db.idem, START.vault.records, slot) {}
  }

  /** The custody transactions of a run, in order. */
  ghost function Txns(events: seq<Event>): seq<Custody.Event>
    decreases |events|
  {
    if events == [] then [] else
      var e := events[|events| - 1];
      Txns(events[..|events| - 1]) + (if e.Txn? then [e.event] else [])
  }

  /**
   * The content after a run is that of its custody transactions alone: what they answer or write never
   * depends on the keys.
   */
  lemma {:induction false} RunOk(events: seq<Event>)
    ensures StoreOk(Run(events)) && Run(events).db == Custody.Run(EMPTY, Txns(events))
    decreases |events|
  {
    if events == [] {
      StartOk();
    } else {
      var init, e := events[..|events| - 1], events[|events| - 1];
      RunOk(init);
      NextKeeps(Run(init), e);
      if e.Txn? {
        assert (Txns(init) + [e.event])[..|Txns(init)|] == Txns(init);
      } else {
        assert Txns(events) == Txns(init);
      }
    }
  }

  lemma RunNext(events: seq<Event>, e: Event)
    ensures Run(events + [e]) == Next(Run(events), e)
  {
    assert (events + [e])[..|events|] == events;
  }

  lemma BoundNext(events: seq<Event>, e: Event, slot: IdemKey)
    requires slot in Run(events).db.idem
    ensures slot in Run(events + [e]).db.idem && Run(events + [e]).db.idem[slot] == Run(events).db.idem[slot]
  {
    RunNext(events, e);
    RunOk(events);
    NextKeeps(Run(events), e);
  }

  lemma {:induction false} BoundStays(a: seq<Event>, b: seq<Event>, slot: IdemKey)
    requires slot in Run(a).db.idem
    ensures slot in Run(a + b).db.idem && Run(a + b).db.idem[slot] == Run(a).db.idem[slot]
    decreases |b|
  {
    if b == [] {
      assert a + b == a;
    } else {
      var init, e := b[..|b| - 1], b[|b| - 1];
      BoundStays(a, init, slot);
      assert a + b == (a + init) + [e];
      BoundNext(a + init, e, slot);
    }
  }

  /**
   * After any interleaving of transactions and rotations, a claim on a bound
   * key changes nothing. A live tenant's claim fails on the key id exactly
   * when the entry's header does not name the active data key, and then a
   * rotation that has not passed the entry is under way; otherwise it replays
   * the invocation first bound, or conflicts with another request.
   */
  lemma ClaimExact(a: seq<Event>, b: seq<Event>, claim: IdemClaim)
    requires claim.Slot() in Run(a).db.idem
    ensures ClaimOn(Run(a + b), claim).0 == Run(a + b)
    ensures var s := Run(a + b);
            ClaimOn(s, claim).1 == if claim.tenant !in s.vault.tenants then Err(NoKeys(Vault.Shredded(claim.tenant)))
                                   else if !UnderActive(s.vault, claim.Slot()) then Err(Unopened(Vault.UnknownKeyId))
                                   else Ok(Compare(Run(a).db.idem[claim.Slot()], claim.Binding()))
    ensures var v := Run(a + b).vault;
            claim.tenant in v.tenants && !UnderActive(v, claim.Slot()) ==>
              && Vault.InProgress(v, claim.tenant)
              && !VaultLaws.Passed(v.rekeys[claim.tenant], EntryPlace(ADDRESS, claim.Slot()))
  {
    BoundStays(a, b, claim.Slot());
    RunOk(a + b);
    var s, place := Run(a + b), EntryPlace(ADDRESS, claim.Slot());
    ClaimAnswers(s, claim);
    assert EntryOk(s.db.idem, s.vault.records, claim.Slot());
    assert VaultLaws.RecordOk(s.vault, place, s.vault.records[place]);
    if claim.tenant in s.vault.tenants { VaultLaws.ActiveOnlyAt(s.vault, claim.tenant, place); }
  }

  /** A begin looks its key up with both data keys, and always finds the binding the content records. */
  lemma BeginReads(events: seq<Event>, slot: IdemKey)
    requires slot.tenant in Run(events).db.tenants
    ensures var s := Run(events);
            && Vault.LoadKeyring(s.vault, slot.tenant).Ok?
            && var keys := Vault.LoadKeyring(s.vault, slot.tenant).value;
               Lookup(s.vault, keys.Openers(Vault.Meta), EntryPlace(keys.addressFrom, slot))
               == Ok(if slot in s.db.idem then Some(s.db.idem[slot]) else None)
  {
    RunOk(events);
    var s := Run(events);
    assert EntryOk(s.db.idem, s.vault.records, slot);
    VaultLaws.ReadsAt(s.vault, slot.tenant, EntryPlace(ADDRESS, slot));
  }

  /** A rotation that starts after a fresh claim locks its retry out until the walk has passed the entry. */
  lemma RotationLocks(s: Store, claim: IdemClaim)
    requires Mirrors(s) && claim.tenant in s.db.tenants && claim.Slot() !in s.db.idem
    requires Vault.BeginRekey(ClaimOn(s, claim).0.vault, claim.tenant).Ok?
    ensures var bound := ClaimOn(s, claim).0;
            var rotating := bound.(vault := Vault.BeginRekey(bound.vault, claim.tenant).value);
            ClaimOn(rotating, claim).1 == Err(Unopened(Vault.UnknownKeyId))
  {
    ClaimAnswers(s, claim);
    var bound, event := ClaimOn(s, claim).0, VaultLaws.DoBegin(claim.tenant);
    KeysMirror(bound, event);
    ClaimAnswers(bound.(vault := VaultLaws.Apply(bound.vault, event)), claim);
    VaultLaws.ReadsAt(s.vault, claim.tenant, EntryPlace(ADDRESS, claim.Slot()));
  }

  function Joined(tenant: TenantRecord): Store {
    Store(EMPTY.(tenants := map[tenant.id := tenant]), Vault.Register(Vault.EMPTY, tenant.id))
  }

  function Joining(tenant: TenantRecord): Event { Txn(Custody.Event(Register(tenant), 0, false)) }

  lemma RegisterFirst(tenant: TenantRecord)
    requires tenant.parent.None?
    ensures Next(START, Joining(tenant)) == Joined(tenant)
  {
  }

  lemma RunOne(e: Event)
    ensures Run([e]) == Next(START, e)
  {
    assert [] + [e] == [e];
    RunNext([], e);
  }

  lemma JoinedFirst(tenant: TenantRecord)
    requires tenant.parent.None?
    ensures Run([Joining(tenant)]) == Joined(tenant) && StoreOk(Joined(tenant))
  {
    RegisterFirst(tenant);
    RunOne(Joining(tenant));
    RunOk([Joining(tenant)]);
  }

  /** That lock-out is reachable. */
  lemma ClaimStuck(tenant: TenantRecord, claim: IdemClaim)
    requires tenant.parent.None? && claim.tenant == tenant.id
    ensures var bind, rotate := Txn(Custody.Event(Claim(claim), 0, false)), Keys(VaultLaws.DoBegin(tenant.id));
            ClaimOn(Run([Joining(tenant)] + [bind] + [rotate]), claim).1 == Err(Unopened(Vault.UnknownKeyId))
  {
    var bind, rotate := Txn(Custody.Event(Claim(claim), 0, false)), Keys(VaultLaws.DoBegin(tenant.id));
    JoinedFirst(tenant);
    RunNext([Joining(tenant)], bind);
    RunNext([Joining(tenant)] + [bind], rotate);
    RotationLocks(Joined(tenant), claim);
  }
}
