/** Every transaction keeps the store invariant, so every run with crashes does. */
module CustodyRuns {
  import opened Prelude
  import opened Budget
  import opened Origin
  import opened Records
  import opened Grants
  import opened ChainLaws
  import opened Custody
  import opened CustodyInv
  import Lifecycle

  type Ledgers = map<LedgerRef, Cost>
  type Invs = map<InvocationId, Invocation>

  /** A ledger no invocation lists is at zero, so any ceiling admits it. */
  lemma UnlistedLedger(ledgers: Ledgers, invs: Invs, l: LedgerRef, ceilings: Ceilings)
    requires Balanced(ledgers, invs)
    requires forall id :: id in invs ==> l !in invs[id].ledgers
    ensures Under(Used(ledgers, l), ceilings)
  {
    forall d ensures Used(ledgers, l).Get(d) == 0 {
      SumZero(Charges(invs, l, d));
      assert Used(ledgers, l).Get(d) == Total(invs, l, d);
    }
  }

  lemma NewTenantUnlisted(db: Db, t: TenantId)
    requires InvsOk(db.grants, db.invocations) && AllKnown(db.invocations, db.tenants, db.tombstones, db.sessions)
    requires t !in db.tenants && t !in db.tombstones
    ensures forall id :: id in db.invocations ==> OfTenant(t) !in db.invocations[id].ledgers
  {
    forall id | id in db.invocations ensures OfTenant(t) !in db.invocations[id].ledgers {
      assert InvOk(db.grants, id, db.invocations[id]);
      assert Known(db.invocations[id], db.tenants, db.tombstones, db.sessions);
    }
  }

  lemma RegisterKeeps(db: Db, t: TenantRecord)
    requires Inv(db)
    ensures Inv(RegisterTenant(db, t).After(db))
  {
    if RegisterTenant(db, t).Commit? {
      NewTenantUnlisted(db, t.id);
      UnlistedLedger(db.ledgers, db.invocations, OfTenant(t.id), t.ceilings);
      MoreTenants(db, db.tenants[t.id := t]);
    }
  }

  lemma MoreTenants(db: Db, tenants: map<TenantId, TenantRecord>)
    requires db.tenants.Keys <= tenants.Keys
    requires AllKnown(db.invocations, db.tenants, db.tombstones, db.sessions)
    requires OpenLive(db.invocations, db.tenants, db.sessions)
    ensures AllKnown(db.invocations, tenants, db.tombstones, db.sessions)
    ensures OpenLive(db.invocations, tenants, db.sessions)
  {
    forall id | id in db.invocations ensures Known(db.invocations[id], tenants, db.tombstones, db.sessions) {
      assert Known(db.invocations[id], db.tenants, db.tombstones, db.sessions);
    }
    forall id | id in db.invocations && !db.invocations[id].state.IsTerminal()
      ensures Live(db.invocations[id], tenants, db.sessions)
    {
      assert Live(db.invocations[id], db.tenants, db.sessions);
    }
  }

  lemma NewGrantForest(grants: map<GrantId, Grant>, g: Grant)
    requires GrantsOk(grants) && g.id !in grants && GrantOk(grants[g.id := g], g.id)
    ensures GrantsOk(grants[g.id := g])
  {
    var next := grants[g.id := g];
    forall id {:trigger GrantOk(next, id)} | id in next ensures GrantOk(next, id) {
      if id in grants { assert GrantOk(grants, id); }
    }
  }

  lemma NewGrantUnlisted(grants: map<GrantId, Grant>, invs: Invs, g: GrantId)
    requires GrantsOk(grants) && InvsOk(grants, invs) && g !in grants
    ensures forall id :: id in invs ==> OfGrant(g) !in invs[id].ledgers
  {
    forall id | id in invs ensures OfGrant(g) !in invs[id].ledgers {
      assert InvOk(grants, id, invs[id]);
      LoadChainOk(grants, invs[id].grantChain[0]);
    }
  }

  /** Storing a well-formed new grant keeps the invariant. */
  lemma NewGrantKeeps(db: Db, g: Grant)
    requires Inv(db) && g.id !in db.grants
    requires GrantOk(db.grants[g.id := g], g.id)
    ensures Inv(db.(grants := db.grants[g.id := g]))
  {
    NewGrantForest(db.grants, g);
    InvsExtend(db.grants, db.grants[g.id := g], db.invocations);
    NewGrantUnlisted(db.grants, db.invocations, g.id);
    UnlistedLedger(db.ledgers, db.invocations, OfGrant(g.id), g.ceilings);
  }

  lemma RootKeeps(db: Db, r: RootGrant)
    requires Inv(db)
    ensures Inv(InstallRoot(db, r).After(db))
  {
    if InstallRoot(db, r).Commit? {
      NewGrantKeeps(db, RootRecord(r, ParseScope(r.targetText).value));
    }
  }

  lemma AuditKeeps(db: Db, e: AuditEntry)
    requires Inv(db)
    ensures AppendAudit(db, e).Ok? ==> Inv(AppendAudit(db, e).value)
  {
  }

  /** A grant that passes the narrowing check attenuates its parent. */
  lemma NarrowedAttenuates(db: Db, parent: Grant, used: Cost, child: Grant)
    requires NarrowingViolationOf(db, parent, used, child) == Ok(None)
    ensures Attenuates(parent, child) && ParentLink(parent.id, parent, child) && child.parent == Some(parent.id)
  {
    forall d: Dimension | parent.ceilings.Get(d).Some?
      ensures child.ceilings.Get(d).Some? && child.ceilings.Get(d).value <= parent.ceilings.Get(d).value
    {
      assert child.ceilings.Get(d).value <= Monus(parent.ceilings.Get(d).value, used.Get(d));
    }
  }

  /** What a positive issue decision stores. */
  lemma IssuedFacts(db: Db, issuer: TenantId, designated: GrantId, child: GrantId, request: IssueRequest,
                    now: Timestamp)
    requires GrantsOk(db.grants)
    requires CheckIssue(db, issuer, designated, child, request, now).Ok?
    requires CheckIssue(db, issuer, designated, child, request, now).value.Issued?
    ensures var g := CheckIssue(db, issuer, designated, child, request, now).value.child;
            g.id == child && (child !in db.grants ==> GrantOk(db.grants[child := g], child))
  {
    var g := CheckIssue(db, issuer, designated, child, request, now).value.child;
    var parent := db.grants[designated];
    assert GrantOk(db.grants, designated);
    NarrowedAttenuates(db, parent, Used(db.ledgers, OfGrant(parent.id)), g);
  }

  lemma IssueKeeps(db: Db, issuer: TenantId, designated: GrantId, child: GrantId, request: IssueRequest,
                   invocation: InvocationId, now: Timestamp)
    requires Inv(db)
    ensures Inv(IssueTx(db, issuer, designated, child, request, invocation, now).After(db))
  {
    var decision := CheckIssue(db, issuer, designated, child, request, now);
    if decision.Ok? && decision.value.Issued? {
      IssuedFacts(db, issuer, designated, child, request, now);
      var g := decision.value.child;
      if g.id !in db.grants {
        NewGrantKeeps(db, g);
        AuditKeeps(db.(grants := db.grants[g.id := g]),
                   AuditEntry(issuer, invocation, GrantIssue, Lifecycle.Settled, None, Some(designated), None));
      }
    } else {
      AuditKeeps(db, AuditEntry(issuer, invocation, GrantIssue, Lifecycle.Denied, None, Some(designated), None));
    }
  }

  lemma RevokeKeeps(db: Db, actor: TenantId, grant: GrantId, invocation: InvocationId, now: Timestamp)
    requires Inv(db)
    ensures Inv(RevokeTx(db, actor, grant, invocation, now).After(db))
  {
  }

  lemma NewSessionUnlisted(db: Db, s: SessionId)
    requires InvsOk(db.grants, db.invocations) && AllKnown(db.invocations, db.tenants, db.tombstones, db.sessions)
    requires s !in db.sessions
    ensures forall id :: id in db.invocations ==> OfSession(s) !in db.invocations[id].ledgers
  {
    forall id | id in db.invocations ensures OfSession(s) !in db.invocations[id].ledgers {
      assert InvOk(db.grants, id, db.invocations[id]);
      assert Known(db.invocations[id], db.tenants, db.tombstones, db.sessions);
    }
  }

  lemma NewSessionKnown(db: Db, s: SessionRecord)
    requires s.id !in db.sessions && s.owner in db.tenants
    requires SessionsOk(db.sessions, db.tenants, db.tombstones)
    requires AllKnown(db.invocations, db.tenants, db.tombstones, db.sessions)
    requires OpenLive(db.invocations, db.tenants, db.sessions)
    ensures SessionsOk(db.sessions[s.id := s], db.tenants, db.tombstones)
    ensures AllKnown(db.invocations, db.tenants, db.tombstones, db.sessions[s.id := s])
    ensures OpenLive(db.invocations, db.tenants, db.sessions[s.id := s])
  {
    var next := db.sessions[s.id := s];
    forall id | id in db.invocations ensures Known(db.invocations[id], db.tenants, db.tombstones, next) {
      assert Known(db.invocations[id], db.tenants, db.tombstones, db.sessions);
    }
    forall id | id in db.invocations && !db.invocations[id].state.IsTerminal()
      ensures Live(db.invocations[id], db.tenants, next)
    {
      assert Live(db.invocations[id], db.tenants, db.sessions);
    }
  }

  lemma OpenKeeps(db: Db, s: SessionRecord, invocation: InvocationId)
    requires Inv(db)
    ensures Inv(OpenSessionTx(db, s, invocation).After(db))
  {
    if OpenSessionTx(db, s, invocation).Commit? {
      NewSessionUnlisted(db, s.id);
      UnlistedLedger(db.ledgers, db.invocations, OfSession(s.id), s.ceilings);
      NewSessionKnown(db, s);
      var next := db.(sessions := db.sessions[s.id := s]);
      assert Inv(next);
      AuditKeeps(next, AuditEntry(s.owner, invocation, if s.parent.Some? then SessionFork else SessionCreate,
                                  Lifecycle.Settled, Some(s.id), None, None));
    }
  }

  lemma ClaimKeeps(db: Db, claim: IdemClaim)
    requires Inv(db)
    ensures Inv(ClaimTx(db, claim).After(db))
  {
  }

  /** A shred strands no open invocation. */
  lemma ShredLive(db: Db, t: TenantId)
    requires AllKnown(db.invocations, db.tenants, db.tombstones, db.sessions)
    requires OpenLive(db.invocations, db.tenants, db.sessions) && !HasOpenInvocations(db, t)
    ensures AllKnown(db.invocations, db.tenants - {t}, db.tombstones + {t}, db.sessions)
    ensures OpenLive(db.invocations, db.tenants - {t}, db.sessions)
  {
    forall id | id in db.invocations
      ensures Known(db.invocations[id], db.tenants - {t}, db.tombstones + {t}, db.sessions)
    {
      assert Known(db.invocations[id], db.tenants, db.tombstones, db.sessions);
    }
    forall id | id in db.invocations && !db.invocations[id].state.IsTerminal()
      ensures Live(db.invocations[id], db.tenants - {t}, db.sessions)
    {
      assert Live(db.invocations[id], db.tenants, db.sessions);
      assert !Involves(db, db.invocations[id], t);
    }
  }

  lemma ShredKeeps(db: Db, t: TenantId)
    requires Inv(db)
    ensures Inv(ShredTx(db, t).After(db))
  {
    if ShredTx(db, t).Commit? {
      ShredLive(db, t);
    }
  }

  // ---- B1 -------------------------------------------------------------------------

  lemma PlanIds(db: Db, tenant: TenantId, chain: seq<Grant>, session: Option<(SessionId, TenantId)>)
    ensures LedgerIds(LedgerStates(db, tenant, chain, session))
            == LedgersOf(ChainIds(chain), if session.Some? then Some(session.value.0) else None, tenant)
  {
  }

  /** Ledger `l` has room for `cost` in 64 bits and under its owner's ceiling. */
  ghost predicate RoomOn(db: Db, l: LedgerRef, cost: Cost) {
    forall d ::
      && Used(db.ledgers, l).Get(d) + cost.Get(d) <= U64_MAX
      && (CeilingOf(db, l).Get(d).Some? ==> Used(db.ledgers, l).Get(d) + cost.Get(d) <= CeilingOf(db, l).Get(d).value)
  }

  ghost predicate Room(db: Db, refs: seq<LedgerRef>, cost: Cost) { forall l :: l in refs ==> RoomOn(db, l, cost) }

  ghost function CeilingOf(db: Db, l: LedgerRef): Ceilings {
    match l
    case OfGrant(g) => if g in db.grants then db.grants[g].ceilings else NO_CEILINGS
    case OfSession(s) => SessionCeilings(db, s)
    case OfTenant(t) => TenantCeilings(db, t)
  }

  /** Each planned ledger carries its owner's ceilings and current use. */
  lemma StatesMeaning(db: Db, tenant: TenantId, chain: seq<Grant>, session: Option<(SessionId, TenantId)>, i: nat)
    requires IsPath(db.grants, chain) && i < |LedgerStates(db, tenant, chain, session)|
    ensures var s := LedgerStates(db, tenant, chain, session)[i];
            s.ceilings == CeilingOf(db, s.id) && s.used == Used(db.ledgers, s.id)
  {
  }

  lemma RoomAt(db: Db, tenant: TenantId, chain: seq<Grant>, session: Option<(SessionId, TenantId)>, declared: Cost,
               l: LedgerRef)
    requires IsPath(db.grants, chain)
    requires l in LedgerIds(LedgerStates(db, tenant, chain, session))
    requires PlanReservation(LedgerStates(db, tenant, chain, session), declared).Ok?
    requires PlanReservation(LedgerStates(db, tenant, chain, session), declared).value.Fits?
    ensures RoomOn(db, l, declared)
  {
    var states := LedgerStates(db, tenant, chain, session);
    var i :| 0 <= i < |states| && LedgerIds(states)[i] == l;
    StatesMeaning(db, tenant, chain, session, i);
    StateRoom(db, states[i], declared);
  }

  lemma StateRoom(db: Db, s: LedgerState, declared: Cost)
    requires s.ceilings == CeilingOf(db, s.id) && s.used == Used(db.ledgers, s.id)
    requires forall d :: Covers(s, declared, d) && !Overflows(s, declared, d)
    ensures RoomOn(db, s.id, declared)
  {
    forall d
      ensures Used(db.ledgers, s.id).Get(d) + declared.Get(d) <= U64_MAX
      ensures CeilingOf(db, s.id).Get(d).Some? ==>
                Used(db.ledgers, s.id).Get(d) + declared.Get(d) <= CeilingOf(db, s.id).Get(d).value
    {
      assert Covers(s, declared, d) && !Overflows(s, declared, d);
    }
  }

  lemma RoomAll(db: Db, tenant: TenantId, chain: seq<Grant>, session: Option<(SessionId, TenantId)>, declared: Cost)
    requires IsPath(db.grants, chain)
    requires PlanReservation(LedgerStates(db, tenant, chain, session), declared).Ok?
    requires PlanReservation(LedgerStates(db, tenant, chain, session), declared).value.Fits?
    ensures Room(db, LedgerIds(LedgerStates(db, tenant, chain, session)), declared)
  {
    forall l | l in LedgerIds(LedgerStates(db, tenant, chain, session)) ensures RoomOn(db, l, declared) {
      RoomAt(db, tenant, chain, session, declared, l);
    }
  }

  /** A reservation that fits has room on every ledger it names. */
  lemma ReserveForFacts(db: Db, tenant: TenantId, chain: seq<Grant>, session: Option<(SessionId, TenantId)>,
                        declared: Cost)
    requires IsPath(db.grants, chain)
    requires ReserveFor(db, tenant, chain, session, declared).Ok?
    requires ReserveFor(db, tenant, chain, session, declared).value.Allowed?
    ensures var a := ReserveFor(db, tenant, chain, session, declared).value;
            && a.chain == ChainIds(chain)
            && a.cost == declared
            && a.ledgers == LedgersOf(a.chain, if session.Some? then Some(session.value.0) else None, tenant)
            && Room(db, a.ledgers, declared)
  {
    PlanIds(db, tenant, chain, session);
    RoomAll(db, tenant, chain, session, declared);
  }

  /** What an allowed call is charged to. */
  lemma AllowedFacts(db: Db, request: AuthzRequest, now: Timestamp)
    requires GrantsOk(db.grants)
    requires Authorize(db, request, now).Ok? && Authorize(db, request, now).value.Allowed?
    ensures var a := Authorize(db, request, now).value;
            && request.grant in db.grants
            && a.chain == ChainIds(ChainOf(db.grants, request.grant))
            && a.cost == request.declared
            && a.ledgers == LedgersOf(a.chain, request.session, request.tenant)
            && Room(db, a.ledgers, a.cost)
            && (request.session.Some? ==> request.session.value in db.sessions)
    ensures CheckChain(db, db.grants[request.grant], now) == Ok(Valid(ChainOf(db.grants, request.grant)))
    ensures db.grants[request.grant].holder == request.tenant
  {
    var chain := ChainOf(db.grants, request.grant);
    if request.session.None? {
      ReserveForFacts(db, request.tenant, chain, None, request.declared);
    } else {
      var owner := CheckSession(db, request.tenant, chain, request.session.value).value.value;
      ReserveForFacts(db, request.tenant, chain, Some((request.session.value, owner)), request.declared);
    }
  }

  lemma ChainStoredOf(grants: map<GrantId, Grant>, id: GrantId)
    requires GrantsOk(grants) && id in grants
    ensures ChainStored(grants, ChainIds(ChainOf(grants, id)))
  {
    assert GrantOk(grants, id);
    var chain := ChainOf(grants, id);
    assert ChainIds(chain)[0] == chain[0].id == id;
  }

  /** Debiting the reservation and recording the intent stay in balance. */
  lemma BeginBalanced(ledgers: Ledgers, invs: Invs, inv: Invocation)
    requires Balanced(ledgers, invs) && inv.id !in invs && Distinct(inv.ledgers) && !inv.state.IsTerminal()
    requires forall l, d :: l in inv.ledgers ==> Used(ledgers, l).Get(d) + inv.reserved.Get(d) <= U64_MAX
    ensures ReserveAll(ledgers, inv.ledgers, inv.reserved).Ok?
    ensures Balanced(ReserveAll(ledgers, inv.ledgers, inv.reserved).value, invs[inv.id := inv])
  {
    ReserveAllEffect(ledgers, inv.ledgers, inv.reserved);
    var next := ReserveAll(ledgers, inv.ledgers, inv.reserved).value;
    forall l, d ensures Used(next, l).Get(d) == Total(invs[inv.id := inv], l, d) {
      ChargesUpdate(invs, inv.id, inv, l, d);
      assert Used(ledgers, l).Get(d) == Total(invs, l, d);
    }
  }

  /** Debiting within the room keeps every ceiling. */
  lemma ReserveUnder(db: Db, refs: seq<LedgerRef>, cost: Cost, l: LedgerRef)
    requires Distinct(refs) && Room(db, refs, cost)
    requires Under(Used(db.ledgers, l), CeilingOf(db, l))
    ensures ReserveAll(db.ledgers, refs, cost).Ok?
    ensures Under(Used(ReserveAll(db.ledgers, refs, cost).value, l), CeilingOf(db, l))
  {
    RoomFits(db, refs, cost);
    ReserveAllEffect(db.ledgers, refs, cost);
    if l in refs { assert RoomOn(db, l, cost); }
  }

  lemma RoomFits(db: Db, refs: seq<LedgerRef>, cost: Cost)
    requires Room(db, refs, cost)
    ensures forall l, d :: l in refs ==> Used(db.ledgers, l).Get(d) + cost.Get(d) <= U64_MAX
  {
    forall l, d | l in refs ensures Used(db.ledgers, l).Get(d) + cost.Get(d) <= U64_MAX { assert RoomOn(db, l, cost); }
  }

  lemma BeginCeilings(db: Db, refs: seq<LedgerRef>, cost: Cost)
    requires Distinct(refs) && Room(db, refs, cost)
    requires GrantCeilings(db.ledgers, db.grants) && SessionCeilingsOk(db.ledgers, db.sessions)
    requires TenantCeilingsOk(db.ledgers, db.tenants)
    ensures ReserveAll(db.ledgers, refs, cost).Ok?
    ensures var next := ReserveAll(db.ledgers, refs, cost).value;
            GrantCeilings(next, db.grants) && SessionCeilingsOk(next, db.sessions) && TenantCeilingsOk(next, db.tenants)
  {
    RoomFits(db, refs, cost);
    ReserveAllEffect(db.ledgers, refs, cost);
    var next := ReserveAll(db.ledgers, refs, cost).value;
    forall g | g in db.grants ensures Under(Used(next, OfGrant(g)), db.grants[g].ceilings) {
      ReserveUnder(db, refs, cost, OfGrant(g));
    }
    forall s | s in db.sessions ensures Under(Used(next, OfSession(s)), db.sessions[s].ceilings) {
      ReserveUnder(db, refs, cost, OfSession(s));
    }
    forall t | t in db.tenants ensures Under(Used(next, OfTenant(t)), db.tenants[t].ceilings) {
      ReserveUnder(db, refs, cost, OfTenant(t));
    }
  }

  lemma NewInvOk(grants: map<GrantId, Grant>, invs: Invs, inv: Invocation)
    requires InvsOk(grants, invs) && InvOk(grants, inv.id, inv)
    ensures InvsOk(grants, invs[inv.id := inv])
  {
    var next := invs[inv.id := inv];
    forall id {:trigger InvOk(grants, id, next[id])} | id in next ensures InvOk(grants, id, next[id]) {
      if id != inv.id { assert InvOk(grants, id, invs[id]); }
    }
  }

  /** A well-formed intent joins the store beside its debited ledgers. */
  lemma BeginCore(db: Db, inv: Invocation, debited: Ledgers, key: IdemKey, idem: IdemRecord)
    requires Inv(db) && inv.id !in db.invocations && inv.state.IntentPersisted?
    requires InvsOk(db.grants, db.invocations[inv.id := inv])
    requires Live(inv, db.tenants, db.sessions) && idem.invocation == inv.id
    requires Balanced(debited, db.invocations[inv.id := inv]) && GrantCeilings(debited, db.grants)
    requires SessionCeilingsOk(debited, db.sessions) && TenantCeilingsOk(debited, db.tenants)
    ensures Inv(db.(ledgers := debited, invocations := db.invocations[inv.id := inv], idem := db.idem[key := idem]))
  {
    NewInvKnown(db, inv);
  }

  lemma BeginLedgers(db: Db, inv: Invocation)
    requires GrantsOk(db.grants) && InvOk(db.grants, inv.id, inv) && inv.state.IntentPersisted?
    requires inv.id !in db.invocations && Room(db, inv.ledgers, inv.reserved)
    requires Balanced(db.ledgers, db.invocations) && GrantCeilings(db.ledgers, db.grants)
    requires SessionCeilingsOk(db.ledgers, db.sessions) && TenantCeilingsOk(db.ledgers, db.tenants)
    ensures ReserveAll(db.ledgers, inv.ledgers, inv.reserved).Ok?
    ensures var next := ReserveAll(db.ledgers, inv.ledgers, inv.reserved).value;
            && Balanced(next, db.invocations[inv.id := inv])
            && GrantCeilings(next, db.grants)
            && SessionCeilingsOk(next, db.sessions)
            && TenantCeilingsOk(next, db.tenants)
  {
    LedgersDistinct(db.grants, inv.grantChain, inv.session, inv.tenant);
    RoomFits(db, inv.ledgers, inv.reserved);
    BeginBalanced(db.ledgers, db.invocations, inv);
    BeginCeilings(db, inv.ledgers, inv.reserved);
  }

  lemma NewInvKnown(db: Db, inv: Invocation)
    requires inv.id !in db.invocations && inv.state.IntentPersisted? && Live(inv, db.tenants, db.sessions)
    requires AllKnown(db.invocations, db.tenants, db.tombstones, db.sessions)
    requires OpenLive(db.invocations, db.tenants, db.sessions)
    requires ArtifactsOk(db.invocations, db.pending, db.published)
    ensures var invs := db.invocations[inv.id := inv];
            && AllKnown(invs, db.tenants, db.tombstones, db.sessions)
            && OpenLive(invs, db.tenants, db.sessions)
            && ArtifactsOk(invs, db.pending, db.published)
  {
    var invs := db.invocations[inv.id := inv];
    forall id | id in invs ensures Known(invs[id], db.tenants, db.tombstones, db.sessions) {
      if id != inv.id { assert Known(db.invocations[id], db.tenants, db.tombstones, db.sessions); }
    }
    forall id | id in invs && !invs[id].state.IsTerminal() ensures Live(invs[id], db.tenants, db.sessions) {
      if id != inv.id { assert Live(db.invocations[id], db.tenants, db.sessions); }
    }
    forall id: InvocationId {:trigger ArtifactOk(invs, db.pending, db.published, id)}
      ensures ArtifactOk(invs, db.pending, db.published, id)
    {
      assert ArtifactOk(db.invocations, db.pending, db.published, id);
    }
  }

  /** What an allowed intent records. */
  lemma IntentOk(db: Db, intent: Intent, now: Timestamp)
    requires Inv(db) && intent.authz.tenant in db.tenants && !SessionOwnerShredded(db, intent.authz.session)
    requires Authorize(db, intent.authz, now).Ok? && Authorize(db, intent.authz, now).value.Allowed?
    ensures var a := Authorize(db, intent.authz, now).value;
            var inv := IntentRecord(intent, a.chain, a.cost, a.ledgers);
            && InvOk(db.grants, inv.id, inv)
            && Live(inv, db.tenants, db.sessions)
            && Room(db, inv.ledgers, inv.reserved)
  {
    AllowedFacts(db, intent.authz, now);
    ChainStoredOf(db.grants, intent.authz.grant);
  }

  /** B1 keeps the invariant, and meets no inconsistency but an exhausted audit log. */
  lemma BeginKeeps(db: Db, intent: Intent, now: Timestamp)
    requires Inv(db)
    ensures Inv(BeginTx(db, intent, now).After(db))
    ensures BeginTx(db, intent, now).Abort? ==> !BeginTx(db, intent, now).error.Inconsistent? || |db.audit| == U64_MAX
  {
    var auth := Authorize(db, intent.authz, now);
    if intent.authz.tenant in db.tenants && intent.Slot() !in db.idem && intent.invocation !in db.invocations
       && auth.Ok? && auth.value.Allowed? && !SessionOwnerShredded(db, intent.authz.session)
    {
      IntentOk(db, intent, now);
      var inv := IntentRecord(intent, auth.value.chain, auth.value.cost, auth.value.ledgers);
      BeginLedgers(db, inv);
      NewInvOk(db.grants, db.invocations, inv);
      BeginCore(db, inv, ReserveAll(db.ledgers, inv.ledgers, inv.reserved).value, intent.Slot(),
                IdemRecord(intent.invocation, intent.Binding()));
    } else {
      AuditKeeps(db, AuditEntry(intent.authz.tenant, intent.invocation, intent.authz.capability, Lifecycle.Denied,
                                intent.authz.session, Some(intent.authz.grant), None));
    }
  }
}
