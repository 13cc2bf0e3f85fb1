/**
 * What the decisions mean in a store with a well-formed grant forest, stated
 * without the walks: the leaf decides capability, target and time, and the
 * other links only revocation, sessions and budget.
 */
module AuthzLaws {
  import opened Prelude
  import opened Budget
  import opened Origin
  import opened Records
  import opened Grants
  import opened ChainLaws

  /** `t` holds the stored grant `g`, it is in its window, and no grant on its chain is revoked. */
  ghost predicate HoldsLive(db: Db, t: TenantId, g: GrantId, now: Timestamp)
    requires GrantsOk(db.grants)
  {
    && g in db.grants && db.grants[g].holder == t
    && db.grants[g].notBefore <= now < db.grants[g].expiresAt
    && (forall a :: a in db.revocations && a in db.grants ==> !OnChain(db.grants, a, g))
  }

  lemma DesignatedExactly(db: Db, t: TenantId, g: GrantId, c: Capability, now: Timestamp)
    requires GrantsOk(db.grants) && db.revocations.Keys <= db.grants.Keys
    ensures DesignatedChain(db, t, g, c, now).Ok?
    ensures DesignatedChain(db, t, g, c, now).value.Ok? <==> HoldsLive(db, t, g, now) && c in db.grants[g].capabilities
    ensures DesignatedChain(db, t, g, c, now).value.Ok? ==>
              DesignatedChain(db, t, g, c, now).value.value == ChainOf(db.grants, g)
  {
    if g in db.grants {
      assert GrantOk(db.grants, g);
      ChainUsable(db, g, now);
      LeafDecidesCapability(db.grants, g, c);
      RevokedOnChain(db, g);
    }
  }

  /** No link is revoked exactly when no revoked grant is on the chain. */
  lemma RevokedOnChain(db: Db, g: GrantId)
    requires GrantsOk(db.grants) && g in db.grants && db.revocations.Keys <= db.grants.Keys
    ensures (forall i :: 0 <= i < |ChainOf(db.grants, g)| ==> ChainOf(db.grants, g)[i].id !in db.revocations)
            <==> forall a :: a in db.revocations && a in db.grants ==> !OnChain(db.grants, a, g)
  {
    var chain := ChainOf(db.grants, g);
    var ids := ChainIds(chain);
    forall a | a in db.revocations && OnChain(db.grants, a, g)
      ensures exists i :: 0 <= i < |chain| && chain[i].id in db.revocations
    {
      var i :| 0 <= i < |ids| && ids[i] == a;
      assert chain[i].id == a;
    }
    forall i | 0 <= i < |chain| ensures OnChain(db.grants, chain[i].id, g) { assert ids[i] == chain[i].id; }
  }

  /** Link `g` admits a session of `owner`. */
  ghost predicate LinkAdmits(db: Db, g: Grant, session: SessionId, owner: TenantId) {
    match g.sessionScope
    case Own => exists k: nat :: k < LINEAGE_STEPS && Above(db.tenants, owner, k) == Some(g.holder)
    case Sessions(ids) => session in ids
  }

  lemma LinkExactly(db: Db, g: Grant, session: SessionId, owner: TenantId)
    ensures g.sessionScope.Own? ==>
              (InLineage(db.tenants, owner, g.holder) == Ok(true) <==> LinkAdmits(db, g, session, owner))
  {
    if g.sessionScope.Own? {
      if LinkAdmits(db, g, session, owner) {
        var k: nat :| k < LINEAGE_STEPS && Above(db.tenants, owner, k) == Some(g.holder);
        LineageFinds(db.tenants, owner, g.holder, LINEAGE_STEPS, k);
      }
      if InLineage(db.tenants, owner, g.holder) == Ok(true) {
        var k := LineageWitness(db.tenants, owner, g.holder, LINEAGE_STEPS);
      }
    }
  }

  lemma {:induction false} AdmittedExactly(db: Db, chain: seq<Grant>, session: SessionId, owner: TenantId)
    ensures SessionAdmitted(db, chain, session, owner) == Ok(true) <==>
            forall i :: 0 <= i < |chain| ==> LinkAdmits(db, chain[i], session, owner)
  {
    if chain != [] {
      var rest := chain[1..];
      LinkExactly(db, chain[0], session, owner);
      AdmittedExactly(db, rest, session, owner);
      assert SessionAdmitted(db, chain, session, owner) == Ok(true) <==>
             LinkAdmits(db, chain[0], session, owner) && SessionAdmitted(db, rest, session, owner) == Ok(true);
      assert forall i :: 0 <= i < |rest| ==> rest[i] == chain[i + 1];
      if forall i :: 0 <= i < |chain| ==> LinkAdmits(db, chain[i], session, owner) {
        forall i | 0 <= i < |rest|
          ensures LinkAdmits(db, rest[i], session, owner)
        {
          assert LinkAdmits(db, chain[i + 1], session, owner);
        }
      }
      if && LinkAdmits(db, chain[0], session, owner)
         && forall i :: 0 <= i < |rest| ==> LinkAdmits(db, rest[i], session, owner)
      {
        forall i | 0 <= i < |chain| ensures LinkAdmits(db, chain[i], session, owner) {
          if i > 0 { assert LinkAdmits(db, rest[i - 1], session, owner); }
        }
      }
    }
  }

  /** The session part of a call: none where none is needed, or one every link admits. */
  ghost predicate SessionFits(db: Db, chain: seq<Grant>, c: Capability, session: Option<SessionId>) {
    match session
    case None => SessionRequirement(c) != Required
    case Some(s) =>
      s in db.sessions && forall i :: 0 <= i < |chain| ==> LinkAdmits(db, chain[i], s, db.sessions[s].owner)
  }

  ghost function SessionOf(db: Db, session: Option<SessionId>): Option<(SessionId, TenantId)>
    requires session.Some? ==> session.value in db.sessions
  {
    if session.Some? then Some((session.value, db.sessions[session.value].owner)) else None
  }

  /** Every ledger the call debits has room for the declared cost. */
  ghost predicate BudgetFits(db: Db, tenant: TenantId, chain: seq<Grant>, session: Option<SessionId>, declared: Cost)
    requires session.Some? ==> session.value in db.sessions
  {
    var states := LedgerStates(db, tenant, chain, SessionOf(db, session));
    forall i, d :: 0 <= i < |states| ==> Covers(states[i], declared, d) && !Overflows(states[i], declared, d)
  }

  lemma ReserveExactly(db: Db, tenant: TenantId, chain: seq<Grant>, session: Option<SessionId>, declared: Cost)
    requires session.Some? ==> session.value in db.sessions
    ensures var r := ReserveFor(db, tenant, chain, SessionOf(db, session), declared);
            r.Ok? && r.value.Allowed? <==> BudgetFits(db, tenant, chain, session, declared)
  {
  }

  /**
   * A call is allowed exactly when its designated grant is held and live, the
   * leaf confers the capability and admits the target, the capability is
   * served, every link admits the session, and every ledger has room.
   */
  lemma AllowedExactly(db: Db, request: AuthzRequest, now: Timestamp)
    requires GrantsOk(db.grants) && db.revocations.Keys <= db.grants.Keys
    requires request.session.None? || SessionRequirement(request.capability) != Forbidden
    ensures var r := Authorize(db, request, now);
            r.Ok? && r.value.Allowed? <==>
              && HoldsLive(db, request.tenant, request.grant, now)
              && request.capability in db.grants[request.grant].capabilities
              && IsServed(request.capability)
              && SessionFits(db, ChainOf(db.grants, request.grant), request.capability, request.session)
              && TargetAdmitted([db.grants[request.grant]], request.capability, request.target)
              && BudgetFits(db, request.tenant, ChainOf(db.grants, request.grant), request.session, request.declared)
  {
    DesignatedExactly(db, request.tenant, request.grant, request.capability, now);
    if DesignatedChain(db, request.tenant, request.grant, request.capability, now).value.Ok? {
      AdmittedCall(db, request, now, ChainOf(db.grants, request.grant));
      LeafDecidesTarget(db.grants, request.grant, request.capability, request.target);
    }
  }

  /** Once the chain is accepted, what remains to decide. */
  lemma AdmittedCall(db: Db, request: AuthzRequest, now: Timestamp, chain: seq<Grant>)
    requires DesignatedChain(db, request.tenant, request.grant, request.capability, now) == Ok(Ok(chain))
    requires request.session.None? || SessionRequirement(request.capability) != Forbidden
    ensures var r := Authorize(db, request, now);
            r.Ok? && r.value.Allowed? <==>
              && IsServed(request.capability)
              && SessionFits(db, chain, request.capability, request.session)
              && TargetAdmitted(chain, request.capability, request.target)
              && BudgetFits(db, request.tenant, chain, request.session, request.declared)
  {
    if request.session.Some? && request.session.value in db.sessions {
      AdmittedExactly(db, chain, request.session.value, db.sessions[request.session.value].owner);
    }
    if request.session.Some? ==> request.session.value in db.sessions {
      ReserveExactly(db, request.tenant, chain, request.session, request.declared);
    }
  }

  /** A grant may be revoked exactly by the live holder of a revoking grant on its chain. */
  lemma RevokeExactly(db: Db, tenant: TenantId, designated: GrantId, target: GrantId, now: Timestamp)
    requires GrantsOk(db.grants) && db.revocations.Keys <= db.grants.Keys
    ensures CheckRevoke(db, tenant, designated, target, now).Ok?
    ensures CheckRevoke(db, tenant, designated, target, now).value.RevokeRefused? <==>
            !(&& HoldsLive(db, tenant, designated, now) && GrantRevoke in db.grants[designated].capabilities
              && target in db.grants && OnChain(db.grants, designated, target))
    ensures CheckRevoke(db, tenant, designated, target, now).value.Revoke? ==> target !in db.revocations
  {
    DesignatedExactly(db, tenant, designated, GrantRevoke, now);
    InSubtreeIsChain(db.grants, designated, target);
  }

  /** The eight axes on which a child must stay within its parent. */
  ghost predicate Narrows(db: Db, parent: Grant, child: Grant) {
    && child.capabilities <= parent.capabilities
    && AuditWithin(child.auditScope, parent.auditScope)
    && SessionScopeWithin(db, parent, child) == Ok(true)
    && ScopeCovers(parent.targets, child.targets)
    && CeilingsWithin(parent.ceilings, Used(db.ledgers, OfGrant(parent.id)), child.ceilings)
    && WindowWithin(parent, child)
    && child.depth == parent.depth + 1 < parent.maxDepth && child.maxDepth <= parent.maxDepth
    && child.parent == Some(parent.id) && child.issuer == parent.holder
  }

  /**
   * A child is issued exactly when the designated grant is held, live and
   * confers issuing, the targets parse, and the child narrows it; its audit
   * scope is always the narrow one.
   */
  lemma IssuedExactly(db: Db, issuer: TenantId, designated: GrantId, child: GrantId, request: IssueRequest,
                      now: Timestamp)
    requires GrantsOk(db.grants) && db.revocations.Keys <= db.grants.Keys
    ensures var r := CheckIssue(db, issuer, designated, child, request, now);
            r.Ok? && r.value.Issued? <==>
              && HoldsLive(db, issuer, designated, now)
              && GrantIssue in db.grants[designated].capabilities
              && ParseScope(request.targetText).Some?
              && db.grants[designated].depth < 255
              && Narrows(db, db.grants[designated],
                         Candidate(db.grants[designated], child, request, ParseScope(request.targetText).value))
    ensures var r := CheckIssue(db, issuer, designated, child, request, now);
            r.Ok? && r.value.Issued? ==> r.value.child.auditScope.OwnAndOwnedSessions? && r.value.child.id == child
  {
    DesignatedExactly(db, issuer, designated, GrantIssue, now);
    if designated in db.grants {
      assert GrantOk(db.grants, designated);
      ChainUsable(db, designated, now);
    }
  }
}
