/**
 * The store invariant: every reachable content balances its ledgers against
 * the invocations charged to them, stays within every ceiling, keeps the
 * tenants an open invocation still needs, and publishes exactly at B4.
 */
module CustodyInv {
  import opened Prelude
  import opened Budget
  import opened Records
  import opened Grants
  import opened ChainLaws
  import opened Custody

  // ---- conservation -------------------------------------------------------------

  /** What one invocation holds on ledger `l`: its reservation while open, its debit once ended. */
  ghost function Charge(inv: Invocation, l: LedgerRef, d: Dimension): nat {
    if l !in inv.ledgers then 0
    else if !inv.state.IsTerminal() then inv.reserved.Get(d)
    else if inv.debited.Some? then inv.debited.value.Get(d)
    else 0
  }

  ghost function Charges(invs: map<InvocationId, Invocation>, l: LedgerRef, d: Dimension): map<InvocationId, nat> {
    map id | id in invs :: Charge(invs[id], l, d)
  }

  /** Everything charged to ledger `l` on dimension `d`. */
  ghost function Total(invs: map<InvocationId, Invocation>, l: LedgerRef, d: Dimension): nat
  {
    Sum(Charges(invs, l, d))
  }

  ghost predicate Balanced(ledgers: map<LedgerRef, Cost>, invs: map<InvocationId, Invocation>) {
    forall l, d :: Used(ledgers, l).Get(d) == Total(invs, l, d)
  }

  /** `used` stays at or below each ceiling that is set. */
  ghost predicate Under(used: Cost, ceilings: Ceilings) {
    forall d :: ceilings.Get(d).Some? ==> used.Get(d) <= ceilings.Get(d).value
  }

  ghost predicate GrantCeilings(ledgers: map<LedgerRef, Cost>, grants: map<GrantId, Grant>) {
    forall g {:trigger Under(Used(ledgers, OfGrant(g)), grants[g].ceilings)} ::
      g in grants ==> Under(Used(ledgers, OfGrant(g)), grants[g].ceilings)
  }

  ghost predicate SessionCeilingsOk(ledgers: map<LedgerRef, Cost>, sessions: map<SessionId, SessionRecord>) {
    forall s {:trigger Under(Used(ledgers, OfSession(s)), sessions[s].ceilings)} ::
      s in sessions ==> Under(Used(ledgers, OfSession(s)), sessions[s].ceilings)
  }

  ghost predicate TenantCeilingsOk(ledgers: map<LedgerRef, Cost>, tenants: map<TenantId, TenantRecord>) {
    forall t {:trigger Under(Used(ledgers, OfTenant(t)), tenants[t].ceilings)} ::
      t in tenants ==> Under(Used(ledgers, OfTenant(t)), tenants[t].ceilings)
  }

  // ---- one invocation -------------------------------------------------------------

  function LedgersOf(chain: seq<GrantId>, session: Option<SessionId>, tenant: TenantId): (r: seq<LedgerRef>)
    ensures forall g: GrantId :: OfGrant(g) in r <==> g in chain
    ensures forall s: SessionId :: OfSession(s) in r <==> session == Some(s)
    ensures forall t: TenantId :: OfTenant(t) in r <==> t == tenant
    ensures |r| == |chain| + (if session.Some? then 2 else 1)
    ensures forall i :: 0 <= i < |chain| ==> r[i] == OfGrant(chain[i])
  {
    var grants := seq(|chain|, i requires 0 <= i < |chain| => OfGrant(chain[i]));
    assert forall g :: OfGrant(g) in grants <==> g in chain by {
      forall g | g in chain
        ensures OfGrant(g) in grants
      {
        var i :| 0 <= i < |chain| && chain[i] == g; assert grants[i] == OfGrant(g);
      }
    }
    grants + (if session.Some? then [OfSession(session.value)] else []) + [OfTenant(tenant)]
  }

  /** The recorded chain is the stored chain of its leaf. */
  ghost predicate ChainStored(grants: map<GrantId, Grant>, ids: seq<GrantId>) {
    && ids != []
    && ids[0] in grants
    && LoadChain(grants, grants[ids[0]]).Ok?
    && ChainIds(LoadChain(grants, grants[ids[0]]).value) == ids
  }

  ghost predicate LifeOk(inv: Invocation) {
    && !inv.state.Planned? && !inv.state.Denied?
    && (inv.terminal.Some? <==> inv.state.IsTerminal())
    && (inv.debited.Some? <==> inv.state.IsTerminal())
    && (inv.terminal.Some? ==> inv.terminal.value.EndState() == inv.state)
    && (inv.debited.Some? ==> forall d :: inv.debited.value.Get(d) <= inv.reserved.Get(d))
    && (inv.state.Released? ==> inv.debited == Some(ZERO))
    && (inv.state.UnknownEffect? ==> inv.debited == Some(inv.reserved))
    && (inv.state.TransferComplete? || inv.state.Published? ==> inv.actual.Some?)
  }

  ghost predicate InvOk(grants: map<GrantId, Grant>, id: InvocationId, inv: Invocation) {
    && inv.id == id
    && ChainStored(grants, inv.grantChain)
    && inv.ledgers == LedgersOf(inv.grantChain, inv.session, inv.tenant)
    && LifeOk(inv)
  }

  ghost predicate InvsOk(grants: map<GrantId, Grant>, invs: map<InvocationId, Invocation>) {
    forall id {:trigger InvOk(grants, id, invs[id])} :: id in invs ==> InvOk(grants, id, invs[id])
  }

  // ---- the directory and what open invocations need ----------------------------------

  ghost predicate TenantsOk(tenants: map<TenantId, TenantRecord>, tombstones: set<TenantId>) {
    forall t :: t in tenants ==> tenants[t].id == t && t !in tombstones
  }

  ghost predicate SessionsOk(sessions: map<SessionId, SessionRecord>, tenants: map<TenantId, TenantRecord>,
                             tombstones: set<TenantId>)
  {
    forall s :: s in sessions ==>
      sessions[s].id == s && (sessions[s].owner in tenants || sessions[s].owner in tombstones)
  }

  /** The invocation names a tenant and a session the store knows. */
  ghost predicate Known(inv: Invocation, tenants: map<TenantId, TenantRecord>, tombstones: set<TenantId>,
                        sessions: map<SessionId, SessionRecord>)
  {
    && (inv.tenant in tenants || inv.tenant in tombstones)
    && (inv.session.Some? ==> inv.session.value in sessions)
  }

  ghost predicate AllKnown(invs: map<InvocationId, Invocation>, tenants: map<TenantId, TenantRecord>,
                           tombstones: set<TenantId>, sessions: map<SessionId, SessionRecord>)
  {
    forall id {:trigger Known(invs[id], tenants, tombstones, sessions)} ::
      id in invs ==> Known(invs[id], tenants, tombstones, sessions)
  }

  /** The invocation's tenant and session owner still have their keys. */
  ghost predicate Live(inv: Invocation, tenants: map<TenantId, TenantRecord>, sessions: map<SessionId, SessionRecord>) {
    && inv.tenant in tenants
    && (inv.session.Some? ==> inv.session.value in sessions && sessions[inv.session.value].owner in tenants)
  }

  ghost predicate OpenLive(invs: map<InvocationId, Invocation>, tenants: map<TenantId, TenantRecord>,
                           sessions: map<SessionId, SessionRecord>)
  {
    forall id {:trigger Live(invs[id], tenants, sessions)} ::
      id in invs && !invs[id].state.IsTerminal() ==> Live(invs[id], tenants, sessions)
  }

  /** A capture is visible exactly from B4 on. */
  ghost predicate Visible(inv: Invocation) {
    inv.state.Published? || (inv.state.Settled? && inv.terminal == Some(SettledAs(None)))
  }

  /** The side record is the invocation's own. */
  ghost predicate Describes(a: Artifact, inv: Invocation) {
    && a.id == inv.id && a.invocation == inv.id && inv.artifact == Some(a.id)
    && a.tenant == inv.tenant && a.session == inv.session && a.revokedAfterEffect == inv.revokedAfterEffect
  }

  /** Pending exactly at B3, published exactly from B4 on, each under its own side record. */
  ghost predicate ArtifactOk(invs: map<InvocationId, Invocation>, pending: map<InvocationId, Artifact>,
                             published: map<Id, Artifact>, id: InvocationId)
  {
    && (id in pending <==> id in invs && invs[id].state.TransferComplete?)
    && (id in published <==> id in invs && Visible(invs[id]))
    && (id in pending ==> Describes(pending[id], invs[id]) && pending[id].publishedAt.None?)
    && (id in published ==> Describes(published[id], invs[id]) && published[id].publishedAt.Some?)
  }

  ghost predicate ArtifactsOk(invs: map<InvocationId, Invocation>, pending: map<InvocationId, Artifact>,
                              published: map<Id, Artifact>)
  {
    forall id: InvocationId {:trigger ArtifactOk(invs, pending, published, id)} ::
      ArtifactOk(invs, pending, published, id)
  }

  ghost predicate IdemOk(idem: map<IdemKey, IdemRecord>, invs: map<InvocationId, Invocation>) {
    forall k {:trigger idem[k]} :: k in idem && idem[k].binding.IntentBinding? ==> idem[k].invocation in invs
  }

  ghost predicate Inv(db: Db) {
    && GrantsOk(db.grants)
    && InvsOk(db.grants, db.invocations)
    && Balanced(db.ledgers, db.invocations)
    && GrantCeilings(db.ledgers, db.grants)
    && SessionCeilingsOk(db.ledgers, db.sessions)
    && TenantCeilingsOk(db.ledgers, db.tenants)
    && TenantsOk(db.tenants, db.tombstones)
    && SessionsOk(db.sessions, db.tenants, db.tombstones)
    && db.revocations.Keys <= db.grants.Keys
    && AllKnown(db.invocations, db.tenants, db.tombstones, db.sessions)
    && OpenLive(db.invocations, db.tenants, db.sessions)
    && ArtifactsOk(db.invocations, db.pending, db.published)
    && IdemOk(db.idem, db.invocations)
    && |db.audit| <= U64_MAX
  }

  // ---- ledger movements ---------------------------------------------------------------

  lemma ChargesUpdate(invs: map<InvocationId, Invocation>, id: InvocationId, inv: Invocation, l: LedgerRef,
                      d: Dimension)
    ensures Total(invs[id := inv], l, d) + (if id in invs then Charge(invs[id], l, d) else 0)
            == Total(invs, l, d) + Charge(inv, l, d)
  {
    assert Charges(invs[id := inv], l, d) == Charges(invs, l, d)[id := Charge(inv, l, d)];
    SumUpdate(Charges(invs, l, d), id, Charge(inv, l, d));
  }

  /** No one charge exceeds the total. */
  lemma ChargeBound(invs: map<InvocationId, Invocation>, id: InvocationId, l: LedgerRef, d: Dimension)
    requires id in invs
    ensures Charge(invs[id], l, d) <= Total(invs, l, d)
  {
    SumSplit(Charges(invs, l, d), id);
  }

  lemma ReserveOne(ledgers: map<LedgerRef, Cost>, r: LedgerRef, amount: Cost)
    requires forall d :: Used(ledgers, r).Get(d) + amount.Get(d) <= U64_MAX
    ensures Reserve(Used(ledgers, r), amount).Ok?
    ensures var next := ledgers[r := Reserve(Used(ledgers, r), amount).value];
            forall l, d :: Used(next, l).Get(d) == Used(ledgers, l).Get(d) + (if l == r then amount.Get(d) else 0)
  {
  }

  lemma ReleaseOne(ledgers: map<LedgerRef, Cost>, r: LedgerRef, amount: Cost)
    requires forall d :: amount.Get(d) <= Used(ledgers, r).Get(d)
    ensures Release(Used(ledgers, r), amount).Ok?
    ensures var next := ledgers[r := Release(Used(ledgers, r), amount).value];
            forall l, d :: Used(next, l).Get(d) + (if l == r then amount.Get(d) else 0) == Used(ledgers, l).Get(d)
  {
  }

  lemma SplitDistinct(refs: seq<LedgerRef>)
    requires Distinct(refs) && refs != []
    ensures Distinct(refs[1..]) && refs[0] !in refs[1..]
    ensures forall l :: l in refs <==> l == refs[0] || l in refs[1..]
  {
  }

  lemma {:induction false} ReserveAllEffect(ledgers: map<LedgerRef, Cost>, refs: seq<LedgerRef>, amount: Cost)
    requires Distinct(refs)
    requires forall l, d :: l in refs ==> Used(ledgers, l).Get(d) + amount.Get(d) <= U64_MAX
    ensures ReserveAll(ledgers, refs, amount).Ok?
    ensures var r := ReserveAll(ledgers, refs, amount).value;
            forall l, d :: Used(r, l).Get(d) == Used(ledgers, l).Get(d) + (if l in refs then amount.Get(d) else 0)
    decreases |refs|
  {
    if refs != [] {
      ReserveOne(ledgers, refs[0], amount);
      SplitDistinct(refs);
      ReserveAllEffect(ledgers[refs[0] := Reserve(Used(ledgers, refs[0]), amount).value], refs[1..], amount);
    }
  }

  /** Releasing what every ledger holds succeeds and lowers each by it. */
  lemma {:induction false} ReleaseAllEffect(ledgers: map<LedgerRef, Cost>, refs: seq<LedgerRef>, amount: Cost)
    requires Distinct(refs)
    requires forall l, d :: l in refs ==> amount.Get(d) <= Used(ledgers, l).Get(d)
    ensures ReleaseAll(ledgers, refs, amount).Ok?
    ensures var r := ReleaseAll(ledgers, refs, amount).value;
            forall l, d :: Used(r, l).Get(d) + (if l in refs then amount.Get(d) else 0) == Used(ledgers, l).Get(d)
    decreases |refs|
  {
    if refs != [] {
      ReleaseOne(ledgers, refs[0], amount);
      SplitDistinct(refs);
      ReleaseAllEffect(ledgers[refs[0] := Release(Used(ledgers, refs[0]), amount).value], refs[1..], amount);
    }
  }

  /** A recorded chain names distinct ledgers. */
  lemma LedgersDistinct(grants: map<GrantId, Grant>, ids: seq<GrantId>, session: Option<SessionId>, tenant: TenantId)
    requires GrantsOk(grants) && ChainStored(grants, ids)
    ensures Distinct(LedgersOf(ids, session, tenant))
  {
    var chain := ChainOf(grants, ids[0]);
    PathDistinct(grants, chain);
    var r := LedgersOf(ids, session, tenant);
    forall i, j | 0 <= i < j < |r| ensures r[i] != r[j] {
      if j < |ids| { assert r[i] == OfGrant(chain[i].id) && r[j] == OfGrant(chain[j].id); }
    }
  }

  /** Adding grants keeps every invocation well formed. */
  lemma InvsExtend(small: map<GrantId, Grant>, big: map<GrantId, Grant>, invs: map<InvocationId, Invocation>)
    requires Extends(small, big) && InvsOk(small, invs)
    ensures InvsOk(big, invs)
  {
    forall id {:trigger InvOk(big, id, invs[id])} | id in invs ensures InvOk(big, id, invs[id]) {
      assert InvOk(small, id, invs[id]);
      LoadChainExtends(small, big, small[invs[id].grantChain[0]]);
    }
  }
}
