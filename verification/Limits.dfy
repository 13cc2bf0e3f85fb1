/**
 * The limits a capture declares: the caller's own, else the smallest remaining
 * ceiling among the ledgers it owns, never above the daemon's caps.
 */
module Limits {
  import opened Prelude
  import opened Budget
  import opened Records
  import opened Grants
  import opened ChainLaws
  import opened CustodyInv
  import Custody

  function Declared(requested: Option<U64>, remaining: Option<U64>, cap: U64): U64 {
    var wanted := if requested.Some? then requested.value else if remaining.Some? then remaining.value else cap;
    if wanted <= cap then wanted else cap
  }

  datatype CaptureLimits = CaptureLimits(output: Option<U64>, transfer: Option<U64>)

  datatype Call = Call(tenant: TenantId, grant: GrantId, session: SessionId, target: Option<string>, budget: U64,
                       deadlineMs: U64)

  /** The session counts only when the caller owns it. */
  function OwnedSession(db: Db, tenant: TenantId, session: SessionId): Option<(SessionId, TenantId)> {
    if session in db.sessions && db.sessions[session].owner == tenant then Some((session, tenant)) else None
  }

  function CallerRemaining(db: Db, tenant: TenantId, chain: seq<Grant>, session: SessionId): Ceilings {
    OwnRemaining(LedgerStates(db, tenant, chain, OwnedSession(db, tenant, session)))
  }

  /** A grant that cannot authorize a capture yields no ceilings. */
  function RemainingFor(db: Db, call: Call, now: Timestamp): Result<Ceilings, Fault> {
    match DesignatedChain(db, call.tenant, call.grant, Capture, now)
    case Err(e) => Err(e)
    case Ok(Err(_)) => Ok(NO_CEILINGS)
    case Ok(Ok(chain)) => Ok(CallerRemaining(db, call.tenant, chain, call.session))
  }

  function LimitsFor(db: Db, call: Call, requested: CaptureLimits, now: Timestamp): Result<CaptureLimits, Fault> {
    match RemainingFor(db, call, now)
    case Err(e) => Err(e)
    case Ok(left) =>
      Ok(CaptureLimits(Some(Declared(requested.output, left.outputBytes, call.budget)),
                       Some(Declared(requested.transfer, left.bytesTransferred, Custody.MAX_PLAINTEXT_LEN))))
  }

  function CaptureCost(limits: CaptureLimits, deadlineMs: U64): Cost {
    Cost(deadlineMs, 1, if limits.transfer.Some? then limits.transfer.value else 0,
         if limits.output.Some? then limits.output.value else 0, 0, 0)
  }

  function RequestFor(call: Call, limits: CaptureLimits): AuthzRequest {
    AuthzRequest(call.tenant, call.grant, Capture, call.target, Some(call.session),
                 CaptureCost(limits, call.deadlineMs))
  }

  // ---- defaulted limits fit --------------------------------------------------------------------

  /** The ledgers of the decision that the caller owns are among those the default was taken from. */
  lemma OwnAmong(db: Db, tenant: TenantId, chain: seq<Grant>, session: SessionId, owner: TenantId, i: nat)
    requires session in db.sessions && db.sessions[session].owner == owner
    requires i < |LedgerStates(db, tenant, chain, Some((session, owner)))|
    requires LedgerStates(db, tenant, chain, Some((session, owner)))[i].own
    ensures exists j :: 0 <= j < |LedgerStates(db, tenant, chain, OwnedSession(db, tenant, session))|
              && LedgerStates(db, tenant, chain, OwnedSession(db, tenant, session))[j]
                 == LedgerStates(db, tenant, chain, Some((session, owner)))[i]
  {
    var wide := LedgerStates(db, tenant, chain, Some((session, owner)));
    var narrow := LedgerStates(db, tenant, chain, OwnedSession(db, tenant, session));
    if owner == tenant {
      assert narrow[i] == wide[i];
    } else if i < |chain| {
      assert narrow[i] == wide[i] == GrantLedgers(db, tenant, chain)[i];
    } else {
      assert i == |chain| + 1 && narrow[|chain|] == wide[i];
    }
  }

  /** A declared default is within what every own ledger has left on that dimension. */
  lemma DefaultCovers(db: Db, tenant: TenantId, chain: seq<Grant>, session: SessionId, owner: TenantId, declared: Cost,
                      d: Dimension, cap: U64, i: nat)
    requires session in db.sessions && db.sessions[session].owner == owner
    requires i < |LedgerStates(db, tenant, chain, Some((session, owner)))|
    requires var l := LedgerStates(db, tenant, chain, Some((session, owner)))[i]; l.own && Under(l.used, l.ceilings)
    requires var own := LedgerStates(db, tenant, chain, OwnedSession(db, tenant, session));
             declared.Get(d) == Declared(None, OwnLeft(own, d), cap)
    ensures Covers(LedgerStates(db, tenant, chain, Some((session, owner)))[i], declared, d)
  {
    OwnAmong(db, tenant, chain, session, owner, i);
    var l := LedgerStates(db, tenant, chain, Some((session, owner)))[i];
    var narrow := LedgerStates(db, tenant, chain, OwnedSession(db, tenant, session));
    var j :| 0 <= j < |narrow| && narrow[j] == l;
    if l.ceilings.Get(d).Some? {
      assert OwnLeft(narrow, d).Some? && OwnLeft(narrow, d).value <= Monus(l.ceilings.Get(d).value, l.used.Get(d));
      assert l.used.Get(d) <= l.ceilings.Get(d).value;
    }
  }

  /** In a well-formed store every planned ledger is within its ceilings. */
  lemma StateUnder(db: Db, tenant: TenantId, chain: seq<Grant>, session: SessionId, owner: TenantId, i: nat)
    requires Inv(db) && IsPath(db.grants, chain) && session in db.sessions
    requires i < |LedgerStates(db, tenant, chain, Some((session, owner)))|
    ensures var l := LedgerStates(db, tenant, chain, Some((session, owner)))[i]; Under(l.used, l.ceilings)
  {
    var l := LedgerStates(db, tenant, chain, Some((session, owner)))[i];
    if i < |chain| {
      assert Under(Used(db.ledgers, OfGrant(chain[i].id)), db.grants[chain[i].id].ceilings);
    } else if i == |chain| {
      assert Under(Used(db.ledgers, OfSession(session)), db.sessions[session].ceilings);
    } else if tenant in db.tenants {
      assert Under(Used(db.ledgers, OfTenant(tenant)), db.tenants[tenant].ceilings);
    }
  }

  /** The reservation for defaulted limits never falls short on transfer or output on an own ledger. */
  lemma DefaultReserves(db: Db, tenant: TenantId, chain: seq<Grant>, session: SessionId, declared: Cost, cap: U64,
                        d: Dimension)
    requires Inv(db) && IsPath(db.grants, chain) && session in db.sessions
    requires var own := LedgerStates(db, tenant, chain, OwnedSession(db, tenant, session));
             declared.Get(d) == Declared(None, OwnLeft(own, d), cap)
    ensures var owner := db.sessions[session].owner;
            ReserveFor(db, tenant, chain, Some((session, owner)), declared) != Ok(Refused(BudgetExceeded(d)))
  {
    var owner := db.sessions[session].owner;
    var states := LedgerStates(db, tenant, chain, Some((session, owner)));
    forall i | 0 <= i < |states| && states[i].own ensures Covers(states[i], declared, d) {
      StateUnder(db, tenant, chain, session, owner, i);
      DefaultCovers(db, tenant, chain, session, owner, declared, d, cap, i);
    }
  }

  /** What the caller asks for on a byte dimension, and the daemon's cap on it. */
  function AskedOn(requested: CaptureLimits, d: Dimension): Option<U64>
    requires d.BytesTransferred? || d.OutputBytes?
  {
    if d.OutputBytes? then requested.output else requested.transfer
  }

  function CapOn(call: Call, d: Dimension): U64
    requires d.BytesTransferred? || d.OutputBytes?
  {
    if d.OutputBytes? then call.budget else Custody.MAX_PLAINTEXT_LEN
  }

  lemma DefaultLimit(db: Db, call: Call, requested: CaptureLimits, now: Timestamp, chain: seq<Grant>, d: Dimension)
    requires DesignatedChain(db, call.tenant, call.grant, Capture, now) == Ok(Ok(chain))
    requires (d.BytesTransferred? || d.OutputBytes?) && AskedOn(requested, d).None?
    ensures LimitsFor(db, call, requested, now).Ok?
    ensures CaptureCost(LimitsFor(db, call, requested, now).value, call.deadlineMs).Get(d)
            == Declared(None, CallerRemaining(db, call.tenant, chain, call.session).Get(d), CapOn(call, d))
  {
  }

  /** Only the reservation refuses for budget, once the chain and the session are admitted. */
  lemma BudgetRefused(db: Db, request: AuthzRequest, now: Timestamp, d: Dimension)
    requires request.session.Some? && Authorize(db, request, now) == Ok(Refused(BudgetExceeded(d)))
    ensures DesignatedChain(db, request.tenant, request.grant, request.capability, now).Ok?
    ensures DesignatedChain(db, request.tenant, request.grant, request.capability, now).value.Ok?
    ensures request.session.value in db.sessions
    ensures var chain := DesignatedChain(db, request.tenant, request.grant, request.capability, now).value.value;
            ReserveFor(db, request.tenant, chain,
                       Some((request.session.value, db.sessions[request.session.value].owner)),
                       request.declared)
            == Ok(Refused(BudgetExceeded(d)))
  {
  }

  lemma DesignatedPath(db: Db, call: Call, now: Timestamp, chain: seq<Grant>)
    requires GrantsOk(db.grants) && DesignatedChain(db, call.tenant, call.grant, Capture, now) == Ok(Ok(chain))
    ensures IsPath(db.grants, chain)
  {
    LoadChainOk(db.grants, call.grant);
  }

  lemma NoDefaultRefusal(db: Db, call: Call, requested: CaptureLimits, now: Timestamp, chain: seq<Grant>, d: Dimension)
    requires Inv(db) && call.session in db.sessions
    requires DesignatedChain(db, call.tenant, call.grant, Capture, now) == Ok(Ok(chain))
    requires (d.BytesTransferred? || d.OutputBytes?) && AskedOn(requested, d).None?
    ensures LimitsFor(db, call, requested, now).Ok?
    ensures var cost := CaptureCost(LimitsFor(db, call, requested, now).value, call.deadlineMs);
            ReserveFor(db, call.tenant, chain, Some((call.session, db.sessions[call.session].owner)), cost)
            != Ok(Refused(BudgetExceeded(d)))
  {
    DefaultLimit(db, call, requested, now, chain, d);
    DesignatedPath(db, call, now, chain);
    var cost := CaptureCost(LimitsFor(db, call, requested, now).value, call.deadlineMs);
    DefaultReserves(db, call.tenant, chain, call.session, cost, CapOn(call, d), d);
  }

  /**
   * A limit the caller omits, whatever it asks for on the other dimension,
   * never makes the decision on the same snapshot refuse for that dimension
   * on a ledger the caller owns.
   */
  lemma DefaultsFit(db: Db, call: Call, requested: CaptureLimits, now: Timestamp, d: Dimension)
    requires Inv(db) && LimitsFor(db, call, requested, now).Ok?
    requires (d.BytesTransferred? || d.OutputBytes?) && AskedOn(requested, d).None?
    ensures var limits := LimitsFor(db, call, requested, now).value;
            Authorize(db, RequestFor(call, limits), now) != Ok(Refused(BudgetExceeded(d)))
  {
    var request := RequestFor(call, LimitsFor(db, call, requested, now).value);
    if Authorize(db, request, now) == Ok(Refused(BudgetExceeded(d))) {
      BudgetRefused(db, request, now, d);
      NoDefaultRefusal(db, call, requested, now, DesignatedChain(db, call.tenant, call.grant, Capture, now).value.value,
                       d);
    }
  }

  // ---- declared limits disclose only own ledgers --------------------------------------------------

  /** `t` owns ledger `l`. */
  ghost predicate Owns(db: Db, t: TenantId, l: LedgerRef) {
    match l
    case OfGrant(g) => g in db.grants && db.grants[g].holder == t
    case OfSession(s) => s in db.sessions && db.sessions[s].owner == t
    case OfTenant(u) => u == t
  }

  /** The stores differ at most in ledgers, session ceilings and tenant ceilings that are not `t`'s. */
  ghost predicate SameForOwner(a: Db, b: Db, t: TenantId) {
    && b.grants == a.grants && b.revocations == a.revocations
    && b.sessions.Keys == a.sessions.Keys
    && (forall s :: s in a.sessions ==>
          (a.sessions[s].owner == b.sessions[s].owner
           && (a.sessions[s].owner == t ==> a.sessions[s].ceilings == b.sessions[s].ceilings)))
    && TenantCeilings(a, t) == TenantCeilings(b, t)
    && (forall l {:trigger Owns(a, t, l)} :: Owns(a, t, l) ==> Used(a.ledgers, l) == Used(b.ledgers, l))
  }

  lemma {:induction false} OwnLeftSame(a: seq<LedgerState>, b: seq<LedgerState>, d: Dimension)
    requires |a| == |b|
    requires forall i :: 0 <= i < |a| ==>
               a[i].own == b[i].own && (a[i].own ==> a[i].ceilings == b[i].ceilings && a[i].used == b[i].used)
    ensures OwnLeft(a, d) == OwnLeft(b, d)
  {
    if a != [] {
      OwnLeftSame(a[1..], b[1..], d);
    }
  }

  lemma StatesSame(a: Db, b: Db, t: TenantId, chain: seq<Grant>, session: SessionId, i: nat)
    requires SameForOwner(a, b, t)
    requires forall k :: 0 <= k < |chain| ==> chain[k].id in a.grants && a.grants[chain[k].id] == chain[k]
    requires i < |LedgerStates(a, t, chain, OwnedSession(a, t, session))|
    ensures OwnedSession(a, t, session) == OwnedSession(b, t, session)
    ensures var x := LedgerStates(a, t, chain, OwnedSession(a, t, session))[i];
            var y := LedgerStates(b, t, chain, OwnedSession(b, t, session))[i];
            x.own == y.own && (x.own ==> x.ceilings == y.ceilings && x.used == y.used)
  {
    var x := LedgerStates(a, t, chain, OwnedSession(a, t, session))[i];
    if x.own { assert Owns(a, t, x.id); }
  }

  /** Stores that differ only in what the caller does not own give it the same declared limits. */
  lemma LimitsFromOwnLedgers(a: Db, b: Db, call: Call, requested: CaptureLimits, now: Timestamp)
    requires GrantsOk(a.grants) && SameForOwner(a, b, call.tenant)
    ensures LimitsFor(a, call, requested, now) == LimitsFor(b, call, requested, now)
  {
    var designated := DesignatedChain(a, call.tenant, call.grant, Capture, now);
    assert designated == DesignatedChain(b, call.tenant, call.grant, Capture, now);
    if designated.Ok? && designated.value.Ok? {
      RemainingSame(a, b, call.tenant, designated.value.value, call.grant, call.session);
    }
  }

  lemma RemainingSame(a: Db, b: Db, t: TenantId, chain: seq<Grant>, leaf: GrantId, session: SessionId)
    requires GrantsOk(a.grants) && SameForOwner(a, b, t) && leaf in a.grants
    requires LoadChain(a.grants, a.grants[leaf]) == Ok(chain)
    ensures CallerRemaining(a, t, chain, session) == CallerRemaining(b, t, chain, session)
  {
    LoadChainOk(a.grants, leaf);
    var x := LedgerStates(a, t, chain, OwnedSession(a, t, session));
    var y := LedgerStates(b, t, chain, OwnedSession(b, t, session));
    forall i | 0 <= i < |x|
      ensures x[i].own == y[i].own && (x[i].own ==> x[i].ceilings == y[i].ceilings && x[i].used == y[i].used)
    {
      StatesSame(a, b, t, chain, session, i);
    }
    OwnLeftSame(x, y, WallTimeMs);
    OwnLeftSame(x, y, Fetches);
    OwnLeftSame(x, y, BytesTransferred);
    OwnLeftSame(x, y, OutputBytes);
    OwnLeftSame(x, y, Tokens);
    OwnLeftSame(x, y, OpsBand);
  }
}
