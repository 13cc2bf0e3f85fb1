/**
 * Delegated authority: the walk from a grant to its root, the narrowing a
 * child grant must satisfy, revocation authority, and the authorization
 * decision.
 */
module Grants {
  import opened Prelude
  import opened Budget
  import opened Origin
  import opened Records

  // ---- the chain walk -----------------------------------------------------------

  /** `p` is a well-formed parent record, at key `pid`, for `child`. */
  predicate ParentLink(pid: GrantId, p: Grant, child: Grant) {
    && p.id == pid
    && p.depth + 1 == child.depth
    && child.depth < p.maxDepth
    && child.maxDepth <= p.maxDepth
    && child.issuer == p.holder
  }

  /** Every link from `leaf` to its root, leaf first. */
  function LoadChain(grants: map<GrantId, Grant>, leaf: Grant): (r: Result<seq<Grant>, Fault>)
    ensures r.Ok? ==> |r.value| == leaf.depth + 1 && r.value[0] == leaf
    decreases leaf.depth
  {
    match leaf.parent
    case None => if leaf.depth == 0 then Ok([leaf]) else Err(ChainMalformed(leaf.id))
    case Some(pid) =>
      if pid !in grants then Err(ChainBroken(pid))
      else if !ParentLink(pid, grants[pid], leaf) then Err(ChainMalformed(leaf.id))
      else
        match LoadChain(grants, grants[pid])
        case Err(e) => Err(e)
        case Ok(rest) => Ok([leaf] + rest)
  }

  /** The walk as a loop that moves `current` upward. */
  method WalkChain(grants: map<GrantId, Grant>, leaf: Grant) returns (r: Result<seq<Grant>, Fault>)
    ensures r == LoadChain(grants, leaf)
  {
    var chain: seq<Grant> := [];
    var current := leaf;
    assert forall rest: seq<Grant> :: [] + rest == rest;
    while current.parent.Some?
      invariant LoadChain(grants, leaf) ==
                match LoadChain(grants, current)
                case Err(e) => Err(e)
                case Ok(rest) => Ok(chain + rest)
      decreases current.depth
    {
      var pid := current.parent.value;
      if pid !in grants {
        return Err(ChainBroken(pid));
      }
      var parent := grants[pid];
      if !ParentLink(pid, parent, current) {
        return Err(ChainMalformed(current.id));
      }
      assert forall rest :: chain + ([current] + rest) == (chain + [current]) + rest;
      chain := chain + [current];
      current := parent;
    }
    if current.depth != 0 {
      return Err(ChainMalformed(current.id));
    }
    return Ok(chain + [current]);
  }

  /** Why one link is not usable at `now`; revocation first, then expiry. */
  function LinkRefusal(revocations: map<GrantId, Revocation>, link: Grant, now: Timestamp): Option<DenyCode> {
    if link.id in revocations then Some(GrantRevoked)
    else if now >= link.expiresAt then Some(GrantExpired)
    else if now < link.notBefore then Some(GrantNotYetValid)
    else None
  }

  datatype Unusable = Unusable(code: DenyCode, failingLink: GrantId)

  /** The first unusable link and why, walking from the leaf. */
  function FirstRefusal(revocations: map<GrantId, Revocation>, chain: seq<Grant>, now: Timestamp): (r: Option<Unusable>)
    ensures r.None? <==> forall i :: 0 <= i < |chain| ==> LinkRefusal(revocations, chain[i], now).None?
  {
    if chain == [] then None else
      var here := LinkRefusal(revocations, chain[0], now);
      if here.Some? then Some(Unusable(here.value, chain[0].id)) else FirstRefusal(revocations, chain[1..], now)
  }

  method FirstRefusalScan(revocations: map<GrantId, Revocation>, chain: seq<Grant>, now: Timestamp)
    returns (r: Option<Unusable>)
    ensures r == FirstRefusal(revocations, chain, now)
    ensures r.Some? ==>
              exists i :: && 0 <= i < |chain| && chain[i].id == r.value.failingLink
                          && LinkRefusal(revocations, chain[i], now) == Some(r.value.code)
                          && forall k :: 0 <= k < i ==> LinkRefusal(revocations, chain[k], now).None?
  {
    for i := 0 to |chain|
      invariant FirstRefusal(revocations, chain, now) == FirstRefusal(revocations, chain[i..], now)
      invariant forall k :: 0 <= k < i ==> LinkRefusal(revocations, chain[k], now).None?
    {
      var code := LinkRefusal(revocations, chain[i], now);
      assert chain[i..][1..] == chain[i + 1..];
      if code.Some? {
        return Some(Unusable(code.value, chain[i].id));
      }
    }
    return None;
  }

  datatype ChainStatus = Valid(chain: seq<Grant>) | Invalid(why: Unusable)

  function CheckChain(db: Db, leaf: Grant, now: Timestamp): Result<ChainStatus, Fault> {
    match LoadChain(db.grants, leaf)
    case Err(e) => Err(e)
    case Ok(chain) =>
      match FirstRefusal(db.revocations, chain, now)
      case None => Ok(Valid(chain))
      case Some(why) => Ok(Invalid(why))
  }

  // ---- tenant lineage -------------------------------------------------------------

  const LINEAGE_STEPS: nat := 256

  function ParentOf(tenants: map<TenantId, TenantRecord>, t: TenantId): Option<TenantId> {
    if t in tenants then tenants[t].parent else None
  }

  function LineageFrom(tenants: map<TenantId, TenantRecord>, current: TenantId, ancestor: TenantId,
                       left: nat): Option<bool>
    decreases left
  {
    if left == 0 then None
    else if current == ancestor then Some(true)
    else
      match ParentOf(tenants, current)
      case None => Some(false)
      case Some(parent) => LineageFrom(tenants, parent, ancestor, left - 1)
  }

  function InLineage(tenants: map<TenantId, TenantRecord>, tenant: TenantId, ancestor: TenantId): Result<bool, Fault> {
    match LineageFrom(tenants, tenant, ancestor, LINEAGE_STEPS)
    case None => Err(TenantLineage(tenant))
    case Some(b) => Ok(b)
  }

  method WalkLineage(tenants: map<TenantId, TenantRecord>, tenant: TenantId, ancestor: TenantId)
    returns (r: Result<bool, Fault>)
    ensures r == InLineage(tenants, tenant, ancestor)
  {
    var current := tenant;
    for i := 0 to LINEAGE_STEPS
      invariant LineageFrom(tenants, tenant, ancestor, LINEAGE_STEPS)
             == LineageFrom(tenants, current, ancestor, LINEAGE_STEPS - i)
    {
      if current == ancestor {
        return Ok(true);
      }
      var parent := ParentOf(tenants, current);
      if parent.None? {
        return Ok(false);
      }
      current := parent.value;
    }
    return Err(TenantLineage(tenant));
  }

  /** The tenant `k` parent links above `t`, if the chain is that long. */
  ghost function Above(tenants: map<TenantId, TenantRecord>, t: TenantId, k: nat): Option<TenantId>
    decreases k
  {
    if k == 0 then Some(t) else
      match ParentOf(tenants, t)
      case None => None
      case Some(p) => Above(tenants, p, k - 1)
  }

  lemma {:induction false} LineageFinds(tenants: map<TenantId, TenantRecord>, t: TenantId, ancestor: TenantId,
                                        left: nat, k: nat)
    requires Above(tenants, t, k) == Some(ancestor)
    ensures LineageFrom(tenants, t, ancestor, left)
            == if k < left || LineageFrom(tenants, t, ancestor, left) == Some(true) then Some(true) else None
    decreases left
  {
    if left > 0 && t != ancestor {
      LineageFinds(tenants, ParentOf(tenants, t).value, ancestor, left - 1, k - 1);
    }
  }

  lemma {:induction false} LineageWitness(tenants: map<TenantId, TenantRecord>, t: TenantId, ancestor: TenantId,
                                          left: nat)
    returns (k: nat)
    requires LineageFrom(tenants, t, ancestor, left) == Some(true)
    ensures k < left && Above(tenants, t, k) == Some(ancestor)
    decreases left
  {
    if t == ancestor {
      k := 0;
    } else {
      k := LineageWitness(tenants, ParentOf(tenants, t).value, ancestor, left - 1);
      k := k + 1;
    }
  }

  /**
   * The bounded walk answers yes exactly for an ancestor fewer than 256 links
   * up, and never answers no for an ancestor at any distance.
   */
  lemma LineageMeaning(tenants: map<TenantId, TenantRecord>, t: TenantId, ancestor: TenantId)
    ensures InLineage(tenants, t, ancestor) == Ok(true) <==>
            exists k: nat :: k < LINEAGE_STEPS && Above(tenants, t, k) == Some(ancestor)
    ensures InLineage(tenants, t, ancestor) == Ok(false) ==> forall k: nat :: Above(tenants, t, k) != Some(ancestor)
  {
    if InLineage(tenants, t, ancestor) == Ok(true) {
      var k := LineageWitness(tenants, t, ancestor, LINEAGE_STEPS);
    }
    forall k: nat | Above(tenants, t, k) == Some(ancestor)
      ensures InLineage(tenants, t, ancestor) != Ok(false)
      ensures k < LINEAGE_STEPS ==> InLineage(tenants, t, ancestor) == Ok(true)
    {
      LineageFinds(tenants, t, ancestor, LINEAGE_STEPS, k);
    }
  }

  // ---- narrowing ------------------------------------------------------------------

  predicate AuditWithin(inner: AuditScope, outer: AuditScope) {
    inner == outer || (inner.OwnAndOwnedSessions? && outer.AllRecords?)
  }

  predicate WindowWithin(parent: Grant, child: Grant) {
    parent.notBefore <= child.notBefore < child.expiresAt <= parent.expiresAt
  }

  /** Each child ceiling fits what the parent has left. */
  predicate CeilingsWithin(parent: Ceilings, used: Cost, child: Ceilings) {
    forall d: Dimension :: parent.Get(d).Some? ==>
      child.Get(d).Some? && child.Get(d).value <= Monus(parent.Get(d).value, used.Get(d))
  }

  /** Every listed session exists and its owner is in `holder`'s lineage; stops at the first that is not. */
  function SessionsOwned(db: Db, ids: seq<SessionId>, holder: TenantId): Result<bool, Fault> {
    if ids == [] then Ok(true)
    else if ids[0] !in db.sessions then Ok(false)
    else
      match InLineage(db.tenants, db.sessions[ids[0]].owner, holder)
      case Err(e) => Err(e)
      case Ok(false) => Ok(false)
      case Ok(true) => SessionsOwned(db, ids[1..], holder)
  }

  method SessionsOwnedScan(db: Db, ids: seq<SessionId>, holder: TenantId) returns (r: Result<bool, Fault>)
    ensures r == SessionsOwned(db, ids, holder)
  {
    for i := 0 to |ids|
      invariant SessionsOwned(db, ids, holder) == SessionsOwned(db, ids[i..], holder)
    {
      assert ids[i..][1..] == ids[i + 1..];
      if ids[i] !in db.sessions {
        return Ok(false);
      }
      var admitted := WalkLineage(db.tenants, db.sessions[ids[i]].owner, holder);
      if admitted.Err? || !admitted.value {
        return admitted;
      }
    }
    return Ok(true);
  }

  function SessionScopeWithin(db: Db, parent: Grant, child: Grant): Result<bool, Fault> {
    match (parent.sessionScope, child.sessionScope)
    case (Own, Own) => InLineage(db.tenants, child.holder, parent.holder)
    case (Own, Sessions(ids)) => SessionsOwned(db, ids, parent.holder)
    case (Sessions(allowed), Sessions(ids)) => Ok(forall s :: s in ids ==> s in allowed)
    case (Sessions(_), Own) => Ok(false)
  }

  /** The first axis on which `child` fails to attenuate `parent`. */
  function NarrowingViolationOf(db: Db, parent: Grant, used: Cost, child: Grant): Result<Option<Axis>, Fault> {
    var sessions := SessionScopeWithin(db, parent, child);
    if sessions.Err? then Err(sessions.error)
    else if !(child.capabilities <= parent.capabilities) then Ok(Some(Capabilities))
    else if !AuditWithin(child.auditScope, parent.auditScope) then Ok(Some(AuditScopeAxis))
    else if !sessions.value then Ok(Some(SessionScopeAxis))
    else if !ScopeCovers(parent.targets, child.targets) then Ok(Some(TargetScopeAxis))
    else if !CeilingsWithin(parent.ceilings, used, child.ceilings) then Ok(Some(CeilingsAxis))
    else if !WindowWithin(parent, child) then Ok(Some(Expiry))
    else if !(parent.depth + 1 == child.depth && child.depth < parent.maxDepth && child.maxDepth <= parent.maxDepth)
      then Ok(Some(DepthAxis))
    else if !(child.parent == Some(parent.id) && child.issuer == parent.holder) then Ok(Some(IssuerAuthority))
    else Ok(None)
  }

  /** What a `GrantIssue` request asks for. */
  datatype IssueRequest = IssueRequest(
    holder: TenantId, capabilities: set<Capability>, sessionScope: SessionScope, targetText: seq<string>,
    ceilings: Ceilings, notBefore: Timestamp, expiresAt: Timestamp, maxDepth: Option<Depth>)

  datatype IssueDecision =
    | Issued(child: Grant)
    | IssueNotFound
    | IssueDenied(code: DenyCode)
    | Narrowing(axis: Axis)
  {
    function Refusal(): Option<Failure> {
      match this
      case Issued(_) => None
      case IssueNotFound => Some(NotFoundOrDenied)
      case IssueDenied(code) => Some(Denied(code, None))
      case Narrowing(axis) => Some(Denied(NarrowingViolation, Some(axis)))
    }
  }

  function Candidate(parent: Grant, child: GrantId, request: IssueRequest, targets: TargetScope): Grant
    requires parent.depth < 255
  {
    Grant(child, parent.holder, request.holder, request.capabilities, request.sessionScope, request.targetText, targets,
          OwnAndOwnedSessions, request.ceilings, request.notBefore, request.expiresAt, Some(parent.id),
          parent.depth + 1, if request.maxDepth.Some? then request.maxDepth.value else parent.maxDepth)
  }

  function CheckIssue(db: Db, issuer: TenantId, designated: GrantId, child: GrantId, request: IssueRequest,
                      now: Timestamp)
    : Result<IssueDecision, Fault>
  {
    if designated !in db.grants || db.grants[designated].id != designated || db.grants[designated].holder != issuer
    then Ok(IssueNotFound)
    else
      match CheckChain(db, db.grants[designated], now)
      case Err(e) => Err(e)
      case Ok(Invalid(why)) => Ok(IssueDenied(why.code))
      case Ok(Valid(chain)) =>
        if !(forall i :: 0 <= i < |chain| ==> GrantIssue in chain[i].capabilities) then Ok(Narrowing(IssuerAuthority))
        else
          var parent := db.grants[designated];
          var targets := ParseScope(request.targetText);
          if targets.None? then Ok(Narrowing(TargetScopeAxis))
          else if parent.depth == 255 then Ok(Narrowing(DepthAxis))
          else
            var candidate := Candidate(parent, child, request, targets.value);
            match NarrowingViolationOf(db, parent, Used(db.ledgers, OfGrant(parent.id)), candidate)
            case Err(e) => Err(e)
            case Ok(Some(axis)) => Ok(Narrowing(axis))
            case Ok(None) => Ok(Issued(candidate))
  }

  // ---- the decision ---------------------------------------------------------------

  datatype Requirement = Required | Optional | Forbidden

  function SessionRequirement(c: Capability): Requirement {
    match c
    case AuditQuery => Optional
    case SessionCreate => Forbidden
    case GrantIssue => Forbidden
    case GrantRevoke => Forbidden
    case _ => Required
  }

  predicate IsServed(c: Capability) { !c.Ingest? }

  datatype AuthzRequest = AuthzRequest(
    tenant: TenantId, grant: GrantId, capability: Capability, target: Option<string>, session: Option<SessionId>,
    declared: Cost)

  datatype Decision =
    | Allowed(chain: seq<GrantId>, cost: Cost, ledgers: seq<LedgerRef>)
    | Refused(failure: Failure)

  function Deny(code: DenyCode): Decision { Refused(Denied(code, None)) }

  predicate Confers(chain: seq<Grant>, c: Capability) {
    forall i :: 0 <= i < |chain| ==> c in chain[i].capabilities
  }

  function DesignatedChain(db: Db, tenant: TenantId, grant: GrantId, c: Capability, now: Timestamp)
    : Result<Result<seq<Grant>, Failure>, Fault>
  {
    if grant !in db.grants || db.grants[grant].id != grant || db.grants[grant].holder != tenant
    then Ok(Err(NotFoundOrDenied))
    else
      match CheckChain(db, db.grants[grant], now)
      case Err(e) => Err(e)
      case Ok(Invalid(why)) => Ok(Err(Denied(why.code, None)))
      case Ok(Valid(chain)) =>
        if Confers(chain, c) then Ok(Ok(chain)) else Ok(Err(Denied(CapabilityNotGranted, None)))
  }

  /** Whether every link's session scope admits the session; stops at the first that does not. */
  function SessionAdmitted(db: Db, chain: seq<Grant>, session: SessionId, owner: TenantId): Result<bool, Fault> {
    if chain == [] then Ok(true) else
      var here := match chain[0].sessionScope
                  case Own => InLineage(db.tenants, owner, chain[0].holder)
                  case Sessions(ids) => Ok(session in ids);
      if here.Err? then here else if !here.value then Ok(false) else SessionAdmitted(db, chain[1..], session, owner)
  }

  method SessionAdmittedScan(db: Db, chain: seq<Grant>, session: SessionId, owner: TenantId)
    returns (r: Result<bool, Fault>)
    ensures r == SessionAdmitted(db, chain, session, owner)
  {
    for i := 0 to |chain|
      invariant SessionAdmitted(db, chain, session, owner) == SessionAdmitted(db, chain[i..], session, owner)
    {
      assert chain[i..][0] == chain[i] && chain[i..][1..] == chain[i + 1..];
      var admitted: Result<bool, Fault>;
      match chain[i].sessionScope {
        case Own => admitted := WalkLineage(db.tenants, owner, chain[i].holder);
        case Sessions(ids) => admitted := Ok(session in ids);
      }
      if admitted.Err? || !admitted.value {
        return admitted;
      }
    }
    return Ok(true);
  }

  function CheckSession(db: Db, tenant: TenantId, chain: seq<Grant>, session: SessionId)
    : Result<Result<TenantId, Failure>, Fault>
  {
    if session !in db.sessions then Ok(Err(NotFoundOrDenied)) else
      var owner := db.sessions[session].owner;
      match SessionAdmitted(db, chain, session, owner)
      case Err(e) => Err(e)
      case Ok(admitted) =>
        if admitted then Ok(Ok(owner))
        else if owner == tenant then Ok(Err(Denied(ScopeViolation, None)))
        else Ok(Err(NotFoundOrDenied))
  }

  predicate TargetAdmitted(chain: seq<Grant>, c: Capability, target: Option<string>) {
    match target
    case None => !c.Capture?
    case Some(t) =>
      ParseOrigin(t).Some? && forall i :: 0 <= i < |chain| ==> ScopeMatches(chain[i].targets, ParseOrigin(t).value)
  }

  function SessionCeilings(db: Db, s: SessionId): Ceilings
  {
    if s in db.sessions then db.sessions[s].ceilings else NO_CEILINGS
  }

  function TenantCeilings(db: Db, t: TenantId): Ceilings
  {
    if t in db.tenants then db.tenants[t].ceilings else NO_CEILINGS
  }

  function GrantLedgers(db: Db, tenant: TenantId, chain: seq<Grant>): (r: seq<LedgerState>)
    ensures |r| == |chain|
    ensures forall i :: 0 <= i < |chain| ==>
              r[i] == LedgerState(OfGrant(chain[i].id), chain[i].ceilings, Used(db.ledgers, OfGrant(chain[i].id)),
                                  chain[i].holder == tenant)
  {
    seq(|chain|, i requires 0 <= i < |chain| =>
      LedgerState(OfGrant(chain[i].id), chain[i].ceilings, Used(db.ledgers, OfGrant(chain[i].id)),
                  chain[i].holder == tenant))
  }

  /** Every ledger a call debits: each chain grant, the session, the tenant. */
  function LedgerStates(db: Db, tenant: TenantId, chain: seq<Grant>,
                        session: Option<(SessionId, TenantId)>): seq<LedgerState>
  {
    GrantLedgers(db, tenant, chain)
    + (match session
       case None => []
       case Some((s, owner)) =>
         [LedgerState(OfSession(s), SessionCeilings(db, s), Used(db.ledgers, OfSession(s)), owner == tenant)])
    + [LedgerState(OfTenant(tenant), TenantCeilings(db, tenant), Used(db.ledgers, OfTenant(tenant)), true)]
  }

  function ChainIds(chain: seq<Grant>): (ids: seq<GrantId>)
    ensures |ids| == |chain|
    ensures forall i :: 0 <= i < |chain| ==> ids[i] == chain[i].id
  {
    seq(|chain|, i requires 0 <= i < |chain| => chain[i].id)
  }

  function ReserveFor(db: Db, tenant: TenantId, chain: seq<Grant>, session: Option<(SessionId, TenantId)>,
                      declared: Cost)
    : Result<Decision, Fault>
  {
    match PlanReservation(LedgerStates(db, tenant, chain, session), declared)
    case Err(d) => Err(LedgerOverflow(d))
    case Ok(Fits(cost, ledgers)) => Ok(Allowed(ChainIds(chain), cost, ledgers))
    case Ok(OwnShort(_, d)) => Ok(Refused(BudgetExceeded(d)))
    case Ok(UpstreamShort) => Ok(Deny(BudgetUnavailable))
  }

  function Authorize(db: Db, request: AuthzRequest, now: Timestamp): Result<Decision, Fault> {
    var requirement := SessionRequirement(request.capability);
    if request.session.Some? && requirement == Forbidden then Err(SessionNotApplicable(request.capability)) else
      match DesignatedChain(db, request.tenant, request.grant, request.capability, now)
      case Err(e) => Err(e)
      case Ok(Err(failure)) => Ok(Refused(failure))
      case Ok(Ok(chain)) =>
        if !IsServed(request.capability) then Ok(Deny(NotSupported))
        else if request.session.None? then
          if requirement == Required then Ok(Deny(SessionRequired))
          else if !TargetAdmitted(chain, request.capability, request.target) then Ok(Deny(ScopeViolation))
          else ReserveFor(db, request.tenant, chain, None, request.declared)
        else
          match CheckSession(db, request.tenant, chain, request.session.value)
          case Err(e) => Err(e)
          case Ok(Err(failure)) => Ok(Refused(failure))
          case Ok(Ok(owner)) =>
            if !TargetAdmitted(chain, request.capability, request.target) then Ok(Deny(ScopeViolation))
            else ReserveFor(db, request.tenant, chain, Some((request.session.value, owner)), request.declared)
  }

  // ---- revocation authority ---------------------------------------------------------

  const SUBTREE_WALK_LIMIT: nat := 256

  function SubtreeFrom(grants: map<GrantId, Grant>, root: GrantId, current: GrantId, left: nat): bool
    decreases left
  {
    left > 0 &&
    (current == root ||
     (current in grants && grants[current].id == current && grants[current].parent.Some? &&
      SubtreeFrom(grants, root, grants[current].parent.value, left - 1)))
  }

  function InSubtree(grants: map<GrantId, Grant>, root: GrantId, target: GrantId): bool {
    SubtreeFrom(grants, root, target, SUBTREE_WALK_LIMIT)
  }

  method WalkSubtree(grants: map<GrantId, Grant>, root: GrantId, target: GrantId) returns (r: bool)
    ensures r == InSubtree(grants, root, target)
  {
    var current := target;
    for i := 0 to SUBTREE_WALK_LIMIT
      invariant InSubtree(grants, root, target) == SubtreeFrom(grants, root, current, SUBTREE_WALK_LIMIT - i)
    {
      if current == root {
        return true;
      }
      if !(current in grants && grants[current].id == current && grants[current].parent.Some?) {
        return false;
      }
      current := grants[current].parent.value;
    }
    return false;
  }

  datatype RevokeDecision =
    | Revoke(target: GrantId) | AlreadyRevoked(record: Revocation) | RevokeRefused(failure: Failure)

  function CheckRevoke(db: Db, tenant: TenantId, designated: GrantId, target: GrantId, now: Timestamp)
    : Result<RevokeDecision, Fault>
  {
    match DesignatedChain(db, tenant, designated, GrantRevoke, now)
    case Err(e) => Err(e)
    case Ok(Err(failure)) => Ok(RevokeRefused(failure))
    case Ok(Ok(_)) =>
      if !InSubtree(db.grants, designated, target) then Ok(RevokeRefused(NotFoundOrDenied))
      else if target in db.revocations then Ok(AlreadyRevoked(db.revocations[target]))
      else Ok(Revoke(target))
  }
}
