/**
 * What beginning a call answers, and how far the dry-run plan of the same call
 * foretells it.
 */
module BeginLaws {
  import opened Prelude
  import opened Budget
  import opened Origin
  import opened OriginLaws
  import opened Records
  import opened Grants
  import opened Custody
  import opened CustodyInv
  import opened AuthzLaws
  import opened CustodyRuns
  import Lifecycle

  /** The tenant has its keys, the idempotency key is unbound and the invocation id is not taken. */
  predicate FreshCall(db: Db, intent: Intent) {
    intent.authz.tenant in db.tenants && intent.Slot() !in db.idem && intent.invocation !in db.invocations
  }

  /** What a fresh call under the decision `auth` is refused for, if it is. */
  function RefusalOf(db: Db, session: Option<SessionId>, auth: Decision): Option<Failure> {
    if auth.Refused? then Some(auth.failure)
    else if SessionOwnerShredded(db, session) then Some(NotFoundOrDenied)
    else None
  }

  /**
   * A fresh call is persisted exactly when its decision allows it and its
   * session's owner was not shredded; it errs exactly with its decision, or
   * when its refusal finds no audit sequence left. No ledger overflows.
   */
  lemma BeginExact(db: Db, intent: Intent, now: Timestamp)
    requires Inv(db) && FreshCall(db, intent)
    ensures var tx, auth := BeginTx(db, intent, now), Authorize(db, intent.authz, now);
            match auth
            case Err(e) => tx == Abort(Authz(e))
            case Ok(decision) =>
              match RefusalOf(db, intent.authz.session, decision)
              case None =>
                && tx.Commit?
                && tx.reply == Persisted(IntentRecord(intent, decision.chain, decision.cost, decision.ledgers))
              case Some(failure) =>
                if |db.audit| >= U64_MAX then tx == Abort(Inconsistent(AuditExhausted))
                else tx.Commit? && tx.reply == BeginRefused(failure)
  {
    var auth := Authorize(db, intent.authz, now);
    if auth.Ok? && RefusalOf(db, intent.authz.session, auth.value).None? {
      IntentOk(db, intent, now);
      BeginLedgers(db, IntentRecord(intent, auth.value.chain, auth.value.cost, auth.value.ledgers));
    }
  }

  // ---- the dry-run plan -----------------------------------------------------------------

  datatype Plan = Plan(capability: Capability, cost: Cost, grantChain: seq<GrantId>, refusal: Option<Failure>)

  /** The dry-run answer on a snapshot. */
  function PlanFor(db: Db, request: AuthzRequest, now: Timestamp): Result<Plan, Fault> {
    match Authorize(db, request, now)
    case Err(e) => Err(e)
    case Ok(Allowed(chain, _, _)) => Ok(Plan(request.capability, request.declared, chain, None))
    case Ok(Refused(failure)) => Ok(Plan(request.capability, request.declared, [], Some(failure)))
  }

  /** The call went as planned: refused for the planned reason, or persisted with the planned chain and cost. */
  predicate AsPlanned(plan: Result<Plan, Fault>, tx: Tx<BeginReply>) {
    match plan
    case Err(e) => tx == Abort(Authz(e))
    case Ok(p) =>
      match p.refusal
      case Some(failure) => tx.Commit? && tx.reply == BeginRefused(failure)
      case None => tx.Commit? && tx.reply.Persisted? && tx.reply.invocation.grantChain == p.grantChain
                   && tx.reply.invocation.reserved == p.cost
  }

  /**
   * On one content, a call goes as planned exactly when it is fresh, a call
   * the plan allows is not in a session whose owner was shredded, and a call
   * it refuses finds an audit sequence for the refusal.
   */
  lemma PlanExact(db: Db, intent: Intent, now: Timestamp)
    requires Inv(db)
    ensures var plan := PlanFor(db, intent.authz, now);
            AsPlanned(plan, BeginTx(db, intent, now)) <==>
              && FreshCall(db, intent)
              && (plan.Ok? && plan.value.refusal.None? ==> !SessionOwnerShredded(db, intent.authz.session))
              && (plan.Ok? && plan.value.refusal.Some? ==> |db.audit| < U64_MAX)
  {
    if FreshCall(db, intent) {
      BeginExact(db, intent, now);
      var auth := Authorize(db, intent.authz, now);
      if auth.Ok? && auth.value.Allowed? { AllowedFacts(db, intent.authz, now); }
    }
  }

  // ---- a plan that begin refuses ----------------------------------------------------------

  const OWNER: TenantId := 1
  const CALLER: TenantId := 2
  const ROOT: GrantId := 3
  const SESSION: SessionId := 4

  function NewTenant(t: TenantId): TenantRecord { TenantRecord(t, 0, None, NO_CEILINGS) }

  function OwnersSession(): SessionRecord { SessionRecord(SESSION, OWNER, None, NO_CEILINGS) }

  /** A grant to the caller that lists the owner's session. */
  function ListingGrant(): RootGrant {
    RootGrant(ROOT, CALLER, {Capture}, Sessions([SESSION]), ["a"], AllRecords, NO_CEILINGS, 0, 100, 1)
  }

  const TARGET: Origin := Origin(Http, Domain("a"), 80)

  function Capturing(): Intent {
    Intent(5, AuthzRequest(CALLER, ROOT, Capture, Some(OriginText(TARGET)), Some(SESSION), ZERO), 6, 7)
  }

  function At(r: Request): Event { Event(r, 0, false) }

  /** The owner with a session, and the caller with the grant on it. */
  function Sharing(): seq<Event> {
    [At(Register(NewTenant(OWNER))), At(Open(OwnersSession(), 8)), At(Register(NewTenant(CALLER))),
     At(Root(ListingGrant()))]
  }

  function Shredding(): seq<Event> { Sharing() + [At(Shred(OWNER))] }

  function ListedGrant(): Grant { RootRecord(ListingGrant(), [OriginPattern(None, Exact(Domain("a")), None)]) }

  function Shared(): Db {
    EMPTY.(tenants := map[OWNER := NewTenant(OWNER), CALLER := NewTenant(CALLER)],
           grants := map[ROOT := ListedGrant()], sessions := map[SESSION := OwnersSession()],
           audit := [AuditEntry(OWNER, 8, SessionCreate, Lifecycle.Settled, Some(SESSION), None, None)])
  }

  function Shredded(): Db { Shared().(tenants := map[CALLER := NewTenant(CALLER)], tombstones := {OWNER}) }

  lemma RunNext(db: Db, events: seq<Event>, e: Event)
    ensures Run(db, events + [e]) == Apply(Run(db, events), e)
  {
    assert (events + [e])[..|events|] == events;
  }

  lemma OwnerJoins()
    ensures Run(EMPTY, Sharing()[..2]) == EMPTY.(tenants := map[OWNER := NewTenant(OWNER)],
                                                   sessions := Shared().sessions, audit := Shared().audit)
  {
    RunNext(EMPTY, [], At(Register(NewTenant(OWNER))));
    RunNext(EMPTY, [At(Register(NewTenant(OWNER)))], At(Open(OwnersSession(), 8)));
    assert [] + [At(Register(NewTenant(OWNER)))] == [At(Register(NewTenant(OWNER)))];
    assert Sharing()[..2] == [At(Register(NewTenant(OWNER)))] + [At(Open(OwnersSession(), 8))];
  }

  lemma ScopeOfOne(text: string)
    requires ParsePattern(text).Some?
    ensures ParseScope([text]) == Some([ParsePattern(text).value])
  {
    var p := ParsePattern(text).value;
    assert ParseScope([text][1..]) == Some([]) && [p] + [] == [p];
  }

  lemma ScopeListed()
    ensures ParseScope(ListingGrant().targetText) == Some(ListedGrant().targets)
  {
    ShortPattern();
    ScopeOfOne("a");
  }

  lemma GrantInstalled()
    ensures var db := Shared().(grants := map[]); InstallRoot(db, ListingGrant()).After(db) == Shared()
  {
    ScopeListed();
  }

  lemma CallerJoins()
    ensures Run(EMPTY, Sharing()[..3]) == Shared().(grants := map[])
  {
    OwnerJoins();
    RunNext(EMPTY, Sharing()[..2], At(Register(NewTenant(CALLER))));
    assert Sharing()[..3] == Sharing()[..2] + [At(Register(NewTenant(CALLER)))];
  }

  lemma OwnerShreds()
    ensures ShredTx(Shared(), OWNER).After(Shared()) == Shredded()
  {
  }

  lemma CallerHolds()
    ensures Run(EMPTY, Sharing()) == Shared()
  {
    CallerJoins();
    GrantInstalled();
    RunNext(EMPTY, Sharing()[..3], At(Root(ListingGrant())));
    assert Sharing() == Sharing()[..3] + [At(Root(ListingGrant()))];
  }

  lemma RunThenShred(events: seq<Event>, t: TenantId)
    ensures var db := Run(EMPTY, events); Run(EMPTY, events + [At(Shred(t))]) == ShredTx(db, t).After(db)
  {
    RunNext(EMPTY, events, At(Shred(t)));
  }

  lemma OwnerLeaves()
    ensures Run(EMPTY, Shredding()) == Shredded()
  {
    CallerHolds();
    OwnerShreds();
    RunThenShred(Sharing(), OWNER);
  }

  lemma GrantUsable()
    ensures DesignatedChain(Shredded(), CALLER, ROOT, Capture, 1) == Ok(Ok([ListedGrant()]))
  {
    assert LoadChain(Shredded().grants, ListedGrant()) == Ok([ListedGrant()]);
  }

  lemma TargetListed()
    ensures TargetAdmitted([ListedGrant()], Capture, Some(OriginText(TARGET)))
  {
    ShortPattern();
    OriginRoundTrip(TARGET);
    assert ListedGrant().targets[0].Matches(TARGET);
  }

  /** While nothing is charged, a call that declares nothing fits any ceilings. */
  lemma NothingCharged(db: Db, tenant: TenantId, chain: seq<Grant>, session: Option<SessionId>)
    requires db.ledgers == map[] && (session.Some? ==> session.value in db.sessions)
    ensures BudgetFits(db, tenant, chain, session, ZERO)
  {
    var states := LedgerStates(db, tenant, chain, SessionOf(db, session));
    forall i | 0 <= i < |states| ensures states[i].used == ZERO { }
  }

  lemma ChainListed()
    ensures var r := ReserveFor(Shredded(), CALLER, [ListedGrant()], Some((SESSION, OWNER)), ZERO);
            r.Ok? && r.value.Allowed? ==> r.value.chain == [ROOT]
  {
    assert ChainIds([ListedGrant()]) == [ROOT];
  }

  lemma SessionListed()
    ensures CheckSession(Shredded(), CALLER, [ListedGrant()], SESSION) == Ok(Ok(OWNER))
  {
    assert [ListedGrant()][1..] == [];
  }

  /** A call whose chain, session and target pass is decided by its budget. */
  lemma BudgetDecides(db: Db, request: AuthzRequest, now: Timestamp, chain: seq<Grant>, owner: TenantId)
    requires request.capability.Capture? && request.session.Some?
    requires DesignatedChain(db, request.tenant, request.grant, request.capability, now) == Ok(Ok(chain))
    requires CheckSession(db, request.tenant, chain, request.session.value) == Ok(Ok(owner))
    requires TargetAdmitted(chain, request.capability, request.target)
    ensures Authorize(db, request, now)
            == ReserveFor(db, request.tenant, chain, Some((request.session.value, owner)), request.declared)
  {
  }

  lemma PlanAllows()
    ensures PlanFor(Shredded(), Capturing().authz, 1) == Ok(Plan(Capture, ZERO, [ROOT], None))
  {
    GrantUsable();
    SessionListed();
    TargetListed();
    BudgetDecides(Shredded(), Capturing().authz, 1, [ListedGrant()], OWNER);
    NothingCharged(Shredded(), CALLER, [ListedGrant()], Some(SESSION));
    ReserveExactly(Shredded(), CALLER, [ListedGrant()], Some(SESSION), ZERO);
    ChainListed();
  }

  /** The plan of a capture in the shredded owner's session allows it, and beginning it is refused. */
  lemma PlanNotBegun()
    ensures var db := Run(EMPTY, Shredding());
            && PlanFor(db, Capturing().authz, 1) == Ok(Plan(Capture, ZERO, [ROOT], None))
            && BeginTx(db, Capturing(), 1).Commit?
            && BeginTx(db, Capturing(), 1).reply == BeginRefused(NotFoundOrDenied)
  {
    OwnerLeaves();
    PlanAllows();
  }
}
