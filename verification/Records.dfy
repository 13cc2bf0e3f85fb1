/** The records the custody store keeps, and the store's logical content. */
module Records {
  import opened Prelude
  import opened Budget
  import opened Origin
  import Lifecycle

  datatype Capability =
    | SessionCreate | SessionFork | Capture | Ingest | Read | Query | GrantIssue | GrantRevoke | AuditQuery

  datatype AuditScope = AllRecords | OwnAndOwnedSessions

  datatype SessionScope = Own | Sessions(ids: seq<SessionId>)

  type Depth = n: nat | n <= 255

  /** A grant; `targetText` is the stored form of `targets`. */
  datatype Grant = Grant(
    id: GrantId, issuer: TenantId, holder: TenantId, capabilities: set<Capability>, sessionScope: SessionScope,
    targetText: seq<string>, targets: TargetScope, auditScope: AuditScope, ceilings: Ceilings,
    notBefore: Timestamp, expiresAt: Timestamp, parent: Option<GrantId>, depth: Depth, maxDepth: Depth)

  datatype Revocation = Revocation(grant: GrantId, atSeq: nat, atTime: Timestamp)

  /** `identity` stands for the class, verifying key and bound user ids. */
  datatype TenantRecord = TenantRecord(id: TenantId, identity: nat, parent: Option<TenantId>, ceilings: Ceilings)

  datatype SessionRecord = SessionRecord(id: SessionId, owner: TenantId, parent: Option<SessionId>, ceilings: Ceilings)

  datatype DenyCode =
    | CapabilityNotGranted | ScopeViolation | GrantNotYetValid | GrantExpired | GrantRevoked | NarrowingViolation
    | BudgetUnavailable | SessionRequired | NotSupported

  datatype Axis =
    | Capabilities | AuditScopeAxis | SessionScopeAxis | TargetScopeAxis | CeilingsAxis | Expiry | DepthAxis
    | IssuerAuthority

  datatype Failure =
    | Denied(code: DenyCode, axis: Option<Axis>)
    | NotFoundOrDenied
    | BudgetExceeded(dimension: Dimension)
    | ProducerUnavailable
    | TransferFailed(transfer: nat)
    | ExtractionFailed(extraction: nat)
    | DeadlineExceeded
    | Cancelled
    | UnknownEffect
    | IdempotencyConflict
    | ProtocolError

  /** How an invocation ended. */
  datatype Terminal =
    | SettledAs(failure: Option<Failure>)
    | ReleasedFor(reason: Lifecycle.Reason)
    | ChargedUnknown
  {
    function EndState(): Lifecycle.State {
      match this
      case SettledAs(_) => Lifecycle.Settled
      case ReleasedFor(_) => Lifecycle.Released
      case ChargedUnknown => Lifecycle.UnknownEffect
    }
  }

  datatype Invocation = Invocation(
    id: InvocationId, tenant: TenantId, capability: Capability, session: Option<SessionId>,
    grantChain: seq<GrantId>, ledgers: seq<LedgerRef>, reserved: Cost, state: Lifecycle.State,
    terminal: Option<Terminal>, actual: Option<Cost>, debited: Option<Cost>, artifact: Option<Id>,
    revokedAfterEffect: bool)

  /** An artifact side record; `envelope` stands for the producer's bytes and their derived view. */
  datatype Artifact = Artifact(
    id: Id, invocation: InvocationId, tenant: TenantId, session: Option<SessionId>, envelope: nat,
    revokedAfterEffect: bool, publishedAt: Option<Timestamp>)

  datatype IdemKey = IdemKey(tenant: TenantId, capability: Capability, key: nat)

  /**
   * What an idempotency entry is bound to. The source stores a SHA-256 of these
   * fields under one of two labels; an ideal hash keeps exactly the fields.
   */
  datatype Binding =
    | IntentBinding(digest: nat, grant: GrantId, capability: Capability, session: Option<SessionId>,
                    target: Option<string>)
    | ClaimBinding(digest: nat, grant: GrantId, capability: Capability)

  datatype IdemRecord = IdemRecord(invocation: InvocationId, binding: Binding)

  /** An audit entry and its global stub; its sequence is its position plus one. */
  datatype AuditEntry = AuditEntry(
    tenant: TenantId, invocation: InvocationId, capability: Capability, state: Lifecycle.State,
    session: Option<SessionId>, grant: Option<GrantId>, reason: Option<Lifecycle.Reason>)

  /**
   * The store's logical content. `published` stands for the three records a
   * publish commits together: side record, locator and session index entry.
   * A tenant has its keys exactly while it has a tenant record.
   */
  datatype Db = Db(
    tenants: map<TenantId, TenantRecord>,
    tombstones: set<TenantId>,
    grants: map<GrantId, Grant>,
    revocations: map<GrantId, Revocation>,
    sessions: map<SessionId, SessionRecord>,
    invocations: map<InvocationId, Invocation>,
    ledgers: map<LedgerRef, Cost>,
    idem: map<IdemKey, IdemRecord>,
    pending: map<InvocationId, Artifact>,
    published: map<Id, Artifact>,
    audit: seq<AuditEntry>)

  const EMPTY: Db := Db(map[], {}, map[], map[], map[], map[], map[], map[], map[], map[], [])

  /** A ledger with no record reads as zero. */
  function Used(ledgers: map<LedgerRef, Cost>, l: LedgerRef): Cost { if l in ledgers then ledgers[l] else ZERO }

  datatype Fault =
    | ChainBroken(parent: GrantId)
    | ChainMalformed(grant: GrantId)
    | TenantLineage(tenant: TenantId)
    | SessionNotApplicable(capability: Capability)
    | LedgerOverflow(dimension: Dimension)
    | LedgerUnderflow(dimension: Dimension)
    | IllegalTransition(from: Lifecycle.State, step: Lifecycle.Step)
    | OriginSyntax

  datatype Entity = ATenant | AGrant | ASession | AnInvocation

  datatype Defect =
    | AuditExhausted | DanglingBinding | OversizedPlaintext | NoPendingRecord | AlreadyPublished | MissingSession
    | NoConsumption | TerminalMismatch

  datatype Error =
    | TenantMissing(tenant: TenantId)
    | TenantShredded(tenant: TenantId)
    | TenantBusy(tenant: TenantId)
    | Conflict(entity: Entity)
    | InvocationMissing(invocation: InvocationId)
    | Inconsistent(defect: Defect)
    | SettleMismatch(state: Lifecycle.State)
    | Authz(fault: Fault)
    | InjectedCrash
}
