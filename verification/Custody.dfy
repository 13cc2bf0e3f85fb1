/**
 * The custody store's write transactions. Each reads the store, stages its
 * writes on a private copy and commits that copy whole, so a transaction is a
 * function from the content to either a new content, a reply without writes,
 * or an error without writes.
 */
module Custody {
  import opened Prelude
  import opened Budget
  import opened Origin
  import opened Records
  import opened Grants
  import Lifecycle

  datatype Tx<+T> = Commit(db: Db, reply: T) | NoWrite(reply: T) | Abort(error: Error)
  {
    /** The content once the transaction is over. */
    function After(before: Db): Db { if Commit? then db else before }
  }

  // ---- shared steps -------------------------------------------------------------

  /** Why `t`'s keyring cannot be loaded, or `None` when it can. */
  function KeysError(db: Db, t: TenantId): Option<Error> {
    if t in db.tenants then None
    else if t in db.tombstones then Some(TenantShredded(t))
    else Some(TenantMissing(t))
  }

  /** Appends an entry and its stub at the next sequence. */
  function AppendAudit(db: Db, e: AuditEntry): (r: Result<Db, Error>)
    ensures r.Ok? ==> |db.audit| < U64_MAX && r.value == db.(audit := db.audit + [e])
  {
    if |db.audit| >= U64_MAX then Err(Inconsistent(AuditExhausted))
    else if KeysError(db, e.tenant).Some? then Err(KeysError(db, e.tenant).value)
    else Ok(db.(audit := db.audit + [e]))
  }

  function CommitWith<T>(r: Result<Db, Error>, reply: T): Tx<T> {
    match r
    case Ok(db) => Commit(db, reply)
    case Err(e) => Abort(e)
  }

  /**
   * `next` moved no invocation, ledger or artifact, only added grants,
   * revocations, sessions, bindings and entries, and forgot no tenant.
   */
  ghost predicate Extending(db: Db, next: Db) {
    && next == db.(tenants := next.tenants, tombstones := next.tombstones, grants := next.grants,
                   revocations := next.revocations, sessions := next.sessions, idem := next.idem, audit := next.audit)
    && Extends(db.grants, next.grants) && Extends(db.revocations, next.revocations)
    && Extends(db.sessions, next.sessions) && Extends(db.idem, next.idem)
    && db.tombstones <= next.tombstones && db.audit <= next.audit
    && (forall t :: t in db.tenants ==> t in next.tenants || t in next.tombstones)
  }

  // ---- tenants, grants, sessions ------------------------------------------------

  function RegisterTenant(db: Db, t: TenantRecord): (tx: Tx<()>)
    ensures tx.Commit? ==> Extending(db, tx.db)
  {
    if t.id in db.tenants then (if db.tenants[t.id] == t then NoWrite(()) else Abort(Conflict(ATenant)))
    else if t.id in db.tombstones then Abort(TenantShredded(t.id))
    else if t.parent.Some? && t.parent.value !in db.tenants then Abort(TenantMissing(t.parent.value))
    else Commit(db.(tenants := db.tenants[t.id := t]), ())
  }

  datatype RootGrant = RootGrant(
    id: GrantId, holder: TenantId, capabilities: set<Capability>, sessionScope: SessionScope, targetText: seq<string>,
    auditScope: AuditScope, ceilings: Ceilings, notBefore: Timestamp, expiresAt: Timestamp, maxDepth: Depth)

  function RootRecord(r: RootGrant, targets: TargetScope): Grant {
    Grant(r.id, r.holder, r.holder, r.capabilities, r.sessionScope, r.targetText, targets, r.auditScope, r.ceilings,
          r.notBefore, r.expiresAt, None, 0, r.maxDepth)
  }

  function InstallRoot(db: Db, r: RootGrant): (tx: Tx<()>)
    ensures tx.Commit? ==> Extending(db, tx.db)
    ensures tx.Commit? ==> tx.db == db.(grants := tx.db.grants)
  {
    var targets := ParseScope(r.targetText);
    if targets.None? then Abort(Authz(OriginSyntax))
    else if r.holder !in db.tenants then Abort(TenantMissing(r.holder))
    else
      var g := RootRecord(r, targets.value);
      if g.id in db.grants then (if db.grants[g.id] == g then NoWrite(()) else Abort(Conflict(AGrant)))
      else Commit(db.(grants := db.grants[g.id := g]), ())
  }

  datatype IssueOutcome = IssueStored(grant: GrantId, parent: GrantId) | IssueRefused(failure: Failure)

  /** Whether the stored child is the one `request` asks for under its stored parent. */
  predicate IssuedFrom(db: Db, existing: Grant, request: IssueRequest) {
    var maxDepth := if request.maxDepth.Some? then request.maxDepth
                    else if existing.parent.Some? && existing.parent.value in db.grants
                         then Some(db.grants[existing.parent.value].maxDepth) else None;
    && existing.holder == request.holder
    && existing.capabilities == request.capabilities
    && existing.sessionScope == request.sessionScope
    && existing.targetText == request.targetText
    && existing.ceilings == request.ceilings
    && existing.notBefore == request.notBefore
    && existing.expiresAt == request.expiresAt
    && Some(existing.maxDepth) == maxDepth
  }

  function IssueTx(db: Db, issuer: TenantId, designated: GrantId, child: GrantId, request: IssueRequest,
                   invocation: InvocationId, now: Timestamp): (tx: Tx<IssueOutcome>)
    ensures tx.Commit? ==> Extending(db, tx.db)
    ensures tx.Commit? ==> tx.db == db.(grants := tx.db.grants, audit := tx.db.audit)
  {
    if child in db.grants && db.grants[child].issuer == issuer && db.grants[child].parent == Some(designated) then
      if IssuedFrom(db, db.grants[child], request) then NoWrite(IssueStored(child, designated))
      else Abort(Conflict(AGrant))
    else StoreIssue(db, issuer, designated, CheckIssue(db, issuer, designated, child, request, now), invocation)
  }

  /** Records an issue decision: the grant and its entry, or the refusal's entry. */
  function StoreIssue(db: Db, issuer: TenantId, designated: GrantId, decision: Result<IssueDecision, Fault>,
                      invocation: InvocationId): (tx: Tx<IssueOutcome>)
    ensures tx.Commit? ==> Extending(db, tx.db)
    ensures tx.Commit? ==> tx.db == db.(grants := tx.db.grants, audit := tx.db.audit)
  {
    match decision
    case Err(e) => Abort(Authz(e))
    case Ok(Issued(g)) =>
      if g.id in db.grants then
        (if db.grants[g.id] == g then NoWrite(IssueStored(g.id, designated)) else Abort(Conflict(AGrant)))
      else
        CommitWith(AppendAudit(db.(grants := db.grants[g.id := g]),
                               AuditEntry(issuer, invocation, GrantIssue, Lifecycle.Settled, None, Some(designated),
                                          None)),
                   IssueStored(g.id, designated))
    case Ok(refused) =>
      CommitWith(AppendAudit(db, AuditEntry(issuer, invocation, GrantIssue, Lifecycle.Denied, None, Some(designated),
                                            None)),
                 IssueRefused(if refused.Refusal().Some? then refused.Refusal().value else NotFoundOrDenied))
  }

  function RevokeTx(db: Db, actor: TenantId, grant: GrantId, invocation: InvocationId,
                    now: Timestamp): (tx: Tx<Option<Revocation>>)
    ensures tx.Commit? ==> Extending(db, tx.db)
    ensures tx.Commit? ==> tx.db == db.(revocations := tx.db.revocations, audit := tx.db.audit)
  {
    if grant !in db.grants then NoWrite(None)
    else if grant in db.revocations then NoWrite(Some(db.revocations[grant]))
    else
      var record := Revocation(grant, |db.audit| + 1, now);
      match AppendAudit(db, AuditEntry(actor, invocation, GrantRevoke, Lifecycle.Settled, None, None, None))
      case Err(e) => Abort(e)
      case Ok(next) => Commit(next.(revocations := next.revocations[grant := record]), Some(record))
  }

  /** Opens a session; the reply is false when the parent session is missing. */
  function OpenSessionTx(db: Db, s: SessionRecord, invocation: InvocationId): (tx: Tx<bool>)
    ensures tx.Commit? ==> Extending(db, tx.db)
    ensures tx.Commit? ==> tx.db == db.(sessions := tx.db.sessions, audit := tx.db.audit)
  {
    if s.owner !in db.tenants then Abort(TenantMissing(s.owner))
    else if s.parent.Some? && s.parent.value !in db.sessions then NoWrite(false)
    else if s.id in db.sessions then (if db.sessions[s.id] == s then NoWrite(true) else Abort(Conflict(ASession)))
    else
      CommitWith(AppendAudit(db.(sessions := db.sessions[s.id := s]),
                             AuditEntry(s.owner, invocation, if s.parent.Some? then SessionFork else SessionCreate,
                                        Lifecycle.Settled, Some(s.id), None, None)),
                 true)
  }

  // ---- idempotency claims ---------------------------------------------------------

  /** A request to bind a key outside the capture lifecycle. */
  datatype IdemClaim = IdemClaim(
    tenant: TenantId, grant: GrantId, capability: Capability, key: nat, digest: nat, invocation: InvocationId)
  {
    function Slot(): IdemKey { IdemKey(tenant, capability, key) }
    function Binding(): Binding { ClaimBinding(digest, grant, capability) }
    function Entry(): IdemRecord { IdemRecord(invocation, Binding()) }
  }

  /**
   * What a claim leaves in the content: an unbound key gets its entry. What a
   * claim answers depends on the key its entry is sealed under; see `Claims`.
   */
  function ClaimTx(db: Db, claim: IdemClaim): (tx: Tx<()>)
    ensures tx.Commit? ==> Extending(db, tx.db)
  {
    if KeysError(db, claim.tenant).Some? then Abort(KeysError(db, claim.tenant).value)
    else if claim.Slot() in db.idem then NoWrite(())
    else Commit(db.(idem := db.idem[claim.Slot() := claim.Entry()]), ())
  }

  // ---- B1 ---------------------------------------------------------------------------

  datatype Intent = Intent(invocation: InvocationId, authz: AuthzRequest, key: nat, digest: nat)
  {
    function Slot(): IdemKey { IdemKey(authz.tenant, authz.capability, key) }
    function Binding(): Binding { IntentBinding(digest, authz.grant, authz.capability, authz.session, authz.target) }
  }

  datatype BeginReply =
    | Persisted(invocation: Invocation)
    | Replayed(invocation: Invocation)
    | BeginConflict
    | BeginRefused(failure: Failure)

  /** Debits `amount` from each ledger in turn. */
  function ReserveAll(ledgers: map<LedgerRef, Cost>, refs: seq<LedgerRef>,
                      amount: Cost): (r: Result<map<LedgerRef, Cost>, Dimension>)
    ensures r.Ok? ==> forall l :: l in r.value ==> l in ledgers || l in refs
    decreases |refs|
  {
    if refs == [] then Ok(ledgers) else
      match Reserve(Used(ledgers, refs[0]), amount)
      case Err(d) => Err(d)
      case Ok(used) => ReserveAll(ledgers[refs[0] := used], refs[1..], amount)
  }

  function Refuse(db: Db, intent: Intent, failure: Failure): (tx: Tx<BeginReply>)
    ensures tx.Commit? ==> Extending(db, tx.db) && tx.reply == BeginRefused(failure)
  {
    CommitWith(AppendAudit(db, AuditEntry(intent.authz.tenant, intent.invocation, intent.authz.capability,
                                          Lifecycle.Denied, intent.authz.session, Some(intent.authz.grant), None)),
               BeginRefused(failure))
  }

  predicate SessionOwnerShredded(db: Db, session: Option<SessionId>) {
    session.Some? && session.value in db.sessions && db.sessions[session.value].owner in db.tombstones
  }

  function IntentRecord(intent: Intent, chain: seq<GrantId>, cost: Cost, ledgers: seq<LedgerRef>): Invocation {
    Invocation(intent.invocation, intent.authz.tenant, intent.authz.capability, intent.authz.session, chain, ledgers,
               cost, Lifecycle.IntentPersisted, None, None, None, None, false)
  }

  function BeginTx(db: Db, intent: Intent, now: Timestamp): Tx<BeginReply> {
    if KeysError(db, intent.authz.tenant).Some? then Abort(KeysError(db, intent.authz.tenant).value)
    else if intent.Slot() in db.idem then
      var idem := db.idem[intent.Slot()];
      if idem.binding != intent.Binding() then NoWrite(BeginConflict)
      else if idem.invocation !in db.invocations then Abort(Inconsistent(DanglingBinding))
      else NoWrite(Replayed(db.invocations[idem.invocation]))
    else if intent.invocation in db.invocations then Abort(Conflict(AnInvocation))
    else StoreIntent(db, intent, Authorize(db, intent.authz, now))
  }

  /** Records a decision on a fresh intent: the debits, the record and its key, or the refusal's entry. */
  function StoreIntent(db: Db, intent: Intent, decision: Result<Decision, Fault>): Tx<BeginReply> {
    match decision
    case Err(e) => Abort(Authz(e))
    case Ok(Refused(failure)) => Refuse(db, intent, failure)
    case Ok(Allowed(chain, cost, ledgers)) =>
      if SessionOwnerShredded(db, intent.authz.session) then Refuse(db, intent, NotFoundOrDenied) else
        match ReserveAll(db.ledgers, ledgers, cost)
        case Err(d) => Abort(Authz(LedgerOverflow(d)))
        case Ok(debited) =>
          var record := IntentRecord(intent, chain, cost, ledgers);
          Commit(db.(ledgers := debited,
                     invocations := db.invocations[record.id := record],
                     idem := db.idem[intent.Slot() := IdemRecord(record.id, intent.Binding())]),
                 Persisted(record))
  }

  /** `next` differs from `db` only in ledgers and artifacts, and rewrites no published artifact. */
  ghost predicate StagedFrom(db: Db, next: Db) {
    && next == db.(ledgers := next.ledgers, pending := next.pending, published := next.published)
    && Extends(db.published, next.published)
  }

  /** Only ledgers stored before or listed by `record` are stored after. */
  ghost predicate Touches(db: Db, next: Db, record: Invocation) {
    forall l :: l in next.ledgers ==> l in db.ledgers || l in record.ledgers
  }

  // ---- B2 to B5 ---------------------------------------------------------------------

  const MAX_PLAINTEXT_LEN: nat := 64 * 1024 * 1024

  datatype Transfer = Transfer(envelope: nat, len: nat, actual: Cost, revokedAfterEffect: bool)

  datatype SettleOutcome = Success | Failed(failure: Failure, actual: Cost)

  /** One state-checked step on an invocation. */
  datatype Action =
    | DoDispatch
    | DoTransfer(transfer: Transfer)
    | DoPublish
    | DoSettle(outcome: SettleOutcome)
    | DoRelease(reason: Lifecycle.Reason)
    | DoMarkUnknown
  {
    function Step(): Lifecycle.Step {
      match this
      case DoDispatch => Lifecycle.Dispatch
      case DoTransfer(_) => Lifecycle.CompleteTransfer
      case DoPublish => Lifecycle.Publish
      case DoSettle(_) => Lifecycle.Settle
      case DoRelease(reason) => Lifecycle.Release(reason)
      case DoMarkUnknown => Lifecycle.MarkUnknownEffect
    }
  }

  /** A failure a producer that started can report. */
  predicate StartedFailure(f: Failure)
  {
    f.TransferFailed? || f.ExtractionFailed? || f.DeadlineExceeded? || f.Cancelled?
  }

  /** Returns `amount` to each ledger in turn. */
  function ReleaseAll(ledgers: map<LedgerRef, Cost>, refs: seq<LedgerRef>,
                      amount: Cost): (r: Result<map<LedgerRef, Cost>, Dimension>)
    ensures r.Ok? ==> forall l :: l in r.value ==> l in ledgers || l in refs
    decreases |refs|
  {
    if refs == [] then Ok(ledgers) else
      match Release(Used(ledgers, refs[0]), amount)
      case Err(d) => Err(d)
      case Ok(used) => ReleaseAll(ledgers[refs[0] := used], refs[1..], amount)
  }

  function ApplySettlement(db: Db, record: Invocation, s: Settlement): (r: Result<(Db, Invocation), Error>)
    ensures r.Ok? ==> StagedFrom(db, r.value.0) && Touches(db, r.value.0, record) && r.value.1.id == record.id
  {
    match ReleaseAll(db.ledgers, record.ledgers, s.release)
    case Err(d) => Err(Authz(LedgerUnderflow(d)))
    case Ok(ledgers) => Ok((db.(ledgers := ledgers), record.(debited := Some(s.debit))))
  }

  function StageTransfer(db: Db, record: Invocation, t: Transfer): (r: Result<(Db, Invocation), Error>)
    ensures r.Ok? ==> StagedFrom(db, r.value.0) && Touches(db, r.value.0, record) && r.value.1.id == record.id
  {
    if KeysError(db, record.tenant).Some? then Err(KeysError(db, record.tenant).value)
    else if t.len > MAX_PLAINTEXT_LEN then Err(Inconsistent(OversizedPlaintext))
    else
      var pending := Artifact(record.id, record.id, record.tenant, record.session, t.envelope, t.revokedAfterEffect,
                              None);
      Ok((db.(pending := db.pending[record.id := pending]),
          record.(artifact := Some(record.id), actual := Some(t.actual), revokedAfterEffect := t.revokedAfterEffect)))
  }

  function StagePublish(db: Db, record: Invocation, now: Timestamp): (r: Result<(Db, Invocation), Error>)
    ensures r.Ok? ==> StagedFrom(db, r.value.0) && Touches(db, r.value.0, record) && r.value.1.id == record.id
  {
    if KeysError(db, record.tenant).Some? then Err(KeysError(db, record.tenant).value)
    else if record.id !in db.pending then Err(Inconsistent(NoPendingRecord))
    else if db.pending[record.id].id in db.published then Err(Inconsistent(AlreadyPublished))
    else if record.session.Some? && record.session.value !in db.sessions then
      Err(Inconsistent(MissingSession))
    else if record.session.Some? && KeysError(db, db.sessions[record.session.value].owner).Some? then
      Err(KeysError(db, db.sessions[record.session.value].owner).value)
    else
      var artifact := db.pending[record.id].(publishedAt := Some(now));
      Ok((db.(published := db.published[artifact.id := artifact], pending := db.pending - {record.id}), record))
  }

  function StageSettle(db: Db, record: Invocation, outcome: SettleOutcome): (r: Result<(Db, Invocation), Error>)
    ensures r.Ok? ==> StagedFrom(db, r.value.0) && Touches(db, r.value.0, record) && r.value.1.id == record.id
  {
    if record.state.Published? && outcome.Success? then
      if record.actual.None? then Err(Inconsistent(NoConsumption))
      else ApplySettlement(db, record.(terminal := Some(SettledAs(None))), Settle(record.reserved, record.actual.value))
    else if record.state.Dispatched? && outcome.Failed? && StartedFailure(outcome.failure) then
      ApplySettlement(db, record.(actual := Some(outcome.actual), terminal := Some(SettledAs(Some(outcome.failure)))),
                      Settle(record.reserved, outcome.actual))
    else Err(SettleMismatch(record.state))
  }

  /** The writes one action stages, before the new state is stored. */
  function Stage(db: Db, record: Invocation, action: Action, now: Timestamp): (r: Result<(Db, Invocation), Error>)
    ensures r.Ok? ==> StagedFrom(db, r.value.0) && Touches(db, r.value.0, record) && r.value.1.id == record.id
  {
    match action
    case DoDispatch => Ok((db, record))
    case DoTransfer(t) => StageTransfer(db, record, t)
    case DoPublish => StagePublish(db, record, now)
    case DoSettle(outcome) => StageSettle(db, record, outcome)
    case DoRelease(reason) =>
      ApplySettlement(db, record.(terminal := Some(ReleasedFor(reason))), FullRelease(record.reserved))
    case DoMarkUnknown =>
      ApplySettlement(db, record.(terminal := Some(ChargedUnknown)), UnknownEffectSettlement(record.reserved))
  }

  function TerminalEntry(record: Invocation, t: Terminal): AuditEntry {
    AuditEntry(record.tenant, record.id, record.capability, t.EndState(), record.session,
               if record.grantChain == [] then None else Some(record.grantChain[0]),
               if t.ReleasedFor? then Some(t.reason) else None)
  }

  /** Stores the record in its new state, with the audit entry of a terminal one. */
  function StoreRecord(db: Db, record: Invocation): (r: Result<Db, Error>)
    ensures r.Ok? && !record.state.IsTerminal() ==> r.value == db.(invocations := db.invocations[record.id := record])
    ensures r.Ok? && record.state.IsTerminal() ==>
              && record.terminal.Some? && |db.audit| < U64_MAX
              && r.value == db.(invocations := db.invocations[record.id := record],
                                audit := db.audit + [TerminalEntry(record, record.terminal.value)])
  {
    if !record.state.IsTerminal() then Ok(db.(invocations := db.invocations[record.id := record]))
    else if record.terminal.None? || record.terminal.value.EndState() != record.state then
      Err(Inconsistent(TerminalMismatch))
    else
      match AppendAudit(db, TerminalEntry(record, record.terminal.value))
      case Err(e) => Err(e)
      case Ok(next) => Ok(next.(invocations := next.invocations[record.id := record]))
  }

  function TransitionTx(db: Db, id: InvocationId, action: Action, now: Timestamp): Tx<Invocation> {
    if id !in db.invocations then Abort(InvocationMissing(id)) else
      var record := db.invocations[id];
      var next := Lifecycle.NextState(record.state, action.Step());
      if next.None? then Abort(Authz(IllegalTransition(record.state, action.Step()))) else
        match Stage(db, record, action, now)
        case Err(e) => Abort(e)
        case Ok((staged, changed)) =>
          var stored := changed.(state := next.value);
          CommitWith(StoreRecord(staged, stored), stored)
  }

  // ---- shredding ----------------------------------------------------------------------

  predicate Involves(db: Db, inv: Invocation, t: TenantId) {
    inv.tenant == t
    || (inv.session.Some? && inv.session.value in db.sessions && db.sessions[inv.session.value].owner == t)
  }

  predicate HasOpenInvocations(db: Db, t: TenantId) {
    exists id :: id in db.invocations && Involves(db, db.invocations[id], t) && !db.invocations[id].state.IsTerminal()
  }

  function ShredTx(db: Db, t: TenantId): (tx: Tx<()>)
    ensures tx.Commit? ==> Extending(db, tx.db)
  {
    if t in db.tombstones then NoWrite(())
    else if t !in db.tenants then Abort(TenantMissing(t))
    else if HasOpenInvocations(db, t) then Abort(TenantBusy(t))
    else Commit(db.(tenants := db.tenants - {t}, tombstones := db.tombstones + {t}), ())
  }

  // ---- runs -----------------------------------------------------------------------------

  /** One transaction a caller asks for. */
  datatype Request =
    | Register(tenant: TenantRecord)
    | Root(root: RootGrant)
    | Issue(issuer: TenantId, designated: GrantId, child: GrantId, issue: IssueRequest, via: InvocationId)
    | RevokeG(actor: TenantId, grant: GrantId, via: InvocationId)
    | Open(session: SessionRecord, via: InvocationId)
    | Claim(claim: IdemClaim)
    | Begin(intent: Intent)
    | Act(id: InvocationId, action: Action)
    | Shred(shredded: TenantId)
    | Note(entry: AuditEntry)

  /** The content after `r` runs to its commit at `now`. */
  function Perform(db: Db, r: Request, now: Timestamp): Db {
    match r
    case Register(t) => RegisterTenant(db, t).After(db)
    case Root(root) => InstallRoot(db, root).After(db)
    case Issue(issuer, designated, child, request, via) =>
      IssueTx(db, issuer, designated, child, request, via, now).After(db)
    case RevokeG(actor, grant, via) => RevokeTx(db, actor, grant, via, now).After(db)
    case Open(session, via) => OpenSessionTx(db, session, via).After(db)
    case Claim(claim) => ClaimTx(db, claim).After(db)
    case Begin(intent) => BeginTx(db, intent, now).After(db)
    case Act(id, action) => TransitionTx(db, id, action, now).After(db)
    case Shred(t) => ShredTx(db, t).After(db)
    case Note(entry) => CommitWith(AppendAudit(db, entry), ()).After(db)
  }

  /** A request at a time; `lost` marks a crash before its commit. */
  datatype Event = Event(request: Request, now: Timestamp, lost: bool)

  function Apply(db: Db, e: Event): Db { if e.lost then db else Perform(db, e.request, e.now) }

  function Run(db: Db, events: seq<Event>): Db
    decreases |events|
  {
    if events == [] then db else Apply(Run(db, events[..|events| - 1]), events[|events| - 1])
  }
}
