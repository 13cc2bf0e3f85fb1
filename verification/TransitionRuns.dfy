/**
 * Steps B2 to B5 keep the store invariant, never fail on a ledger, a key or a
 * missing record once the transition table admits them, and end an invocation
 * exactly once; so do whole runs.
 */
module TransitionRuns {
  import opened Prelude
  import opened Budget
  import opened Records
  import opened Custody
  import opened CustodyInv
  import opened CustodyRuns
  import Lifecycle

  // ---- replacing one invocation -----------------------------------------------------

  lemma SameCharge(ledgers: Ledgers, invs: Invs, id: InvocationId, inv: Invocation)
    requires Balanced(ledgers, invs) && id in invs
    requires inv.ledgers == invs[id].ledgers && inv.reserved == invs[id].reserved
    requires !inv.state.IsTerminal() && !invs[id].state.IsTerminal()
    ensures Balanced(ledgers, invs[id := inv])
  {
    forall l, d ensures Used(ledgers, l).Get(d) == Total(invs[id := inv], l, d) {
      ChargesUpdate(invs, id, inv, l, d);
      assert Used(ledgers, l).Get(d) == Total(invs, l, d);
    }
  }

  /** Settling returns `s.release` to each ledger and leaves the debit charged. */
  lemma SettleLedgers(ledgers: Ledgers, invs: Invs, id: InvocationId, inv: Invocation, s: Settlement)
    requires Balanced(ledgers, invs) && id in invs && Distinct(invs[id].ledgers)
    requires inv.ledgers == invs[id].ledgers && inv.debited == Some(s.debit)
    requires inv.state.IsTerminal() && !invs[id].state.IsTerminal()
    requires forall d :: s.debit.Get(d) + s.release.Get(d) == invs[id].reserved.Get(d)
    ensures ReleaseAll(ledgers, inv.ledgers, s.release).Ok?
    ensures Balanced(ReleaseAll(ledgers, inv.ledgers, s.release).value, invs[id := inv])
    ensures Lower(ReleaseAll(ledgers, inv.ledgers, s.release).value, ledgers)
  {
    forall l, d | l in inv.ledgers ensures s.release.Get(d) <= Used(ledgers, l).Get(d) {
      ChargeBound(invs, id, l, d);
      assert Used(ledgers, l).Get(d) == Total(invs, l, d);
      assert s.debit.Get(d) + s.release.Get(d) == invs[id].reserved.Get(d);
    }
    ReleaseAllEffect(ledgers, inv.ledgers, s.release);
    var next := ReleaseAll(ledgers, inv.ledgers, s.release).value;
    forall l, d ensures Used(next, l).Get(d) == Total(invs[id := inv], l, d) {
      ChargesUpdate(invs, id, inv, l, d);
      assert Used(ledgers, l).Get(d) == Total(invs, l, d);
      assert s.debit.Get(d) + s.release.Get(d) == invs[id].reserved.Get(d);
    }
  }

  ghost predicate Lower(next: Ledgers, ledgers: Ledgers)
  {
    forall l, d :: Used(next, l).Get(d) <= Used(ledgers, l).Get(d)
  }

  lemma LowerUnder(next: Ledgers, ledgers: Ledgers, l: LedgerRef, c: Ceilings)
    requires Lower(next, ledgers) && Under(Used(ledgers, l), c)
    ensures Under(Used(next, l), c)
  {
    forall d | c.Get(d).Some? ensures Used(next, l).Get(d) <= c.Get(d).value {
      assert Used(next, l).Get(d) <= Used(ledgers, l).Get(d);
    }
  }

  lemma LowerCeilings(db: Db, next: Ledgers)
    requires Lower(next, db.ledgers)
    requires GrantCeilings(db.ledgers, db.grants) && SessionCeilingsOk(db.ledgers, db.sessions)
    requires TenantCeilingsOk(db.ledgers, db.tenants)
    ensures GrantCeilings(next, db.grants) && SessionCeilingsOk(next, db.sessions) && TenantCeilingsOk(next, db.tenants)
  {
    forall g | g in db.grants ensures Under(Used(next, OfGrant(g)), db.grants[g].ceilings) {
      LowerUnder(next, db.ledgers, OfGrant(g), db.grants[g].ceilings);
    }
    forall s | s in db.sessions ensures Under(Used(next, OfSession(s)), db.sessions[s].ceilings) {
      LowerUnder(next, db.ledgers, OfSession(s), db.sessions[s].ceilings);
    }
    forall t | t in db.tenants ensures Under(Used(next, OfTenant(t)), db.tenants[t].ceilings) {
      LowerUnder(next, db.ledgers, OfTenant(t), db.tenants[t].ceilings);
    }
  }

  /** `inv` keeps the identity of the record at `id` and is well formed in its new state. */
  ghost predicate Successor(invs: Invs, id: InvocationId, inv: Invocation) {
    && id in invs
    && inv.id == id && inv.tenant == invs[id].tenant && inv.session == invs[id].session
    && inv.grantChain == invs[id].grantChain && inv.ledgers == invs[id].ledgers && inv.reserved == invs[id].reserved
    && !invs[id].state.IsTerminal()
    && LifeOk(inv)
  }

  lemma ReplaceInv(db: Db, id: InvocationId, inv: Invocation)
    requires Successor(db.invocations, id, inv)
    requires InvsOk(db.grants, db.invocations)
    requires AllKnown(db.invocations, db.tenants, db.tombstones, db.sessions)
    requires OpenLive(db.invocations, db.tenants, db.sessions)
    requires IdemOk(db.idem, db.invocations)
    ensures var invs := db.invocations[id := inv];
            && InvsOk(db.grants, invs)
            && AllKnown(invs, db.tenants, db.tombstones, db.sessions)
            && OpenLive(invs, db.tenants, db.sessions)
            && IdemOk(db.idem, invs)
  {
    var invs := db.invocations[id := inv];
    assert InvOk(db.grants, id, db.invocations[id]);
    NewInvOk(db.grants, db.invocations, inv);
    assert Known(db.invocations[id], db.tenants, db.tombstones, db.sessions);
    forall i | i in invs ensures Known(invs[i], db.tenants, db.tombstones, db.sessions) {
      if i != id { assert Known(db.invocations[i], db.tenants, db.tombstones, db.sessions); }
    }
    assert Live(db.invocations[id], db.tenants, db.sessions);
    forall i | i in invs && !invs[i].state.IsTerminal() ensures Live(invs[i], db.tenants, db.sessions) {
      if i != id { assert Live(db.invocations[i], db.tenants, db.sessions); }
    }
  }

  /** Replacing one invocation beside its own side records. */
  lemma ArtifactsStep(invs: Invs, id: InvocationId, inv: Invocation, pending: map<InvocationId, Artifact>,
                      published: map<Id, Artifact>, pending': map<InvocationId, Artifact>,
                      published': map<Id, Artifact>)
    requires ArtifactsOk(invs, pending, published)
    requires forall k :: k != id ==> (k in pending' <==> k in pending) && (k in pending ==> pending'[k] == pending[k])
    requires forall k :: k != id ==>
               (k in published' <==> k in published) && (k in published ==> published'[k] == published[k])
    requires ArtifactOk(invs[id := inv], pending', published', id)
    ensures ArtifactsOk(invs[id := inv], pending', published')
  {
    var next := invs[id := inv];
    forall k: InvocationId {:trigger ArtifactOk(next, pending', published', k)}
      ensures ArtifactOk(next, pending', published', k)
    {
      if k != id { assert ArtifactOk(invs, pending, published, k); }
    }
  }

  /** A step that moves no ledger. */
  lemma QuietStep(db: Db, id: InvocationId, inv: Invocation, pending: map<InvocationId, Artifact>,
                  published: map<Id, Artifact>)
    requires Inv(db) && Successor(db.invocations, id, inv) && !inv.state.IsTerminal()
    requires ArtifactsOk(db.invocations[id := inv], pending, published)
    ensures Inv(db.(invocations := db.invocations[id := inv], pending := pending, published := published))
  {
    ReplaceInv(db, id, inv);
    SameCharge(db.ledgers, db.invocations, id, inv);
  }

  /** A step that ends the invocation with settlement `s`. */
  lemma EndingStep(db: Db, id: InvocationId, inv: Invocation, s: Settlement, e: AuditEntry)
    requires Inv(db) && Successor(db.invocations, id, inv) && inv.state.IsTerminal() && inv.debited == Some(s.debit)
    requires forall d :: s.debit.Get(d) + s.release.Get(d) == inv.reserved.Get(d)
    requires ArtifactsOk(db.invocations[id := inv], db.pending, db.published) && |db.audit| < U64_MAX
    ensures ReleaseAll(db.ledgers, inv.ledgers, s.release).Ok?
    ensures Inv(db.(ledgers := ReleaseAll(db.ledgers, inv.ledgers, s.release).value,
                    invocations := db.invocations[id := inv], audit := db.audit + [e]))
  {
    EndingLedgers(db, id, inv, s);
    EndingCore(db, id, inv, ReleaseAll(db.ledgers, inv.ledgers, s.release).value, e);
  }

  lemma EndingLedgers(db: Db, id: InvocationId, inv: Invocation, s: Settlement)
    requires Inv(db) && Successor(db.invocations, id, inv) && inv.state.IsTerminal() && inv.debited == Some(s.debit)
    requires forall d :: s.debit.Get(d) + s.release.Get(d) == inv.reserved.Get(d)
    ensures ReleaseAll(db.ledgers, inv.ledgers, s.release).Ok?
    ensures var next := ReleaseAll(db.ledgers, inv.ledgers, s.release).value;
            && Balanced(next, db.invocations[id := inv])
            && GrantCeilings(next, db.grants) && SessionCeilingsOk(next, db.sessions)
            && TenantCeilingsOk(next, db.tenants)
  {
    var record := db.invocations[id];
    assert InvOk(db.grants, id, record);
    LedgersDistinct(db.grants, record.grantChain, record.session, record.tenant);
    SettleLedgers(db.ledgers, db.invocations, id, inv, s);
    LowerCeilings(db, ReleaseAll(db.ledgers, inv.ledgers, s.release).value);
  }

  lemma EndingCore(db: Db, id: InvocationId, inv: Invocation, next: Ledgers, e: AuditEntry)
    requires Inv(db) && Successor(db.invocations, id, inv) && |db.audit| < U64_MAX
    requires Balanced(next, db.invocations[id := inv]) && GrantCeilings(next, db.grants)
    requires SessionCeilingsOk(next, db.sessions) && TenantCeilingsOk(next, db.tenants)
    requires ArtifactsOk(db.invocations[id := inv], db.pending, db.published)
    ensures Inv(db.(ledgers := next, invocations := db.invocations[id := inv], audit := db.audit + [e]))
  {
    ReplaceInv(db, id, inv);
  }

  // ---- when a step goes through --------------------------------------------------------

  /** The caller's part of a step: the outcome fits the state and the envelope fits a record. */
  predicate Fitting(record: Invocation, action: Action) {
    match action
    case DoTransfer(t) => t.len <= MAX_PLAINTEXT_LEN
    case DoSettle(Success) => record.state.Published?
    case DoSettle(Failed(failure, _)) => record.state.Dispatched? && StartedFailure(failure)
    case _ => true
  }

  /** The table admits the action, its outcome fits, and a terminal step has an audit sequence left. */
  predicate Enabled(db: Db, id: InvocationId, action: Action) {
    && id in db.invocations
    && Lifecycle.NextState(db.invocations[id].state, action.Step()).Some?
    && Fitting(db.invocations[id], action)
    && (Lifecycle.IsSettling(action.Step()) ==> |db.audit| < U64_MAX)
  }

  /** The record an enabled action stores. */
  function Stored(record: Invocation, action: Action): Invocation
    requires Lifecycle.NextState(record.state, action.Step()).Some? && Fitting(record, action)
    requires action.DoSettle? && action.outcome.Success? ==> record.actual.Some?
  {
    var next := record.(state := Lifecycle.NextState(record.state, action.Step()).value);
    match action
    case DoDispatch => next
    case DoTransfer(t) =>
      next.(artifact := Some(record.id), actual := Some(t.actual), revokedAfterEffect := t.revokedAfterEffect)
    case DoPublish => next
    case DoSettle(Success) =>
      next.(terminal := Some(SettledAs(None)), debited := Some(Settle(record.reserved, record.actual.value).debit))
    case DoSettle(Failed(failure, actual)) =>
      next.(actual := Some(actual), terminal := Some(SettledAs(Some(failure))),
            debited := Some(Settle(record.reserved, actual).debit))
    case DoRelease(reason) => next.(terminal := Some(ReleasedFor(reason)), debited := Some(ZERO))
    case DoMarkUnknown => next.(terminal := Some(ChargedUnknown), debited := Some(record.reserved))
  }

  function SettlementOf(record: Invocation, action: Action): Settlement
    requires Lifecycle.IsSettling(action.Step())
    requires action.DoSettle? && action.outcome.Success? ==> record.actual.Some?
  {
    match action
    case DoSettle(Success) => Settle(record.reserved, record.actual.value)
    case DoSettle(Failed(_, actual)) => Settle(record.reserved, actual)
    case DoRelease(_) => FullRelease(record.reserved)
    case _ => UnknownEffectSettlement(record.reserved)
  }

  lemma StoredOk(record: Invocation, action: Action)
    requires LifeOk(record) && Lifecycle.NextState(record.state, action.Step()).Some? && Fitting(record, action)
    ensures action.DoSettle? && action.outcome.Success? ==> record.actual.Some?
    ensures LifeOk(Stored(record, action)) && !record.state.IsTerminal()
    ensures Stored(record, action).state.IsTerminal() <==> Lifecycle.IsSettling(action.Step())
    ensures Lifecycle.IsSettling(action.Step()) ==>
              && Stored(record, action).debited == Some(SettlementOf(record, action).debit)
              && forall d :: SettlementOf(record, action).debit.Get(d) + SettlementOf(record, action).release.Get(d)
                             == record.reserved.Get(d)
  {
  }

  lemma SuccessorOf(db: Db, id: InvocationId, action: Action)
    requires Inv(db) && Enabled(db, id, action)
    ensures LifeOk(db.invocations[id]) && db.invocations[id].id == id
    ensures action.DoSettle? && action.outcome.Success? ==> db.invocations[id].actual.Some?
    ensures Successor(db.invocations, id, Stored(db.invocations[id], action))
  {
    assert InvOk(db.grants, id, db.invocations[id]);
    StoredOk(db.invocations[id], action);
  }

  // ---- the steps ------------------------------------------------------------------------

  lemma DispatchStep(db: Db, id: InvocationId, now: Timestamp)
    requires Inv(db) && Enabled(db, id, DoDispatch)
    ensures TransitionTx(db, id, DoDispatch, now)
            == Commit(db.(invocations := db.invocations[id := Stored(db.invocations[id], DoDispatch)]),
                      Stored(db.invocations[id], DoDispatch))
    ensures Inv(TransitionTx(db, id, DoDispatch, now).db)
  {
    SuccessorOf(db, id, DoDispatch);
    var inv := Stored(db.invocations[id], DoDispatch);
    assert ArtifactOk(db.invocations, db.pending, db.published, id);
    ArtifactsStep(db.invocations, id, inv, db.pending, db.published, db.pending, db.published);
    QuietStep(db, id, inv, db.pending, db.published);
  }

  lemma OpenKeys(db: Db, id: InvocationId)
    requires Inv(db) && id in db.invocations && !db.invocations[id].state.IsTerminal()
    ensures Live(db.invocations[id], db.tenants, db.sessions)
    ensures KeysError(db, db.invocations[id].tenant).None?
  {
  }

  lemma TransferStep(db: Db, id: InvocationId, t: Transfer, now: Timestamp)
    requires Inv(db) && Enabled(db, id, DoTransfer(t))
    ensures var tx := TransitionTx(db, id, DoTransfer(t), now);
            && tx.Commit?
            && tx.reply == Stored(db.invocations[id], DoTransfer(t))
            && tx.db.invocations == db.invocations[id := tx.reply]
            && Inv(tx.db)
            && id in tx.db.pending && tx.db.pending[id].envelope == t.envelope
  {
    SuccessorOf(db, id, DoTransfer(t));
    OpenKeys(db, id);
    var record := db.invocations[id];
    var inv := Stored(record, DoTransfer(t));
    var pending := db.pending[id := Artifact(id, id, record.tenant, record.session, t.envelope, t.revokedAfterEffect,
                                             None)];
    assert ArtifactOk(db.invocations, db.pending, db.published, id);
    ArtifactsStep(db.invocations, id, inv, db.pending, db.published, pending, db.published);
    QuietStep(db, id, inv, pending, db.published);
    assert TransitionTx(db, id, DoTransfer(t), now)
        == Commit(db.(invocations := db.invocations[id := inv], pending := pending), inv);
  }

  lemma PublishStep(db: Db, id: InvocationId, now: Timestamp)
    requires Inv(db) && Enabled(db, id, DoPublish)
    ensures var tx := TransitionTx(db, id, DoPublish, now);
            && tx.Commit?
            && tx.reply == Stored(db.invocations[id], DoPublish)
            && tx.db.invocations == db.invocations[id := tx.reply]
            && Inv(tx.db)
            && id in db.pending && id in tx.db.published
            && tx.db.published[id] == db.pending[id].(publishedAt := Some(now))
  {
    SuccessorOf(db, id, DoPublish);
    OpenKeys(db, id);
    var inv := Stored(db.invocations[id], DoPublish);
    assert ArtifactOk(db.invocations, db.pending, db.published, id);
    var published := db.published[id := db.pending[id].(publishedAt := Some(now))];
    ArtifactsStep(db.invocations, id, inv, db.pending, db.published, db.pending - {id}, published);
    QuietStep(db, id, inv, db.pending - {id}, published);
    assert TransitionTx(db, id, DoPublish, now)
        == Commit(db.(invocations := db.invocations[id := inv], pending := db.pending - {id}, published := published),
                  inv);
  }

  lemma EndingArtifacts(db: Db, id: InvocationId, action: Action)
    requires Inv(db) && Enabled(db, id, action) && Lifecycle.IsSettling(action.Step())
    ensures action.DoSettle? && action.outcome.Success? ==> db.invocations[id].actual.Some?
    ensures ArtifactsOk(db.invocations[id := Stored(db.invocations[id], action)], db.pending, db.published)
  {
    SuccessorOf(db, id, action);
    assert ArtifactOk(db.invocations, db.pending, db.published, id);
    ArtifactsStep(db.invocations, id, Stored(db.invocations[id], action), db.pending, db.published, db.pending,
                  db.published);
  }

  lemma EndStep(db: Db, id: InvocationId, action: Action, now: Timestamp)
    requires Inv(db) && Enabled(db, id, action) && Lifecycle.IsSettling(action.Step())
    ensures var tx := TransitionTx(db, id, action, now);
            && tx.Commit?
            && LifeOk(db.invocations[id])
            && (action.DoSettle? && action.outcome.Success? ==> db.invocations[id].actual.Some?)
            && tx.reply == Stored(db.invocations[id], action)
            && tx.db.invocations == db.invocations[id := tx.reply]
            && Inv(tx.db)
  {
    SuccessorOf(db, id, action);
    OpenKeys(db, id);
    var record := db.invocations[id];
    StoredOk(record, action);
    EndingArtifacts(db, id, action);
    var inv, s := Stored(record, action), SettlementOf(record, action);
    var e := TerminalEntry(inv, inv.terminal.value);
    EndingStep(db, id, inv, s, e);
    EndTx(db, id, action, now);
  }

  /** The transaction of an ending step, spelled out. */
  lemma EndTx(db: Db, id: InvocationId, action: Action, now: Timestamp)
    requires id in db.invocations && db.invocations[id].id == id && LifeOk(db.invocations[id])
    requires db.invocations[id].tenant in db.tenants
    requires Enabled(db, id, action) && Lifecycle.IsSettling(action.Step())
    requires action.DoSettle? && action.outcome.Success? ==> db.invocations[id].actual.Some?
    requires ReleaseAll(db.ledgers, db.invocations[id].ledgers, SettlementOf(db.invocations[id], action).release).Ok?
    ensures var record := db.invocations[id]; var inv := Stored(record, action);
            inv.terminal.Some? &&
            TransitionTx(db, id, action, now)
            == Commit(db.(ledgers := ReleaseAll(db.ledgers, record.ledgers, SettlementOf(record, action).release).value,
                          invocations := db.invocations[id := inv],
                          audit := db.audit + [TerminalEntry(inv, inv.terminal.value)]), inv)
  {
    var record := db.invocations[id];
    StageEnds(db, record, action, now);
    StoredOk(record, action);
  }

  lemma StageEnds(db: Db, record: Invocation, action: Action, now: Timestamp)
    requires Lifecycle.IsSettling(action.Step()) && LifeOk(record) && Fitting(record, action)
    requires Lifecycle.NextState(record.state, action.Step()).Some?
    requires action.DoSettle? && action.outcome.Success? ==> record.actual.Some?
    requires ReleaseAll(db.ledgers, record.ledgers, SettlementOf(record, action).release).Ok?
    ensures Stage(db, record, action, now)
            == Ok((db.(ledgers := ReleaseAll(db.ledgers, record.ledgers, SettlementOf(record, action).release).value),
                   Stored(record, action).(state := record.state)))
  {
  }

  /** In a well-formed store a step commits exactly when it is enabled, and then keeps the invariant. */
  lemma StepExact(db: Db, id: InvocationId, action: Action, now: Timestamp)
    requires Inv(db)
    ensures TransitionTx(db, id, action, now).Commit? <==> Enabled(db, id, action)
    ensures Enabled(db, id, action) ==>
              && (action.DoSettle? && action.outcome.Success? ==> db.invocations[id].actual.Some?)
              && TransitionTx(db, id, action, now).reply == Stored(db.invocations[id], action)
              && TransitionTx(db, id, action, now).db.invocations
                 == db.invocations[id := Stored(db.invocations[id], action)]
              && Inv(TransitionTx(db, id, action, now).db)
  {
    if Enabled(db, id, action) {
      match action {
        case DoDispatch => DispatchStep(db, id, now);
        case DoTransfer(t) => TransferStep(db, id, t, now);
        case DoPublish => PublishStep(db, id, now);
        case _ => EndStep(db, id, action, now);
      }
    } else {
      NotEnabled(db, id, action, now);
    }
  }

  lemma NotEnabled(db: Db, id: InvocationId, action: Action, now: Timestamp)
    requires !Enabled(db, id, action)
    ensures !TransitionTx(db, id, action, now).Commit?
  {
    if id in db.invocations && Lifecycle.NextState(db.invocations[id].state, action.Step()).Some? {
      var record := db.invocations[id];
      if !Fitting(record, action) {
        Unfitting(db, record, action, now);
      } else if Stage(db, record, action, now).Ok? {
        Unrecorded(db, record, action, now);
      }
    }
  }

  /** With no audit sequence left, an ending step cannot be stored. */
  lemma Unrecorded(db: Db, record: Invocation, action: Action, now: Timestamp)
    requires Lifecycle.IsSettling(action.Step()) && |db.audit| >= U64_MAX && Stage(db, record, action, now).Ok?
    requires Lifecycle.NextState(record.state, action.Step()).Some?
    ensures var staged := Stage(db, record, action, now).value;
            StoreRecord(staged.0, staged.1.(state := Lifecycle.NextState(record.state, action.Step()).value)).Err?
  {
    var state := Lifecycle.NextState(record.state, action.Step()).value;
    NoEntryLeft(Stage(db, record, action, now).value.0, Stage(db, record, action, now).value.1.(state := state));
  }

  lemma NoEntryLeft(db: Db, record: Invocation)
    requires |db.audit| >= U64_MAX && record.state.IsTerminal()
    ensures StoreRecord(db, record).Err?
  {
  }

  lemma Unfitting(db: Db, record: Invocation, action: Action, now: Timestamp)
    requires !Fitting(record, action)
    ensures Stage(db, record, action, now).Err?
  {
  }

  /** A committed step appends one audit entry when it ends the invocation, and none otherwise. */
  lemma StepAudit(db: Db, id: InvocationId, action: Action, now: Timestamp)
    requires TransitionTx(db, id, action, now).Commit?
    ensures var tx := TransitionTx(db, id, action, now);
            tx.db.audit == db.audit + (if tx.reply.state.IsTerminal() then
                                         [TerminalEntry(tx.reply, tx.reply.terminal.value)] else [])
  {
    var record := db.invocations[id];
  }

  // ---- runs -----------------------------------------------------------------------------

  lemma PerformKeeps(db: Db, r: Request, now: Timestamp)
    requires Inv(db)
    ensures Inv(Perform(db, r, now))
  {
    match r {
      case Register(t) => RegisterKeeps(db, t);
      case Root(root) => RootKeeps(db, root);
      case Issue(issuer, designated, child, request, via) =>
        IssueKeeps(db, issuer, designated, child, request, via, now);
      case RevokeG(actor, grant, via) => RevokeKeeps(db, actor, grant, via, now);
      case Open(session, via) => OpenKeeps(db, session, via);
      case Claim(claim) => ClaimKeeps(db, claim);
      case Begin(intent) => BeginKeeps(db, intent, now);
      case Act(id, action) => StepExact(db, id, action, now);
      case Shred(t) => ShredKeeps(db, t);
      case Note(entry) => AuditKeeps(db, entry);
    }
  }

  lemma EmptyInv()
    ensures Inv(EMPTY)
  {
    forall l, d ensures Used(EMPTY.ledgers, l).Get(d) == Total(EMPTY.invocations, l, d) {
      SumZero(Charges(EMPTY.invocations, l, d));
    }
  }

  /**
   * Every run of transactions, with a crash before any commit, keeps the store
   * invariant: conservation, ceilings, live open invocations, publish at B4.
   */
  lemma {:induction false} RunKeeps(events: seq<Event>)
    ensures Inv(Run(EMPTY, events))
    decreases |events|
  {
    if events == [] {
      EmptyInv();
    } else {
      var last := events[|events| - 1];
      RunKeeps(events[..|events| - 1]);
      if !last.lost {
        PerformKeeps(Run(EMPTY, events[..|events| - 1]), last.request, last.now);
      }
    }
  }
}
