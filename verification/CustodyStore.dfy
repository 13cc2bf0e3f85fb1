/**
 * The custody store as an object: each method stages its writes on a private
 * copy, loops where the store loops, and commits once. A commit boundary can
 * crash before or after the copy is durable.
 */
module CustodyStore {
  import opened Prelude
  import opened Budget
  import opened Records
  import opened Grants
  import opened Custody
  import Lifecycle

  datatype Crash = NoCrash | BeforeCommit | AfterCommit

  /** What the caller of a transaction sees. */
  function Answer<T>(tx: Tx<T>, crash: Crash): Result<T, Error> {
    match tx
    case Commit(_, reply) => if crash.NoCrash? then Ok(reply) else Err(InjectedCrash)
    case NoWrite(reply) => Ok(reply)
    case Abort(e) => Err(e)
  }

  /** What survives the transaction. */
  function Durable<T>(tx: Tx<T>, before: Db, crash: Crash): Db
  {
    if crash.BeforeCommit? then before else tx.After(before)
  }

  method DebitReservation(ledgers: map<LedgerRef, Cost>, refs: seq<LedgerRef>, amount: Cost)
    returns (r: Result<map<LedgerRef, Cost>, Dimension>)
    ensures r == ReserveAll(ledgers, refs, amount)
  {
    var current := ledgers;
    for i := 0 to |refs|
      invariant ReserveAll(ledgers, refs, amount) == ReserveAll(current, refs[i..], amount)
    {
      assert refs[i..][0] == refs[i] && refs[i..][1..] == refs[i + 1..];
      var used := Reserve(Used(current, refs[i]), amount);
      if used.Err? {
        return Err(used.error);
      }
      current := current[refs[i] := used.value];
    }
    return Ok(current);
  }

  method ReturnRelease(ledgers: map<LedgerRef, Cost>, refs: seq<LedgerRef>, amount: Cost)
    returns (r: Result<map<LedgerRef, Cost>, Dimension>)
    ensures r == ReleaseAll(ledgers, refs, amount)
  {
    var current := ledgers;
    for i := 0 to |refs|
      invariant ReleaseAll(ledgers, refs, amount) == ReleaseAll(current, refs[i..], amount)
    {
      assert refs[i..][0] == refs[i] && refs[i..][1..] == refs[i + 1..];
      var used := Release(Used(current, refs[i]), amount);
      if used.Err? {
        return Err(used.error);
      }
      current := current[refs[i] := used.value];
    }
    return Ok(current);
  }

  /** Scans the sessions for those `t` owns, then the invocations for an open one of `t` or in such a session. */
  method ScanOpenInvocations(db: Db, t: TenantId) returns (busy: bool)
    ensures busy == HasOpenInvocations(db, t)
  {
    var owned: set<SessionId> := {};
    var sessions := db.sessions.Keys;
    while sessions != {}
      invariant sessions <= db.sessions.Keys
      invariant owned == set s | s in db.sessions && s !in sessions && db.sessions[s].owner == t
      decreases |sessions|
    {
      var s :| s in sessions;
      if db.sessions[s].owner == t {
        owned := owned + {s};
      }
      sessions := sessions - {s};
    }
    var rest := db.invocations.Keys;
    while rest != {}
      invariant rest <= db.invocations.Keys
      invariant forall id :: id in db.invocations && id !in rest && Involves(db, db.invocations[id], t) ==>
                  db.invocations[id].state.IsTerminal()
      decreases |rest|
    {
      var id :| id in rest;
      var record := db.invocations[id];
      var involved := record.tenant == t || (record.session.Some? && record.session.value in owned);
      assert involved == Involves(db, record, t);
      if involved && !record.state.IsTerminal() {
        return true;
      }
      rest := rest - {id};
    }
    return false;
  }

  class Store {
    var db: Db

    constructor ()
      ensures db == EMPTY
    {
      db := EMPTY;
    }

    method CommitTx(tx: Db, crash: Crash) returns (ok: bool)
      modifies this
      ensures db == if crash.BeforeCommit? then old(db) else tx
      ensures ok == crash.NoCrash?
    {
      if crash.BeforeCommit? {
        return false;
      }
      db := tx;
      return !crash.AfterCommit?;
    }

    method Begin(intent: Intent, now: Timestamp, crash: Crash) returns (r: Result<BeginReply, Error>)
      modifies this
      ensures db == Durable(BeginTx(old(db), intent, now), old(db), crash)
      ensures r == Answer(BeginTx(old(db), intent, now), crash)
    {
      var missing := KeysError(db, intent.authz.tenant);
      if missing.Some? {
        return Err(missing.value);
      }
      if intent.Slot() in db.idem {
        var idem := db.idem[intent.Slot()];
        if idem.binding != intent.Binding() {
          return Ok(BeginConflict);
        }
        if idem.invocation !in db.invocations {
          return Err(Inconsistent(DanglingBinding));
        }
        return Ok(Replayed(db.invocations[idem.invocation]));
      }
      if intent.invocation in db.invocations {
        return Err(Conflict(AnInvocation));
      }
      var decision := Authorize(db, intent.authz, now);
      r := RecordDecision(intent, decision, crash);
    }

    method RecordDecision(intent: Intent, decision: Result<Decision, Fault>, crash: Crash)
      returns (r: Result<BeginReply, Error>)
      modifies this
      ensures db == Durable(StoreIntent(old(db), intent, decision), old(db), crash)
      ensures r == Answer(StoreIntent(old(db), intent, decision), crash)
    {
      var tx := db;
      if decision.Err? {
        return Err(Authz(decision.error));
      }
      if decision.value.Refused? || SessionOwnerShredded(tx, intent.authz.session) {
        var failure := if decision.value.Refused? then decision.value.failure else NotFoundOrDenied;
        var noted := AppendAudit(tx, AuditEntry(intent.authz.tenant, intent.invocation, intent.authz.capability,
                                                Lifecycle.Denied, intent.authz.session, Some(intent.authz.grant),
                                                None));
        if noted.Err? {
          return Err(noted.error);
        }
        var ok := CommitTx(noted.value, crash);
        return if ok then Ok(BeginRefused(failure)) else Err(InjectedCrash);
      }
      var debited := DebitReservation(tx.ledgers, decision.value.ledgers, decision.value.cost);
      if debited.Err? {
        return Err(Authz(LedgerOverflow(debited.error)));
      }
      var record := IntentRecord(intent, decision.value.chain, decision.value.cost, decision.value.ledgers);
      tx := tx.(ledgers := debited.value);
      tx := tx.(invocations := tx.invocations[record.id := record]);
      tx := tx.(idem := tx.idem[intent.Slot() := IdemRecord(record.id, intent.Binding())]);
      var ok := CommitTx(tx, crash);
      return if ok then Ok(Persisted(record)) else Err(InjectedCrash);
    }

    /** One state-checked step: load, check the table, stage, store in the new state, commit. */
    method Transition(id: InvocationId, action: Action, now: Timestamp, crash: Crash)
      returns (r: Result<Invocation, Error>)
      modifies this
      ensures db == Durable(TransitionTx(old(db), id, action, now), old(db), crash)
      ensures r == Answer(TransitionTx(old(db), id, action, now), crash)
    {
      if id !in db.invocations {
        return Err(InvocationMissing(id));
      }
      var record := db.invocations[id];
      var next := Lifecycle.NextState(record.state, action.Step());
      if next.None? {
        return Err(Authz(IllegalTransition(record.state, action.Step())));
      }
      var staged := StageAction(db, record, action, now);
      if staged.Err? {
        return Err(staged.error);
      }
      var tx, changed := staged.value.0, staged.value.1.(state := next.value);
      var stored := StoreRecord(tx, changed);
      if stored.Err? {
        return Err(stored.error);
      }
      var ok := CommitTx(stored.value, crash);
      return if ok then Ok(changed) else Err(InjectedCrash);
    }

    method ShredTenant(t: TenantId) returns (r: Result<(), Error>)
      modifies this
      ensures db == ShredTx(old(db), t).After(old(db))
      ensures r == Answer(ShredTx(old(db), t), NoCrash)
    {
      if t in db.tombstones {
        return Ok(());
      }
      if t !in db.tenants {
        return Err(TenantMissing(t));
      }
      var busy := ScanOpenInvocations(db, t);
      if busy {
        return Err(TenantBusy(t));
      }
      db := db.(tenants := db.tenants - {t}, tombstones := db.tombstones + {t});
      return Ok(());
    }
  }

  /** The writes of one action, staged in place on the transaction's copy. */
  method StageAction(db: Db, record: Invocation, action: Action, now: Timestamp)
    returns (r: Result<(Db, Invocation), Error>)
    ensures r == Stage(db, record, action, now)
  {
    match action {
      case DoDispatch => return Ok((db, record));
      case DoTransfer(t) => return StageTransfer(db, record, t);
      case DoPublish => return StagePublish(db, record, now);
      case DoSettle(outcome) =>
        if record.state.Published? && outcome.Success? {
          if record.actual.None? {
            return Err(Inconsistent(NoConsumption));
          }
          r := ReturnSettlement(db, record.(terminal := Some(SettledAs(None))),
                                Settle(record.reserved, record.actual.value));
        } else if record.state.Dispatched? && outcome.Failed? && StartedFailure(outcome.failure) {
          r := ReturnSettlement(db, record.(actual := Some(outcome.actual),
                                            terminal := Some(SettledAs(Some(outcome.failure)))),
                                Settle(record.reserved, outcome.actual));
        } else {
          return Err(SettleMismatch(record.state));
        }
      case DoRelease(reason) =>
        r := ReturnSettlement(db, record.(terminal := Some(ReleasedFor(reason))), FullRelease(record.reserved));
      case DoMarkUnknown =>
        r := ReturnSettlement(db, record.(terminal := Some(ChargedUnknown)), UnknownEffectSettlement(record.reserved));
    }
  }

  method ReturnSettlement(db: Db, record: Invocation, s: Settlement) returns (r: Result<(Db, Invocation), Error>)
    ensures r == ApplySettlement(db, record, s)
  {
    var ledgers := ReturnRelease(db.ledgers, record.ledgers, s.release);
    if ledgers.Err? {
      return Err(Authz(LedgerUnderflow(ledgers.error)));
    }
    return Ok((db.(ledgers := ledgers.value), record.(debited := Some(s.debit))));
  }
}
