/**
 * Restart recovery: finish every open invocation by the recovery table, with
 * the same state-checked transactions the live path uses.
 */
module Recovery {
  import opened Prelude
  import opened Budget
  import opened Records
  import opened Custody
  import opened CustodyInv
  import opened CustodyRuns
  import opened TransitionRuns
  import opened CustodyStore
  import Lifecycle

  const U32_MAX: nat := 0xFFFF_FFFF

  function Bump(n: nat): nat { if n < U32_MAX then n + 1 else U32_MAX }

  datatype Report = Report(released: nat, unknownEffect: nat, published: nat, settled: nat)
  {
    function Count(a: Lifecycle.RecoveryAction): nat {
      match a
      case ReleaseAbandoned => released
      case ChargeUnknownEffect => unknownEffect
      case RollForwardPublish => published
      case RollForwardSettle => settled
    }

    function Add(a: Lifecycle.RecoveryAction): (r: Report)
      ensures forall b: Lifecycle.RecoveryAction :: r.Count(b) == if b == a then Bump(Count(b)) else Count(b)
    {
      match a
      case ReleaseAbandoned => this.(released := Bump(released))
      case ChargeUnknownEffect => this.(unknownEffect := Bump(unknownEffect))
      case RollForwardPublish => this.(published := Bump(published))
      case RollForwardSettle => this.(settled := Bump(settled))
    }
  }

  const NOTHING := Report(0, 0, 0, 0)

  /** How recovery ends an invocation it finds open in `s`. */
  function EndingFor(s: Lifecycle.State): Option<Terminal> {
    match s
    case IntentPersisted => Some(ReleasedFor(Lifecycle.Abandoned))
    case Dispatched => Some(ChargedUnknown)
    case TransferComplete => Some(SettledAs(None))
    case Published => Some(SettledAs(None))
    case _ => None
  }

  /** `after` is `before` ended as recovery ends it, or `before` itself when it had ended already. */
  ghost predicate Ended(before: Invocation, after: Invocation) {
    if before.state.IsTerminal() then after == before
    else && EndingFor(before.state).Some?
         && after.terminal == EndingFor(before.state)
         && after.state == after.terminal.value.EndState()
         && after.reserved == before.reserved && after.ledgers == before.ledgers
  }

  ghost function Open(invs: Invs): set<InvocationId> {
    set id | id in invs && !invs[id].state.IsTerminal()
  }

  ghost function NeedsAction(invs: Invs, a: Lifecycle.RecoveryAction): set<InvocationId> {
    set id | id in invs && Lifecycle.RecoveryFor(invs[id].state) == Some(a)
  }

  type Failpoint = (InvocationId, Lifecycle.Step) -> Crash

  type Worklist = seq<(InvocationId, Lifecycle.RecoveryAction)>

  /** `open` lists every invocation that has a recovery action, once, with that action. */
  ghost predicate ListsOpen(invs: Invs, open: Worklist) {
    && (forall i :: 0 <= i < |open| ==>
          open[i].0 in invs && Lifecycle.RecoveryFor(invs[open[i].0].state) == Some(open[i].1))
    && (forall i, j :: 0 <= i < j < |open| ==> open[i].0 != open[j].0)
    && (forall id :: id in invs && Lifecycle.RecoveryFor(invs[id].state).Some? ==> Has(open, |open|, id))
  }

  ghost predicate Has(open: Worklist, n: nat, id: InvocationId)
    requires n <= |open|
  {
    exists i :: 0 <= i < n && open[i].0 == id
  }

  /** Every invocation with a recovery action, from one snapshot. */
  method OpenInvocations(db: Db) returns (open: Worklist)
    ensures ListsOpen(db.invocations, open)
  {
    open := [];
    var rest := db.invocations.Keys;
    while rest != {}
      invariant rest <= db.invocations.Keys
      invariant forall i :: 0 <= i < |open| ==>
                  && open[i].0 in db.invocations && open[i].0 !in rest
                  && Lifecycle.RecoveryFor(db.invocations[open[i].0].state) == Some(open[i].1)
      invariant forall i, j :: 0 <= i < j < |open| ==> open[i].0 != open[j].0
      invariant forall id :: id in db.invocations && id !in rest
                             && Lifecycle.RecoveryFor(db.invocations[id].state).Some? ==>
                  Has(open, |open|, id)
      decreases |rest|
    {
      var id :| id in rest;
      var action := Lifecycle.RecoveryFor(db.invocations[id].state);
      if action.Some? {
        ghost var before := open;
        open := open + [(id, action.value)];
        assert open[|before|].0 == id;
        forall k | Has(before, |before|, k) ensures Has(open, |open|, k) {
          var i :| 0 <= i < |before| && before[i].0 == k;
          assert open[i].0 == k;
        }
      }
      rest := rest - {id};
    }
  }

  /** The record one action on: the table's next state, the same reservation, and the ending the action names. */
  ghost predicate Advanced(record: Invocation, action: Action, next: Invocation) {
    && Some(next.state) == Lifecycle.NextState(record.state, action.Step())
    && next.reserved == record.reserved && next.ledgers == record.ledgers
    && match action
       case DoSettle(Success) => next.terminal == Some(SettledAs(None))
       case DoRelease(reason) => next.terminal == Some(ReleasedFor(reason))
       case DoMarkUnknown => next.terminal == Some(ChargedUnknown)
       case _ => true
  }

  /** An open invocation's next recovery step commits, whatever else is open, while an audit sequence is left. */
  lemma RecoveryStep(db: Db, id: InvocationId, action: Action, now: Timestamp)
    requires Inv(db) && Enabled(db, id, action)
    ensures var tx := TransitionTx(db, id, action, now);
            && tx.Commit?
            && Inv(tx.db)
            && tx.db.invocations == db.invocations[id := tx.reply]
            && Advanced(db.invocations[id], action, tx.reply)
            && |tx.db.audit| == |db.audit| + (if tx.reply.state.IsTerminal() then 1 else 0)
  {
    StepExact(db, id, action, now);
    StepAudit(db, id, action, now);
  }

  /** An ending step the table admits always has the reservation to return. */
  lemma EndingReleases(db: Db, id: InvocationId, action: Action)
    requires Inv(db) && id in db.invocations && Lifecycle.IsSettling(action.Step())
    requires Lifecycle.NextState(db.invocations[id].state, action.Step()).Some? && Fitting(db.invocations[id], action)
    ensures LifeOk(db.invocations[id])
    ensures action.DoSettle? && action.outcome.Success? ==> db.invocations[id].actual.Some?
    ensures ReleaseAll(db.ledgers, db.invocations[id].ledgers, SettlementOf(db.invocations[id], action).release).Ok?
  {
    var record := db.invocations[id];
    assert InvOk(db.grants, id, record);
    StoredOk(record, action);
    EndingLedgers(db, id, Stored(record, action), SettlementOf(record, action));
  }

  lemma ExhaustedStore(db: Db, record: Invocation)
    requires |db.audit| == U64_MAX && record.state.IsTerminal() && LifeOk(record)
    ensures StoreRecord(db, record) == Err(Inconsistent(AuditExhausted))
  {
  }

  /** With no audit sequence left, an ending step fails on exactly that. */
  lemma ExhaustedStep(db: Db, id: InvocationId, action: Action, now: Timestamp)
    requires id in db.invocations && |db.audit| == U64_MAX && Lifecycle.IsSettling(action.Step())
    requires Lifecycle.NextState(db.invocations[id].state, action.Step()).Some? && Fitting(db.invocations[id], action)
    requires LifeOk(db.invocations[id])
    requires action.DoSettle? && action.outcome.Success? ==> db.invocations[id].actual.Some?
    requires ReleaseAll(db.ledgers, db.invocations[id].ledgers, SettlementOf(db.invocations[id], action).release).Ok?
    ensures TransitionTx(db, id, action, now) == Abort(Inconsistent(AuditExhausted))
  {
    var record := db.invocations[id];
    StoredOk(record, action);
    StageEnds(db, record, action, now);
    ExhaustedStore(Stage(db, record, action, now).value.0, Stored(record, action));
  }

  /**
   * Runs one recovery step of an open invocation; it fails only by an injected crash or for want of an
   * audit sequence.
   */
  method Step(store: Store, id: InvocationId, action: Action, now: Timestamp, crash: Crash)
    returns (r: Result<Invocation, Error>)
    requires Inv(store.db) && id in store.db.invocations && Fitting(store.db.invocations[id], action)
    requires Lifecycle.NextState(store.db.invocations[id].state, action.Step()).Some?
    modifies store
    ensures Inv(store.db) && StepResult(old(store.db), id, action, crash, store.db, r)
  {
    ghost var before := store.db;
    r := store.Transition(id, action, now, crash);
    StepOutcome(before, id, action, now, crash);
  }

  /** How a recovery step can leave the store: taken, lost to a crash, or refused for want of an audit sequence. */
  ghost predicate StepResult(before: Db, id: InvocationId, action: Action, crash: Crash, next: Db,
                             r: Result<Invocation, Error>)
    requires id in before.invocations
  {
    && id in next.invocations
    && next.invocations == before.invocations[id := next.invocations[id]]
    && (r.Ok? <==> crash.NoCrash? && (Lifecycle.IsSettling(action.Step()) ==> |before.audit| < U64_MAX))
    && (r.Ok? ==> Advanced(before.invocations[id], action, next.invocations[id])
                  && |next.audit| == |before.audit| + (if next.invocations[id].state.IsTerminal() then 1 else 0))
    && (r.Err? ==> (r.error == InjectedCrash && !crash.NoCrash?)
                   || (r.error == Inconsistent(AuditExhausted) && |before.audit| == U64_MAX))
  }

  lemma StepOutcome(db: Db, id: InvocationId, action: Action, now: Timestamp, crash: Crash)
    requires Inv(db) && id in db.invocations && Fitting(db.invocations[id], action)
    requires Lifecycle.NextState(db.invocations[id].state, action.Step()).Some?
    ensures var tx := TransitionTx(db, id, action, now);
            Inv(Durable(tx, db, crash)) && StepResult(db, id, action, crash, Durable(tx, db, crash), Answer(tx, crash))
  {
    if Enabled(db, id, action) {
      RecoveryStep(db, id, action, now);
    } else {
      EndingReleases(db, id, action);
      ExhaustedStep(db, id, action, now);
    }
  }

  /** No failpoint fires on `id`. */
  ghost predicate Quiet(fail: Failpoint, id: InvocationId) { forall s :: fail(id, s).NoCrash? }

  /** `next` differs from `before` in invocation `id` only, now ended as recovery ends it, with its one audit entry. */
  ghost predicate Finished(before: Db, id: InvocationId, next: Db)
    requires id in before.invocations
  {
    && id in next.invocations
    && next.invocations == before.invocations[id := next.invocations[id]]
    && Ended(before.invocations[id], next.invocations[id])
    && |next.audit| == |before.audit| + 1
  }

  method PublishAndSettle(store: Store, id: InvocationId, now: Timestamp, fail: Failpoint)
    returns (r: Result<Invocation, Error>)
    requires Inv(store.db) && id in store.db.invocations && store.db.invocations[id].state.TransferComplete?
    modifies store
    ensures Inv(store.db)
    ensures r.Ok? ==> Finished(old(store.db), id, store.db)
    ensures Quiet(fail, id) ==> (r.Ok? <==> |old(store.db).audit| < U64_MAX)
    ensures r.Err? ==> (r.error == InjectedCrash && !Quiet(fail, id))
                       || (r.error == Inconsistent(AuditExhausted) && |old(store.db).audit| == U64_MAX)
  {
    r := Step(store, id, DoPublish, now, fail(id, Lifecycle.Publish));
    if r.Ok? {
      r := Step(store, id, DoSettle(Success), now, fail(id, Lifecycle.Settle));
    }
  }

  method RecoverOne(store: Store, id: InvocationId, action: Lifecycle.RecoveryAction, now: Timestamp, fail: Failpoint)
    returns (r: Result<Invocation, Error>)
    requires Inv(store.db) && id in store.db.invocations
    requires Lifecycle.RecoveryFor(store.db.invocations[id].state) == Some(action)
    modifies store
    ensures Inv(store.db)
    ensures r.Ok? ==> Finished(old(store.db), id, store.db)
    ensures Quiet(fail, id) ==> (r.Ok? <==> |old(store.db).audit| < U64_MAX)
    ensures r.Err? ==> (r.error == InjectedCrash && !Quiet(fail, id))
                       || (r.error == Inconsistent(AuditExhausted) && |old(store.db).audit| == U64_MAX)
  {
    match action {
      case ReleaseAbandoned =>
        r := Step(store, id, DoRelease(Lifecycle.Abandoned), now, fail(id, Lifecycle.Release(Lifecycle.Abandoned)));
      case ChargeUnknownEffect =>
        r := Step(store, id, DoMarkUnknown, now, fail(id, Lifecycle.MarkUnknownEffect));
      case RollForwardPublish =>
        r := PublishAndSettle(store, id, now, fail);
      case RollForwardSettle =>
        r := Step(store, id, DoSettle(Success), now, fail(id, Lifecycle.Settle));
    }
  }

  /** The ids among the first `n` listed whose action is `a`. */
  ghost function Listed(open: Worklist, n: nat, a: Lifecycle.RecoveryAction): set<InvocationId>
    requires n <= |open|
  {
    set i | 0 <= i < n && open[i].1 == a :: open[i].0
  }

  lemma ListedNext(open: Worklist, n: nat, a: Lifecycle.RecoveryAction)
    requires n < |open| && forall i, j :: 0 <= i < j < |open| ==> open[i].0 != open[j].0
    ensures Listed(open, n + 1, a) == Listed(open, n, a) + (if open[n].1 == a then {open[n].0} else {})
    ensures open[n].0 !in Listed(open, n, a)
  {
  }

  function Saturated(n: nat): nat { if n < U32_MAX then n else U32_MAX }

  /** Why recovery stopped early: a failpoint on an open invocation, or no audit sequence left for one of them. */
  ghost predicate StoppedFor(before: Db, fail: Failpoint, e: Error) {
    || (e == InjectedCrash && !AllQuiet(fail, Open(before.invocations)))
    || (e == Inconsistent(AuditExhausted) && |before.audit| + |Open(before.invocations)| > U64_MAX)
  }

  ghost predicate AllQuiet(fail: Failpoint, ids: set<InvocationId>) { forall id :: id in ids ==> Quiet(fail, id) }

  /** Every invocation has ended as the table says, with one audit entry each, and `report` counts them. */
  ghost predicate AllRecovered(before: Db, db: Db, report: Report) {
    && db.invocations.Keys == before.invocations.Keys
    && (forall id :: id in db.invocations ==>
          Ended(before.invocations[id], db.invocations[id]) && db.invocations[id].state.IsTerminal())
    && |db.audit| == |before.audit| + |Open(before.invocations)|
    && (forall a :: report.Count(a) == Saturated(|NeedsAction(before.invocations, a)|))
  }

  /**
   * Restart recovery. From any reachable store it meets no error but an
   * injected crash or an exhausted audit sequence; when it returns, every
   * invocation is terminal, each in the state the table gives, and the report
   * counts each kind. Without crashes it succeeds exactly when the log has
   * room for one entry per open invocation. A run that finds nothing open
   * reports nothing and writes nothing.
   */
  method Recover(store: Store, now: Timestamp, fail: Failpoint) returns (r: Result<Report, Error>)
    requires Inv(store.db)
    modifies store
    ensures Inv(store.db)
    ensures r.Err? ==> StoppedFor(old(store.db), fail, r.error)
    ensures r.Ok? ==> AllRecovered(old(store.db), store.db, r.value)
    ensures |old(store.db).audit| + |Open(old(store.db).invocations)| > U64_MAX ==> r.Err?
    ensures Open(old(store.db).invocations) == {} ==> r == Ok(NOTHING) && store.db == old(store.db)
  {
    ghost var before := store.db;
    var open := OpenInvocations(store.db);
    OpenListed(before, open);
    r := Drain(store, open, now, fail);
    if r.Ok? {
      HalfwayDone(before, open, store.db, r.value);
    } else {
      DrainStopped(before, open, fail, r.error);
    }
  }

  method Drain(store: Store, open: Worklist, now: Timestamp, fail: Failpoint) returns (r: Result<Report, Error>)
    requires Inv(store.db) && ListsOpen(store.db.invocations, open)
    modifies store
    ensures Inv(store.db)
    ensures r.Ok? ==> Halfway(old(store.db), open, |open|, store.db) && Counted(open, |open|, r.value)
    ensures r.Err? ==> DrainFailure(old(store.db), open, fail, r.error)
    ensures open == [] ==> r == Ok(NOTHING) && store.db == old(store.db)
  {
    ghost var before := store.db;
    var report := NOTHING;
    CountedNone(open);
    for i := 0 to |open|
      invariant Inv(store.db)
      invariant Halfway(before, open, i, store.db)
      invariant Counted(open, i, report)
      invariant i == 0 ==> store.db == before && report == NOTHING
    {
      var done := RecoverNext(store, before, open, i, now, fail);
      if done.Err? {
        return Err(done.error);
      }
      CountedNext(open, i, report);
      report := report.Add(open[i].1);
    }
    return Ok(report);
  }

  method RecoverNext(store: Store, ghost before: Db, open: Worklist, i: nat, now: Timestamp, fail: Failpoint)
    returns (r: Result<Invocation, Error>)
    requires i < |open| && Inv(store.db) && ListsOpen(before.invocations, open) && Halfway(before, open, i, store.db)
    modifies store
    ensures Inv(store.db)
    ensures r.Ok? ==> Halfway(before, open, i + 1, store.db)
    ensures r.Err? ==> DrainFailure(before, open, fail, r.error)
  {
    ghost var mid := store.db;
    HalfwayAt(before, open, i, mid);
    r := RecoverOne(store, open[i].0, open[i].1, now, fail);
    if r.Ok? {
      HalfwayNext(before, open, i, mid, store.db);
    }
  }

  ghost predicate DrainFailure(before: Db, open: Worklist, fail: Failpoint, e: Error) {
    || (e == InjectedCrash && exists i :: 0 <= i < |open| && !Quiet(fail, open[i].0))
    || (e == Inconsistent(AuditExhausted) && |before.audit| + |open| > U64_MAX)
  }

  lemma DrainStopped(before: Db, open: Worklist, fail: Failpoint, e: Error)
    requires Inv(before) && ListsOpen(before.invocations, open) && DrainFailure(before, open, fail, e)
    ensures StoppedFor(before, fail, e)
  {
    OpenListed(before, open);
    if e == InjectedCrash {
      var i :| 0 <= i < |open| && !Quiet(fail, open[i].0);
      assert open[i].0 in Open(before.invocations);
    }
  }

  ghost predicate Counted(open: Worklist, n: nat, report: Report)
    requires n <= |open|
  {
    forall a {:trigger Listed(open, n, a)} :: report.Count(a) == Saturated(|Listed(open, n, a)|)
  }

  lemma CountedNone(open: Worklist)
    ensures Counted(open, 0, NOTHING)
  {
    forall a ensures NOTHING.Count(a) == Saturated(|Listed(open, 0, a)|) { assert Listed(open, 0, a) == {}; }
  }

  lemma CountedNext(open: Worklist, n: nat, report: Report)
    requires n < |open| && (forall i, j :: 0 <= i < j < |open| ==> open[i].0 != open[j].0) && Counted(open, n, report)
    ensures Counted(open, n + 1, report.Add(open[n].1))
  {
    forall a ensures report.Add(open[n].1).Count(a) == Saturated(|Listed(open, n + 1, a)|) { ListedNext(open, n, a); }
  }

  /** The first `n` listed invocations are finished and the rest are as they were. */
  ghost predicate Halfway(before: Db, open: Worklist, n: nat, db: Db)
    requires n <= |open|
  {
    && db.invocations.Keys == before.invocations.Keys
    && (forall id :: id in before.invocations ==>
          if Has(open, n, id) then Ended(before.invocations[id], db.invocations[id])
          else db.invocations[id] == before.invocations[id])
    && |db.audit| == |before.audit| + n
  }

  lemma HalfwayNext(before: Db, open: Worklist, n: nat, mid: Db, next: Db)
    requires n < |open| && ListsOpen(before.invocations, open) && Halfway(before, open, n, mid)
    requires open[n].0 in mid.invocations && Finished(mid, open[n].0, next)
    ensures Halfway(before, open, n + 1, next)
  {
    forall id ensures Has(open, n + 1, id) <==> Has(open, n, id) || id == open[n].0 {
      if Has(open, n, id) { var i :| 0 <= i < n && open[i].0 == id; }
    }
    assert !Has(open, n, open[n].0);
  }

  lemma HalfwayAt(before: Db, open: Worklist, n: nat, mid: Db)
    requires n < |open| && ListsOpen(before.invocations, open) && Halfway(before, open, n, mid)
    ensures open[n].0 in mid.invocations && Lifecycle.RecoveryFor(mid.invocations[open[n].0].state) == Some(open[n].1)
  {
    assert !Has(open, n, open[n].0);
  }

  lemma HalfwayEnded(before: Db, open: Worklist, db: Db, id: InvocationId)
    requires Inv(before) && ListsOpen(before.invocations, open) && Halfway(before, open, |open|, db)
    requires id in db.invocations
    ensures Ended(before.invocations[id], db.invocations[id]) && db.invocations[id].state.IsTerminal()
  {
    assert InvOk(before.grants, id, before.invocations[id]);
  }

  lemma HalfwayDone(before: Db, open: Worklist, db: Db, report: Report)
    requires Inv(before) && |db.audit| <= U64_MAX && ListsOpen(before.invocations, open)
    requires Halfway(before, open, |open|, db) && Counted(open, |open|, report)
    ensures AllRecovered(before, db, report) && |before.audit| + |Open(before.invocations)| <= U64_MAX
  {
    OpenListed(before, open);
    forall id | id in db.invocations
      ensures Ended(before.invocations[id], db.invocations[id]) && db.invocations[id].state.IsTerminal()
    {
      HalfwayEnded(before, open, db, id);
    }
  }

  lemma {:induction false} WorklistSize(open: Worklist, n: nat)
    requires n <= |open| && forall i, j :: 0 <= i < j < |open| ==> open[i].0 != open[j].0
    ensures |set i | 0 <= i < n :: open[i].0| == n
  {
    if n > 0 {
      WorklistSize(open, n - 1);
      assert (set i | 0 <= i < n :: open[i].0) == (set i | 0 <= i < n - 1 :: open[i].0) + {open[n - 1].0};
    }
  }

  lemma OpenListed(db: Db, open: Worklist)
    requires Inv(db) && ListsOpen(db.invocations, open)
    ensures |Open(db.invocations)| == |open|
    ensures forall i :: 0 <= i < |open| ==> open[i].0 in Open(db.invocations)
    ensures forall a :: Listed(open, |open|, a) == NeedsAction(db.invocations, a)
  {
    forall id | id in db.invocations
      ensures id in Open(db.invocations) <==> Has(open, |open|, id)
    {
      assert InvOk(db.grants, id, db.invocations[id]);
    }
    WorklistSize(open, |open|);
    assert Open(db.invocations) == set i | 0 <= i < |open| :: open[i].0;
    forall a ensures Listed(open, |open|, a) == NeedsAction(db.invocations, a) {
      forall id | id in NeedsAction(db.invocations, a) ensures id in Listed(open, |open|, a) {
        assert Has(open, |open|, id);
      }
    }
  }
}
