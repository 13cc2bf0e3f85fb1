/**
 * What the invariant gives over whole runs: conservation and ceilings on every
 * ledger, a budget delegation cannot multiply, records that only accumulate,
 * an ending that is final, revocation that is permanent, and one idempotency
 * key for one invocation.
 */
module StoreLaws {
  import opened Prelude
  import opened Budget
  import opened Records
  import opened Grants
  import opened ChainLaws
  import opened Custody
  import opened CustodyInv
  import opened CustodyRuns
  import opened TransitionRuns
  import Lifecycle

  // ---- conservation and delegation --------------------------------------------------

  /** After any run, each ledger's use is exactly what the invocations listing it hold. */
  lemma Conservation(events: seq<Event>, l: LedgerRef, d: Dimension)
    ensures var db := Run(EMPTY, events); Used(db.ledgers, l).Get(d) == Total(db.invocations, l, d)
  {
    RunKeeps(events);
  }

  /** An open invocation's whole reservation is still on each of its ledgers, so releasing it cannot underflow. */
  lemma ReservationHeld(events: seq<Event>, id: InvocationId, l: LedgerRef, d: Dimension)
    requires id in Run(EMPTY, events).invocations && !Run(EMPTY, events).invocations[id].state.IsTerminal()
    requires l in Run(EMPTY, events).invocations[id].ledgers
    ensures Run(EMPTY, events).invocations[id].reserved.Get(d) <= Used(Run(EMPTY, events).ledgers, l).Get(d)
  {
    RunKeeps(events);
    ChargeBound(Run(EMPTY, events).invocations, id, l, d);
  }

  ghost function ChildUses(db: Db, p: GrantId, d: Dimension): map<GrantId, nat> {
    map c | c in db.grants && db.grants[c].parent == Some(p) :: Used(db.ledgers, OfGrant(c)).Get(d)
  }

  ghost function ChildTotals(grants: map<GrantId, Grant>, p: GrantId, invs: Invs, d: Dimension): map<GrantId, nat> {
    map c | c in grants && grants[c].parent == Some(p) :: Total(invs, OfGrant(c), d)
  }

  ghost function ChildCharges(grants: map<GrantId, Grant>, p: GrantId, inv: Invocation, d: Dimension): map<GrantId, nat>
  {
    map c | c in grants && grants[c].parent == Some(p) :: Charge(inv, OfGrant(c), d)
  }

  /** A recorded chain through a child of `p` runs through `p`, and through no other child of it. */
  lemma OneChildOnChain(grants: map<GrantId, Grant>, p: GrantId, ids: seq<GrantId>, a: GrantId, b: GrantId)
    requires GrantsOk(grants) && ChainStored(grants, ids) && a in ids && b in ids
    requires a in grants && grants[a].parent == Some(p) && b in grants && grants[b].parent == Some(p)
    ensures a == b && p in ids
  {
    var chain := ChainOf(grants, ids[0]);
    PathDistinct(grants, chain);
    var i :| 0 <= i < |chain| && chain[i].id == a;
    var j :| 0 <= j < |chain| && chain[j].id == b;
    assert chain[i].parent == Some(p) && chain[j].parent == Some(p);
    assert chain[i + 1].id == p && ids[i + 1] == p;
  }

  /** One invocation charges at most one child of `p`, and then charges `p` as much. */
  lemma OneChildCharged(grants: map<GrantId, Grant>, p: GrantId, id: InvocationId, inv: Invocation, d: Dimension)
    requires GrantsOk(grants) && InvOk(grants, id, inv)
    ensures Sum(ChildCharges(grants, p, inv, d)) <= Charge(inv, OfGrant(p), d)
  {
    var m := ChildCharges(grants, p, inv, d);
    forall a, b | a in m && b in m && m[a] != 0 && m[b] != 0 ensures a == b && m[a] <= Charge(inv, OfGrant(p), d) {
      OneChildOnChain(grants, p, inv.grantChain, a, b);
    }
    SumAtMostOne(m, Charge(inv, OfGrant(p), d));
  }

  lemma TotalSplit(invs: Invs, id: InvocationId, l: LedgerRef, d: Dimension)
    requires id in invs
    ensures Total(invs, l, d) == Charge(invs[id], l, d) + Total(invs - {id}, l, d)
  {
    SumSplit(Charges(invs, l, d), id);
    assert Charges(invs, l, d) - {id} == Charges(invs - {id}, l, d);
  }

  lemma {:induction false} ChildTotalsBound(grants: map<GrantId, Grant>, p: GrantId, invs: Invs, d: Dimension)
    requires GrantsOk(grants) && InvsOk(grants, invs)
    ensures Sum(ChildTotals(grants, p, invs, d)) <= Total(invs, OfGrant(p), d)
    decreases |invs|
  {
    if invs == map[] {
      forall c | c in ChildTotals(grants, p, invs, d) ensures ChildTotals(grants, p, invs, d)[c] == 0 {
        SumZero(Charges(invs, OfGrant(c), d));
      }
      SumZero(ChildTotals(grants, p, invs, d));
    } else {
      var id :| id in invs;
      assert InvOk(grants, id, invs[id]);
      var rest := invs - {id};
      forall i {:trigger InvOk(grants, i, rest[i])} | i in rest ensures InvOk(grants, i, rest[i]) {
        assert InvOk(grants, i, invs[i]);
      }
      ChildTotalsBound(grants, p, rest, d);
      OneChildCharged(grants, p, id, invs[id], d);
      TotalSplit(invs, id, OfGrant(p), d);
      var whole, one := ChildTotals(grants, p, invs, d), ChildCharges(grants, p, invs[id], d);
      var others := ChildTotals(grants, p, rest, d);
      forall c | c in whole ensures whole[c] == one[c] + others[c] { TotalSplit(invs, id, OfGrant(c), d); }
      SumAdd(one, others, whole);
    }
  }

  lemma DelegationIn(db: Db, p: GrantId, d: Dimension)
    requires Inv(db) && p in db.grants
    ensures Sum(ChildUses(db, p, d)) <= Used(db.ledgers, OfGrant(p)).Get(d)
    ensures Under(Used(db.ledgers, OfGrant(p)), db.grants[p].ceilings)
  {
    ChildTotalsBound(db.grants, p, db.invocations, d);
    assert ChildUses(db, p, d) == ChildTotals(db.grants, p, db.invocations, d);
  }

  /**
   * Delegation never multiplies budget: after any run a grant has been charged
   * at least the sum of what its direct children have, and never more than its
   * ceiling, however much its children's ceilings oversubscribe it.
   */
  lemma DelegationBounded(events: seq<Event>, p: GrantId, d: Dimension)
    requires p in Run(EMPTY, events).grants
    ensures var db := Run(EMPTY, events);
            && Sum(ChildUses(db, p, d)) <= Used(db.ledgers, OfGrant(p)).Get(d)
            && (db.grants[p].ceilings.Get(d).Some? ==>
                  Used(db.ledgers, OfGrant(p)).Get(d) <= db.grants[p].ceilings.Get(d).value)
  {
    RunKeeps(events);
    DelegationIn(Run(EMPTY, events), p, d);
  }

  // ---- records only accumulate -------------------------------------------------------

  ghost predicate Grows(before: Db, next: Db) {
    && Extends(before.grants, next.grants)
    && Extends(before.sessions, next.sessions)
    && Extends(before.revocations, next.revocations)
    && Extends(before.idem, next.idem)
    && Extends(before.published, next.published)
    && before.invocations.Keys <= next.invocations.Keys
    && before.tombstones <= next.tombstones
    && before.audit <= next.audit
    && (forall id {:trigger before.invocations[id]} ::
          id in before.invocations && before.invocations[id].state.IsTerminal() ==>
            next.invocations[id] == before.invocations[id])
  }

  ghost predicate OwnerKnown(db: Db, l: LedgerRef) {
    match l
    case OfGrant(g) => g in db.grants
    case OfSession(s) => s in db.sessions
    case OfTenant(t) => t in db.tenants || t in db.tombstones
  }

  /** What one transaction leaves of the ledgers and the directory, given what it can list. */
  ghost predicate Accounted(db: Db, next: Db) {
    && (forall t :: t in db.tenants ==> t in next.tenants || t in next.tombstones)
    && (forall l :: l in next.ledgers && l !in db.ledgers ==> OwnerKnown(next, l))
  }

  lemma ExtendingGrows(db: Db, next: Db)
    requires Extending(db, next)
    ensures Grows(db, next) && Accounted(db, next)
  {
  }

  lemma GrowsTrans(a: Db, b: Db, c: Db)
    requires Grows(a, b) && Grows(b, c)
    ensures Grows(a, c)
  {
  }

  lemma ActGrows(db: Db, id: InvocationId, action: Action, now: Timestamp)
    requires InvsOk(db.grants, db.invocations)
    ensures Grows(db, TransitionTx(db, id, action, now).After(db))
  {
    if TransitionTx(db, id, action, now).Commit? {
      assert InvOk(db.grants, id, db.invocations[id]);
      var staged := Stage(db, db.invocations[id], action, now);
      var state := Lifecycle.NextState(db.invocations[id].state, action.Step()).value;
      StoreGrows(db, staged.value.0, staged.value.1.(state := state));
    }
  }

  lemma StoreGrows(db: Db, staged: Db, record: Invocation)
    requires StagedFrom(db, staged) && StoreRecord(staged, record).Ok?
    requires record.id in db.invocations && !db.invocations[record.id].state.IsTerminal()
    ensures Grows(db, StoreRecord(staged, record).value)
  {
    var next := StoreRecord(staged, record).value;
    RecordGrows(db, staged, record, next);
  }

  lemma RecordGrows(db: Db, staged: Db, record: Invocation, next: Db)
    requires StagedFrom(db, staged) && record.id in db.invocations && !db.invocations[record.id].state.IsTerminal()
    requires next == staged.(invocations := staged.invocations[record.id := record], audit := next.audit)
    requires staged.audit <= next.audit
    ensures Grows(db, next)
  {
  }

  /** A persisted intent adds its invocation, its binding and its debits, and nothing else. */
  lemma PersistGrows(db: Db, record: Invocation, debited: Ledgers, slot: IdemKey, bound: IdemRecord)
    requires slot !in db.idem && record.id !in db.invocations
    ensures Grows(db, db.(ledgers := debited, invocations := db.invocations[record.id := record],
                          idem := db.idem[slot := bound]))
  {
  }

  lemma BeginGrows(db: Db, intent: Intent, now: Timestamp)
    ensures Grows(db, BeginTx(db, intent, now).After(db))
  {
    if intent.Slot() !in db.idem && intent.invocation !in db.invocations {
      StoreIntentGrows(db, intent, Authorize(db, intent.authz, now));
    }
  }

  lemma StoreIntentGrows(db: Db, intent: Intent, decision: Result<Decision, Fault>)
    requires intent.Slot() !in db.idem && intent.invocation !in db.invocations
    ensures Grows(db, StoreIntent(db, intent, decision).After(db))
  {
    var tx := StoreIntent(db, intent, decision);
    if tx.Commit? {
      if tx.reply.Persisted? {
        PersistGrows(db, tx.reply.invocation, tx.db.ledgers, intent.Slot(),
                     IdemRecord(intent.invocation, intent.Binding()));
      } else {
        ExtendingGrows(db, tx.db);
      }
    }
  }

  /** Every transaction outside the capture lifecycle only extends the store. */
  lemma PerformExtending(db: Db, r: Request, now: Timestamp)
    requires !r.Begin? && !r.Act?
    ensures Perform(db, r, now) == db || Extending(db, Perform(db, r, now))
  {
    if r.Note? && AppendAudit(db, r.entry).Ok? {
      assert Extending(db, AppendAudit(db, r.entry).value);
    }
  }

  /**
   * No transaction removes or rewrites a grant, session, revocation, binding,
   * published artifact, audit entry or ended invocation.
   */
  lemma PerformGrows(db: Db, r: Request, now: Timestamp)
    requires InvsOk(db.grants, db.invocations)
    ensures Grows(db, Perform(db, r, now))
  {
    match r {
      case Begin(intent) => BeginGrows(db, intent, now);
      case Act(id, action) => ActGrows(db, id, action, now);
      case _ =>
        PerformExtending(db, r, now);
        if Perform(db, r, now) != db { ExtendingGrows(db, Perform(db, r, now)); }
    }
  }

  lemma {:induction false} RunGrows(db: Db, events: seq<Event>)
    requires Inv(db)
    ensures Inv(Run(db, events)) && Grows(db, Run(db, events))
    decreases |events|
  {
    if events != [] {
      var last, mid := events[|events| - 1], Run(db, events[..|events| - 1]);
      RunGrows(db, events[..|events| - 1]);
      if !last.lost {
        PerformKeeps(mid, last.request, last.now);
        PerformGrows(mid, last.request, last.now);
        GrowsTrans(db, mid, Perform(mid, last.request, last.now));
      }
    }
  }

  // ---- an ending is final ---------------------------------------------------------------

  /**
   * An ended invocation takes no further step: every later attempt, after any
   * further run, is refused as an illegal transition and changes nothing.
   */
  lemma EndedForever(db: Db, id: InvocationId, events: seq<Event>, action: Action, now: Timestamp)
    requires Inv(db) && id in db.invocations && db.invocations[id].state.IsTerminal()
    ensures var later := Run(db, events);
            && id in later.invocations
            && later.invocations[id] == db.invocations[id]
            && TransitionTx(later, id, action, now)
               == Abort(Authz(IllegalTransition(db.invocations[id].state, action.Step())))
  {
    RunGrows(db, events);
    EndedRefuses(Run(db, events), id, action, now);
  }

  lemma EndedRefuses(db: Db, id: InvocationId, action: Action, now: Timestamp)
    requires id in db.invocations && db.invocations[id].state.IsTerminal()
    ensures TransitionTx(db, id, action, now)
            == Abort(Authz(IllegalTransition(db.invocations[id].state, action.Step())))
  {
  }

  /**
   * After any run a capture is published exactly once its publish step has
   * committed, its side record is its own, and no later run rewrites it.
   */
  lemma PublishedExactly(events: seq<Event>, more: seq<Event>, id: InvocationId)
    ensures var db := Run(EMPTY, events);
            && (id in db.published <==> id in db.invocations && Visible(db.invocations[id]))
            && (id in db.published ==>
                  && Describes(db.published[id], db.invocations[id]) && db.published[id].publishedAt.Some?
                  && id in Run(db, more).published && Run(db, more).published[id] == db.published[id])
  {
    RunKeeps(events);
    RunGrows(Run(EMPTY, events), more);
    var db := Run(EMPTY, events);
    assert ArtifactOk(db.invocations, db.pending, db.published, id);
  }

  // ---- revocation is permanent ------------------------------------------------------------

  /** The chain of a stored grant does not change as the store grows. */
  lemma ChainStable(db: Db, later: Db, id: GrantId)
    requires GrantsOk(db.grants) && GrantsOk(later.grants) && Extends(db.grants, later.grants) && id in db.grants
    ensures ChainOf(later.grants, id) == ChainOf(db.grants, id)
  {
    LoadChainOk(db.grants, id);
    LoadChainExtends(db.grants, later.grants, db.grants[id]);
  }

  /** A chain through a revoked grant authorizes nothing. */
  lemma RevokedChainRefuses(db: Db, g: GrantId, t: GrantId, now: Timestamp)
    requires GrantsOk(db.grants) && t in db.grants && OnChain(db.grants, g, t) && g in db.revocations
    ensures CheckChain(db, db.grants[t], now).Ok? && CheckChain(db, db.grants[t], now).value.Invalid?
  {
    ChainUsable(db, t, now);
    var chain := ChainOf(db.grants, t);
    var i :| 0 <= i < |chain| && ChainIds(chain)[i] == g;
    assert chain[i].id in db.revocations;
  }

  /**
   * After a grant is revoked, in no later state does any grant below it
   * authorize a call, issue a child, or revoke.
   */
  lemma RevokedForever(db: Db, g: GrantId, t: GrantId, events: seq<Event>, now: Timestamp,
                       request: AuthzRequest, child: GrantId, issue: IssueRequest, target: GrantId)
    requires Inv(db) && t in db.grants && OnChain(db.grants, g, t) && g in db.revocations
    requires request.grant == t && (request.session.None? || SessionRequirement(request.capability) != Forbidden)
    ensures var later := Run(db, events);
            && t in later.grants
            && Authorize(later, request, now).Ok? && Authorize(later, request, now).value.Refused?
            && CheckIssue(later, request.tenant, t, child, issue, now).Ok?
            && !CheckIssue(later, request.tenant, t, child, issue, now).value.Issued?
            && CheckRevoke(later, request.tenant, t, target, now).Ok?
            && CheckRevoke(later, request.tenant, t, target, now).value.RevokeRefused?
  {
    RunGrows(db, events);
    var later := Run(db, events);
    ChainStable(db, later, t);
    RevokedChainRefuses(later, g, t, now);
  }

  // ---- one key, one invocation --------------------------------------------------------------

  /** What an intent under a bound key gets: the bound invocation, a conflict, or the error of a tenant without keys. */
  ghost function BoundReply(db: Db, bound: IdemRecord, intent: Intent): Tx<BeginReply>
    requires bound.binding == intent.Binding() ==> bound.invocation in db.invocations
  {
    if KeysError(db, intent.authz.tenant).Some? then Abort(KeysError(db, intent.authz.tenant).value)
    else if bound.binding == intent.Binding() then NoWrite(Replayed(db.invocations[bound.invocation]))
    else NoWrite(BeginConflict)
  }

  lemma BoundReplies(db: Db, intent: Intent, now: Timestamp)
    requires IdemOk(db.idem, db.invocations) && intent.Slot() in db.idem
    ensures db.idem[intent.Slot()].binding == intent.Binding() ==> db.idem[intent.Slot()].invocation in db.invocations
    ensures BeginTx(db, intent, now) == BoundReply(db, db.idem[intent.Slot()], intent)
  {
  }

  /**
   * Once a key is bound it stays bound to the same request: every later intent
   * under it, after any further run, is answered from the bound invocation or
   * refused as a conflict, and begins nothing.
   */
  lemma KeyBoundForever(db: Db, events: seq<Event>, intent: Intent, now: Timestamp)
    requires Inv(db) && intent.Slot() in db.idem
    ensures var later, bound := Run(db, events), db.idem[intent.Slot()];
            && intent.Slot() in later.idem && later.idem[intent.Slot()] == bound
            && (bound.binding == intent.Binding() ==> bound.invocation in later.invocations)
            && BeginTx(later, intent, now) == BoundReply(later, bound, intent)
  {
    RunGrows(db, events);
    BoundReplies(Run(db, events), intent, now);
  }

  lemma PersistedBinds(db: Db, intent: Intent, now: Timestamp)
    requires BeginTx(db, intent, now).Commit? && BeginTx(db, intent, now).reply.Persisted?
    ensures var next := BeginTx(db, intent, now).db;
            && intent.Slot() in next.idem
            && next.idem[intent.Slot()] == IdemRecord(intent.invocation, intent.Binding())
  {
  }

  /** A persisted intent binds its key, so the same key never begins a second invocation. */
  lemma BeginOnce(db: Db, first: Intent, at: Timestamp, events: seq<Event>, second: Intent, now: Timestamp)
    requires Inv(db) && BeginTx(db, first, at).Commit? && BeginTx(db, first, at).reply.Persisted?
    requires second.Slot() == first.Slot()
    ensures var later := Run(BeginTx(db, first, at).db, events);
            && first.invocation in later.invocations
            && BeginTx(later, second, now) == BoundReply(later, IdemRecord(first.invocation, first.Binding()), second)
  {
    BeginKeeps(db, first, at);
    PersistedBinds(db, first, at);
    KeyBoundForever(BeginTx(db, first, at).db, events, first, now);
    KeyBoundForever(BeginTx(db, first, at).db, events, second, now);
  }

  // ---- every ledger has an owner -------------------------------------------------------------

  ghost predicate LedgersKnown(db: Db) {
    forall l {:trigger OwnerKnown(db, l)} :: l in db.ledgers ==> OwnerKnown(db, l)
  }

  lemma ListedKnown(db: Db, id: InvocationId, l: LedgerRef)
    requires Inv(db) && id in db.invocations && l in db.invocations[id].ledgers
    ensures OwnerKnown(db, l)
  {
    var inv := db.invocations[id];
    assert InvOk(db.grants, id, inv);
    assert Known(inv, db.tenants, db.tombstones, db.sessions);
    if l.OfGrant? {
      var chain := ChainOf(db.grants, inv.grantChain[0]);
      assert l.grant in inv.grantChain;
      var i :| 0 <= i < |chain| && chain[i].id == l.grant;
    }
  }

  lemma BeginAccounted(db: Db, intent: Intent, now: Timestamp)
    requires Inv(BeginTx(db, intent, now).After(db))
    ensures Accounted(db, BeginTx(db, intent, now).After(db))
  {
    var tx := BeginTx(db, intent, now);
    if tx.Commit? {
      StoreIntentAccounted(db, intent, Authorize(db, intent.authz, now));
    }
  }

  lemma StoreIntentAccounted(db: Db, intent: Intent, decision: Result<Decision, Fault>)
    requires StoreIntent(db, intent, decision).Commit? && Inv(StoreIntent(db, intent, decision).db)
    ensures Accounted(db, StoreIntent(db, intent, decision).db)
  {
    var tx := StoreIntent(db, intent, decision);
    if tx.reply.Persisted? {
      var a := decision.value;
      assert tx.db.tenants == db.tenants && tx.db.invocations[intent.invocation].ledgers == a.ledgers;
      assert tx.db.ledgers == ReserveAll(db.ledgers, a.ledgers, a.cost).value;
      forall l | l in tx.db.ledgers && l !in db.ledgers ensures OwnerKnown(tx.db, l) {
        ListedKnown(tx.db, intent.invocation, l);
      }
    } else {
      ExtendingGrows(db, tx.db);
    }
  }

  lemma ActAccounted(db: Db, id: InvocationId, action: Action, now: Timestamp)
    requires Inv(db)
    ensures Accounted(db, TransitionTx(db, id, action, now).After(db))
  {
    if TransitionTx(db, id, action, now).Commit? {
      var record := db.invocations[id];
      forall l | l in record.ledgers ensures OwnerKnown(db, l) { ListedKnown(db, id, l); }
      StoreAccounted(db, Stage(db, record, action, now).value.0, record, TransitionTx(db, id, action, now).db);
    }
  }

  lemma StoreAccounted(db: Db, staged: Db, record: Invocation, next: Db)
    requires StagedFrom(db, staged) && Touches(db, staged, record)
    requires next == staged.(invocations := next.invocations, audit := next.audit)
    requires forall l :: l in record.ledgers ==> OwnerKnown(db, l)
    ensures Accounted(db, next)
  {
    forall l | l in next.ledgers && l !in db.ledgers ensures OwnerKnown(next, l) { assert OwnerKnown(db, l); }
  }

  lemma PerformAccounted(db: Db, r: Request, now: Timestamp)
    requires Inv(db) && Inv(Perform(db, r, now))
    ensures Accounted(db, Perform(db, r, now))
  {
    match r {
      case Begin(intent) => BeginAccounted(db, intent, now);
      case Act(id, action) => ActAccounted(db, id, action, now);
      case _ =>
        PerformExtending(db, r, now);
        if Perform(db, r, now) != db { ExtendingGrows(db, Perform(db, r, now)); }
    }
  }

  lemma OwnersStay(db: Db, next: Db)
    requires Grows(db, next) && Accounted(db, next) && LedgersKnown(db)
    ensures LedgersKnown(next)
  {
    forall l {:trigger OwnerKnown(next, l)} | l in next.ledgers ensures OwnerKnown(next, l) {
      if l in db.ledgers { assert OwnerKnown(db, l); }
    }
  }

  /** After any run, every stored ledger belongs to a stored grant, session or tenant, or to a shredded tenant. */
  lemma {:induction false} EveryLedgerHasOwner(events: seq<Event>)
    ensures LedgersKnown(Run(EMPTY, events))
    decreases |events|
  {
    if events != [] {
      var last, mid := events[|events| - 1], Run(EMPTY, events[..|events| - 1]);
      EveryLedgerHasOwner(events[..|events| - 1]);
      RunKeeps(events[..|events| - 1]);
      if !last.lost {
        PerformKeeps(mid, last.request, last.now);
        PerformGrows(mid, last.request, last.now);
        PerformAccounted(mid, last.request, last.now);
        OwnersStay(mid, Perform(mid, last.request, last.now));
      }
    }
  }

  // ---- attenuation over every issue history ---------------------------------------------------

  /**
   * After any run, every stored grant's chain loads, has one link per depth,
   * and every link is attenuated by every link below it.
   */
  lemma AttenuationHolds(events: seq<Event>, id: GrantId, i: nat, j: nat)
    requires id in Run(EMPTY, events).grants
    requires i <= j <= Run(EMPTY, events).grants[id].depth
    ensures var grants := Run(EMPTY, events).grants;
            && LoadChain(grants, grants[id]).Ok?
            && |LoadChain(grants, grants[id]).value| == grants[id].depth + 1
            && Attenuates(LoadChain(grants, grants[id]).value[j], LoadChain(grants, grants[id]).value[i])
  {
    RunKeeps(events);
    var grants := Run(EMPTY, events).grants;
    ChainAttenuates(grants, ChainOf(grants, id), i, j);
  }
}
