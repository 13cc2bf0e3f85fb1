/**
 * Calls outside the capture lifecycle: each binds its idempotency key to a
 * fresh invocation id and then creates the session or child grant of that id.
 * Calls interleave with each other, with every other transaction and with key
 * rotations, and a crash can fall between the two writes.
 */
module Idempotency {
  import opened Prelude
  import opened Budget
  import opened Records
  import opened Grants
  import opened ChainLaws
  import opened Custody
  import opened StoreLaws
  import opened Claims
  import CustodyRuns

  /** What a call asks to create. */
  datatype Wanted = NewSession(parent: Option<SessionId>) | ChildGrant(request: IssueRequest)

  datatype Call = Call(tenant: TenantId, grant: GrantId, wanted: Wanted, key: nat, digest: nat)
  {
    function Needs(): Capability {
      match wanted
      case NewSession(parent) => if parent.Some? then SessionFork else SessionCreate
      case ChildGrant(_) => GrantIssue
    }

    function Claiming(drawn: InvocationId): IdemClaim { IdemClaim(tenant, grant, Needs(), key, digest, drawn) }

    function Slot(): IdemKey { IdemKey(tenant, Needs(), key) }

    /** The transaction that creates what the call wants under `id`. */
    function Creating(id: InvocationId): Request {
      match wanted
      case NewSession(parent) => Open(SessionRecord(id, tenant, parent, NO_CEILINGS), id)
      case ChildGrant(request) => Issue(tenant, grant, id, request, id)
    }

    /** What the call wants is stored under `id`, as it asked for it. */
    predicate StoredAs(db: Db, id: Id) {
      match wanted
      case NewSession(parent) => id in db.sessions && db.sessions[id] == SessionRecord(id, tenant, parent, NO_CEILINGS)
      case ChildGrant(request) =>
        && id in db.grants && db.grants[id].issuer == tenant && db.grants[id].parent == Some(grant)
        && IssuedFrom(db, db.grants[id], request)
    }
  }

  datatype Phase = Ready | Bound(id: InvocationId) | Ended

  datatype Task = Task(call: Call, phase: Phase)

  /** A session or grant that one call's second write stored. */
  datatype Effect = Effect(call: Call, id: Id)

  datatype World = World(store: Store, tasks: map<nat, Task>, made: set<Effect>)

  datatype Event =
    | Other(event: Claims.Event)
    | Arrive(task: nat, call: Call)
    | BindKey(task: nat, drawn: InvocationId, lost: bool)
    | Create(task: nat, now: Timestamp, lost: bool)
    | Crash

  /** The phase after a claim: an error or a conflict ends the call. */
  function AfterClaim(answer: Result<Claimed, ClaimError>): Phase {
    if answer.Err? || answer.value.ClaimConflict? then Ended else Bound(answer.value.invocation)
  }

  /** The call's second write at `now`. */
  function Creation(task: Task, now: Timestamp): Claims.Event
    requires task.phase.Bound?
  {
    Txn(Custody.Event(task.call.Creating(task.phase.id), now, false))
  }

  /** The second write stored a session or a grant. */
  predicate Stores(db: Db, next: Db) { next.sessions != db.sessions || next.grants != db.grants }

  ghost function Next(w: World, e: Event): World {
    match e
    case Other(event) => w.(store := Claims.Next(w.store, event))
    case Arrive(i, call) => if i in w.tasks then w else w.(tasks := w.tasks[i := Task(call, Ready)])
    case BindKey(i, drawn, lost) =>
      if i !in w.tasks || !w.tasks[i].phase.Ready? then w
      else if lost then w.(tasks := w.tasks[i := w.tasks[i].(phase := Ended)])
      else
        var (next, answer) := ClaimOn(w.store, w.tasks[i].call.Claiming(drawn));
        World(next, w.tasks[i := w.tasks[i].(phase := AfterClaim(answer))], w.made)
    case Create(i, now, lost) =>
      if i !in w.tasks || !w.tasks[i].phase.Bound? then w
      else
        var task := w.tasks[i];
        var ended := w.tasks[i := task.(phase := Ended)];
        if lost then w.(tasks := ended)
        else
          var next := Claims.Next(w.store, Creation(task, now));
          World(next, ended,
                if Stores(w.store.db, next.db) then w.made + {Effect(task.call, task.phase.id)} else w.made)
    case Crash => w.(tasks := map[])
  }

  ghost function Run(events: seq<Event>): World
    decreases |events|
  {
    if events == [] then World(START, map[], {}) else Next(Run(events[..|events| - 1]), events[|events| - 1])
  }

  // ---- the invariant --------------------------------------------------------------------

  /** The call's key is bound to exactly this request and id. */
  ghost predicate BoundTo(db: Db, call: Call, id: InvocationId) {
    call.Slot() in db.idem && db.idem[call.Slot()] == call.Claiming(id).Entry()
  }

  ghost predicate TaskOk(db: Db, task: Task) { task.phase.Bound? ==> BoundTo(db, task.call, task.phase.id) }

  ghost predicate TasksOk(db: Db, tasks: map<nat, Task>) {
    forall i {:trigger TaskOk(db, tasks[i])} :: i in tasks ==> TaskOk(db, tasks[i])
  }

  ghost predicate EffectOk(db: Db, x: Effect) { BoundTo(db, x.call, x.id) && x.call.StoredAs(db, x.id) }

  /** Every effect is bound and stored, and no two share a key. */
  ghost predicate MadeOk(db: Db, made: set<Effect>) {
    && (forall x {:trigger EffectOk(db, x)} :: x in made ==> EffectOk(db, x))
    && (forall x, y :: x in made && y in made && x.call.Slot() == y.call.Slot() ==> x == y)
  }

  ghost predicate WorldOk(w: World) {
    StoreOk(w.store) && TasksOk(w.store.db, w.tasks) && MadeOk(w.store.db, w.made)
  }

  /** Bindings, grants and sessions are only added. */
  ghost predicate Keeps(db: Db, next: Db) {
    Extends(db.idem, next.idem) && Extends(db.grants, next.grants) && Extends(db.sessions, next.sessions)
  }

  lemma StoreKeeps(s: Store, e: Claims.Event)
    requires StoreOk(s)
    ensures StoreOk(Claims.Next(s, e)) && Keeps(s.db, Claims.Next(s, e).db)
  {
    Claims.NextKeeps(s, e);
    if e.Txn? && !e.event.lost { PerformGrows(s.db, e.event.request, e.event.now); }
  }

  lemma BoundKept(db: Db, next: Db, w: World)
    requires Keeps(db, next) && GrantsOk(db.grants) && TasksOk(db, w.tasks) && MadeOk(db, w.made)
    ensures TasksOk(next, w.tasks) && MadeOk(next, w.made)
  {
    forall i {:trigger TaskOk(next, w.tasks[i])} | i in w.tasks ensures TaskOk(next, w.tasks[i]) {
      assert TaskOk(db, w.tasks[i]);
    }
    forall x {:trigger EffectOk(next, x)} | x in w.made ensures EffectOk(next, x) {
      assert EffectOk(db, x);
      if x.call.wanted.ChildGrant? { assert GrantOk(db.grants, x.id); }
    }
  }

  // ---- the two writes --------------------------------------------------------------------

  lemma OpenStores(db: Db, s: SessionRecord, via: InvocationId)
    ensures var next := OpenSessionTx(db, s, via).After(db);
            && next.grants == db.grants
            && (next.sessions != db.sessions ==> s.id !in db.sessions && next.sessions == db.sessions[s.id := s])
  {
  }

  /** What an issue decision stores: the child it names, where no grant had its id. */
  lemma DecisionStores(db: Db, issuer: TenantId, designated: GrantId, decision: Result<IssueDecision, Fault>,
                       via: InvocationId)
    ensures var next := StoreIssue(db, issuer, designated, decision, via).After(db);
            && next.sessions == db.sessions
            && (next.grants != db.grants ==>
                  && decision.Ok? && decision.value.Issued? && decision.value.child.id !in db.grants
                  && next.grants == db.grants[decision.value.child.id := decision.value.child])
  {
    var tx := StoreIssue(db, issuer, designated, decision, via);
    if tx.Commit? { assert tx.db == db.(grants := tx.db.grants, audit := tx.db.audit); }
  }

  lemma IssuedAsAsked(db: Db, issuer: TenantId, designated: GrantId, id: GrantId, request: IssueRequest, now: Timestamp)
    requires GrantsOk(db.grants)
    requires CheckIssue(db, issuer, designated, id, request, now).Ok?
    requires CheckIssue(db, issuer, designated, id, request, now).value.Issued?
    ensures var g := CheckIssue(db, issuer, designated, id, request, now).value.child;
            && designated in db.grants && g.id == id && g.issuer == issuer && g.parent == Some(designated)
            && IssuedFrom(db, g, request)
  {
    if designated in db.grants { assert GrantOk(db.grants, designated); }
  }

  lemma IssueStores(db: Db, issuer: TenantId, designated: GrantId, id: GrantId, request: IssueRequest, now: Timestamp)
    requires GrantsOk(db.grants)
    ensures var next := IssueTx(db, issuer, designated, id, request, id, now).After(db);
            && next.sessions == db.sessions
            && (next.grants != db.grants ==>
                  && id !in db.grants && id in next.grants
                  && next.grants[id].issuer == issuer && next.grants[id].parent == Some(designated)
                  && IssuedFrom(next, next.grants[id], request))
  {
    var decision := CheckIssue(db, issuer, designated, id, request, now);
    DecisionStores(db, issuer, designated, decision, id);
    if decision.Ok? && decision.value.Issued? { IssuedAsAsked(db, issuer, designated, id, request, now); }
  }

  /** A second write that stores something stores exactly what its call asks for, under a new id. */
  lemma CreateStores(db: Db, call: Call, id: InvocationId, now: Timestamp)
    requires GrantsOk(db.grants)
    ensures var next := Perform(db, call.Creating(id), now);
            Stores(db, next) ==>
              call.StoredAs(next, id) && (if call.wanted.NewSession? then id !in db.sessions else id !in db.grants)
  {
    match call.wanted {
      case NewSession(parent) => OpenStores(db, SessionRecord(id, call.tenant, parent, NO_CEILINGS), id);
      case ChildGrant(request) => IssueStores(db, call.tenant, call.grant, id, request, now);
    }
  }

  /** A claim that goes through leaves its key bound to the claim's request. */
  lemma ClaimBinds(s: Store, call: Call, drawn: InvocationId)
    requires StoreOk(s)
    ensures var (next, answer) := ClaimOn(s, call.Claiming(drawn));
            && StoreOk(next) && Keeps(s.db, next.db)
            && (AfterClaim(answer).Bound? ==> BoundTo(next.db, call, AfterClaim(answer).id))
  {
    ClaimAnswers(s, call.Claiming(drawn));
    CustodyRuns.ClaimKeeps(s.db, call.Claiming(drawn));
  }

  lemma BindKeeps(w: World, i: nat, drawn: InvocationId)
    requires WorldOk(w) && i in w.tasks && w.tasks[i].phase.Ready?
    ensures WorldOk(Next(w, BindKey(i, drawn, false)))
  {
    var call := w.tasks[i].call;
    ClaimBinds(w.store, call, drawn);
    var (next, answer) := ClaimOn(w.store, call.Claiming(drawn));
    BoundKept(w.store.db, next.db, w);
    var tasks := w.tasks[i := w.tasks[i].(phase := AfterClaim(answer))];
    forall j {:trigger TaskOk(next.db, tasks[j])} | j in tasks ensures TaskOk(next.db, tasks[j]) {
      if j != i { assert TaskOk(next.db, w.tasks[j]); }
    }
  }

  lemma EndKeeps(db: Db, tasks: map<nat, Task>, i: nat)
    requires TasksOk(db, tasks) && i in tasks
    ensures TasksOk(db, tasks[i := tasks[i].(phase := Ended)])
  {
    var ended := tasks[i := tasks[i].(phase := Ended)];
    forall j {:trigger TaskOk(db, ended[j])} | j in ended ensures TaskOk(db, ended[j]) {
      if j != i { assert TaskOk(db, tasks[j]); }
    }
  }

  /** An effect under the same key would already be stored, so nothing is stored twice. */
  lemma CreateMade(db: Db, next: Db, made: set<Effect>, call: Call, id: InvocationId)
    requires MadeOk(db, made) && MadeOk(next, made) && BoundTo(db, call, id) && BoundTo(next, call, id)
    requires call.StoredAs(next, id) && (if call.wanted.NewSession? then id !in db.sessions else id !in db.grants)
    ensures MadeOk(next, made + {Effect(call, id)})
  {
    forall y | y in made ensures y.call.Slot() != call.Slot() {
      assert EffectOk(db, y);
    }
    forall x {:trigger EffectOk(next, x)} | x in made + {Effect(call, id)} ensures EffectOk(next, x) {
      if x in made { assert EffectOk(next, x); }
    }
  }

  lemma CreateKeeps(w: World, i: nat, now: Timestamp)
    requires WorldOk(w) && i in w.tasks && w.tasks[i].phase.Bound?
    ensures WorldOk(Next(w, Create(i, now, false)))
  {
    var task, db := w.tasks[i], w.store.db;
    var e := Creation(task, now);
    StoreKeeps(w.store, e);
    var next := Claims.Next(w.store, e);
    BoundKept(db, next.db, w);
    EndKeeps(next.db, w.tasks, i);
    CreateStores(db, task.call, task.phase.id, now);
    assert TaskOk(db, task) && TaskOk(next.db, task);
    if Stores(db, next.db) { CreateMade(db, next.db, w.made, task.call, task.phase.id); }
  }

  lemma NextKeeps(w: World, e: Event)
    requires WorldOk(w)
    ensures WorldOk(Next(w, e))
  {
    match e {
      case Other(event) =>
        StoreKeeps(w.store, event);
        BoundKept(w.store.db, Claims.Next(w.store, event).db, w);
      case Arrive(i, call) =>
        forall j {:trigger TaskOk(w.store.db, Next(w, e).tasks[j])} | j in Next(w, e).tasks
          ensures TaskOk(w.store.db, Next(w, e).tasks[j])
        {
          if j in w.tasks { assert TaskOk(w.store.db, w.tasks[j]); }
        }
      case BindKey(i, drawn, lost) =>
        if i in w.tasks && w.tasks[i].phase.Ready? {
          if lost { EndKeeps(w.store.db, w.tasks, i); } else { BindKeeps(w, i, drawn); }
        }
      case Create(i, now, lost) =>
        if i in w.tasks && w.tasks[i].phase.Bound? {
          if lost { EndKeeps(w.store.db, w.tasks, i); } else { CreateKeeps(w, i, now); }
        }
      case Crash =>
    }
  }

  lemma {:induction false} RunKeepsWorld(events: seq<Event>)
    ensures WorldOk(Run(events))
    decreases |events|
  {
    if events == [] {
      StartOk();
    } else {
      RunKeepsWorld(events[..|events| - 1]);
      NextKeeps(Run(events[..|events| - 1]), events[|events| - 1]);
    }
  }

  /**
   * One key, one effect: over any interleaving of retries, rotations and
   * crashes, at most one session or child grant is ever stored under one
   * tenant, capability and key. It is still stored, as its call asked for it,
   * under the id the key is bound to.
   */
  lemma OneKeyOneEffect(events: seq<Event>, x: Effect, y: Effect)
    requires x in Run(events).made && y in Run(events).made && x.call.Slot() == y.call.Slot()
    ensures x == y
    ensures var db := Run(events).store.db;
            && x.call.StoredAs(db, x.id)
            && x.call.Slot() in db.idem && db.idem[x.call.Slot()] == x.call.Claiming(x.id).Entry()
  {
    RunKeepsWorld(events);
    assert EffectOk(Run(events).store.db, x);
  }
}
