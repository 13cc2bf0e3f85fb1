/**
 * The daemon around the store: capture tasks, the producer they call, the
 * running set a revocation scans, crashes, and recovery before serving again.
 * Every store step, producer report, cancel and deadline is an event, and
 * events of different calls interleave freely.
 */
module Daemon {
  import opened Prelude
  import opened Lifecycle

  // ---- one invocation ---------------------------------------------------------------------

  /** The producer's side of a call; `Ended` is a producer that has reported, so it starts nothing more. */
  datatype Producer = NotCalled | Quiet | Started | Ended(effect: bool)

  /** Where a capture task stands. */
  datatype Pc =
    | Begun                        // B1 committed, not yet in the running set
    | Registered                   // in the running set, before the dispatch re-check
    | Stopping(reason: Reason)     // the re-check said stop
    | Dispatching                  // the re-check said go
    | Calling                      // B2 committed
    | Producing                    // the producer has been called
    | Finishing(steps: seq<Step>)  // the steps its report asks for
    | Erred                        // a step failed inside the daemon
    | Resolving(step: Step)        // the step taken after an error

  /** An invocation: its durable state, its task if one runs, and the producer. `calls` counts producer calls. */
  datatype Flight = Flight(
    state: State, chain: set<GrantId>, task: Option<Pc>, calls: nat, producer: Producer, running: bool, fired: bool)

  /** What a producer reports, or that it did not report in time. */
  datatype Report =
    | Output(tooLarge: bool)
    | Unavailable(contacted: bool)
    | TransferError
    | ExtractionError
    | CancelledReport(effectStarted: bool)
    | Overdue

  /** How a store call can end: committed, failed before its commit, or failed after it. */
  datatype Outcome = Done | FailedBefore | FailedAfter

  /** A report that claims no effect. */
  predicate ClaimsNoEffect(r: Report) { r == Unavailable(false) || r == CancelledReport(false) }

  /** What an honest producer can report: no effect only when none has started. */
  predicate Honest(p: Producer, r: Report) { (p.Quiet? || p.Started?) && (ClaimsNoEffect(r) ==> p.Quiet?) }

  /** The steps a report leads to; `stop` is the reason found when it stopped without an effect. */
  function StepsFor(r: Report, stop: Reason): seq<Step> {
    match r
    case Output(tooLarge) => if tooLarge then [Settle] else [CompleteTransfer, Publish, Settle]
    case Unavailable(contacted) => if contacted then [MarkUnknownEffect] else [Release(ProducerUnavailable)]
    case TransferError => [Settle]
    case ExtractionError => [Settle]
    case CancelledReport(started) => if started then [Settle] else [Release(stop)]
    case Overdue => [MarkUnknownEffect]
  }

  /** Why a call can be told to stop: its chain, its deadline, or its caller. */
  predicate StopReason(r: Reason) { r.Revoked? || r.Expired? || r.DeadlineExceeded? || r.Cancelled? }

  datatype Move =
    | Register
    | Recheck(verdict: Option<Reason>)
    | Fault // a read between store steps fails
    | StoreStep(outcome: Outcome)
    | CallProducer
    | StartEffect
    | ReportBack(report: Report, stop: Reason)
    | LookAfterError
    | Fire
    | Abandon // the task is dropped mid-way

  /** The store step a task asks for next, if its next action is one. */
  function Asked(pc: Pc): Option<Step> {
    match pc
    case Stopping(reason) => Some(Release(reason))
    case Dispatching => Some(Dispatch)
    case Finishing(steps) => if steps == [] then None else Some(steps[0])
    case Resolving(step) => Some(step)
    case _ => None
  }

  /** The task after the step it asked for committed; `None` when it is finished. */
  function AfterStep(pc: Pc): Option<Pc> {
    match pc
    case Dispatching => Some(Calling)
    case Finishing(steps) => if |steps| > 1 then Some(Finishing(steps[1..])) else None
    case _ => None
  }

  function Finish(f: Flight): Flight { f.(task := None, running := false) }

  function FlightStore(f: Flight, outcome: Outcome): Option<Flight> {
    if f.task.None? || Asked(f.task.value).None? then None else
      var pc := f.task.value;
      var next := NextState(f.state, Asked(pc).value);
      if outcome.FailedBefore? || next.None? then
        Some(if pc.Resolving? then Finish(f) else f.(task := Some(Erred), running := false))
      else
        var g := f.(state := next.value);
        if outcome.FailedAfter? then
          Some(if pc.Resolving? then Finish(g) else g.(task := Some(Erred), running := false))
        else Some(if AfterStep(pc).Some? then g.(task := AfterStep(pc)) else Finish(g))
  }

  /** One move of one invocation; `None` when it cannot happen. */
  function FlightMove(f: Flight, m: Move, revoked: set<GrantId>): Option<Flight> {
    match m
    case Register => if f.task == Some(Begun) then Some(f.(task := Some(Registered), running := true)) else None
    case Recheck(verdict) =>
      if f.task != Some(Registered) || (verdict.Some? && !StopReason(verdict.value)) then None
      else if f.chain * revoked != {} && verdict.None? then None
      else Some(f.(task := Some(if verdict.Some? then Stopping(verdict.value) else Dispatching)))
    case Fault =>
      if f.task.Some? && (f.task.value.Registered? || f.task.value.Finishing?) then
        Some(f.(task := Some(Erred), running := false))
      else None
    case StoreStep(outcome) => FlightStore(f, outcome)
    case CallProducer =>
      if f.task == Some(Calling) then
        Some(f.(task := Some(Producing), calls := f.calls + 1, producer := Quiet))
      else None
    case StartEffect => if f.producer.Quiet? then Some(f.(producer := Started)) else None
    case ReportBack(report, stop) =>
      if f.task != Some(Producing) || !Honest(f.producer, report) || !StopReason(stop) then None
      else Some(f.(task := Some(Finishing(StepsFor(report, stop))),
                   producer := if report.Overdue? then f.producer else Ended(f.producer.Started?)))
    case LookAfterError =>
      if f.task != Some(Erred) then None
      else if f.state.IntentPersisted? then Some(f.(task := Some(Resolving(Release(Abandoned)))))
      else if f.state.Dispatched? then Some(f.(task := Some(Resolving(MarkUnknownEffect))))
      else Some(Finish(f))
    case Fire => if f.running then Some(f.(fired := true)) else None
    case Abandon => if f.task.Some? then Some(f.(task := None)) else None
  }

  // ---- the whole daemon -------------------------------------------------------------------------

  datatype RevokePhase = Recorded | Scanned | Replied(replayed: bool)

  datatype Revoker = Revoker(target: GrantId, phase: RevokePhase)

  /** `revoked` is durable; `scanned` holds the grants whose revocation has swept the running set. */
  datatype World = World(
    flights: map<InvocationId, Flight>, revoked: set<GrantId>, scanned: set<GrantId>,
    revokers: map<nat, Revoker>, serving: bool)

  const EMPTY := World(map[], {}, {}, map[], true)

  datatype Event =
    | Begin(id: InvocationId, chain: set<GrantId>)
    | Act(id: InvocationId, move: Move)
    | RevokeRecord(revoker: nat, target: GrantId)
    | RevokeScan(revoker: nat)
    | RevokeReply(revoker: nat)
    | RevokeReplay(revoker: nat, target: GrantId)
    | Crash
    | RecoverStep(id: InvocationId)
    | Serve

  /** Fires the signal of every running invocation whose chain holds `g`. */
  function Sweep(flights: map<InvocationId, Flight>, g: GrantId): map<InvocationId, Flight> {
    map i | i in flights ::
      if flights[i].running && g in flights[i].chain then flights[i].(fired := true) else flights[i]
  }

  /** A crash drops every task and the running set; the store and the producers stay. */
  function Grounded(f: Flight): Flight { f.(task := None, running := false, fired := false) }

  function Next(w: World, e: Event): World {
    match e
    case Begin(id, chain) =>
      if !w.serving || id in w.flights || chain * w.revoked != {} then w
      else w.(flights := w.flights[id := Flight(IntentPersisted, chain, Some(Begun), 0, NotCalled, false, false)])
    case Act(id, move) =>
      if id !in w.flights || FlightMove(w.flights[id], move, w.revoked).None? then w
      else w.(flights := w.flights[id := FlightMove(w.flights[id], move, w.revoked).value])
    case RevokeRecord(r, g) =>
      if !w.serving || r in w.revokers then w
      else w.(revoked := w.revoked + {g}, revokers := w.revokers[r := Revoker(g, Recorded)])
    case RevokeScan(r) =>
      if r !in w.revokers || !w.revokers[r].phase.Recorded? then w
      else w.(flights := Sweep(w.flights, w.revokers[r].target), scanned := w.scanned + {w.revokers[r].target},
              revokers := w.revokers[r := w.revokers[r].(phase := Scanned)])
    case RevokeReply(r) =>
      if r !in w.revokers || !w.revokers[r].phase.Scanned? then w
      else w.(revokers := w.revokers[r := w.revokers[r].(phase := Replied(false))])
    case RevokeReplay(r, g) =>
      if !w.serving || r in w.revokers || g !in w.revoked then w
      else w.(revokers := w.revokers[r := Revoker(g, Replied(true))])
    case Crash => World(map i | i in w.flights :: Grounded(w.flights[i]), w.revoked, w.scanned, map[], false)
    case RecoverStep(id) =>
      if w.serving || id !in w.flights || RecoveryFor(w.flights[id].state).None? then w
      else
        var next := NextState(w.flights[id].state, RecoveryFor(w.flights[id].state).value.FirstStep());
        if next.None? then w else w.(flights := w.flights[id := w.flights[id].(state := next.value)])
    case Serve =>
      if forall i :: i in w.flights ==> w.flights[i].state.IsTerminal() then w.(serving := true) else w
  }

  function Run(events: seq<Event>): World
    decreases |events|
  {
    if events == [] then EMPTY else Next(Run(events[..|events| - 1]), events[|events| - 1])
  }

  // ---- what every flight satisfies -------------------------------------------------------------------

  /** The producer cannot start an effect any more, and has not. */
  predicate NoEffect(f: Flight) { f.producer.NotCalled? || f.producer == Ended(false) }

  ghost predicate Called(f: Flight) { f.calls == 1 && !f.producer.NotCalled? }

  ghost predicate TaskOk(f: Flight, pc: Pc) {
    match pc
    case Begun => f.state.IntentPersisted? && f.calls == 0 && !f.running
    case Registered => f.state.IntentPersisted? && f.calls == 0 && f.running
    case Stopping(reason) => f.state.IntentPersisted? && f.calls == 0 && f.running && StopReason(reason)
    case Dispatching => f.state.IntentPersisted? && f.calls == 0 && f.running
    case Calling => f.state.Dispatched? && f.calls == 0 && f.running
    case Producing => f.state.Dispatched? && Called(f) && !f.producer.Ended? && f.running
    case Finishing(steps) =>
      && Called(f) && steps != []
      && RunSteps(f.state, steps).Some? && RunSteps(f.state, steps).value.IsTerminal()
      && (forall i :: 0 <= i < |steps| && steps[i].Release? ==> NoEffect(f))
    case Erred => true
    case Resolving(step) =>
      (f.state.IntentPersisted? && step == Release(Abandoned)) || (f.state.Dispatched? && step == MarkUnknownEffect)
  }

  /**
   * At most one call, none before dispatch is durable, no effect without a
   * call, and a released invocation has none and can get none.
   */
  ghost predicate FlightOk(f: Flight) {
    && !f.state.Planned? && !f.state.Denied?
    && (f.calls == 0 <==> f.producer.NotCalled?)
    && f.calls <= 1
    && (f.state.IntentPersisted? ==> f.calls == 0)
    && (f.state.Released? ==> NoEffect(f))
    && (f.task.Some? ==> TaskOk(f, f.task.value))
  }

  /** Past the re-check and not yet reported back. */
  predicate InFlight(pc: Pc) { pc.Dispatching? || pc.Calling? || pc.Producing? }

  /** Once a revocation of a grant on the chain has swept, an invocation past the re-check has its signal fired. */
  ghost predicate Reached(f: Flight, scanned: set<GrantId>) {
    (f.chain * scanned != {} && f.task.Some? && InFlight(f.task.value)) ==> f.fired
  }

  ghost predicate FlightsOk(flights: map<InvocationId, Flight>, scanned: set<GrantId>, serving: bool) {
    && (forall i {:trigger FlightOk(flights[i])} :: i in flights ==>
          FlightOk(flights[i]) && Reached(flights[i], scanned) && (!serving ==> flights[i].task.None?))
  }

  ghost predicate RevokersOk(revokers: map<nat, Revoker>, revoked: set<GrantId>, scanned: set<GrantId>) {
    forall r :: r in revokers ==>
      && revokers[r].target in revoked
      && (revokers[r].phase.Scanned? || revokers[r].phase == Replied(false) ==> revokers[r].target in scanned)
  }

  ghost predicate Inv(w: World) {
    w.scanned <= w.revoked && FlightsOk(w.flights, w.scanned, w.serving) && RevokersOk(w.revokers, w.revoked, w.scanned)
  }

  /** Every step a task asks for is legal in the state it finds. */
  lemma AskedLegal(f: Flight)
    requires FlightOk(f) && f.task.Some? && Asked(f.task.value).Some?
    ensures NextState(f.state, Asked(f.task.value).value).Some?
  {
  }

  lemma StoreKeeps(f: Flight, outcome: Outcome)
    requires FlightOk(f) && FlightStore(f, outcome).Some?
    ensures FlightOk(FlightStore(f, outcome).value)
  {
    AskedLegal(f);
    var pc := f.task.value;
    if pc.Finishing? && |pc.steps| > 1 {
      assert forall i :: 0 <= i < |pc.steps| - 1 ==> pc.steps[1..][i] == pc.steps[i + 1];
    }
  }

  lemma ReportKeeps(f: Flight, report: Report, stop: Reason)
    requires FlightOk(f) && FlightMove(f, ReportBack(report, stop), {}).Some?
    ensures FlightOk(FlightMove(f, ReportBack(report, stop), {}).value)
  {
    var steps := StepsFor(report, stop);
    ReportSteps(report, stop);
  }

  /** Every report's steps lead from dispatch to an ending, and release only on a claim of no effect. */
  lemma ReportSteps(report: Report, stop: Reason)
    requires StopReason(stop)
    ensures var steps := StepsFor(report, stop);
            && steps != [] && RunSteps(Dispatched, steps).Some? && RunSteps(Dispatched, steps).value.IsTerminal()
            && forall i :: 0 <= i < |steps| && steps[i].Release? ==> ClaimsNoEffect(report)
  {
    var steps := StepsFor(report, stop);
    if report.Output? && !report.tooLarge {
      assert steps[1..] == [Publish, Settle] && steps[1..][1..] == [Settle] && steps[1..][1..][1..] == [];
      assert RunSteps(Published, [Settle]) == RunSteps(Settled, []);
      assert RunSteps(TransferComplete, [Publish, Settle]) == RunSteps(Published, [Settle]);
    } else {
      assert steps[1..] == [];
    }
  }

  lemma MoveKeeps(f: Flight, m: Move, revoked: set<GrantId>, scanned: set<GrantId>)
    requires FlightOk(f) && Reached(f, scanned) && scanned <= revoked && FlightMove(f, m, revoked).Some?
    ensures FlightOk(FlightMove(f, m, revoked).value) && Reached(FlightMove(f, m, revoked).value, scanned)
  {
    match m {
      case StoreStep(outcome) => StoreKeeps(f, outcome);
      case ReportBack(report, stop) => ReportKeeps(f, report, stop);
      case _ =>
    }
  }

  lemma RecoverKeeps(f: Flight)
    requires FlightOk(f) && f.task.None? && RecoveryFor(f.state).Some?
    ensures var next := NextState(f.state, RecoveryFor(f.state).value.FirstStep());
            next.Some? && FlightOk(f.(state := next.value))
  {
  }

  /** Replacing one flight by a well-formed one. */
  lemma OneFlight(w: World, id: InvocationId, f: Flight)
    requires Inv(w) && FlightOk(f) && Reached(f, w.scanned) && (!w.serving ==> f.task.None?)
    ensures Inv(w.(flights := w.flights[id := f]))
  {
    var fs := w.flights[id := f];
    forall i {:trigger FlightOk(fs[i])} | i in fs
      ensures FlightOk(fs[i]) && Reached(fs[i], w.scanned) && (!w.serving ==> fs[i].task.None?)
    {
      if i == id { assert fs[i] == f; } else { assert FlightOk(w.flights[i]); }
    }
    assert FlightsOk(fs, w.scanned, w.serving);
  }

  lemma SweepKeeps(w: World, g: GrantId)
    requires Inv(w) && g in w.revoked
    ensures FlightsOk(Sweep(w.flights, g), w.scanned + {g}, w.serving)
  {
    var next := Sweep(w.flights, g);
    forall i {:trigger FlightOk(next[i])} | i in next
      ensures FlightOk(next[i]) && Reached(next[i], w.scanned + {g}) && (!w.serving ==> next[i].task.None?)
    {
      assert FlightOk(w.flights[i]);
    }
  }

  lemma CrashKeeps(w: World)
    requires Inv(w)
    ensures Inv(Next(w, Crash))
  {
    var next := Next(w, Crash);
    forall i {:trigger FlightOk(next.flights[i])} | i in next.flights
      ensures FlightOk(next.flights[i]) && Reached(next.flights[i], next.scanned) && next.flights[i].task.None?
    {
      assert FlightOk(w.flights[i]);
    }
  }

  lemma ServeKeeps(w: World)
    requires Inv(w)
    ensures Inv(Next(w, Serve))
  {
    var next := Next(w, Serve);
    forall i {:trigger FlightOk(next.flights[i])} | i in next.flights
      ensures FlightOk(next.flights[i]) && Reached(next.flights[i], next.scanned)
      ensures !next.serving ==> next.flights[i].task.None?
    {
      assert FlightOk(w.flights[i]);
    }
  }

  lemma NextKeeps(w: World, e: Event)
    requires Inv(w)
    ensures Inv(Next(w, e))
  {
    match e {
      case Begin(id, chain) =>
        if Next(w, e) != w {
          OneFlight(w, id, Flight(IntentPersisted, chain, Some(Begun), 0, NotCalled, false, false));
        }
      case Act(id, move) =>
        if id in w.flights && FlightMove(w.flights[id], move, w.revoked).Some? {
          assert FlightOk(w.flights[id]);
          MoveKeeps(w.flights[id], move, w.revoked, w.scanned);
          OneFlight(w, id, FlightMove(w.flights[id], move, w.revoked).value);
        }
      case RevokeScan(r) => if Next(w, e) != w { SweepKeeps(w, w.revokers[r].target); }
      case Crash => CrashKeeps(w);
      case RecoverStep(id) =>
        if !w.serving && id in w.flights && RecoveryFor(w.flights[id].state).Some? {
          assert FlightOk(w.flights[id]);
          RecoverKeeps(w.flights[id]);
          OneFlight(w, id, Next(w, e).flights[id]);
        }
      case Serve => ServeKeeps(w);
      case _ =>
    }
  }

  lemma {:induction false} RunKeeps(events: seq<Event>)
    ensures Inv(Run(events))
    decreases |events|
  {
    if events != [] {
      RunKeeps(events[..|events| - 1]);
      NextKeeps(Run(events[..|events| - 1]), events[|events| - 1]);
    }
  }

  // ---- what follows --------------------------------------------------------------------------------------

  /**
   * Over every run, with retries, cancels, deadlines, daemon errors, crashes
   * and restarts: the producer of an invocation is called at most once, never
   * before its dispatch is durable, and a released invocation has no effect
   * and can get none.
   */
  lemma AtMostOnce(events: seq<Event>, id: InvocationId)
    requires id in Run(events).flights
    ensures var f := Run(events).flights[id];
            && f.calls <= 1
            && (f.producer.Started? || f.producer == Ended(true) ==> f.calls == 1)
            && (f.state.IntentPersisted? ==> f.calls == 0)
            && (f.state.Released? ==> NoEffect(f))
  {
    RunKeeps(events);
    assert FlightOk(Run(events).flights[id]);
  }

  /** A producer call happens with the invocation durably dispatched and never called before. */
  lemma CallAfterDispatch(events: seq<Event>, id: InvocationId)
    requires id in Run(events).flights && FlightMove(Run(events).flights[id], CallProducer, Run(events).revoked).Some?
    ensures Run(events).flights[id].state.Dispatched? && Run(events).flights[id].calls == 0
  {
    RunKeeps(events);
    assert FlightOk(Run(events).flights[id]);
  }

  /** The live path and the error path only ever ask for steps the table admits in the state they find. */
  lemma StepsAreLegal(events: seq<Event>, id: InvocationId)
    requires id in Run(events).flights && Run(events).flights[id].task.Some?
    requires Asked(Run(events).flights[id].task.value).Some?
    ensures NextState(Run(events).flights[id].state, Asked(Run(events).flights[id].task.value).value).Some?
  {
    RunKeeps(events);
    assert FlightOk(Run(events).flights[id]);
    AskedLegal(Run(events).flights[id]);
  }

  /**
   * No lost revocation: once a revocation that was not a replay has replied,
   * every invocation under the revoked grant has ended or is being resolved,
   * or the re-check will stop it, or its producer's signal has fired.
   */
  lemma NoLostRevocation(events: seq<Event>, r: nat, id: InvocationId)
    requires r in Run(events).revokers && Run(events).revokers[r].phase == Replied(false)
    requires id in Run(events).flights && Run(events).revokers[r].target in Run(events).flights[id].chain
    ensures var w := Run(events);
            var f := w.flights[id];
            f.task.None? || f.fired || !InFlight(f.task.value)
    ensures forall stop :: FlightMove(Run(events).flights[id], Recheck(stop), Run(events).revoked).Some? ==> stop.Some?
  {
    RunKeeps(events);
    var w := Run(events);
    var g := w.revokers[r].target;
    assert FlightOk(w.flights[id]);
    assert g in w.flights[id].chain * w.scanned && g in w.flights[id].chain * w.revoked;
  }

  /** A world with one invocation under grant 7. */
  ghost function Lone(state: State, pc: Pc, calls: nat, producer: Producer): World {
    World(map[1 := Flight(state, {7}, Some(pc), calls, producer, !pc.Begun?, false)], {}, {}, map[], true)
  }

  lemma LoneMove(before: World, m: Move, f: Flight)
    requires before.flights.Keys == {1} && FlightMove(before.flights[1], m, before.revoked) == Some(f)
    ensures Next(before, Act(1, m)) == before.(flights := map[1 := f])
  {
    assert before.flights[1 := f] == map[1 := f];
  }

  lemma LoneProducing()
    ensures Run([Begin(1, {7}), Act(1, Register), Act(1, Recheck(None)), Act(1, StoreStep(Done)), Act(1, CallProducer)])
            == Lone(Dispatched, Producing, 1, Quiet)
  {
    var es := [Begin(1, {7}), Act(1, Register), Act(1, Recheck(None)), Act(1, StoreStep(Done)), Act(1, CallProducer)];
    var w1, w2 := Lone(IntentPersisted, Begun, 0, NotCalled), Lone(IntentPersisted, Registered, 0, NotCalled);
    var w3, w4 := Lone(IntentPersisted, Dispatching, 0, NotCalled), Lone(Dispatched, Calling, 0, NotCalled);
    assert Next(EMPTY, es[0]) == w1;
    LoneMove(w1, Register, w2.flights[1]);
    assert {7} * w2.revoked == {};
    LoneMove(w2, Recheck(None), w3.flights[1]);
    LoneMove(w3, StoreStep(Done), w4.flights[1]);
    LoneMove(w4, CallProducer, Lone(Dispatched, Producing, 1, Quiet).flights[1]);
    RunFive(es);
  }

  lemma RunFive(es: seq<Event>)
    requires |es| == 5
    ensures Run(es) == Next(Next(Next(Next(Next(EMPTY, es[0]), es[1]), es[2]), es[3]), es[4])
  {
    RunPrefix(es, 0); RunPrefix(es, 1); RunPrefix(es, 2); RunPrefix(es, 3); RunPrefix(es, 4);
    assert es[..0] == [] && es[..5] == es;
  }

  /** The reply of a replay carries less: it can precede the first attempt's sweep. */
  lemma ReplayBeforeSweep()
    ensures var w := Run([Begin(1, {7}), Act(1, Register), Act(1, Recheck(None)), Act(1, StoreStep(Done)),
                          Act(1, CallProducer)]
                         + [RevokeRecord(0, 7), RevokeReplay(1, 7)]);
            && 1 in w.revokers && w.revokers[1] == Revoker(7, Replied(true))
            && 1 in w.flights && 7 in w.flights[1].chain && w.flights[1].task == Some(Producing) && !w.flights[1].fired
  {
    LoneProducing();
    var es := [Begin(1, {7}), Act(1, Register), Act(1, Recheck(None)), Act(1, StoreStep(Done)), Act(1, CallProducer)];
    var all := es + [RevokeRecord(0, 7), RevokeReplay(1, 7)];
    assert all[..5] == es && all[..7] == all;
    RunPrefix(all, 5);
    RunPrefix(all, 6);
  }

  lemma RunPrefix(es: seq<Event>, k: nat)
    requires k < |es|
    ensures Run(es[..k + 1]) == Next(Run(es[..k]), es[k])
  {
    assert es[..k + 1][..k] == es[..k];
  }

  /** A sweep is never forgotten, not even by a crash. */
  lemma {:induction false} SweptForGood(a: seq<Event>, b: seq<Event>)
    ensures Run(a).scanned <= Run(a + b).scanned
    decreases |b|
  {
    if b == [] {
      assert a + b == a;
    } else {
      SweptForGood(a, b[..|b| - 1]);
      assert (a + b)[..|a + b| - 1] == a + b[..|b| - 1];
    }
  }

  /**
   * Once a revocation of the grant that was not a replay has replied, the
   * guarantee holds at every later moment, so a replay that follows that reply
   * carries it too.
   */
  lemma ReplayAfterReply(a: seq<Event>, b: seq<Event>, r: nat, id: InvocationId)
    requires r in Run(a).revokers && Run(a).revokers[r].phase == Replied(false)
    requires id in Run(a + b).flights && Run(a).revokers[r].target in Run(a + b).flights[id].chain
    ensures var f := Run(a + b).flights[id]; f.task.None? || f.fired || !InFlight(f.task.value)
    ensures forall stop :: FlightMove(Run(a + b).flights[id], Recheck(stop), Run(a + b).revoked).Some? ==> stop.Some?
  {
    RunKeeps(a);
    RunKeeps(a + b);
    SweptForGood(a, b);
    var w, g := Run(a + b), Run(a).revokers[r].target;
    assert FlightOk(w.flights[id]);
    assert g in w.flights[id].chain * w.scanned && g in w.flights[id].chain * w.revoked;
  }
}
