/** The invocation transition table and the restart recovery table. */
module Lifecycle {
  import opened Prelude

  datatype State =
    | Planned | Denied | IntentPersisted | Dispatched | TransferComplete | Published
    | Settled | Released | UnknownEffect
  {
    predicate IsTerminal() { Denied? || Settled? || Released? || UnknownEffect? }
  }

  datatype Reason = Abandoned | Revoked | ProducerUnavailable | Cancelled | DeadlineExceeded | Expired

  datatype Step =
    | Deny | PersistIntent | Dispatch | CompleteTransfer | Publish | Settle
    | Release(reason: Reason) | MarkUnknownEffect

  /** The state `step` leads to, or `None` for a step the table does not list. */
  function NextState(from: State, step: Step): Option<State> {
    match (from, step)
    case (Planned, Deny) => Some(Denied)
    case (Planned, PersistIntent) => Some(IntentPersisted)
    case (IntentPersisted, Dispatch) => Some(Dispatched)
    case (IntentPersisted, Release(r)) => if r.ProducerUnavailable? then None else Some(Released)
    case (Dispatched, Release(r)) => if r.Abandoned? then None else Some(Released)
    case (Dispatched, CompleteTransfer) => Some(TransferComplete)
    case (Dispatched, Settle) => Some(Settled)
    case (Published, Settle) => Some(Settled)
    case (Dispatched, MarkUnknownEffect) => Some(UnknownEffect)
    case (TransferComplete, Publish) => Some(Published)
    case _ => None
  }

  datatype RecoveryAction = ReleaseAbandoned | ChargeUnknownEffect | RollForwardPublish | RollForwardSettle
  {
    /** The first step this action takes. */
    function FirstStep(): Step {
      match this
      case ReleaseAbandoned => Release(Abandoned)
      case ChargeUnknownEffect => MarkUnknownEffect
      case RollForwardPublish => Publish
      case RollForwardSettle => Settle
    }
  }

  function RecoveryFor(state: State): Option<RecoveryAction> {
    match state
    case IntentPersisted => Some(ReleaseAbandoned)
    case Dispatched => Some(ChargeUnknownEffect)
    case TransferComplete => Some(RollForwardPublish)
    case Published => Some(RollForwardSettle)
    case _ => None
  }

  /** The states a run of `steps` passes through; `None` once a step is illegal. */
  function RunSteps(from: State, steps: seq<Step>): Option<State>
    decreases |steps|
  {
    if steps == [] then Some(from) else
      match NextState(from, steps[0])
      case None => None
      case Some(next) => RunSteps(next, steps[1..])
  }

  predicate IsSettling(s: Step) { s.Settle? || s.Release? || s.MarkUnknownEffect? }

  function Rank(s: State): nat {
    match s
    case Planned => 0
    case IntentPersisted => 0
    case Dispatched => 1
    case TransferComplete => 2
    case Published => 3
    case _ => 4
  }

  lemma {:induction false} PathFrom(from: State, steps: seq<Step>)
    requires RunSteps(from, steps).Some? && !from.Planned?
    ensures |steps| <= 4 - Rank(from)
    ensures forall i :: 0 <= i < |steps| && IsSettling(steps[i]) ==> i == |steps| - 1
    ensures forall i :: 0 <= i < |steps| && steps[i].Dispatch? ==> i == 0 && from.IntentPersisted?
    ensures forall i :: 0 <= i < |steps| && Rank(from) >= 2 ==> !steps[i].Release?
    ensures forall i, j :: 0 <= i < j < |steps| && steps[i].CompleteTransfer? ==> !steps[j].Release?
    ensures !from.IsTerminal() ==>
              (RunSteps(from, steps).value.IsTerminal() <==> steps != [] && IsSettling(steps[|steps| - 1]))
    decreases |steps|
  {
    if steps != [] {
      var next := NextState(from, steps[0]).value;
      PathFrom(next, steps[1..]);
      assert forall i :: 1 <= i < |steps| ==> steps[i] == steps[1..][i - 1];
    }
  }

  /**
   * On every legal path out of a persisted intent, the terminal step is the
   * last one and happens at most once, dispatch happens only as the first
   * step, and nothing releases once the transfer is complete.
   */
  lemma PathShape(steps: seq<Step>)
    requires RunSteps(IntentPersisted, steps).Some?
    ensures |steps| <= 4
    ensures forall i :: 0 <= i < |steps| && IsSettling(steps[i]) ==> i == |steps| - 1
    ensures forall i :: 0 <= i < |steps| && steps[i].Dispatch? ==> i == 0
    ensures forall i, j :: 0 <= i < j < |steps| && steps[i].CompleteTransfer? ==> !steps[j].Release?
    ensures RunSteps(IntentPersisted, steps).value.IsTerminal() <==> steps != [] && IsSettling(steps[|steps| - 1])
  {
    PathFrom(IntentPersisted, steps);
  }

  /** Recovery acts exactly on the persisted open states, and its first step is legal there. */
  lemma RecoveryLegal(state: State)
    ensures RecoveryFor(state).Some? <==> !state.IsTerminal() && !state.Planned?
    ensures RecoveryFor(state).Some? ==> NextState(state, RecoveryFor(state).value.FirstStep()).Some?
  {
  }
}
