/** The set of running invocations a revocation sweeps, and what the daemon's moves mean for the store. */
module RunningSet {
  import opened Prelude
  import opened Records
  import opened Custody
  import opened CustodyInv
  import opened TransitionRuns
  import Lifecycle

  /** `signalled` holds the invocations whose cancel handle has fired. */
  class Running {
    var chains: map<InvocationId, seq<GrantId>>
    var signalled: set<InvocationId>

    /** A registration replaces the entry and starts with a signal that has not fired. */
    method Register(id: InvocationId, chain: seq<GrantId>)
      modifies this
      ensures chains == old(chains)[id := chain] && signalled == old(signalled) - {id}
    {
      chains := chains[id := chain];
      signalled := signalled - {id};
    }

    method Deregister(id: InvocationId)
      modifies this`chains
      ensures chains == old(chains) - {id}
    {
      chains := chains - {id};
    }

    /** Fires exactly the running invocations whose chain holds the revoked grant. */
    method CancelRevoked(revoked: GrantId)
      modifies this`signalled
      ensures signalled == old(signalled) + set id | id in chains && revoked in chains[id]
    {
      var rest := chains.Keys;
      while rest != {}
        invariant rest <= chains.Keys
        invariant signalled == old(signalled) + set id | id in chains && id !in rest && revoked in chains[id]
        decreases |rest|
      {
        var id :| id in rest;
        if revoked in chains[id] {
          signalled := signalled + {id};
        }
        rest := rest - {id};
      }
    }
  }

  /**
   * In a reachable store a step the table admits, with an outcome that fits and
   * an audit sequence left, moves exactly its own invocation to the table's
   * next state; any other attempt moves none.
   */
  lemma StoreMoves(db: Db, id: InvocationId, action: Action, now: Timestamp)
    requires Inv(db)
    ensures var after := TransitionTx(db, id, action, now).After(db).invocations;
            if Enabled(db, id, action)
            then after.Keys == db.invocations.Keys
                 && Some(after[id].state) == Lifecycle.NextState(db.invocations[id].state, action.Step())
                 && forall k :: k in after && k != id ==> after[k] == db.invocations[k]
            else after == db.invocations
  {
    StepExact(db, id, action, now);
  }
}
