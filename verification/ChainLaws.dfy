/**
 * The grant forest: what every stored grant satisfies, and what follows about
 * whole chains (distinct links, one child of any parent per chain, attenuation
 * from every descendant to every ancestor).
 */
module ChainLaws {
  import opened Prelude
  import opened Budget
  import opened Origin
  import opened OriginLaws
  import opened Records
  import opened Grants

  /** Each parent ceiling bounds a child ceiling. */
  ghost predicate StaticCeilings(parent: Ceilings, child: Ceilings) {
    forall d: Dimension :: parent.Get(d).Some? ==> child.Get(d).Some? && child.Get(d).value <= parent.Get(d).value
  }

  /** `c` confers nothing `p` does not, on the axes that do not depend on other records. */
  ghost predicate Attenuates(p: Grant, c: Grant) {
    && c.capabilities <= p.capabilities
    && AuditWithin(c.auditScope, p.auditScope)
    && ScopeCovers(p.targets, c.targets)
    && p.notBefore <= c.notBefore && c.expiresAt <= p.expiresAt
    && StaticCeilings(p.ceilings, c.ceilings)
  }

  ghost predicate GrantOk(grants: map<GrantId, Grant>, id: GrantId)
    requires id in grants
  {
    var g := grants[id];
    && g.id == id
    && ParseScope(g.targetText) == Some(g.targets)
    && match g.parent
       case None => g.depth == 0
       case Some(p) => p in grants && ParentLink(p, grants[p], g) && Attenuates(grants[p], g)
  }

  ghost predicate GrantsOk(grants: map<GrantId, Grant>) {
    forall id {:trigger GrantOk(grants, id)} :: id in grants ==> GrantOk(grants, id)
  }

  /** `chain` is a parent-linked path of stored grants from leaf to root. */
  ghost predicate IsPath(grants: map<GrantId, Grant>, chain: seq<Grant>) {
    && chain != []
    && (forall i :: 0 <= i < |chain| ==> chain[i].id in grants && grants[chain[i].id] == chain[i])
    && (forall i :: 0 <= i < |chain| - 1 ==> chain[i].parent == Some(chain[i + 1].id))
    && (forall i :: 0 <= i < |chain| ==> chain[i].depth == |chain| - 1 - i)
    && chain[|chain| - 1].parent == None
  }

  /** In a well-formed forest every stored grant's walk succeeds and is a path. */
  lemma {:induction false} LoadChainOk(grants: map<GrantId, Grant>, id: GrantId)
    requires GrantsOk(grants) && id in grants
    ensures LoadChain(grants, grants[id]).Ok?
    ensures IsPath(grants, LoadChain(grants, grants[id]).value)
    decreases grants[id].depth
  {
    assert GrantOk(grants, id);
    var g := grants[id];
    if g.parent.Some? {
      LoadChainOk(grants, g.parent.value);
    }
  }

  /** Adding grants changes no stored grant's chain. */
  lemma {:induction false} LoadChainExtends(small: map<GrantId, Grant>, big: map<GrantId, Grant>, leaf: Grant)
    requires Extends(small, big) && LoadChain(small, leaf).Ok?
    ensures LoadChain(big, leaf) == LoadChain(small, leaf)
    decreases leaf.depth
  {
    if leaf.parent.Some? {
      LoadChainExtends(small, big, small[leaf.parent.value]);
    }
  }

  /** Links of a path are distinct, and a parent occurs with at most one of its children. */
  lemma PathDistinct(grants: map<GrantId, Grant>, chain: seq<Grant>)
    requires IsPath(grants, chain)
    ensures forall i, j :: 0 <= i < j < |chain| ==> chain[i].id != chain[j].id
    ensures forall i, j, p ::
              0 <= i < |chain| && 0 <= j < |chain| && chain[i].parent == Some(p) && chain[j].parent == Some(p)
              ==> i == j
  {
    forall i, j | 0 <= i < j < |chain| ensures chain[i].id != chain[j].id {
      assert chain[i].depth != chain[j].depth;
    }
    forall i, j, p | 0 <= i < |chain| && 0 <= j < |chain| && chain[i].parent == Some(p) && chain[j].parent == Some(p)
      ensures i == j
    {
      assert chain[i + 1].id == p && chain[j + 1].id == p;
    }
  }

  lemma AttenuatesTrans(a: Grant, b: Grant, c: Grant)
    requires Attenuates(a, b) && Attenuates(b, c)
    ensures Attenuates(a, c)
  {
    ScopeCoversTrans(a.targets, b.targets, c.targets);
    forall d: Dimension | a.ceilings.Get(d).Some?
      ensures c.ceilings.Get(d).Some? && c.ceilings.Get(d).value <= a.ceilings.Get(d).value
    {
      assert b.ceilings.Get(d).Some? && b.ceilings.Get(d).value <= a.ceilings.Get(d).value;
    }
  }

  lemma AttenuatesRefl(a: Grant)
    ensures Attenuates(a, a)
  {
    ScopeCoversRefl(a.targets);
  }

  /** Every descendant on a chain attenuates every ancestor on it. */
  lemma {:induction false} ChainAttenuates(grants: map<GrantId, Grant>, chain: seq<Grant>, i: nat, j: nat)
    requires GrantsOk(grants) && IsPath(grants, chain)
    requires i <= j < |chain|
    ensures Attenuates(chain[j], chain[i])
    decreases j - i
  {
    if i == j {
      AttenuatesRefl(chain[i]);
    } else {
      ChainAttenuates(grants, chain, i, j - 1);
      assert GrantOk(grants, chain[j - 1].id);
      AttenuatesTrans(chain[j], chain[j - 1], chain[i]);
    }
  }

  /** The whole chain of a stored grant, leaf first. */
  ghost function ChainOf(grants: map<GrantId, Grant>, id: GrantId): (chain: seq<Grant>)
    requires GrantsOk(grants) && id in grants
    ensures IsPath(grants, chain) && chain[0] == grants[id] && |chain| == grants[id].depth + 1
    ensures LoadChain(grants, grants[id]) == Ok(chain)
  {
    LoadChainOk(grants, id);
    LoadChain(grants, grants[id]).value
  }

  lemma LeafAttenuates(grants: map<GrantId, Grant>, id: GrantId, i: nat)
    requires GrantsOk(grants) && id in grants && i < |ChainOf(grants, id)|
    ensures Attenuates(ChainOf(grants, id)[i], grants[id])
  {
    ChainAttenuates(grants, ChainOf(grants, id), 0, i);
  }

  /** The capability check at every link equals the check at the leaf. */
  lemma LeafDecidesCapability(grants: map<GrantId, Grant>, id: GrantId, c: Capability)
    requires GrantsOk(grants) && id in grants
    ensures Confers(ChainOf(grants, id), c) <==> c in grants[id].capabilities
  {
    var chain := ChainOf(grants, id);
    if c in grants[id].capabilities {
      forall i | 0 <= i < |chain| ensures c in chain[i].capabilities { LeafAttenuates(grants, id, i); }
    }
  }

  /** The target check at every link equals the check at the leaf. */
  lemma LeafDecidesTarget(grants: map<GrantId, Grant>, id: GrantId, c: Capability, target: Option<string>)
    requires GrantsOk(grants) && id in grants
    ensures TargetAdmitted(ChainOf(grants, id), c, target) <==> TargetAdmitted([grants[id]], c, target)
  {
    var chain, leaf := ChainOf(grants, id), grants[id];
    if target.Some? && ParseOrigin(target.value).Some? {
      var o := ParseOrigin(target.value).value;
      if ScopeMatches(leaf.targets, o) {
        forall i | 0 <= i < |chain| ensures ScopeMatches(chain[i].targets, o) {
          LeafAttenuates(grants, id, i);
          ScopeCoversSound(chain[i].targets, leaf.targets, o);
        }
      }
    }
  }

  /** Validity in time at every link equals validity of the leaf. */
  lemma LeafDecidesTime(grants: map<GrantId, Grant>, id: GrantId, now: Timestamp)
    requires GrantsOk(grants) && id in grants
    ensures (forall i :: 0 <= i < |ChainOf(grants, id)| ==>
               ChainOf(grants, id)[i].notBefore <= now < ChainOf(grants, id)[i].expiresAt)
            <==> grants[id].notBefore <= now < grants[id].expiresAt
  {
    var chain, leaf := ChainOf(grants, id), grants[id];
    if leaf.notBefore <= now < leaf.expiresAt {
      forall i | 0 <= i < |chain|
        ensures chain[i].notBefore <= now < chain[i].expiresAt
      {
        LeafAttenuates(grants, id, i);
      }
    }
  }

  /** So a stored chain is usable exactly when its leaf is in its window and no link is revoked. */
  lemma ChainUsable(db: Db, id: GrantId, now: Timestamp)
    requires GrantsOk(db.grants) && id in db.grants
    ensures CheckChain(db, db.grants[id], now).Ok?
    ensures CheckChain(db, db.grants[id], now).value.Valid? <==>
            && db.grants[id].notBefore <= now < db.grants[id].expiresAt
            && forall i :: 0 <= i < |ChainOf(db.grants, id)| ==> ChainOf(db.grants, id)[i].id !in db.revocations
  {
    LeafDecidesTime(db.grants, id, now);
    var chain := ChainOf(db.grants, id);
    if FirstRefusal(db.revocations, chain, now).None? {
      forall i | 0 <= i < |chain|
        ensures chain[i].id !in db.revocations && chain[i].notBefore <= now < chain[i].expiresAt
      {
        assert LinkRefusal(db.revocations, chain[i], now).None?;
      }
    }
  }

  // ---- subtrees -------------------------------------------------------------------

  /** `g` is on `target`'s chain. */
  ghost predicate OnChain(grants: map<GrantId, Grant>, g: GrantId, target: GrantId)
    requires GrantsOk(grants) && target in grants
  {
    g in ChainIds(ChainOf(grants, target))
  }

  lemma {:induction false} SubtreeIsChain(grants: map<GrantId, Grant>, g: GrantId, target: GrantId, left: nat)
    requires GrantsOk(grants) && target in grants && left > grants[target].depth
    ensures SubtreeFrom(grants, g, target, left) <==> OnChain(grants, g, target)
    decreases left
  {
    assert GrantOk(grants, target);
    var t := grants[target];
    var ids := ChainIds(ChainOf(grants, target));
    assert ids[0] == target;
    if t.parent.Some? {
      var p := t.parent.value;
      SubtreeIsChain(grants, g, p, left - 1);
      assert ids == [target] + ChainIds(ChainOf(grants, p));
    } else {
      assert ids == [target];
    }
  }

  /** The bounded subtree walk is exactly membership of the target's chain; the bound never cuts one short. */
  lemma InSubtreeIsChain(grants: map<GrantId, Grant>, g: GrantId, target: GrantId)
    requires GrantsOk(grants)
    ensures target in grants ==> (InSubtree(grants, g, target) <==> OnChain(grants, g, target))
    ensures target !in grants ==> (InSubtree(grants, g, target) <==> g == target)
  {
    if target in grants {
      SubtreeIsChain(grants, g, target, SUBTREE_WALK_LIMIT);
    }
  }
}
