/** In every reachable store the root rotation finds an owner for every ledger and wrapped key. */
module RootLaws {
  import opened Prelude
  import opened RootRotation
  import Records
  import Custody
  import StoreLaws
  import Vault
  import VaultLaws

  /** The key directory of `c` is that of vault `v`. */
  ghost predicate HoldsKeys(c: Content, v: Vault.Vault) {
    && (forall t {:trigger TenantN(t)} :: TenantN(t) in c <==> t in v.tenants)
    && (forall t {:trigger TenantN(t)} :: t in v.tenants && TenantN(t) in c ==>
          c[TenantN(t)].TenantRow? && c[TenantN(t)].dataKey == v.tenants[t])
    && (forall t {:trigger RekeyN(t)} :: RekeyN(t) in c <==> t in v.rekeys)
    && (forall t {:trigger RekeyN(t)} :: t in v.rekeys && RekeyN(t) in c ==>
          c[RekeyN(t)].RekeyRow? && c[RekeyN(t)].from == v.rekeys[t].from && c[RekeyN(t)].done == v.rekeys[t].done)
    && (forall t: TenantId, k: Vault.KeyId {:trigger DataKeyN(t, k)} :: DataKeyN(t, k) in c <==> (t, k) in v.keys)
    && (forall t {:trigger AddressN(t)} :: AddressN(t) in c <==> t in v.address)
  }

  /** A key directory reached by any run of registrations, rotations, shreds and crashes has no unowned key. */
  lemma ReachableKeysOwned(c: Content, events: seq<VaultLaws.Event>)
    requires HoldsKeys(c, VaultLaws.Run(Vault.EMPTY, events))
    ensures KeysOwned(c)
  {
    VaultLaws.RunKeeps(events);
    DirectoryOwned(c, VaultLaws.Run(Vault.EMPTY, events));
  }

  lemma DirectoryOwned(c: Content, v: Vault.Vault)
    requires HoldsKeys(c, v) && VaultLaws.KeysOk(v)
    ensures KeysOwned(c)
  {
    forall t {:trigger KeysPresent(c, t)} | TenantN(t) in c ensures KeysPresent(c, t) {
      assert VaultLaws.TenantOk(v, t);
      assert RekeyN(t) in c <==> t in v.rekeys;
    }
    forall n {:trigger n in c} | n in c && (n.DataKeyN? || n.AddressN?) ensures KeyNamed(c, n) {
      var t := n.tenant;
      if n.DataKeyN? {
        assert DataKeyN(t, n.key) in c;
        assert (t, n.key) in v.keys;
      } else {
        assert AddressN(t) in c;
      }
      assert TenantN(t) in c;
      assert VaultLaws.TenantOk(v, t);
      assert RekeyN(t) in c <==> t in v.rekeys;
    }
  }

  /** The ledgers of `c` and what can own them are those of the custody store `db`. */
  ghost predicate HoldsLedgers(c: Content, db: Records.Db) {
    && (forall l {:trigger LedgerN(l)} :: LedgerN(l) in c <==> l in db.ledgers)
    && (forall g {:trigger GrantN(g)} :: GrantN(g) in c <==> g in db.grants)
    && (forall s {:trigger SessionN(s)} :: SessionN(s) in c <==> s in db.sessions)
    && (forall t {:trigger TenantN(t)} :: TenantN(t) in c <==> t in db.tenants)
    && (forall t {:trigger TombstoneN(t)} :: TombstoneN(t) in c <==> t in db.tombstones)
  }

  /** A custody store reached by any run has no unowned ledger. */
  lemma ReachableLedgersOwned(c: Content, events: seq<Custody.Event>)
    requires HoldsLedgers(c, Custody.Run(Records.EMPTY, events))
    ensures EveryLedgerOwned(c)
  {
    StoreLaws.EveryLedgerHasOwner(events);
    var db := Custody.Run(Records.EMPTY, events);
    forall l {:trigger LedgerN(l)} | LedgerN(l) in c ensures OwnerStored(c, l) {
      assert StoreLaws.OwnerKnown(db, l);
    }
  }

  /**
   * So a rotation over the combined reachable store is refused only by a wrong
   * current key or exhausted root ids, never for an unowned ledger or key.
   */
  lemma ReachableRotatable(c: Content, events: seq<Custody.Event>, keyEvents: seq<VaultLaws.Event>)
    requires HoldsLedgers(c, Custody.Run(Records.EMPTY, events)) && HoldsKeys(c, VaultLaws.Run(Vault.EMPTY, keyEvents))
    ensures Rotatable(c)
  {
    ReachableLedgersOwned(c, events);
    ReachableKeysOwned(c, keyEvents);
  }
}
