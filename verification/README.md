# Custody and authorization model

A Dafny model of the engine that keeps budget ledgers, delegated authority, keys
and at-most-once effects correct across concurrent writers and crashes, and
proofs of what it keeps. `dafny verify dfyconfig.toml` checks the whole project.

How the parts fit:

- `Budget`, `Lifecycle`, `Origin`, `Grants` model the decisions; `OriginLaws`,
  `ChainLaws`, `AuthzLaws` say what they mean.
- `Records`, `Custody` model the store's content and its write transactions, each
  a function from the content to a commit, a reply or an error; a run is a
  sequence of them, any of which a crash can lose. `CustodyInv` states the store
  invariant, `CustodyRuns` and `TransitionRuns` prove that every run keeps it,
  and `StoreLaws` draws the conclusions. `CustodyStore` and `Recovery` are the
  store as an object with the loops and crash points it has.
- `BeginLaws` compares a call with its dry-run plan; `Claims` joins the store and
  the sealed records behind its idempotency keys.
- `Daemon`, `RunningSet`, `Idempotency`, `Limits` model the daemon around it.
- `Vault`, `VaultLaws`, `RekeyStore`, `KeyringCache`, `RootRotation`, `RootLaws`
  model data-key rotation, the keyring cache and root rotation.
- `Audit`, `Encoding`, `Ulid` model the audit log and the encodings.

Conventions. Identifiers are natural numbers (an artifact, session or grant made
by a call has the call's invocation id). SHA-256 and HMAC are injective, sealing
and wrapping are ideal: a value opens exactly under the key, kind and record key
it was made with. The clock, the producer's reports, cancels, deadlines, crashes
and drawn keys are inputs, so every statement holds for all of them. A producer
claims "no effect" only when it has started none. The custody store treats a
tenant's records as readable exactly while the tenant has a record.
`VaultLaws.ReadsNeverFail` and `Claims.BeginReads` justify it at every moment of
a rotation for readers that open with both data keys, and every transaction the
custody model reads a record in does so; a claim opens its entry with the active
key alone, and what it answers is modelled on the sealed records in `Claims`.

Where the code is narrower than its comments, the model follows the code:

- `claim` and `claimed` open idempotency entries with the active key only, so
  "a read never fails mid-rotation" holds for readers that use both keys.
  `Claims.ClaimExact` says what a claim answers after any run, the failure on the
  key id included, and `Claims.ClaimStuck` gives a run in which a retry fails.
- The reply of a replayed revocation says nothing about the sweep:
  `Daemon.ReplayBeforeSweep`.
- A caller that asks for no record, or a frame with room for none, ends a reading
  whatever remains: `Audit.PageHonest`.
- Recovery needs one audit sequence for each open invocation; it is the only
  condition under which it can fail without a crash.
- The dry-run plan does not make the check by which `begin` refuses a call into a
  session whose owner was shredded: `BeginLaws.PlanExact` says exactly when a
  call goes as planned and `BeginLaws.PlanNotBegun` gives a run where it does not.
- `covers` refuses some pairs whose inclusion holds: `OriginLaws.CoversExact` and
  `OriginLaws.CoversNotInclusion`.
- An audit read is itself recorded and selected by its reader, so a reader with a
  limit of 1 need never be told to stop: `Audit.SoloReader`.

## Model

| member | source | states |
|---|---|---|
| `Budget.PlanReservation` | crates/epitrope/src/budget.rs:111-147 | a plan errs exactly when an uncapped ledger would overflow; otherwise it fits exactly when every ledger covers the declared cost on every dimension, and an upstream shortfall is reported only when every own ledger covers it |
| `Budget.PlanReservationScan` | crates/epitrope/src/budget.rs:111-147 | the nested scan over ledgers and dimensions reports exactly what the plan specifies, including which refusal wins |
| `Budget.OwnLeft` | crates/epitrope/src/budget.rs:159-180 | the remaining ceiling is one own ledger's and no own ledger with a ceiling has less |
| `Budget.Settle` | crates/epitrope/src/budget.rs:200-218 | debit and release add up to the reservation on every dimension, and the debit never passes the consumption or the reservation |
| `Budget.SettleReported` | crates/epitrope/src/budget.rs:200-218 | settling succeeds exactly without an overrun, and otherwise reports the first overrun dimension with its amounts and the same clamped settlement |
| `Budget.ReserveThenSettle` | crates/epitrope/src/budget.rs:200-262 | reserving and applying any settlement of the reservation leaves a ledger exactly the debit higher, and cannot underflow |
| `Lifecycle.PathShape` | crates/epitrope/src/lifecycle.rs:56-86 | on every legal path from a persisted intent the ending step is last and happens once, dispatch comes only first, nothing releases after the transfer |
| `Lifecycle.RecoveryLegal` | crates/epitrope/src/lifecycle.rs:106-128 | recovery acts exactly on the persisted open states and its first step is legal there |
| `OriginLaws.OriginRoundTrip` | crates/epitrope/src/origin.rs:115-137 | the printed form of every valid origin parses back to it |
| `Origin.ParsePatternValid` | crates/epitrope/src/origin.rs:195-223 | every accepted pattern has a nonzero port and a valid host, domain or wildcard domain |
| `OriginLaws.CoversSound` | crates/epitrope/src/origin.rs:227-262 | a covering pattern matches everything the covered one matches |
| `OriginLaws.CoversExact` | crates/epitrope/src/origin.rs:227-262 | for parsed patterns coverage is exactly inclusion of the admitted targets, except for a wildcard over a domain longer than 251 bytes |
| `OriginLaws.NoRoomAdmitsNothing` | crates/epitrope/src/origin.rs:347-368 | such a wildcard admits no target at all |
| `OriginLaws.CoversNotInclusion` | crates/epitrope/src/origin.rs:227-262 | two accepted pattern texts where inclusion holds and coverage does not: `a`, and a wildcard over a 252-byte domain |
| `OriginLaws.ScopeCoversSound` | crates/epitrope/src/origin.rs:302-314 | a covered scope matches only origins its cover matches |
| `OriginLaws.ScopeCoversTrans` | crates/epitrope/src/origin.rs:309-314 | scope coverage is transitive |
| `Grants.WalkChain` | crates/epitrope/src/chain.rs:74-99 | the upward loop collects exactly the parent-linked chain, or the same broken or malformed error |
| `Grants.FirstRefusalScan` | crates/epitrope/src/chain.rs:46-71 | the scan reports the id and code of the first unusable link, every link before it being usable, with revocation before expiry |
| `Grants.WalkLineage` | crates/epitrope/src/grant.rs:36-52 | the bounded loop equals the bounded walk |
| `Grants.LineageMeaning` | crates/epitrope/src/grant.rs:36-52 | it answers yes exactly for an ancestor fewer than 256 links up, and never no for one at any distance |
| `Grants.SessionsOwnedScan` | crates/epitrope/src/grant.rs:309-336 | the loop over listed sessions stops at the first that is missing or foreign |
| `Grants.SessionAdmittedScan` | crates/epitrope/src/decision.rs:282-311 | the loop over links stops at the first that does not admit the session |
| `Grants.WalkSubtree` | crates/epitrope/src/revoke.rs:100-115 | the bounded upward loop equals the bounded subtree walk |
| `ChainLaws.LoadChainOk` | crates/epitrope/src/chain.rs:74-99 | in a well-formed forest every stored grant's walk succeeds and is a path with one link per depth |
| `ChainLaws.PathDistinct` | crates/epitrope/src/decision.rs:324-357 | links of a chain are distinct and a parent occurs with at most one of its children |
| `ChainLaws.ChainAttenuates` | crates/epitrope/src/grant.rs:259-306 | every descendant on a chain attenuates every ancestor on it |
| `ChainLaws.LeafDecidesCapability` | crates/epitrope/src/decision.rs:205-229 | the capability check at every link equals the check at the leaf |
| `ChainLaws.LeafDecidesTarget` | crates/epitrope/src/decision.rs:315-321 | the target check at every link equals the check at the leaf |
| `ChainLaws.ChainUsable` | crates/epitrope/src/chain.rs:46-71 | a stored chain is usable exactly when its leaf is in its window and no link is revoked; checking never errs |
| `ChainLaws.InSubtreeIsChain` | crates/epitrope/src/revoke.rs:100-115 | a grant is in the subtree exactly when the designated grant is on its chain; the 256-step limit never cuts one short |
| `AuthzLaws.DesignatedExactly` | crates/epitrope/src/decision.rs:205-229 | the designated chain is accepted exactly for a grant its tenant holds, live, with the capability on the leaf |
| `AuthzLaws.AdmittedExactly` | crates/epitrope/src/decision.rs:282-311 | a session is admitted exactly when every link lists it or its holder is an ancestor of the owner within 256 links |
| `AuthzLaws.AllowedExactly` | crates/epitrope/src/decision.rs:134-188 | a call is allowed exactly under the stated conditions on the leaf, the links' sessions, revocations and every ledger |
| `AuthzLaws.RevokeExactly` | crates/epitrope/src/revoke.rs:76-95 | revocation is refused exactly unless the live holder of a revoking grant on the target's chain asks |
| `AuthzLaws.IssuedExactly` | crates/epitrope/src/grant.rs:166-230 | a child is issued exactly when its live parent confers issuing and it stays within it on all eight axes; its audit scope is the narrow one |
| `CustodyRuns.NarrowedAttenuates` | crates/epitrope/src/grant.rs:259-306 | a grant that passes the narrowing check attenuates its parent and links to it |
| `CustodyRuns.IssueKeeps` | crates/phylake/src/store/directory.rs:362-419 | issuing keeps the store invariant |
| `CustodyRuns.RevokeKeeps` | crates/phylake/src/store/directory.rs:431-463 | revoking keeps the store invariant |
| `CustodyRuns.OpenKeeps` | crates/phylake/src/store/directory.rs:492-546 | opening a session keeps the store invariant |
| `CustodyRuns.RegisterKeeps` | crates/phylake/src/store/directory.rs:262-308 | registering a tenant keeps the store invariant |
| `CustodyRuns.RootKeeps` | crates/phylake/src/store/directory.rs:318-346 | installing a root grant keeps the store invariant |
| `CustodyRuns.ShredLive` | crates/phylake/src/store/shred.rs:42-131 | a shred strands no open invocation: tenant and session owner of each keep their keys |
| `CustodyRuns.AllowedFacts` | crates/epitrope/src/decision.rs:134-188 | an allowed call is charged to exactly its chain, session and tenant ledgers, each with room in 64 bits and under its ceiling |
| `CustodyRuns.BeginKeeps` | crates/phylake/src/store/invocation.rs:244-289 | beginning a call keeps the store invariant and meets no inconsistency but an exhausted audit log |
| `BeginLaws.BeginExact` | crates/phylake/src/store/invocation.rs:244-289 | in a reachable store a fresh call is persisted with the decision's chain, cost and ledgers exactly when it is allowed and its session's owner is not shredded; it is refused otherwise, and errs only with the decision or for want of an audit sequence, so no ledger overflows |
| `BeginLaws.PlanExact` | crates/epitrope/src/decision.rs:359-388 | a call goes as its dry-run plan says exactly when it is fresh, a planned call's session owner is not shredded, and a planned refusal has an audit sequence left |
| `BeginLaws.PlanNotBegun` | crates/phylake/src/store/invocation.rs:274-279 | a run after which the plan allows a capture in a shredded owner's session and beginning it is refused |
| `TransitionRuns.SettleLedgers` | crates/phylake/src/store/transition.rs:305-322 | returning a settlement never underflows and keeps every ledger in balance with the invocations charged to it |
| `TransitionRuns.StepExact` | crates/phylake/src/store/transition.rs:32-63 | in a reachable store a step commits exactly when the table admits it, its outcome fits, the envelope fits, and an ending step has an audit sequence left; it then keeps the invariant |
| `TransitionRuns.TransferStep` | crates/phylake/src/store/transition.rs:97-148 | completing the transfer stores the envelope as a pending record of its own invocation |
| `TransitionRuns.PublishStep` | crates/phylake/src/store/transition.rs:162-220 | publishing finds its pending record and its keys, and publishes it unchanged but for its time |
| `TransitionRuns.EndStep` | crates/phylake/src/store/transition.rs:234-322 | ending releases the remainder to every ledger, records the debit and keeps the invariant |
| `TransitionRuns.StepAudit` | crates/phylake/src/store/transition.rs:48-59 | a committed step appends exactly one audit entry when it ends the invocation, and none otherwise |
| `TransitionRuns.RunKeeps` | crates/phylake/src/store/transition.rs:32-63 | every run of transactions with crashes before any commit keeps the store invariant |
| `StoreLaws.Conservation` | crates/phylake/src/store/transition.rs:305-322 | after any run each ledger's use is the sum of what its invocations hold: the reservation while open, the debit once ended |
| `StoreLaws.ReservationHeld` | crates/phylake/src/store/transition.rs:305-322 | an open invocation's whole reservation is still on each of its ledgers |
| `StoreLaws.DelegationBounded` | crates/epitrope/src/decision.rs:324-357 | after any run a grant has been charged at least the sum of its direct children and at most its ceiling |
| `StoreLaws.AttenuationHolds` | crates/epitrope/src/chain.rs:74-99 | after any run every chain loads, has depth plus one links, and each descendant attenuates each ancestor |
| `StoreLaws.PerformGrows` | crates/phylake/src/store/directory.rs:334-346 | no transaction removes or rewrites a grant, session, revocation, binding, published artifact, audit entry or ended invocation |
| `StoreLaws.EndedForever` | crates/phylake/src/store/transition.rs:32-63 | an ended invocation is never changed by any further run, and every further step on it is refused |
| `StoreLaws.PublishedExactly` | crates/phylake/src/store/transition.rs:162-220 | after any run a capture is published exactly from its publish commit on, under its own side record, and is never rewritten |
| `StoreLaws.RevokedForever` | crates/phylake/src/store/directory.rs:431-463 | once a grant is revoked, in no later state does any grant below it authorize, issue or revoke |
| `StoreLaws.KeyBoundForever` | crates/phylake/src/store/invocation.rs:293-303 | a bound key answers every later intent from the bound invocation or as a conflict, after any run |
| `StoreLaws.BeginOnce` | crates/phylake/src/store/invocation.rs:244-303 | a persisted intent's key never begins a second invocation |
| `StoreLaws.EveryLedgerHasOwner` | crates/phylake/src/store/invocation.rs:351-371 | after any run every stored ledger belongs to a stored grant, session or tenant, or to a shredded tenant |
| `CustodyStore.DebitReservation` | crates/phylake/src/store/invocation.rs:351-371 | the loop debits each ledger in turn or stops at the first overflow |
| `CustodyStore.ReturnRelease` | crates/phylake/src/store/transition.rs:305-322 | the loop returns the release to each ledger in turn or stops at the first underflow |
| `CustodyStore.ScanOpenInvocations` | crates/phylake/src/store/shred.rs:112-131 | the two scans answer exactly whether an open invocation belongs to the tenant or runs in a session it owns |
| `CustodyStore.Store.Begin` | crates/phylake/src/store/invocation.rs:244-289 | the new content and the answer are those of the begin transaction, under a crash before or after its commit |
| `CustodyStore.Store.Transition` | crates/phylake/src/store/transition.rs:32-63 | the new content and the answer are those of the step's transaction, under a crash before or after its commit |
| `CustodyStore.Store.ShredTenant` | crates/phylake/src/store/shred.rs:42-87 | the new content and the answer are those of the shred transaction |
| `Recovery.OpenInvocations` | crates/phylake/src/store/recovery.rs:87-99 | the scan lists every invocation that has a recovery action, once, with that action |
| `Recovery.RecoverOne` | crates/phylake/src/store/recovery.rs:59-82 | from a reachable store one recovery action ends its invocation as the table says, or fails only by a crash or an exhausted audit sequence |
| `Recovery.Recover` | crates/phylake/src/store/recovery.rs:57-84 | recovery meets no other error, ends every open invocation, counts each kind, succeeds without crashes exactly when the audit log has room, and a run with nothing open writes nothing |
| `Recovery.StepOutcome` | crates/phylake/src/store/recovery.rs:57-84 | a recovery step is taken, lost to a crash, or refused for want of an audit sequence, and nothing else |
| `Idempotency.OneKeyOneEffect` | crates/dioptron/src/orchestrator/directory.rs:93-135 | over any interleaving of retries, rotations and crashes at most one session or child grant is ever stored under one tenant, capability and key; it stays stored as its call asked, under the id the key is bound to |
| `Claims.ClaimExact` | crates/phylake/src/store/claim.rs:154-188 | after any interleaving of transactions and rotations a claim on a bound key changes nothing, and fails on the key id exactly when the entry's header does not name the active key, which needs a rotation that has not passed it; otherwise it replays the invocation first bound or conflicts |
| `Claims.RotationLocks` | crates/phylake/src/store/claim.rs:160-164 | in any well-formed store a rotation that begins after a fresh claim makes its retry fail on the key id |
| `Claims.ClaimStuck` | crates/phylake/src/store/claim.rs:160-164 | a run from the empty store in which that happens |
| `Claims.BeginReads` | crates/phylake/src/store/invocation.rs:248-259 | with both keys, at the address the keyring gives, a begin finds exactly the binding the content records, after any run |
| `Claims.RunOk` | crates/phylake/src/store/rekey.rs:166-345 | after any interleaving the entries sealed in the vault mirror the bindings, and the content is that of the custody transactions alone |
| `Daemon.AtMostOnce` | crates/dioptron/src/orchestrator/capture.rs:140-177 | over every run a producer is called at most once, never before dispatch, and a released invocation has no effect and can get none |
| `Daemon.CallAfterDispatch` | crates/dioptron/src/orchestrator/capture.rs:158-166 | a producer call happens with the invocation durably dispatched and never called before |
| `Daemon.StepsAreLegal` | crates/dioptron/src/orchestrator/capture.rs:338-447 | the live path and the error path only ask for steps the table admits in the state they find |
| `Daemon.ReportSteps` | crates/dioptron/src/orchestrator/capture.rs:338-391 | every report leads from dispatch to an ending, and releases only on a claim of no effect |
| `Daemon.NoLostRevocation` | crates/dioptron/src/orchestrator/directory.rs:273-284 | once a revocation that was not a replay has replied, each invocation under it has ended, will be stopped by the re-check, or has its signal fired |
| `Daemon.ReplayBeforeSweep` | crates/dioptron/src/orchestrator/directory.rs:250-262 | the reply of a replayed revocation can precede the first attempt's sweep: a concrete run |
| `Daemon.ReplayAfterReply` | crates/dioptron/src/orchestrator/directory.rs:250-284 | once a revocation that was not a replay has replied, the guarantee holds at every later moment, crashes included, so a replay after that reply carries it |
| `RunningSet.Running.CancelRevoked` | crates/dioptron/src/orchestrator/mod.rs:405-411 | the sweep fires exactly the running invocations whose chain holds the revoked grant |
| `RunningSet.StoreMoves` | crates/phylake/src/store/transition.rs:32-63 | a store step moves exactly its own invocation to the table's next state, or none |
| `VaultLaws.RunKeeps` | crates/phylake/src/store/rekey.rs:166-345 | every interleaving of batches, writers, registrations, shreds and crashes keeps the key directory exact and no record under the old key behind the cursor |
| `VaultLaws.ReadsNeverFail` | crates/phylake/src/store/keyring.rs:92-98 | after any run every live tenant's keyring loads, addresses under data key 1, and opens each of its records with its plaintext |
| `VaultLaws.OldKeyBehindCursor` | crates/phylake/src/store/rekey.rs:262-298 | records at or before the cursor are not under the old key, and once it is retired none is |
| `VaultLaws.ResealedExact` | crates/phylake/src/store/rekey.rs:302-327 | re-sealing changes only the key, and only of this tenant's records under the old key, whatever ids other tenants' records carry |
| `VaultLaws.RotationInvisible` | crates/phylake/src/store/rekey.rs:262-298 | over any run rotation changes nothing a user of the store can see |
| `VaultLaws.ActiveOnlyExact` | crates/phylake/src/store/claim.rs:154-188 | a reader with the active key alone succeeds exactly when the header names the active key, and otherwise fails on the key id mid-rotation |
| `VaultLaws.ActiveOnlyFails` | crates/phylake/src/store/claim.rs:154-188 | that failure is reachable: an entry written before the rotation began |
| `RekeyStore.WalkEntries` | crates/phylake/src/store/rekey.rs:398-413 | the range read gives the first records after the cursor in byte order |
| `RekeyStore.Reseal` | crates/phylake/src/store/rekey.rs:302-327 | the trial over the keyspace's kinds re-seals exactly the tenant's own records |
| `RekeyStore.ResealEntries` | crates/phylake/src/store/rekey.rs:281-286 | the loop re-seals exactly the batch |
| `RekeyStore.BatchProgress` | crates/phylake/src/store/rekey.rs:289-294 | each batch lowers the keyspaces left or the records after the cursor |
| `RekeyStore.KeyVault.Batch` | crates/phylake/src/store/rekey.rs:262-298 | one step is one batch or the retirement, as specified |
| `RekeyStore.KeyVault.RekeyTenant` | crates/phylake/src/store/rekey.rs:145-154 | rotation always ends when nothing intervenes, resuming one in progress, with the old key gone, no record under it and nothing visible changed |
| `KeyringCache.CacheAgrees` | crates/phylake/src/store/keyring.rs:124-156 | whatever the interleaving, a call returns exactly what loading through its own reader gives |
| `KeyringCache.ReplacedNeverCached` | crates/phylake/src/store/keyring.rs:192-197 | once an eviction has run after a commit that replaced or shredded a tenant's keys, neither those ids nor older ones are cached at any later moment, whatever rotations, evictions and restarts follow |
| `KeyringCache.NothingStaleCached` | crates/phylake/src/store/keyring.rs:124-156 | while no eviction of a tenant is due, its cached keyring is the one the latest commit loads |
| `RootRotation.ApplyMoves` | crates/phylake/src/store/root_rotation.rs:64-72 | every removal then every insertion, so a key equal to an old one is kept |
| `RootRotation.MoveSpace` | crates/phylake/src/store/root_rotation.rs:185-257 | every store-sealed record of a keyspace is moved, and only those |
| `RootRotation.MoveLedgers` | crates/phylake/src/store/root_rotation.rs:262-297 | staging succeeds exactly when every ledger has an owner, and then moves each |
| `RootRotation.MoveWrappedKeys` | crates/phylake/src/store/root_rotation.rs:302-349 | staging succeeds exactly when the wrapped keys are those live tenants name, and then moves each |
| `RootRotation.RootStore.RotateRoot` | crates/phylake/src/store/root_rotation.rs:101-134 | either the whole content is readable under the next root or nothing changed, and which one is decided exactly by the key, the id, the owners and the crash |
| `RootRotation.RotationPreservesReads` | crates/phylake/src/store/root_rotation.rs:101-182 | reading any record by its logical name gives the same answer before and after |
| `RootLaws.ReachableRotatable` | crates/phylake/src/store/root_rotation.rs:136-182 | in every reachable store a rotation never fails for an unowned ledger or wrapped key |
| `Audit.Append` | crates/phylake/src/store/audit.rs:153-212 | stubs stay exactly 1 to n with each entry under its stub's sequence; appending fails exactly for a full log or a tenant without keys |
| `Audit.Partition` | crates/phylake/src/store/audit.rs:318-360 | one partition's scan gives the first selected records of it in order |
| `Audit.AuditQuery` | crates/phylake/src/store/audit.rs:250-290 | per-partition limits, merge, sort and truncation give exactly the first selected records of the whole log |
| `Audit.PagingExact` | crates/dioptron/src/orchestrator/reads.rs:140-177 | following the page cursor with a limit of at least 1 over a growing log returns each selected record once, in order, and all of them when told to stop |
| `Audit.SoloReader` | crates/dioptron/src/orchestrator/reads.rs:140-177 | with no other writer a reader is told to stop after some number of pages exactly unless its limit is 1 and more than one record was selected at first |
| `Audit.PageHonest` | crates/dioptron/src/orchestrator/reads.rs:135-172 | a page tells whether records remain exactly when the caller asks for at least one and the frame has room for one, or none remain |
| `Limits.DefaultsFit` | crates/dioptron/src/orchestrator/limits.rs:56-107 | a limit the caller omits, whatever it asks for on the other dimension, never makes the decision on the same snapshot refuse for that dimension on an own ledger |
| `Limits.LimitsFromOwnLedgers` | crates/dioptron/src/orchestrator/limits.rs:84-107 | stores that differ only in what the caller does not own give the same declared limits |
| `Encoding.BuildAad` | crates/phylake/src/crypto/seal.rs:95-124 | appending the fields builds the additional data, or fails for a component over 65535 bytes |
| `Encoding.AadInjective` | crates/phylake/src/crypto/seal.rs:95-124 | different schema, kind, key id, keyspace or record key give different additional data |
| `Encoding.BuildKeyInput` | crates/phylake/src/store/record_key.rs:42-54 | the loop builds the domain and length-prefixed parts |
| `Encoding.KeyInputInjective` | crates/phylake/src/store/record_key.rs:42-54 | with domains that are not prefixes of each other, equal inputs have equal domains and parts |
| `Encoding.StorePrefixFree` | crates/phylake/src/store/record_key.rs:57-126 | no store domain is a prefix of another |
| `Encoding.StoreInputInjective` | crates/phylake/src/store/record_key.rs:57-126 | different store records have different key inputs |
| `Encoding.TenantInputInjective` | crates/phylake/src/store/record_key.rs:130-207 | different records of one tenant have different key inputs |
| `Ulid.WriteUlid` | crates/syntheke/src/ids.rs:27-38 | filling the array from the last digit prints the value |
| `Ulid.ParseUlid` | crates/syntheke/src/ids.rs:44-65 | the loop reads the digits, or reports the first complaint |
| `Ulid.LeadingDigitIsBound` | crates/syntheke/src/ids.rs:23-24 | the leading-digit check is exactly the 128-bit bound |
| `Ulid.ParsePrinted` | crates/syntheke/src/ids.rs:27-65 | parsing a printed identifier gives it back |
| `Ulid.PrintParsed` | crates/syntheke/src/ids.rs:27-65 | printing what an accepted text parses to gives the text in upper case |

## Left out

- The server, the wire frames, the command line and the file operations of key files, compaction and backup: input and output.
- Cipher, hash and signature internals, entropy and zeroization: ideal abstractions stand for them.
- The record serializer and the database: records round trip, write transactions are serialized, commits are atomic and snapshots are consistent.
- Wall-clock timing in the producer call: deadline, cancel, grace and polling are free choices of the events.
- The dry-run plan of capabilities other than capture: each is the decision of the same check.
- Directory and claim transactions are modelled on values; only the begin, step, shred, recovery, rotation and root-rotation paths are also given as methods on an object.
- The owner memo inside one audit query: it caches a pure lookup on one snapshot.
- The visited, re-sealed and total counters of a rotation: they report progress and decide nothing.
- Text views, source references and truncation of a capture are folded into its envelope; the session index entry and the locator are folded into the published record.
- Daemon.AtMostOnce: relies on honest reports, because a producer that denies an effect it started cannot be told apart.
- Audit.PagingExact: fixes the live tenants and the session owners while a reader pages, because a shred or a later session changes what its scope selects.
- RekeyStore.KeyVault.RekeyTenant: termination is stated with no writer between batches, because writers can add records ahead of the cursor forever.
- Audit.SoloReader: counts pages without the 64-bit bound on audit sequences, because a full log refuses every call that writes an entry.
- Query paging over artifacts and the read of stored content: they would only add easy members.
