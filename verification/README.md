# Cosmosigner, modelled and proved

Cosmosigner is a remote signer for CometBFT validators. It promises that at most one payload is ever
signed per chain and height/round/step: under concurrent requests, leader changes, lost replies, crashes
and snapshot restores, and also when somebody bootstraps a second, independent cluster with the same key.
This project models the code behind that promise and proves it, together with what the surrounding
components promise.

## How the model is built

**The gate.** `Fsm` is the replicated state machine as a function of the committed log; `FsmObject.Machine`
is the object with its fields, proved equal to that function call by call; `Snapshot` is its snapshot
format. `Gate` is the reserve, sign, commit protocol. Consensus is one agreed, append-only log. A
signing call submits a command; the command may be appended at any later time, even after its call has
reported an error, or never. Replicas apply prefixes, crash, take snapshots and restore them. A run is an
arbitrary sequence of step choices, so a statement about `Run(sign, n, steps)` is a statement about every
interleaving. `GateInvariant` holds the inductive invariant, `GateTheorems` what follows from it, and
`GateService` and `GateProgress` say exactly which calls the gate can still serve. `PrivValidator` is the signer's code, whose
executions are proved to be runs of the gate.

**Claims and startup.** `VaultBinding` (create-only record of a key-value store) and `FileBinding` (marker
file, with what is in memory and what is on disk kept apart) are machines of racing processes, and
`FileBindingProgress` says which claims and provisionings can succeed;
`VaultClaimCode` and `FileClaimCode` are the procedures as code inside them. `Startup` puts any number of
independent histories, each a whole gate, in front of one key with a create-only claim, kept as a record
or as a marker file; `StartupDurability` says exactly when that claim protects the key, and `StartupClaims`
that the records of `VaultBinding` and the markers of `FileBinding` do nothing `Startup` does not;
`StartupProgress` says which processes can come to serve, and `StartupCode` is the startup sequence.

**Connections and tokens.** `Connector` is the race between one connection's service loop and its
retirement, `Lifecycle` the map of connectors, each with that race inside it, and the shutdown order. `Pkcs11`
is the session machine with the pinned key and the PIN latch, `Pkcs11Modules` the pool of loaded modules, and
`Pkcs11Process` a process that has any number of the one and one of the other. `ClusterId` is the identity
format.

Sign-bytes, snapshots, records and key files are kept as decoded values: distinct values stand for distinct
byte strings. The signing function is a parameter and deterministic (section 5.1.6 of RFC 8032); nothing
else is assumed of it. Integers are unbounded; the code only compares heights, rounds and steps.
Timing is a free choice of steps. In the code-shaped modules `:= *` is the environment's free choice: a
failing call, a lost reply, or how many steps the others take in between. A ghost counter of troubles, or the
list of the module's answers, keeps what the environment did, so that the contracts can say what a failure
is due to: code that fails without a cause does not meet them.

## Two promises that do not hold as they are written

**A marker file's owner can change.** If the host crashes after the marker was linked and before its directory
was synced, the marker may be gone, and a claim for another cluster then succeeds; a reader that looked in
between saw the first owner (`FileBindingProofs.OwnerCanChange` gives the run). The exact condition is proved:
the owner a reader finds is the owner in every continuation if and only if the directory has been
synced since the link (`OwnerForeverIffDurable`), only crashes to a directory state before the link lose it
(`CrashLosesOwnerIff`), and a claim that returned success always has that sync behind it
(`OwnerForeverAfterSuccess`).

**A startup check does not ask for a durable claim.** Its comment does (internal/backend/backend.go:44), but
for a marker file the check only reads (internal/backend/software.go:100-105). A process that finds the marker
of a claim that never reached its directory sync serves and signs; after a crash of the host the marker can be
gone, another cluster claims the key, and it signs another payload for the same height, round and step
(`StartupDurability.TwoHistoriesCanSign` gives the run, which needs no preflight probe). The exact condition is
proved: when a check passes and another history has another identity, the two can come to double-sign if and
only if the claim found was not yet durable (`DoubleSignIff`); and as long as every check that passed found a
durable claim, any two histories can come to double-sign if and only if the claim is a marker file that is not
durable now (`ProtectedIff`). So with records of a store, or when every check that passes finds a synced
marker, the promise holds for all runs (`Startup.NoDoubleSignAcrossHistories`).

## Model

| member | source | states |
|---|---|---|
| `Messages.EncodingSeparates` | internal/signer/privval.go:62-95 | two requests have equal sign-bytes if and only if they are the same kind of message with the same chain, type, height, round, POL round, block and time |
| `Messages.ExtensionBytesSeparate` | internal/signer/privval.go:73-81 | two extensions have equal sign-bytes if and only if chain, height, round and content agree |
| `Messages.AdmitsExactly` | internal/signer/privval.go:44-62 | exactly which requests are admitted, and at which height, round and step: 1 for proposals, 2 for prevotes, 3 for precommits |
| `Fsm.CompareHrs` | internal/state/fsm.go:167-190 | the three answers are exactly the three cases of the lexicographic order on height, round, step |
| `Fsm.OnlyDiffersByTimestamp` | internal/state/fsm.go:197-216 | when it answers, the old payload is the new one at the returned time and decodes at that step |
| `Fsm.MarkNeverRegresses` | internal/state/fsm.go:92-143 | between any two points of any log a chain's mark never falls; at one mark the bytes and timestamp stay and a signature is written at most once |
| `Fsm.ReplayDecides` | internal/state/fsm.go:60-143 | the state after any log, said without the state machine: the first reservation at the highest mark fixes bytes and time, the first non-empty commit for them fixes the signature |
| `Fsm.ReserveIsAnswered` | internal/state/fsm.go:92-125 | how any log answers a reservation, each outcome and each refusal with its own exact condition on what the log decided |
| `Fsm.CommitIsAnswered` | internal/state/fsm.go:127-143 | accepted if and only if mark and bytes are the decided ones and no other signature was written for them, so a repeated commit is accepted; each refusal with its exact condition |
| `Fsm.InitIsAnswered` | internal/state/fsm.go:79-87 | refused if and only if the ID is invalid, otherwise answered with the identity the log then has |
| `Fsm.FirstReserveIsAnswered` | internal/state/fsm.go:115-123 | the first reservation of a chain gets its own bytes and time |
| `Fsm.FirstCommitIsAnswered` | internal/state/fsm.go:127-131 | a commit for a chain nobody reserved for is stale |
| `Fsm.OthersAreRefused` | internal/state/fsm.go:60-77 | an entry that is no known command changes nothing and is refused for what it is |
| `Fsm.DecisionIsState` | internal/state/fsm.go:60-143 | what a log decides for a chain is unique, and it is the state |
| `Fsm.ChainsAreIndependent` | internal/state/fsm.go:92-143 | a chain's entry and the answer to its next command depend on that chain's commands only |
| `Fsm.ReplayIdentity` | internal/state/fsm.go:79-87 | the identity after any log is that of its first valid init command |
| `Fsm.IdentityIsStable` | internal/state/fsm.go:79-87 | an initialised identity is the identity of every longer log |
| `FsmObject.Machine.Apply` | internal/state/fsm.go:60-77 | one committed entry changes the object and is answered as the log function says |
| `FsmObject.Machine.ApplyReserve` | internal/state/fsm.go:92-125 | the in-place reservation is the reservation function, every branch |
| `FsmObject.Machine.ApplyCommit` | internal/state/fsm.go:127-143 | the in-place commit is the commit function, every branch |
| `FsmObject.Machine.ApplyInitCluster` | internal/state/fsm.go:79-87 | only a valid ID initialises, and only once |
| `FsmObject.Machine.Restore` | internal/state/snapshot.go:35-91 | a restore replaces the whole state by the decoded one or reports the error and changes nothing |
| `Snapshot.TakeDecode` | internal/state/snapshot.go:23-32 | a snapshot decodes to the state it was taken of, exactly when the identity is empty or valid |
| `Snapshot.DecodesExactly` | internal/state/snapshot.go:35-79 | exactly the files that carry an object without a null chain, under no or a valid identity, decode, to exactly its entries |
| `Snapshot.RestoreAccepts` | internal/state/snapshot.go:80-90 | a snapshot of another state is accepted if and only if this one has no identity or the same |
| `Snapshot.RestoreKeepsIdentity` | internal/state/snapshot.go:80-90 | no accepted restore of any file changes an initialised identity |
| `Snapshot.LegacyNeedsNoIdentity` | internal/state/snapshot.go:69-87 | a legacy snapshot is accepted if and only if it decodes and there is no identity yet |
| `Snapshot.LaterSnapshotAccepted` | internal/state/snapshot.go:80-90 | the guard never refuses a lagging replica a later snapshot of the same log |
| `Snapshot.EarlierSnapshotGuarded` | internal/state/snapshot.go:80-90 | an earlier snapshot is refused exactly when the identity was initialised in between |
| `Snapshot.ReplayEquivalence` | internal/state/snapshot.go:23-91 | for every log, lag and cut: restore, then apply the rest, gives the state and every answer of replaying it all |
| `GateInvariant.ReserveAnswer` | internal/state/fsm.go:92-125 | whatever the state, an answered reservation names bytes that are the caller's own at the answered time, and a reused signature is the key's over them |
| `GateInvariant.HeldIsUnique` | internal/state/fsm.go:92-143 | over a whole log one mark never holds two byte strings |
| `GateInvariant.StepKeepsInv` | internal/signer/privval.go:112-131 | every step of calls, log and replicas keeps the invariant that ties them together |
| `GateInvariant.RunKeepsInv` | internal/signer/privval.go:112-131 | so does every run |
| `GateTheorems.NoDoubleSign` | internal/signer/privval.go:112-131 | in every run all canonical backend signatures for one chain and height/round/step are over one byte string |
| `GateTheorems.ReleasesAgree` | internal/signer/privval.go:112-131 | any two results released for one height/round/step are the same message, block and POL round included, under the same signature |
| `GateTheorems.ReleaseMatchesSigning` | internal/signer/privval.go:112-131 | a released result is over the bytes of every backend signature at that place |
| `GateTheorems.ReleasedMessagesVerify` | internal/signer/privval.go:62-101 | fresh, in flight, timestamp-only or reused: the returned message encodes to exactly the signed bytes |
| `GateTheorems.ExtensionAfterCommit` | internal/signer/privval.go:73-87 | when an extension was signed it was for a non-nil precommit whose canonical signature the log had already committed |
| `GateTheorems.OneExtensionPerPrecommit` | internal/signer/privval.go:73-87 | each accepted non-nil precommit made exactly one extension signature, every other result none |
| `GateTheorems.IdentityAgreement` | internal/state/raftstore.go:372-425 | every identity ever returned on any replica is that of the log's first valid init command |
| `GateTheorems.ReplicasAgree` | internal/state/fsm.go:60-77 | however it crashed and restored, a replica is the replay of a prefix of the one log |
| `GateTheorems.RunGrows` | internal/state/raftstore.go:532-550 | nothing signed, released or identified is undone by any continuation |
| `GateService.CompletesIff` | internal/signer/privval.go:112-131 | in every reachable state an admitted call can be brought to release if and only if its reservation would not be refused now |
| `GateService.FreshCallCompletes` | internal/state/fsm.go:115-123 | a call above its chain's mark can be released with its own bytes and time |
| `GateService.RetryCompletes` | internal/state/fsm.go:97-114 | a retry at the mark, in flight or signed, at the same or another time, can be released with the bytes and time the mark holds |
| `GateProgress.RoundCompletes` | internal/signer/privval.go:133-142 | above a chain's mark, the proposal, prevote and precommit of one round can all be released, each with its own bytes |
| `GateProgress.MarksRise` | internal/state/store.go:15-20 | within a round the marks rise from proposal to prevote to precommit |
| `GateProgress.UnderWayIff` | internal/state/fsm.go:99-104 | a call with reserved or signed bytes can be released if and only if the mark is still its own, whoever committed first |
| `GateProgress.CommittingCompletes` | internal/state/fsm.go:135-140 | a call that waits for its commit can be released while the mark is its own, also when the signature is already written |
| `GateProgress.AnsweredCompletes` | internal/signer/privval.go:126-130 | a call whose commit was accepted can be released wherever the mark is now |
| `GateProgress.IdentityCanBeHad` | internal/state/raftstore.go:372-425 | any valid candidate becomes the identity of a cluster without one, and any replica can return it |
| `GateProgress.LaterSnapshotInstalls` | internal/state/snapshot.go:80-90 | in every run a lagging replica gets a later snapshot installed and is then where it was taken |
| `PrivValidator.GatedPrivValidator.Reserve` | internal/state/raftstore.go:348-370 | leadership check, apply and lost reply are steps of the run; without trouble an error is a refusal the log has given |
| `PrivValidator.GatedPrivValidator.Commit` | internal/state/raftstore.go:516-550 | the same for commit |
| `PrivValidator.GatedPrivValidator.GatedSign` | internal/signer/privval.go:112-131 | reserve, sign the reserved bytes, commit; without trouble it fails only for a refusal of the log |
| `PrivValidator.GatedPrivValidator.SignVote` | internal/signer/privval.go:44-87 | a returned vote verifies, differs from the caller's in the stamped fields only, and is the released result of a call of the run; a request is called bad exactly when it is not admitted |
| `PrivValidator.GatedPrivValidator.SignProposal` | internal/signer/privval.go:89-101 | the same for proposals |
| `PrivValidator.GatedPrivValidator.EnsureClusterID` | internal/state/raftstore.go:372-425 | the retry loop returns the identity of the log's first valid init command; without trouble, and given a tick, it does so |
| `Binding.RequireClaimOwner` | internal/backend/software.go:142-147 | passes if and only if the owner is the expected one, otherwise it is a mismatch |
| `Binding.RequireClusterBinding` | internal/backend/backend.go:45-60 | passes if and only if the ID is valid and the durable claim is exactly it; unclaimed is told apart |
| `VaultBinding.ParseIffEncoded` | internal/backend/vault_binding.go:126-145 | the parser accepts exactly what the writer writes for this key and reads it back |
| `VaultBinding.SuccessMeansOwned` | internal/backend/vault_binding.go:147-174 | for any number of racing claimers with late or lost writes, success for an ID means the record was created for it and says so |
| `VaultBinding.OneOwner` | internal/backend/vault_binding.go:147-174 | two different IDs never both succeed, even if the record is erased |
| `VaultBinding.CorruptMeansErased` | internal/backend/vault_binding.go:74-124 | the data, metadata, data sequence never calls a record corrupt that is just being created |
| `VaultBinding.OwnerIsForever` | internal/backend/vault_binding.go:147-174 | the first owner is the owner after every continuation |
| `VaultBinding.ClaimSucceedsIff` | internal/backend/vault_binding.go:147-174 | in every reachable state a new claim can be brought to success if and only if its ID is valid and the record is not there yet or already says so, unerased |
| `VaultBinding.DecidedClaim` | internal/backend/vault_binding.go:147-174 | a read that finds the record ends the claim: success for its owner, a mismatch for all others |
| `VaultBinding.RecordMoves` | internal/backend/vault_binding.go:147-174 | seen from outside, every step of claimers, late writes and operators creates the claim or leaves it as it is |
| `VaultBinding.DecidingRead` | internal/backend/vault_binding.go:74-124 | the request that decides a read reports the owner of that moment, or that there is none, or an erased record as corrupt |
| `VaultClaimCode.Resource.ClusterBinding` | internal/backend/vault_binding.go:74-98 | at most three requests decide a read, and its outcome is what the record says when it is reported; only an unclaimed resource leads on to a write |
| `VaultClaimCode.Resource.ClaimCluster` | internal/backend/vault_binding.go:147-174 | the procedure succeeds only as the owner, and each error it can give is true of the record or is a failed request |
| `FileBindingProofs.MarkerIsComplete` | internal/backend/binding_file.go:69-142 | after any step and in any state a crash can restore, the marker is absent or a complete valid record |
| `FileBindingProofs.SuccessIsDurable` | internal/backend/binding_file.go:76-180 | once a claim succeeded, a crash to any possible disk state leaves its owner readable |
| `FileBindingProofs.OwnerForeverAfterSuccess` | internal/backend/binding_file.go:76-180 | and so does every continuation, retries after failed syncs included |
| `FileBindingProofs.OneOwner` | internal/backend/binding_file.go:69-142 | two claims that both succeed are for one cluster, with or without the lock |
| `FileBindingProofs.OwnerCanChange` | internal/backend/binding_file.go:127-140 | a run in which a reader's owner is replaced after a crash before the directory sync |
| `FileBindingProofs.OnlyCrashesLoseOwner` | internal/backend/binding_file.go:127-140 | no operation, kill or arrival takes an owner away |
| `FileBindingProofs.CrashLosesOwnerIff` | internal/backend/binding_file.go:138-140 | a crash loses the owner exactly when it goes back behind the link, and then there is none |
| `FileBindingProofs.OwnerForeverIffDurable` | internal/backend/binding_file.go:151-180 | the owner is permanent if and only if the directory was synced since the link |
| `FileBindingProofs.MarkerNamesKey` | internal/backend/software_file.go:153-198 | for any claims and overwriting provisionings under the lock, an existing marker names the key on disk |
| `FileBindingProofs.ProvisionStepKeepsInv` | internal/backend/software_file.go:153-249 | every operation of a provisioning keeps what the claims rely on |
| `FileBindingProofs.ClaimStepKeepsInv` | internal/backend/software.go:107-122 | every operation of a claim, its key precheck included, keeps what provisioning relies on |
| `FileBindingProgress.ClaimSucceedsIff` | internal/backend/binding_file.go:69-142 | with the lock, in every reachable state, a new claim can be brought to success if and only if its ID is valid and the key is unclaimed or claimed for just this cluster and key |
| `FileBindingProgress.DecidedClaim` | internal/backend/binding_file.go:80-85 | a claim that ends at the directory sync succeeds for the owner and is a mismatch for all others |
| `FileBindingProgress.ProvisionSucceeds` | internal/backend/software_file.go:153-249 | where there is no marker, a provisioning that may overwrite or finds no key puts its key on disk |
| `FileBindingProgress.ProvisionRefused` | internal/backend/software_file.go:153-198 | one that finds a marker, or a key it may not overwrite, leaves the disk alone |
| `FileClaimCode.Host.Claim` | internal/backend/binding_file.go:69-142 | the procedure succeeds only with the marker naming this cluster durably, a mismatch means it names another, and it reports just how the claim ended |
| `FileClaimCode.Host.SyncPublished` | internal/backend/binding_file.go:151-180 | syncing a found marker makes its owner durable before it is accepted |
| `FileBindingProofs.MarkerMoves` | internal/backend/binding_file.go:69-180 | seen from outside, every step of marker, disk and processes is a create, a sync, or the loss of an unsynced claim in a crash |
| `Startup.OneHistorySigns` | cmd/cosmosigner/cmd/start.go:406-443 | histories with different identities: at most one ever makes the key sign, preflight probes included, for every store record and every durably checked marker |
| `Startup.NoDoubleSignAcrossHistories` | cmd/cosmosigner/cmd/start.go:406-443 | the single-history theorem for the whole set of histories that share a key; `ProtectedIff` and `DoubleSignIff` say what happens without durable checks |
| `Startup.RunKeepsInv` | cmd/cosmosigner/cmd/start.go:406-443 | a process is bound, verified or serving only while the claim is its own history's, whatever is written late or lost in crashes |
| `StartupDurability.DoubleSignIff` | internal/backend/backend.go:44-60 | after a passed check, some continuation holds two histories' signatures of different bytes for one place, if and only if the claim found was not durable |
| `StartupDurability.ProtectedIff` | cmd/cosmosigner/cmd/start.go:406-443 | two histories with different identities can come to double-sign if and only if the claim is a marker file and not durable now |
| `StartupDurability.SecondSignerIff` | internal/backend/backend.go:44-60 | the same condition for both histories using the key at all, probes included |
| `StartupDurability.DurableShutsOut` | cmd/cosmosigner/cmd/start.go:416-427 | once a durable claim is another's, no continuation lets a history make the key sign |
| `StartupDurability.TwoHistoriesCanSign` | internal/backend/software.go:100-105 | a run in which two clusters sign different bytes for one place with a key whose marker was checked before its directory sync |
| `StartupClaims.EveryMoveIsCovered` | internal/backend/binding_file.go:69-180 | every move a claim may make, of a record or of a marker, is made by steps of the fleet that leave the histories alone |
| `StartupClaims.RecordIsFollowed` | internal/backend/vault_binding.go:147-174 | whatever happens to a store record, the fleet's claim does with it |
| `StartupClaims.RecordReportIsJustified` | internal/backend/vault_binding.go:165-174 | a claimer that succeeded is one whose claim step may report success |
| `StartupClaims.RecordReadIsJustified` | internal/backend/vault_binding.go:74-124 | a decided read of the record is a read of the fleet's claim, or tells of an erased record |
| `StartupClaims.MarkerIsFollowed` | internal/backend/binding_file.go:69-180 | whatever processes, syncs and crashes do to a marker, the fleet's claim does with it |
| `StartupClaims.MarkerReportIsJustified` | internal/backend/binding_file.go:127-140 | a claim that succeeded left the marker durable and its claim step may report success |
| `StartupClaims.MarkerReadIsJustified` | internal/backend/binding_file.go:28-67 | a read of the marker is a read of the fleet's claim, or tells of another key |
| `StartupProgress.ServesIff` | cmd/cosmosigner/cmd/start.go:406-443 | a process that knows its identity can come to serve by itself if and only if the key is claimed for it, or is unclaimed and the process may claim it |
| `StartupProgress.OnlyClaimantsCreate` | cmd/cosmosigner/cmd/start.go:417-420 | of all steps of processes only the claim of one that may claim creates the claim, for its own identity |
| `StartupCode.FleetWorld.PrepareStartupWithClaim` | cmd/cosmosigner/cmd/start.go:406-443 | startup succeeds only with the claim on this history's identity, durably so for a store record; without trouble it is refused only for another's claim, or for none that it may not make; without that permission it never claims |
| `StartupCode.FleetWorld.VerifyCanSign` | cmd/cosmosigner/cmd/start.go:427-433 | the preflight, of a backend that has one, passes only while the claim is this history's |
| `StartupCode.FleetWorld.BeginService` | cmd/cosmosigner/cmd/start.go:434-442 | a cancelled context or a failed renewal stops the process; otherwise it serves with the claim still its own |
| `StartupCode.FleetWorld.ClaimAndReread` | cmd/cosmosigner/cmd/start.go:417-426 | claim, then read again; a refusal's reason is true of the claim then found |
| `StartupCode.FleetWorld.RequireBinding` | cmd/cosmosigner/cmd/start.go:416-427 | check, claim when unclaimed and allowed, check again: passed means bound, and a refusal's reason is true of the claim then found |
| `Connector.RunKeepsInv` | internal/server/lifecycle.go:133-246 | the invariant of flag, mutex, socket and events over every interleaving |
| `Connector.AllSocketsClosed` | internal/server/lifecycle.go:214-246 | once retirement is done and no dial attempt is under way, every socket ever opened is closed |
| `Connector.RefusalsReachNobody` | internal/server/lifecycle.go:102-111 | a retired connector's refusal is never written to an open socket |
| `Connector.NothingAfterFlag` | internal/server/lifecycle.go:102-111 | after the flag is set nothing is handed over and no request is accepted |
| `Connector.HandedOverIsClosedByRetirement` | internal/server/lifecycle.go:227-246 | a handed-over socket was open then, and any retirement that ends has closed it |
| `Connector.RetiredForGood` | internal/server/lifecycle.go:389-408 | a retirement that is done stays done in every continuation |
| `Connector.MutexIsReleased` | internal/server/lifecycle.go:214-246 | the service loop keeps the mutex for two moves at most, so no retirement waits for ever |
| `Connector.DialerErrorMeansRetired` | internal/server/lifecycle.go:129-149 | the service loop ends only for a retired connector: by the dialer once the dial is cancelled, otherwise once the endpoint was stopped |
| `Connector.LiveConnectorServes` | internal/server/lifecycle.go:129-212 | from every reachable state of a connector that is not retired some continuation hands over an open socket and accepts a request on it |
| `Lifecycle.NodeServer.Observe` | internal/server/lifecycle.go:262-281 | latches the connection state; asks for retirement exactly of a connection already seen up that went silent |
| `Lifecycle.NodeServer.Retire` | internal/server/lifecycle.go:389-408 | flag, dial cancel and socket close happen in this order while the service loop goes on, and the retirement ends |
| `Lifecycle.Manager.Retire` | internal/server/lifecycle.go:389-408 | the connector's retirement is over exactly when it has left the map |
| `Lifecycle.Manager.RetiredConnectorsClose` | internal/server/lifecycle.go:389-408 | of a connector that has left the map, at shutdown or before, every socket ever opened is closed once no dial attempt is under way, whatever it still does |
| `Lifecycle.Manager.OneLiveConnector` | internal/server/lifecycle.go:389-408 | no address has two connectors that are not retired |
| `Lifecycle.Manager.StopAll` | internal/server/lifecycle.go:626-633 | nothing is served and every connector ever created is retired |
| `Lifecycle.Manager.ReconcilePass` | internal/server/lifecycle.go:546-592 | non-leader: empty; unknown targets: no change; else targets less failed starts, with kept connectors the same objects |
| `Lifecycle.Manager.NeedsFastDiscovery` | internal/server/lifecycle.go:456-473 | true exactly when something is pending, unconnected or silent; the serving set is untouched |
| `Lifecycle.Manager.HandleTick` | internal/server/lifecycle.go:521-544 | a reconcile tick is a pass; a watch tick is one exactly when something is pending or unwell, and otherwise changes nothing |
| `Lifecycle.Manager.Run` | internal/server/lifecycle.go:515-544 | the served addresses after each tick are what the tick makes of those before; the leadership handoff begins only with every connector retired, and none is created after it |
| `Pkcs11.PinLatch.Login` | internal/backend/pkcs11_cgo.go:175-200 | after a wrong or locked PIN no login reaches that token again |
| `Pkcs11.Backend.Keys` | internal/backend/pkcs11.go:196-240 | an accepted pair is a sensitive, non-extractable Ed25519 signing key found in this session and the 32-byte point of an acceptable public key |
| `Pkcs11.Backend.Reopen` | internal/backend/pkcs11.go:123-187 | success if and only if a session is held; the pinned key never changes; success rests on eight good answers of the module, the opened slot being that of the only match; a failure on a missing PIN, the latch, or the module's last answer |
| `Pkcs11.Backend.SelectToken` | internal/backend/pkcs11.go:128-150 | the slot of the only token the configuration selects, which offers EdDSA; or the answer that is to blame |
| `Pkcs11.Backend.LoginAndPin` | internal/backend/pkcs11.go:164-187 | a login answered with a wrong or locked PIN leaves just that code latched in the backend |
| `Pkcs11.Backend.DropSession` | internal/backend/pkcs11.go:188-194 | the session is closed once and its handle forgotten |
| `Pkcs11.Backend.Sign` | internal/backend/pkcs11.go:248-278 | a returned signature has 64 bytes and verifies under the pinned key; at most two module calls, both for this message; a failure is due to the latch, a missing PIN or the module's last answer |
| `Pkcs11.Backend.VerifyCanSign` | internal/backend/pkcs11.go:279-301 | passes only when the module answered the probe twice with one 64-byte signature that verifies; latched or closed it does nothing |
| `Pkcs11.Backend.ClaimPrecheck` | internal/backend/pkcs11.go:303-330 | passes only with the pinned key in the open session and signs nothing |
| `Pkcs11.Backend.Close` | internal/backend/pkcs11.go:338-355 | opens equal closes, the module is released exactly once, a second close does nothing |
| `Pkcs11.NewBackend` | internal/backend/pkcs11.go:103-120 | success pins a key in an open session; any failure has closed the backend and released the module |
| `Pkcs11Process.Process.Run` | internal/backend/pkcs11_cgo.go:45-54 | over any calls on any backends made at any time, with whatever PIN text is read then: pinned keys stay, latched or closed backends do nothing more |
| `Pkcs11Process.Process.ModuleLifetime` | internal/backend/pkcs11_cgo.go:105-122 | a module is destroyed exactly when the last backend made with it is closed, and finalised exactly if this process had initialised it |
| `Pkcs11Process.Process.CallBackend` | internal/backend/pkcs11.go:338-355 | a backend is one user of its module until its first close, and other calls leave the users alone |
| `Pkcs11Process.Process.Make` | internal/backend/pkcs11_cgo.go:45-54 | a backend that cannot be made has given its module back; one that is made holds a session and a pinned key |
| `Pkcs11Modules.Pool.KnownPath` | internal/backend/pkcs11_cgo.go:68-88 | the one path under which the file is known, stale paths forgotten |
| `Pkcs11Modules.Pool.Acquire` | internal/backend/pkcs11_cgo.go:55-124 | a live module of the file is shared, else one is loaded; one more user, all others untouched |
| `Pkcs11Modules.Pool.Release` | internal/backend/pkcs11_cgo.go:106-122 | destroyed exactly when its last user releases it, finalised exactly if this process initialised it |
| `Pkcs11Modules.Pool.OneModulePerFile` | internal/backend/pkcs11_cgo.go:68-105 | no file ever has two live modules |
| `ClusterId.ValidIffRendered` | internal/clusterid/id.go:34-54 | valid exactly when it is the rendering of some sixteen masked bytes |
| `ClusterId.MaskIsBitwise` | internal/clusterid/id.go:17-18 | the arithmetic masks are the bit operations on the version and variant bytes |
| `ClusterId.RenderInjective` | internal/clusterid/id.go:20-30 | rendering is injective |
| `ClusterId.Validate` | internal/clusterid/id.go:34-54 | the loop accepts exactly the renderings of masked bytes |
| `ClusterId.New` | internal/clusterid/id.go:12-31 | the buffer filled in place is the rendering of the masked random bytes, and it validates |
| `ClusterId.HexEncode` | internal/clusterid/id.go:20-29 | writes two digits per byte in its window and nothing outside |

## Left out

- Raft itself (consensus, elections, storage, transport): one agreed committed log is assumed; only the possible outcomes of a call are modelled.
- Protobuf, JSON, base64 and PEM: kept as decoded values; only injectivity, absent fields and the snapshot magic matter. Bytes that decode as the other message kind are taken as undecodable.
- Ed25519 and SHA-256: a deterministic signing function and a verification predicate are parameters.
- AWS and GCP backends, imports and the commands around them: client sequences without compare-and-set.
- Vault token renewal and preflight requests, DNS discovery, health endpoints, logging, flags and configuration: plumbing.
- CometBFT's signer server and endpoint: one service loop per connector, which closes a connection before it dials again.
- Durations (ticks, retry waits, discovery windows, transfer bounds): a free choice of steps or a number of ticks.
- Startup.OneHistorySigns: for a marker file it asks that the checks that passed found a synced marker; without that it is false, and the exact condition is proved.
- Startup.NoDoubleSignAcrossHistories: the same condition; StartupDurability.ProtectedIff states what holds without it.
- FileBindingProofs.MarkerNamesKey: for the default marker location, where claims and provisionings take one lock, and for a disk that keeps directory updates in order.
- FileBinding temporary files: only their content and its sync; leftover files of killed processes are not tracked.
- Connector: written as a step machine on values, because the interleaving of its two threads is the point; the connector objects carry its state.
- Startup.HostCrash: stops the processes and leaves the calls they had begun to the free steps of their histories, which only adds runs.
