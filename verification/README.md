# Durable state machines of aisy-agent, in Dafny

A model of the state machines and crash and concurrency protocols of `packages/app/src`, and proofs of
what they guarantee over every input, every run and every interleaving. `dafny verify dfyconfig.toml`
checks the whole project.

## What is modelled

| files | subject |
|---|---|
| `AutoSkillModel`, `AutoSkillEvidence`, `AutoSkillPointers`, `AutoSkillFallback`, `AutoSkillClaims`, `AutoSkillExamples` | the auto-skill lifecycle: evidence, jobs, revisions, pointers, notifications and forget claims, as one transition function over runs |
| `AutoSkillStore` | the store object whose loops work on its arrays in place |
| `RollbackFence`, `RollbackFenceProofs` | writers, barrier, epoch and rollback certificates, one file step at a time |
| `AutoSkillDurable`, `AutoSkillDurableProofs`, `AutoSkillDurableExample`, `AutoSkillRecovery` | `persist`, `prepare` and `purgeClaim` with their markers, temporaries and artifacts, crashes at every file step, and dead-writer recovery |
| `MediaJournal`, `MediaValidator`, `MediaRuns`, `MediaStore` | the media ingress journal: phases, albums, the loop validator, and journals interleaved over a compare-and-swap store |
| `Texts`, `Canonical` | strings as UTF-16 code units, key order, and the canonical JSON encoder |
| `DockerProjection`, `DockerRoundTrip`, `DockerReader`, `DockerHash`, `DockerPlan`, `DockerPlanProofs` | the selected container projection: the two plan constructors, expected value, create request, ownership labels, inspect document, text budget and hash |
| `SpendLedger`, `SpendRuns`, `ProxyProvider` | the daily spend ledger, its runs over days, and the provider call whose every await can fail |
| `BootstrapLock` | the lock-plus-compare-and-swap save for any number of savers |
| `SkillWal`, `SkillWalProofs`, `SkillWalRuns`, `SkillStore` | the write-ahead log of a skill activation |
| `DelegationSnapshot` | the hash-sealed three-file snapshot |
| `DailyRotation` | the nightly session rotation and its notice |

## How to read the model

- A SHA-256 digest is an injective function of what is hashed: a free constructor, or the text itself. A list of
  digests that the program sorts is a set. Opaque strings are numbers.
- A rename and a save through a temporary file are atomic, exclusive creation is test-and-set, and a random
  identifier is fresh. Clocks, process liveness and answers of ports are parameters or events.
- A run is a list of operations, steps or events applied by a total function, so a theorem about the state after
  a run is a theorem about every reachable state. A crash is an event, or a prefix of a list of durable writes.
- Where a natural statement fails, the code is modelled as it is, the exact condition is proved, and what happens
  otherwise is shown: `FailureKeepsExactly` with `TwoFailuresRevive`, `PurgeReachesClaim` with
  `RepeatedForgetIsStuck`, `AtomicExactly` with `SkillWindow` and `RollbackWindow`, `StepKeepsExactly` with
  `RefusalIsReachable` and `RevivalLosesArtifact`, `HarmExactly` with `OverlapSwitchesTwice`, `OverspendsExactly`
  with `ClockBackOverspends`.

Places where the code says less than its comments or documentation suggest, and the model follows the code:

- A preparation whose state marker cannot be created removes its artifact but keeps the revision in memory and does
  not poison the store (packages/app/src/auto-skill-store.ts:838 and 1103-1108).
- A notice that is delivered late writes back the record it started from
  (packages/app/src/daily-session-rotation.ts:233-237).

## Model

| member | source | states |
|---|---|---|
| `AutoSkillEvidence.EvidenceNeverMissing` | packages/app/src/auto-skill-store.ts:957-1046 | after any run of operations, both records of every job that is not forgotten are found live, from two sessions, with the job's scope, identity and fingerprint, and no other remembered job shares that triple |
| `AutoSkillEvidence.ForgettingSticks` | packages/app/src/auto-skill-store.ts:996-1308 | in every continuation of any run, a claimed evidence identifier is never usable and never staged again, and a source with a pending claim has no usable record |
| `AutoSkillEvidence.EveryRunStaysValid` | packages/app/src/auto-skill-store.ts:355-365 | every state a run can persist passes the cross-record checks made when the store is opened |
| `AutoSkillEvidence.QueuedExactly` | packages/app/src/auto-skill-store.ts:957-993 | a job is queued if and only if live records of the workflow exist from two sessions and no remembered job has it |
| `AutoSkillEvidence.IndependentSelects` | packages/app/src/auto-skill-store.ts:964-970 | the records selected are live, of the workflow, and from pairwise different sessions |
| `AutoSkillEvidence.IndependentComplete` | packages/app/src/auto-skill-store.ts:964-970 | the selection misses no session that has a live record of the workflow |
| `AutoSkillEvidence.ApplyKeeps` | packages/app/src/auto-skill-store.ts:996-1308 | every operation keeps the invariant that ties evidence, jobs, revisions, claims, pointers and notifications together |
| `AutoSkillEvidence.AdvanceJobKeeps` | packages/app/src/auto-skill-worker.ts:54-92 | each of the three phase transitions that the worker drives keeps that invariant |
| `AutoSkillPointers.PointersOverCleanRuns` | packages/app/src/auto-skill-store.ts:1118-1256 | in every run whose fallbacks never land on a claimed revision, the active revisions are exactly the pointer targets, at most one per scope and identity, and previous hashes strictly descend in creation order |
| `AutoSkillPointers.FailureKeepsExactly` | packages/app/src/auto-skill-store.ts:1188-1211 | a permanent failure keeps the pointer invariant if and only if its fallback target was demoted rather than claimed |
| `AutoSkillFallback.FirstFailureIsClean` | packages/app/src/auto-skill-store.ts:1118-1256 | after any run in which the earlier failures of the skill were clean, whatever claims, purges and failures of other skills come between, the first failure of a skill after its activation falls back to a demoted revision |
| `AutoSkillFallback.OwnPointerIsSound` | packages/app/src/auto-skill-store.ts:1118-1308 | in every run whose failures of this skill are clean, its pointer targets an active revision that no claim lists, even if other skills had a claimed revision revived |
| `AutoSkillFallback.ApplyKeepsStructure` | packages/app/src/auto-skill-store.ts:1070-1308 | every operation, clean or not, keeps one pointer per skill whose two hashes are revisions of that skill, and previous hashes that descend |
| `AutoSkillExamples.TwoFailuresRevive` | packages/app/src/auto-skill-store.ts:1188-1256 | a run with three revisions, a forget and two failures in which a claimed revision becomes active again |
| `AutoSkillClaims.PurgedStaysErased` | packages/app/src/auto-skill-store.ts:1281-1308 | after any run, a tombstoned claim has no evidence record left and no source identifier left on its revisions |
| `AutoSkillClaims.PurgeReachesClaim` | packages/app/src/auto-skill-store.ts:1267-1288 | purging the identifier of a new claim reaches that claim if and only if it is not an empty claim with an earlier empty claim of the same source; otherwise it reaches a tombstoned one |
| `AutoSkillClaims.RepeatedForgetIsStuck` | packages/app/src/auto-skill-store.ts:1267-1288 | a source forgotten with nothing to claim, after it was forgotten before with nothing to claim: in every continuation the second claim stays as it is and the source stays pending |
| `AutoSkillClaims.ForgetTwice` | packages/app/src/auto-skill-store.ts:1267-1288 | for every source, forgetting and purging it once leads to such a state |
| `AutoSkillStore.Store.Stage` | packages/app/src/auto-skill-store.ts:996-1016 | the three scans stage a record exactly if no claim lists it or waits for its source, no record has its identifier and none shares a receipt; staged once, it is refused from then on |
| `AutoSkillStore.Store.AdvanceJob` | packages/app/src/auto-skill-store.ts:1048-1060 | a compare-and-swap on the phase of one job; a missing job and a failed comparison are told apart |
| `AutoSkillStore.Store.Prepare` | packages/app/src/auto-skill-store.ts:1070-1116 | the checks in the order of the code refuse exactly where the model does; otherwise the prepared revision is in the state |
| `AutoSkillStore.Store.Activate` | packages/app/src/auto-skill-store.ts:1118-1165 | updates in place of job, revisions and pointer give the state of the model; the answer is the active revision or an unreadable artifact |
| `AutoSkillStore.Store.DemotePrevious` | packages/app/src/auto-skill-store.ts:1118-1165 | exactly the active revision with the previous hash is demoted |
| `AutoSkillStore.Store.PermanentFailure` | packages/app/src/auto-skill-store.ts:1188-1211 | the fallback in place gives the state of the model, and is ignored exactly if the revision is not active or not the target of its pointer |
| `AutoSkillStore.KeysUniqueOverRuns` | packages/app/src/auto-skill-store.ts:1118-1256 | over every run, including those with a revived revision, no scope and identity has two pointers, which `Activate` and `PermanentFailure` rely on |
| `AutoSkillStore.Store.SelectIndependent` | packages/app/src/auto-skill-store.ts:960-970 | the loop with a growing set of sessions computes the selection of the model |
| `AutoSkillStore.Store.ConfirmEvidence` | packages/app/src/auto-skill-store.ts:957-993 | the new state is that of the model, and the answer says whether a job was counted, existed already or was queued |
| `AutoSkillStore.Store.ForgetJobs` | packages/app/src/auto-skill-store.ts:1238-1245 | the loop over dependent jobs forgets exactly those and claims exactly their records |
| `AutoSkillStore.Store.ClaimRevisions` | packages/app/src/auto-skill-store.ts:1246-1257 | the loop over affected revisions claims exactly those, drops their pointers one by one and forgets their jobs |
| `AutoSkillStore.Store.ForgetRecords` | packages/app/src/auto-skill-store.ts:1260-1266 | the loop over records claims exactly those of the source and returns their identifiers |
| `AutoSkillStore.Store.ClaimBySource` | packages/app/src/auto-skill-store.ts:1213-1279 | the three loops in place leave the state that the set-based operation defines, and a pending claim of the source with the returned identifier and count |
| `AutoSkillStore.Store.TombstoneAll` | packages/app/src/auto-skill-store.ts:1288-1302 | the loop tombstones and scrubs exactly the listed revisions, each once |
| `AutoSkillStore.Store.PurgeClaim` | packages/app/src/auto-skill-store.ts:1281-1308 | the two saves together are the purge of the model; a missing and an already settled claim are told apart |
| `AutoSkillStore.Store.RecoverForgetClaims` | packages/app/src/auto-skill-store.ts:1310-1318 | the loop purges the identifiers of all claims that were being purged or whose source is archived, and returns how many there were |
| `AutoSkillStore.RecoveryCompletes` | packages/app/src/auto-skill-store.ts:1310-1318 | exactly the first claims with such an identifier become tombstones, the others stay, and none is left half purged |
| `AutoSkillStore.PurgingFirstOverRuns` | packages/app/src/auto-skill-store.ts:1281-1318 | over every run, a claim that is being purged is the first with its identifier, which is what the recovery loop relies on |
| `RollbackFenceProofs.ScanExcludesWriters` | packages/app/src/auto-skill-store.ts:546-599 | for any number of handles interleaved file step by file step with deaths and one updater, from a passed marker scan to the removal of the barrier only the updater replaces the state file or publishes an artifact |
| `RollbackFenceProofs.OldHandlesNeverPublish` | packages/app/src/auto-skill-store.ts:752-872 | a handle that had read its epoch while a preparation stood certified never publishes again, under the barrier or after roll-forward |
| `RollbackFenceProofs.CertifiedStateIsFrozen` | packages/app/src/auto-skill-store.ts:1447-1566 | a certified state file carries its certificate and keeps its content until the barrier is lifted, through verification, repeated preparation and failed roll-forward |
| `RollbackFenceProofs.ActKeepsFence` | packages/app/src/auto-skill-store.ts:801-872 | every step of a handle keeps the exclusion invariant: a handle past its last barrier check holds a marker that the scan lists |
| `RollbackFenceProofs.ExecuteKeepsFence` | packages/app/src/auto-skill-store.ts:1477-1566 | every step of the updater keeps that invariant, including failure, crash, certification and roll-forward |
| `RollbackFenceProofs.ClosedStopsHandles` | packages/app/src/auto-skill-store.ts:801-872 | under a closed barrier no step of any handle changes the state file |
| `AutoSkillDurableProofs.EveryCrashPoint` | packages/app/src/auto-skill-store.ts:834-1115 | at every crash point of every clean run each prepared, active or demoted revision on disk has its artifact, and every temporary and every unmentioned artifact has a marker |
| `AutoSkillDurableProofs.RecoveryOpens` | packages/app/src/auto-skill-store.ts:546-599 | a recovery that has gone through its markers always opens the store, with no temporary, no marker and no artifact that the state does not mention |
| `AutoSkillDurableProofs.StepKeepsExactly` | packages/app/src/auto-skill-store.ts:834-1115 | a file step keeps the crash invariant if and only if it neither refuses the state marker inside a preparation that published nor reports a failure that falls back to a claimed revision |
| `AutoSkillDurableProofs.RefusalLosesArtifact` | packages/app/src/auto-skill-store.ts:834-1115 | for every store about to record a new artifact: if creating the state marker fails, the next successful save writes a prepared revision without its artifact |
| `AutoSkillDurableExample.RefusalIsReachable` | packages/app/src/auto-skill-store.ts:834-1115 | a run from an empty directory with a refused marker ends with a prepared revision on disk and no artifact |
| `AutoSkillDurableExample.RevivalLosesArtifact` | packages/app/src/auto-skill-store.ts:1188-1308 | a run from an empty directory in which a claimed revision is active again and a purge then removes its artifact |
| `AutoSkillDurableExample.RunsDurably` | packages/app/src/auto-skill-store.ts:834-1165 | from a store at rest, any run of operations can be carried out file by file and ends at rest in the state of the model |
| `AutoSkillRecovery.StoreRoot.Inventory` | packages/app/src/auto-skill-store.ts:547-585 | the first loop lists each marker, fails on a malformed one, and finds a live owner if there is one |
| `AutoSkillRecovery.StoreRoot.ReconcileAll` | packages/app/src/auto-skill-store.ts:586-594 | the second loop removes the owned temporaries, the unmentioned artifacts and the markers; a corrupt state file stops it before any artifact is touched |
| `AutoSkillRecovery.StoreRoot.MutationInFlight` | packages/app/src/auto-skill-store.ts:546-599 | the state never changes; with a malformed marker or a live owner nothing changes; otherwise the result is the recovered directory and the answer says whether a temporary is left |
| `AutoSkillRecovery.StoreRoot.Reconcile` | packages/app/src/auto-skill-store.ts:462-544 | one dead writer loses exactly what its marker gives away; with a corrupt state file no artifact and no marker is touched |
| `AutoSkillRecovery.RecoverOne` | packages/app/src/auto-skill-store.ts:586-594 | reconciling dead writers one at a time leaves what reconciling them together would leave |
| `AutoSkillRecovery.RecoveredIsComplete` | packages/app/src/auto-skill-store.ts:462-599 | at every crash point of every clean run, what recovery leaves has the same state, no temporary and no marker, every artifact the state mentions that was there, and no other |
| `MediaValidator.ValidateState` | packages/app/src/bot-media-ingress-journal.ts:215-305 | the validator accepts exactly the records in which every grouped item lies in exactly one place of one album of its group, on the side its phase says, and every other item in none |
| `MediaValidator.IndexMedia` | packages/app/src/bot-media-ingress-journal.ts:223-265 | the first loop accepts exactly well-formed items with distinct identifiers and indexes them |
| `MediaValidator.CheckAlbums` | packages/app/src/bot-media-ingress-journal.ts:266-298 | the second loop accepts exactly well-placed albums with distinct groups and collects their members |
| `MediaValidator.SetSize` | packages/app/src/bot-media-ingress-journal.ts:272-283 | a set built from a list has its length exactly if nothing repeats |
| `MediaRuns.CommittedIsValid` | packages/app/src/bot-media-ingress-journal.ts:341-363 | whatever any interleaving of journals stores is a record the validator accepts |
| `MediaRuns.CommitsConserved` | packages/app/src/bot-media-ingress-journal.ts:395-570 | the revision equals the sum of media revisions plus the albums' own transitions, it counts the commits, received is ordered plus capped, failed is capped, and at most 1728 commits ever succeed |
| `MediaRuns.NothingLost` | packages/app/src/bot-media-ingress-journal.ts:341-363 | over any interleaving nothing accepted is lost or reordered, phases only move forward, recorded files never change and update identifiers stay unique |
| `MediaRuns.ReplayIsStable` | packages/app/src/bot-media-ingress-journal.ts:374-443 | once any journal, among interleaved ones, has answered an accept, repeating it at any later time changes nothing and gives the same kind of answer, also after the album was sealed |
| `MediaRuns.AnsweredIsStored` | packages/app/src/bot-media-ingress-journal.ts:341-443 | an answered accept has its item stored, capped exactly if the answer says so, also when the answer came from an older record |
| `MediaRuns.AcceptStores` | packages/app/src/bot-media-ingress-journal.ts:367-443 | an accept that is answered has its item in the state, capped exactly if the answer says so |
| `MediaRuns.QuarantineAbsorbs` | packages/app/src/bot-media-ingress-journal.ts:641-657 | once quarantined, always quarantined, and nothing is stored any more |
| `MediaRuns.WriteKeeps` | packages/app/src/bot-media-ingress-journal.ts:367-573 | every state an operation writes keeps validity, unique updates and the conservation law, and extends the state it was computed from by one revision |
| `MediaStore.Store.Load` | packages/app/src/bot-media-ingress-journal.ts:330-340 | a record is returned exactly if it is valid and the binding is not quarantined; an invalid one quarantines it |
| `MediaStore.Store.Push` | packages/app/src/bot-media-ingress-journal.ts:395-434 | the album gets the item on the ordered side while it has room, then on the capped side, and is refused when both are full |
| `MediaStore.Store.AcceptItem` | packages/app/src/bot-media-ingress-journal.ts:367-443 | load, look-up, pushes and commit carry out the decision of the model, and quarantine exactly where it says so |
| `Canonical.EncodeExact` | packages/app/src/docker-container-selected-projection.ts:450-464 | two values have the same encoding if and only if they are equal up to the order of record keys |
| `Canonical.EncodeRecords` | packages/app/src/docker-container-selected-projection.ts:459-461 | two records have the same encoding if and only if they have the same entries |
| `Canonical.PrintDecodes` | packages/app/src/docker-container-selected-projection.ts:450-464 | a printed value can be told from any text that starts with it, so arrays and records decode uniquely |
| `Canonical.QuotedDecodes` | packages/app/src/docker-container-selected-projection.ts:453-453 | a quoted string decodes uniquely, for all code units, with short, long and surrogate escapes |
| `Canonical.PrintWellFormed` | packages/app/src/docker-container-selected-projection.ts:450-464 | the encoding never contains a lone surrogate, so hashing its UTF-8 form loses nothing |
| `Texts.SortExact` | packages/app/src/docker-container-selected-projection.ts:235-252 | sorting the keys of a record depends on its entries and on nothing else |
| `DockerRoundTrip.RoundTrip` | packages/app/src/docker-code-owned-container-create-plan.ts:306-364 | for every accepted projection, the inspect document of the sealed request normalizes back to it if and only if eight more labels and the labels charged twice fit the limits; otherwise it is refused |
| `DockerRoundTrip.SealedKept` | packages/app/src/docker-code-owned-container-create-plan.ts:586-610 | reading sealed labels back drops the eight ownership labels and nothing else |
| `DockerRoundTrip.SealedIdentity` | packages/app/src/docker-container-selected-projection.ts:277-292 | the kind and role read from sealed labels are those of the descriptor |
| `DockerRoundTrip.DocumentBytes` | packages/app/src/docker-container-selected-projection.ts:191-196 | the text charged for an inspect document is that of the expected value plus its labels, twice the ownership labels and ten bytes |
| `DockerPlanProofs.EveryPlanIsRecognized` | packages/app/src/docker-code-owned-container-create-plan.ts:425-558 | for every input of the two constructors that gives a plan, and every descriptor of its kind, the container created from the sealed request is recognized as the plan's |
| `DockerPlanProofs.PlansFit` | packages/app/src/docker-image-runtime-manifest.ts:22-27 | the limits on manifest, command and directory always leave room for eight more labels and for charging all labels twice |
| `DockerPlanProofs.ProjectionAcceptedExactly` | packages/app/src/docker-code-owned-container-create-plan.ts:261-304 | of what a constructor accepts, the projection is refused if and only if one of its texts holds a NUL |
| `DockerPlanProofs.OverridesWin` | packages/app/src/docker-code-owned-container-create-plan.ts:219-234 | each name of the resolved environment has the value of the override, if there is one, and otherwise that of the image |
| `DockerPlanProofs.EnvironmentBytes` | packages/app/src/docker-code-owned-container-create-plan.ts:219-234 | splitting, overriding, sorting and joining never takes more text than the image environment and the overrides together |
| `DockerHash.HashExact` | packages/app/src/docker-container-selected-projection.ts:466-469 | two normalized projections have the same hash input if and only if they are equal |
| `DockerHash.MatchExact` | packages/app/src/docker-code-owned-container-create-plan.ts:993-1009 | an inspect document matches a plan if and only if it normalizes to the plan's projection |
| `DockerHash.CreatedMatchesPlan` | packages/app/src/docker-code-owned-container-create-plan.ts:993-1009 | for any accepted projection that can be hashed, the created container matches it if and only if its labels fit; for plans they always do |
| `DockerReader.NormalizeInspect` | packages/app/src/docker-container-selected-projection.ts:663-694 | the normalizer that threads one text budget through every field reads exactly what the closed form says |
| `DockerReader.Budget.ReadRecord` | packages/app/src/docker-container-selected-projection.ts:235-252 | a record is read in sorted order, and refused exactly if it is too large, holds a NUL or exceeds what is left of the budget |
| `DockerReader.Budget.SplitLabels` | packages/app/src/docker-container-selected-projection.ts:254-275 | the loop keeps the free labels, counts the ownership labels and fails exactly on another reserved key |
| `DockerReader.Budget.ReadTexts` | packages/app/src/docker-container-selected-projection.ts:213-221 | an array of strings is read exactly if it is short enough, free of NUL and within the budget |
| `SpendRuns.CapHolds` | packages/app/src/deepgram-runtime.ts:199-275 | over every run of calls, settlements and recoveries, with days in any order, spent plus open holds stays within the limit |
| `SpendRuns.RealCostWithinCap` | packages/app/src/deepgram-proxy-provider.ts:327-413 | over every run of calls whose ports are truthful, what the requests of any one day really cost stays within the limit, as long as no call reserves on a day that the ledger has forgotten |
| `SpendRuns.OverspendsExactly` | packages/app/src/deepgram-runtime.ts:199-221 | after such a run, a further truthful call can take today above the limit if and only if today has been billed and the ledger holds another day |
| `SpendRuns.ForwardClockIsEnough` | packages/app/src/deepgram-runtime.ts:199-221 | if days do not run backwards, the condition always holds |
| `ProxyProvider.HoldCovers` | packages/app/src/deepgram-proxy-provider.ts:327-413 | whatever the ports answer, what one call leaves of its hold covers the true cost |
| `SpendRuns.ForgottenOverspends` | packages/app/src/deepgram-runtime.ts:199-221 | in every state in which a day that cost something is forgotten, one more truthful call makes it cost more than the limit |
| `SpendRuns.ClockBackOverspends` | packages/app/src/deepgram-runtime.ts:199-221 | with a clock that runs back, two truthful calls of one day cost twice the limit |
| `SpendLedger.Authority.Committed` | packages/app/src/deepgram-runtime.ts:222-223 | the loop adds up exactly what is spent and open |
| `SpendLedger.Authority.Reserve` | packages/app/src/deepgram-runtime.ts:254-266 | a hold is taken if and only if the ledger can be read and the amount fits; the ledger then holds it and stays within the limit |
| `SpendLedger.Authority.Settle` | packages/app/src/deepgram-runtime.ts:225-251 | settling closes the hold once, charges at most the hold, and leaves it for another try if it could not be saved; a hold of another day is dropped without a charge |
| `SpendLedger.Authority.Recover` | packages/app/src/deepgram-runtime.ts:267-273 | a handle is recovered exactly for an open hold of today |
| `SpendLedger.SumRemove` | packages/app/src/deepgram-runtime.ts:222-223 | the sum of open holds does not depend on their order |
| `ProxyProvider.Provider.Transcribe` | packages/app/src/deepgram-proxy-provider.ts:327-413 | whatever fails, the hold is left open or closed with a charge that covers the true cost, by at most two settlements; a transcript is returned only for a settled dispatch; the provider is free again |
| `BootstrapLock.RevisionsHaveNoGaps` | packages/app/src/brain-bootstrap-store.ts:115-209 | for any number of savers that fail or die at any effect, the published states have revisions 1, 2, 3 and so on, and the file is the last of them |
| `BootstrapLock.OneInside` | packages/app/src/brain-bootstrap-store.ts:137-209 | at most one live saver is between creating the lock and removing it |
| `BootstrapLock.SuccessWasPublished` | packages/app/src/brain-bootstrap-store.ts:115-209 | a save that succeeds had exactly its content published |
| `BootstrapLock.OneWinnerPerRevision` | packages/app/src/brain-bootstrap-store.ts:160-175 | two saves of one revision that both succeed had the same content |
| `BootstrapLock.PublishedGrows` | packages/app/src/brain-bootstrap-store.ts:186-190 | no step takes a published state back, and a saver never changes what it saves |
| `SkillWalProofs.IdentityIsNeverMixed` | packages/app/src/active-skill-store.ts:263-455 | after any sequence of activations, recoveries and rollbacks of one operation that each stop after any durable write, the identity of the skill is the old one, the new one or a refusal, and no other skill changes |
| `SkillWalRuns.IdentityOverCalls` | packages/app/src/active-skill-store.ts:263-468 | after any calls for any operations and skills, each stopped after any durable write, an identity is the version and text of one request or those of the start, a listed skill never becomes absent, and a skill no call names does not change |
| `SkillWalProofs.RecoveryIsAtomic` | packages/app/src/active-skill-store.ts:388-406 | if no call tears, an interrupted activation that is recovered, however often the recovery is interrupted, leaves both files old or both files new |
| `SkillWalProofs.AtomicExactly` | packages/app/src/active-skill-store.ts:388-468 | after calls that do not tear, recovery after the next call leaves both files old or both new if and only if that call does not tear: it stops right after writing other bytes into the skill file, under a log that does not say so |
| `SkillWalProofs.SkillWindow` | packages/app/src/active-skill-store.ts:448-450 | whenever an activation tears, recovery leaves the new skill beside the old manifest, and the identity is a refusal or absent |
| `SkillWalProofs.RollbackWindow` | packages/app/src/active-skill-store.ts:457-468 | whenever a rollback tears, of a committed activation or of one whose manifest is written, recovery leaves the old skill beside the new manifest, and the identity is a refusal |
| `SkillWalProofs.RecoveryTouchesOnlyItsOwn` | packages/app/src/active-skill-store.ts:388-406 | whatever the files hold, recovery never changes the manifest and changes a skill only from the bytes its log wrote to the bytes it replaced |
| `SkillStore.Store.Recover` | packages/app/src/active-skill-store.ts:388-406 | opening the store performs exactly the writes of the recovery |
| `SkillStore.Store.Activate` | packages/app/src/active-skill-store.ts:427-455 | the call performs exactly the writes of the activation, and when it publishes, the identity is the new one |
| `DelegationSnapshot.ShardRoundTrip` | packages/app/src/delegation-persistence.ts:84-87 | parsing the lines written for any entries gives back those entries |
| `DelegationSnapshot.LoadIsLastCommitted` | packages/app/src/delegation-persistence.ts:108-160 | after any completed and interrupted saves, a load gives exactly the last snapshot whose manifest was committed if its files are still those it sealed, and otherwise reports the tear |
| `DelegationSnapshot.CompletedSaveLoads` | packages/app/src/delegation-persistence.ts:143-160 | a completed save is what the next load returns, whatever was interrupted before |
| `DelegationSnapshot.QuarantineIsPermanent` | packages/app/src/delegation-persistence.ts:108-119 | after a quarantine every load reports it |
| `DelegationSnapshot.Store.Save` | packages/app/src/delegation-persistence.ts:143-160 | a save writes the shard, the checkpoint and the manifest with their digests, in that order |
| `DailyRotation.OneSwitchOneNotice` | packages/app/src/daily-session-rotation.ts:143-243 | over every run without a harmful event, with crashes, selections and cancelled rotations, no date switches twice or is announced twice, and a date past its preparation switched exactly once |
| `DailyRotation.HarmExactly` | packages/app/src/daily-session-rotation.ts:143-243 | after any such run, an event can be followed by harmless ones that break this if and only if it leaves or forges the session of an unfinished rotation, or starts a record while a notice is awaited or before a date that has switched |
| `DailyRotation.ForwardIsHarmless` | packages/app/src/daily-session-rotation.ts:178-217 | a rotation whose date is not before the recorded one is harmless unless a notice is awaited |
| `DailyRotation.RetrySucceeds` | packages/app/src/daily-session-rotation.ts:143-217 | from wherever a crash left it, repeating the rotation of the date succeeds, unless a selection overtook it: then it is cancelled without a switch and the next repetition succeeds |
| `DailyRotation.OverlapSwitchesTwice` | packages/app/src/daily-session-rotation.ts:226-243 | in every state with an awaited notice, rotating an unrecorded other date, finishing the notice and rotating again switches that date twice |
| `DailyRotation.Rotator.Rotate` | packages/app/src/daily-session-rotation.ts:143-217 | the call has exactly the effects of the event list, and fails as stale exactly if the record was cancelled |
| `DailyRotation.Rotator.RecoverNotification` | packages/app/src/daily-session-rotation.ts:226-243 | the notice is sent only from the two phases that allow it, an interrupted dispatch only becomes ambiguous, and a delivery sends exactly once |

## Left out

- AutoSkillDurableProofs.EveryCrashPoint: one process at a time runs the store; two processes that prepare the same revision concurrently are not modelled, and a removal of a file does not fail.
- RollbackFenceProofs.ScanExcludesWriters: one updater at a time; the updater's own markers and the check for orphaned temporaries are left out, since they can only make it or an ordinary opening refuse.
- AutoSkillEvidence.AdvanceJobKeeps: only the three phase pairs that the worker uses; the store itself would accept any pair.
- MediaRuns.NothingLost: the compare-and-swap commit is atomic; the file store between its check and its rename is not shown.
- ProxyProvider.Provider.Transcribe: the ports keep the stated contract about costs; media tickets, error codes and the deadline clock are reduced to whether each step passes.
- SpendRuns.CapHolds: a ledger operation is atomic across processes.
- SpendRuns.RealCostWithinCap: a settlement through a recovered handle, which code outside this model makes, covers the cost.
- SkillWalProofs.IdentityIsNeverMixed: one operation that starts from a settled log; several are the subject of `SkillWalRuns.IdentityOverCalls`, and files edited by others of `RecoveryTouchesOnlyItsOwn`.
- DelegationSnapshot.ShardRoundTrip: numbers are integers, and the indentation of the checkpoint and the manifest is left out; parsing is the inverse of printing, which unique decodability makes well defined.
- DailyRotation.OneSwitchOneNotice: the session creation coordinator and the rotation receipts are ports that succeed.
- Canonical.EncodeExact: numbers are integers, as the projection admits no others.
- DockerPlanProofs.EveryPlanIsRecognized: brands, digests of drafts and the identity of the directory are left out, and the names in an environment, which are a fixed ASCII list, are sorted by code units.
- AutoSkillStore.Store.Prepare: the artifact is the subject of `AutoSkillDurable`.
- AutoSkillStore.Store.PurgeClaim: the removal of artifacts and the save in between are the subject of `AutoSkillDurable`.
- MediaStore.Store.AcceptItem: one call at a time; interleaved journals are the subject of `MediaRuns`.
- DockerRoundTrip.RoundTrip: the Engine echoes what was requested; reading a label record that is not an ordinary object is left to types.
- The single use of create plans, seals and brokers: easy flags.
- Rendering, keyboards, menus, sockets, processes and release scripts.
- Path, mode, owner, symbolic-link and proxy checks, and the shapes of identifiers and time stamps.
- Parsers, registries and services of `@aisy/core`.
- The direct spend authority, which starts afresh on a corrupt ledger, and the small stores that repeat the patterns above.
- The skill folder operations (list, enable, remove, install) and the quarantine file of the active-skill store.
- The run lock of a delegation and its recovery.
