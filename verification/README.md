# Verification of the durable records of wg-healthcheck

This project models how wg-healthcheck and its setup program keep small records on disk and come back from a
crash at any instruction, and proves what the code promises about them. Check it with
`dafny verify dfyconfig.toml`.

## What is modelled

* **Setup transaction** (`SetupJournal`, `SetupMachine`, `SetupClearance`, `SetupInvariant`, `SetupBounds`,
  `SetupApply`, `SetupRuns`, `SetupExposure`, `SetupLateHealth`, `SetupPrediction`, `SetupReach`, `SetupCompletion`,
  `SetupHistory`, `SetupTrail`, `SetupSession`). A setup run records a phase,
  snapshots the config and the credential, rewrites them, calls the runtime, proves health, records `verified` and
  cleans up. `SetupMachine` gives every function of the program as a function over the files and a stream of
  choices: each durable operation may succeed, report an error before or after taking effect, or be the last thing
  the process does, with or without losing the runtime directory. `SetupSession` is the same program as a class
  whose methods change the files statement by statement; each method is proved to end exactly as its function says.
  A run is an apply and any number of recoveries after it, each cut anywhere; a history is any number of setups.
  `SetupBounds` holds what is true in every run; `SetupInvariant` adds what needs the assumption on the status file
  below and the absence of an exposed rollback.
* **Private files** (`StoreModel`, `StoreLaws`, `StoreTheorems`, `StoreRuns`, `StoreDirectory`). One directory at
  the level of inodes, names, file contents and syncs. After a power loss any directory version since the last
  directory sync may be found, and contents that were not synced may be anything. `StoreRuns.AtomicWriteEntries`
  and `PerformIsWhole` are why the setup transaction may treat a write, a snapshot and a removal as one step.
* **Request ledger** (`ApiState`, `ApiStateCodec`, `ApiStateLaws`, `ApiStateRuns`, `ApiLedger`). The variables, the
  state file's text and every operation on them; runs mix operations, failed saves, loads and process restarts.
* **Static rotation** (`ProfileText`, `Rotation`, `RotationLaws`, `RotationRuntime`). Profile, backup, pending
  marker and stamp, with every effect failing early, failing late or being the last one; profiles are text, line by
  line.
* **Managed journal and safety record** (`ManagedJournal`, `ManagedJournalLaws`, `ManagedSafety`, `ManagedRuntime`).
  The records, their transitions and the recovery classification, beside a driver that may only install, restore
  and remove files in the allowed states.
* **Locks** (`Locks`, `LockLaws`). Locks per open file description, inherited by children and dropped with the last
  holder; ordinary runtimes, adopting runtimes, setups and helper children in any number.
* **Codecs and selectors** (`Text`, `WireGuardKey`, `ProfileFormat`, `ProfileRoundTrip`, `ProfilePinning`,
  `ProfileReader`, `ConfigFile`, `ConfigLaws`, `Selection`, `SelectionLaws`). Key encoding follows sections 3.5
  and 4 of RFC 4648.

## Assumptions about the surroundings

* Pending, safety and candidate artifacts of the runtime are absent while a setup transaction runs.
* Only setup's own `check` writes the status file until the record is gone. A verification that fails, or a
  recovery whose clock is behind, and that leaves a status which could still read as fresh later, is noted as
  `LateHealth`; after it, and after an exposed rollback, only the all-old-or-all-new result is not claimed. Reading the proof is part of the check
  step, so an interrupt between the two is such a note as well. `SetupLateHealth.LateHealthMixes` shows the
  assumption is needed.
* Runtime commands act as the fake runtime of the setup tests does (`tests/setup_apply_support.py`): adopt copies
  the profile to the pre-managed snapshot if there is none and then sets the source to api; provision writes the
  profile and then sets the source; each may be cut between its two steps. restore-static copies the snapshot back and
  sets the source to static, and may be cut after either: the fake runtime changes the profile first and the runtime
  itself the source (`libexec/wg-healthcheck-managed.d/80-admin-commands.bash:676-700`). As in the latter it is refused
  where either profile is missing. What the runtime's own profile transaction leaves when it is cut is resolved before
  setup recovers, by the first assumption.
* The ledger's state file is changed by the ledger only, and one process at a time holds the interface lock.
* In the lock runs a setup unlocks only after the runtimes that adopted its lease have ended, because it waits for
  each runtime it calls, unless it dies (`LockLaws.EarlyUnlockBreaksExclusion` gives a run without this), and no
  runtime hands its own guard descriptor on as a lease.
* The SHA-256 digests of the profiles that ever occur do not collide.
* A managed driver installs only at `tunnel-down` and removes the staged file only at `verified` or once the backup
  is active.

## Where the code does not meet the promise

* An api-update that changes the settings and installs a key other than the one there, if any, is not crash-atomic: an error after `activated`
  is recorded and before the proof is recorded starts a rollback that leaves the record at `activated`; a crash
  between restoring the config and restoring the credential makes the next recovery verify and commit the old
  settings with the new key. `SetupExposure.ExactlyExposablePlansMix` shows these are the only API plans with such a
  run.
* For a static restore cut at `activating` the credential prediction is right exactly while the restore is not yet
  visible (`SetupPrediction.ActivatingPredictionIsExact`).
* A static restore that begins with source static and without a profile or a pre-managed profile, cut once
  `activating` is recorded, blocks setup until someone puts the missing file there: visibility of the restore is read from files that must exist
  (`libexec/wg_healthcheck_setup/application.py:256-277`), nothing refuses the request before it is recorded
  (lines 497-540), and every later setup recovers first (lines 675-723). `SetupCompletion.RestoreBlocksExactly` and
  `StuckBlocksSetups` show it, and `RecoveryCompletesExactly` that no other state blocks.
* A readable version 1 record of a static operation is never accepted, while one of an API operation in any of its
  version 1 phases is (`SetupJournals.LegacyIsAcceptedExactly`).
* A removal whose directory sync failed is not made durable by asking again
  (`StoreTheorems.RemovalIsFinalExactly`, `RepeatedRemovalIsNotFinal`).
* A managed prepare whose commit stops before the rename leaves its variables set without a record
  (`ManagedJournalLaws.PrepareAgreesExactly`).
* A profile object whose DNS tuple holds several addresses in one element can render to a line the parser refuses
  (`ProfilePinning.RenderParsesBackExactly`); profiles the parser returns never do.
* A server number written as minus zero lets the list's order show in the output
  (`SelectionLaws.SignedZeroDependsOnOrder`, `OrderFreeExactly`).

The config rewriter has limits the program does not reach: a value with a line break does not read back in setup
(`ConfigLaws.UpdatesReadBackExactly`), and one with a tab or another control character is refused by the runtime
(`RuntimeReadsUpdatesExactly`). Setup passes only the source, country lists and devices of a fixed pattern
(`libexec/wg_healthcheck_setup/application.py:436-441` and `:548`, `apply_config.py:12-14`), which always read back
(`OwnUpdatesReadBack`).

## Model

| member | source | states |
|---|---|---|
| SetupRuns.ApiRunIsAtomic | libexec/wg_healthcheck_setup/application.py:361-494 | For every API apply, however it and any number of later recoveries fail or are cut, each file always has its old or a planned value, and the first to complete leaves no record, snapshot or staging entry; config, credential and pre-managed profile are then all old or all new, new only after a fresh healthy status, except after a late health status or the exposed rollback. The exposed rollback needs an exposable plan, and even there config and credential are each the old or the new one and nothing else differs |
| SetupRuns.StaticRunIsAtomic | libexec/wg_healthcheck_setup/application.py:497-582 | The same for static switch and static restore, which have no exposed rollback at all; whether such a run can complete is RestoreBlocksExactly |
| SetupExposure.ExactlyExposablePlansMix | libexec/wg_healthcheck_setup/application.py:174-211 | An API plan settles on one side in every run if and only if it is not an api-update that changes the settings and installs a key other than the one there, if any: for those a run is given that commits the old settings with the new key |
| SetupLateHealth.LateHealthMixes | libexec/wg_healthcheck_setup/application.py:224-233 | The assumption about failed checks is needed: a keyed provision whose check fails but leaves a healthy status, cut during its rollback, is committed with the old settings and the new key |
| SetupInvariant.RecoverStaysSafe | libexec/wg_healthcheck_setup/application.py:280-322 | Recovery cut at any durable step keeps the transaction invariant, and when it completes nothing of the transaction is left, whatever was noted, and in runs not excused every owned file is on one justified side |
| SetupClearance.RecoverClears | libexec/wg_healthcheck_setup/application.py:280-322 | From any state at all, a recovery that completes leaves no record, snapshot or staging entry |
| SetupClearance.ApplyClears | libexec/wg_healthcheck_setup/application.py:361-582 | From a directory without staging entries, an apply of either kind that completes leaves none, and no record or snapshot |
| SetupBounds.RecoverKeepsBounds | libexec/wg_healthcheck_setup/application.py:280-322 | Recovery cut anywhere keeps every file at its old or a planned value and the snapshots the recorded phase promises, with no exception for late status files or exposed rollbacks, and never reaches an error that asks for inspection |
| SetupBounds.ApplyApiKeepsBounds | libexec/wg_healthcheck_setup/application.py:361-494 | The same for an API apply with its rollback |
| SetupBounds.ApplyStaticKeepsBounds | libexec/wg_healthcheck_setup/application.py:497-582 | The same for a static apply with its rollback or cleanup |
| SetupApply.ApplyApiStaysSafe | libexec/wg_healthcheck_setup/application.py:361-494 | Every cut, error and completion of an API apply keeps the bounds; unless excused it leaves a state the invariant describes; completed, everything is activated under a fresh proof and nothing is left |
| SetupApply.ApplyStaticStaysSafe | libexec/wg_healthcheck_setup/application.py:497-582 | The same for a static apply |
| SetupInvariant.RollbackStaysSafe | libexec/wg_healthcheck_setup/application.py:174-221 | A rollback cut anywhere can be repeated; completed, every owned file is restored |
| SetupReach.InterruptedApiRun | libexec/wg_healthcheck_setup/application.py:361-494 | Every state any API run can leave is within the bounds and no step of it has asked for inspection; every state of a run not excused satisfies the full invariant |
| SetupReach.InterruptedStaticRun | libexec/wg_healthcheck_setup/application.py:497-582 | The same for static runs |
| SetupReach.ApiRunsWriteAhead | libexec/wg_healthcheck_setup/application.py:415-460 | At every cut of every API run past `prepared` and before a final phase the config snapshot has the original bytes, and a credential snapshot exists exactly when the key changes and one was installed; with no record there is no snapshot; and no rollback has taken a missing-snapshot or unexpected-snapshot branch |
| SetupReach.StaticRunsWriteAhead | libexec/wg_healthcheck_setup/application.py:517-582 | At every cut of every static run past `prepared` and before a final phase the config snapshot has the original bytes or the restored profile is in force with source static; there is never a credential snapshot; and no rollback has taken a missing-snapshot or unexpected-snapshot branch |
| SetupPrediction.SnapshotsAreWrittenAhead | libexec/wg_healthcheck_setup/application.py:190-207 | In every state within the bounds a phase past `prepared` and not final has its snapshots in place or is a restore in force |
| SetupPrediction.NoRecordNeedsNoInspection | libexec/wg_healthcheck_setup/application.py:128-153 | In every state within the bounds and without a record, recovery is the three discards, and the artifact check after them passes |
| SetupCompletion.RecoveryCompletesExactly | libexec/wg_healthcheck_setup/application.py:280-322 | From every state a run can leave, a recovery whose steps neither fail nor are cut completes if and only if the record is not a static restore past `prepared` and not final with source static and a profile file missing, and, where an activation must still be proved, the clock and the status identity fit the record |
| SetupCompletion.ApiRunsComplete | libexec/wg_healthcheck_setup/application.py:280-322 | Wherever an API run was interrupted, the next undisturbed recovery completes, given a usable clock and status where a proof is due |
| SetupCompletion.StaticRunsComplete | libexec/wg_healthcheck_setup/application.py:280-322 | Wherever a static run was interrupted, the next undisturbed recovery completes on the same condition unless the state is stuck, and only a restore begun with source static and a profile file missing gets stuck |
| SetupCompletion.RestoreBlocksExactly | libexec/wg_healthcheck_setup/application.py:256-277 | A static restore has a run after which no sequence of recoveries ever completes if and only if it begins with source static and the profile or the pre-managed profile missing; the run is given |
| SetupCompletion.StuckBlocksSetups | libexec/wg_healthcheck_setup/application.py:675-723 | Once stuck, no later setup of either mode ever completes, however many are tried |
| SetupHistory.SetupContinues | libexec/wg_healthcheck_setup/application.py:675-723 | One setup, whatever transaction it finds and however it ends, leaves what one transaction can leave and never asks for inspection; completed, its own request is what the files say and nothing else is left |
| SetupHistory.HistoriesContinue | libexec/wg_healthcheck_setup/application.py:675-723 | The same over any history of setups, each completed, failed or cut anywhere; the config lines setup does not own never change |
| SetupTrail.CompletedApiRecords | libexec/wg_healthcheck_setup/application.py:415-494 | A completed API apply recorded every phase of its operation in order, the credential phase exactly when the key changed |
| SetupTrail.CompletedStaticRecords | libexec/wg_healthcheck_setup/application.py:517-582 | A completed static apply recorded every phase in order, `activating` exactly for a restore |
| SetupPrediction.PredictionIsSound | libexec/wg_healthcheck_setup/credential_state.py:79-130 | Outside a static restore at `activating`, when no new credential is called for, a completed recovery, and for API transactions also a cut one, ends with source api and a credential, so the precheck without one passes |
| SetupReach.PredictionHoldsAfterApiRuns | libexec/wg_healthcheck_setup/credential_state.py:79-130 | The same for the state left by any API run and any recovery of it, complete or cut |
| SetupPrediction.ActivatingPredictionIsExact | libexec/wg_healthcheck_setup/credential_state.py:79-130 | At `activating` the prediction is right if and only if the restore is not yet visible |
| SetupReach.PredictionAfterStaticRuns | libexec/wg_healthcheck_setup/credential_state.py:79-130 | After any static run and a completed recovery the prediction is right if and only if the record was not at `activating` or the restore was not visible |
| SetupPrediction.PrecheckMissesExactly | libexec/wg_healthcheck_setup/credential_state.py:152-249 | Choices are applicable if and only if the precheck passes and they do not enter API mode from static with a key that differs from the retained one and no replacement; which key is installed and whether it counts as changed |
| SetupSession.SetupProcess.ApplySetupRequest | libexec/wg_healthcheck_setup/application.py:675-723 | Prechecks, recovers, prechecks again and applies either mode in place exactly as specified; completed, the request is in force |
| SetupSession.SetupProcess.PrecheckCredential | libexec/wg_healthcheck_setup/credential_state.py:214-249 | The decision in place is the specified one |
| SetupSession.SetupProcess.ApplyApi | libexec/wg_healthcheck_setup/application.py:361-494 | The in-place apply ends with the files, outcome and remaining choices of the specified apply |
| SetupSession.SetupProcess.ApplyStatic | libexec/wg_healthcheck_setup/application.py:497-582 | The in-place static apply ends as the specified one |
| SetupSession.SetupProcess.RollbackApi | libexec/wg_healthcheck_setup/application.py:174-211 | The in-place rollback ends as the specified one |
| SetupSession.SetupProcess.RollbackStatic | libexec/wg_healthcheck_setup/application.py:214-221 | The in-place static rollback ends as the specified one |
| SetupSession.SetupProcess.Recover | libexec/wg_healthcheck_setup/application.py:147-153 | Discards staging, then recovers or checks for artifacts, as specified |
| SetupSession.SetupProcess.RecoverJournal | libexec/wg_healthcheck_setup/application.py:280-322 | The in-place recovery takes the specified branch for every recorded phase and operation |
| SetupSession.SetupProcess.BeginProof | libexec/wg_healthcheck_setup/application.py:236-253 | Clock and status identity are recorded as `verifying` before the check runs |
| SetupSession.SetupProcess.VerifyHealth | libexec/wg_healthcheck_setup/apply_system.py:352-363 | A check counts only with exit status zero and a fresh healthy status of a new identity; the process may also end after the check has written its status |
| SetupSession.SetupProcess.Cleanup | libexec/wg_healthcheck_setup/application.py:107-110 | Snapshots go before the record, each removal as specified |
| SetupSession.SetupProcess.FinalizeVerified | libexec/wg_healthcheck_setup/application.py:325-332 | `verified` is recorded before anything is removed |
| SetupJournals.RoundTrip | libexec/wg_healthcheck_setup/apply_journal.py:141-242 | Reading a rendered record gives it back |
| SetupJournals.AcceptedIsRendering | libexec/wg_healthcheck_setup/apply_journal.py:181-242 | An accepted current-version payload is the rendering of the record it decodes to |
| SetupJournals.RenderingIsReadable | libexec/wg_healthcheck_setup/apply_journal.py:141-164 | Every renderable record renders within the reader's size and line limits |
| SetupJournals.SuccessorsAreAccepted | libexec/wg_healthcheck_setup/application.py:113-120 | From any accepted record of any version, the `rolled-back`, `verifying` (positive clock, whole identity) and `verified` records recovery writes are accepted in turn |
| SetupJournals.LegacyIsAcceptedExactly | libexec/wg_healthcheck_setup/apply_journal.py:105-138 | A readable version 1 payload is accepted if and only if its flags are flags, its operation is an API operation and its phase one of version 1 that the operation has; the missing key flag reads as changed |
| SetupJournals.ReadJournalFields | libexec/wg_healthcheck_setup/apply_journal.py:181-242 | The field loop over the lines fills exactly the specified field dictionary |
| ApiStateRuns.RollingLimit | libexec/wg-healthcheck-managed.d/30-api-state.bash:221-250 | Over every run of ledger operations with failed saves, loads and restarts, grants come in order and any seven in a row span at least 86400 seconds |
| ApiStateRuns.HoldIsRespected | libexec/wg-healthcheck-managed.d/30-api-state.bash:333-366 | Over every run, after a recorded rate or transient outcome no attempt, query or gate is granted before its deadline, even with the administrative bypass, until another outcome is recorded; a refused outcome changes nothing, and one whose save fails leaves the lesser of the two deadlines unless its verdict holds nothing |
| ApiStateLaws.PruneKeepsValidity | libexec/wg-healthcheck-managed.d/30-api-state.bash:221-250 | Pruning a valid state succeeds if and only if time has not gone back and a day still fits the epoch range, and keeps validity |
| ApiStateLaws.KeepRecentIsTail | libexec/wg-healthcheck-managed.d/30-api-state.bash:226-230 | Pruning keeps exactly the attempts inside the rolling window, which are a tail of the ordered list |
| ApiStateLaws.KeepLiveMembers | libexec/wg-healthcheck-managed.d/30-api-state.bash:238-243 | Pruning keeps exactly the exclusions that have not expired |
| ApiStateLaws.KeepLiveAppend | libexec/wg-healthcheck-managed.d/30-api-state.bash:238-243 | The live exclusions keep their order and multiplicity |
| ApiStateLaws.PruneComposes | libexec/wg-healthcheck-managed.d/30-api-state.bash:221-250 | Pruning at an earlier time on the way changes nothing about pruning later |
| ApiStateLaws.AddExclusionLaw | libexec/wg-healthcheck-managed.d/30-api-state.bash:252-280 | An exclusion is added if and only if its name is well formed and the time in range, and validity is kept |
| ApiStateLaws.WithExclusionMembers | libexec/wg-healthcheck-managed.d/30-api-state.bash:258-279 | The entry is present, renewed rather than doubled; others survive, except that a full list loses one entry of least expiry |
| ApiStateLaws.RemoveExclusionLaw | libexec/wg-healthcheck-managed.d/30-api-state.bash:282-301 | Removal succeeds if and only if the name is live; the saved state lacks it and keeps every other live entry |
| ApiStateLaws.AttemptAllowedLaw | libexec/wg-healthcheck-managed.d/30-api-state.bash:333-346 | A valid state defers an attempt exactly when six are in the window or a pending backoff is not bypassable |
| ApiStateLaws.RecordAttemptLaw | libexec/wg-healthcheck-managed.d/30-api-state.bash:348-366 | Under the lock and without a failed save an attempt is granted or deferred, never failed; exactly a grant appends its time; the saved state stays valid |
| ApiStateLaws.GateLaw | libexec/wg-healthcheck-managed.d/30-api-state.bash:368-380 | The gate answers as an attempt would, records no attempt, and saves exactly when it defers |
| ApiStateLaws.RecordOutcomeLaw | libexec/wg-healthcheck-managed.d/30-api-state.bash:411-439 | Exactly the well-formed outcomes are recorded and saved, with their class, a deadline between five minutes and a day, and the failed server excluded |
| ApiStateLaws.RefreshIdentityLaw | libexec/wg-healthcheck-managed.d/30-api-state.bash:455-504 | A readable 65-byte key file whose clock is not ahead completes the state; auth and device failures are forgiven exactly when the identity changed |
| ApiStateLaws.BackoffRange | libexec/wg-healthcheck-managed.d/30-api-state.bash:382-409 | The backoff lies between its base and a day, and within six hours and a tenth over its base without Retry-After |
| ApiStateLaws.BackoffIsMonotone | libexec/wg-healthcheck-managed.d/30-api-state.bash:382-409 | Without Retry-After no jitter makes an earlier failure wait longer than the next one |
| ApiStateLaws.BackoffAccepts | libexec/wg-healthcheck-managed.d/30-api-state.bash:382-409 | Jitter is accepted exactly up to a tenth of the base and Retry-After exactly up to a day, by the text comparison the shell uses |
| ApiStateLaws.LoadAfterSave | libexec/wg-healthcheck-managed.d/30-api-state.bash:85-173 | Loading a saved state later gives exactly that state pruned to the new time |
| ApiStateLaws.LoadIsValid | libexec/wg-healthcheck-managed.d/30-api-state.bash:85-173 | A load that succeeds leaves a valid state, complete whenever there was a file |
| ApiStateCodec.RenderingIsReadable | libexec/wg-healthcheck-managed.d/30-api-state.bash:186-206 | Every saved state renders within 4096 bytes, 34 lines and 256 characters a line, and reads back as itself |
| ApiStateCodec.AcceptedIsRendering | libexec/wg-healthcheck-managed.d/30-api-state.bash:97-148 | Any text the loader decodes is the rendering of what it decodes to |
| ApiStateCodec.ReadingIsInjective | libexec/wg-healthcheck-managed.d/30-api-state.bash:97-148 | Two texts with one meaning are one text |
| ApiLedger.Ledger.CheckMemory | libexec/wg-healthcheck-managed.d/30-api-state.bash:15-83 | The checking loops accept exactly the valid states |
| ApiLedger.Ledger.Prune | libexec/wg-healthcheck-managed.d/30-api-state.bash:221-250 | The pruning loops leave exactly the pruned state, and report its validity |
| ApiLedger.Ledger.AddExclusion | libexec/wg-healthcheck-managed.d/30-api-state.bash:252-280 | The search and eviction loops leave exactly the specified list |
| ApiLedger.Ledger.RemoveExclusion | libexec/wg-healthcheck-managed.d/30-api-state.bash:282-301 | The named entry is found, dropped and the state saved, as specified |
| ApiLedger.Ledger.RecordAttempt | libexec/wg-healthcheck-managed.d/30-api-state.bash:348-366 | Gate, append and save in place, as specified |
| ApiLedger.Ledger.GateBeforePreflight | libexec/wg-healthcheck-managed.d/30-api-state.bash:368-380 | A deferral is saved, a refusal is not, as specified |
| ApiLedger.Ledger.ComputeBackoff | libexec/wg-healthcheck-managed.d/30-api-state.bash:382-409 | The doubling loop computes the least of 300 times a power of two and six hours, then jitter, cap and Retry-After |
| ApiLedger.Ledger.RecordOutcome | libexec/wg-healthcheck-managed.d/30-api-state.bash:411-439 | Class, deadline, exclusion and save in place, as specified |
| ApiLedger.Ledger.RefreshIdentity | libexec/wg-healthcheck-managed.d/30-api-state.bash:455-504 | Identity and forgiveness in place, as specified |
| ApiLedger.Ledger.Save | libexec/wg-healthcheck-managed.d/30-api-state.bash:175-219 | A save checks the whole state and the lock and replaces the file by its rendering or not at all |
| ApiLedger.Ledger.Load | libexec/wg-healthcheck-managed.d/30-api-state.bash:85-173 | The decoding loops accept exactly the specified texts and assign what they decode to |
| StoreTheorems.AtomicWriteChanges | libexec/wg_healthcheck_setup/store.py:237-300 | At every system call of an atomic write, after any crash or power loss, files read as before or with the target wholly replaced; completed, for good |
| StoreTheorems.SnapshotChanges | libexec/wg_healthcheck_setup/store.py:386-479 | At every cut of a snapshot the backup is absent or a complete copy of the source, and an existing backup is never touched |
| StoreTheorems.CleanKeeps | libexec/wg_healthcheck_setup/store.py:185-225 | A snapshot staging entry beside its backup is always the same file, so clearing it never raises the conflict error |
| StoreTheorems.RestoreChanges | libexec/wg_healthcheck_setup/store.py:482-489 | A restore leaves the target as it was or exactly as the backup, and the backup untouched, at every cut |
| StoreTheorems.DurableUnlinkChanges | libexec/wg_healthcheck_setup/store.py:492-504 | A present file is removed for good or still whole; for an absent one nothing is removed |
| StoreTheorems.RemovalIsFinalExactly | libexec/wg_healthcheck_setup/store.py:492-504 | A completed removal is final if and only if it found the file or its staging entry, or no earlier directory version could bring the file back |
| StoreTheorems.RepeatedRemovalIsNotFinal | libexec/wg_healthcheck_setup/store.py:492-504 | A removal whose directory sync failed, asked for again, succeeds while a power loss still undoes it |
| StoreRuns.PerformIsWhole | libexec/wg_healthcheck_setup/store.py:185-504 | Every private-file operation, at every cut, keeps the directory sound, raises no inspection error, and has no effect or its whole effect |
| StoreRuns.RunsStaySound | libexec/wg_healthcheck_setup/store.py:185-225 | Over every run of operations and crashes the pairing of backups and staging entries holds, so the inspection errors are unreachable |
| StoreRuns.NothingIsTorn | libexec/wg_healthcheck_setup/store.py:228-383 | Over every run each file, now and after any power loss, holds a payload written whole or found at the start |
| StoreRuns.RestoreConverges | libexec/wg_healthcheck_setup/store.py:482-489 | After any number of cut restores one undisturbed discard and restore puts exactly the backup back, durably |
| StoreRuns.AtomicWriteEntries | libexec/wg_healthcheck_setup/store.py:237-300 | As directory entries an atomic write ends unchanged, with its staging entry left, or with the new target; a staging entry in the way refuses it |
| StoreRuns.CalmWrite | libexec/wg_healthcheck_setup/store.py:250-256 | Undisturbed, an atomic write completes if and only if its staging entry is not already there |
| StoreLaws.SurvivorsAreSound | libexec/wg_healthcheck_setup/store.py:185-225 | A power loss keeps a directory sound and shows one of its outstanding versions |
| StoreDirectory.PrivateDirectory.WriteAll | libexec/wg_healthcheck_setup/store.py:228-234 | However short the single writes are, the loop ends with exactly the payload or an error |
| StoreDirectory.PrivateDirectory.CopyExact | libexec/wg_healthcheck_setup/store.py:303-309 | The copying loop ends with exactly the source's bytes or an error |
| StoreDirectory.PrivateDirectory.AtomicWrite | libexec/wg_healthcheck_setup/store.py:237-300 | Staging, cleanup flags and both syncs in place, as specified |
| StoreDirectory.PrivateDirectory.CopyDescriptorAtomic | libexec/wg_healthcheck_setup/store.py:312-383 | As an atomic write of a descriptor of exactly the expected size |
| StoreDirectory.PrivateDirectory.SnapshotFile | libexec/wg_healthcheck_setup/store.py:386-479 | Staging, hard link, sync and removal in place, as specified |
| StoreDirectory.PrivateDirectory.CleanSnapshotStaging | libexec/wg_healthcheck_setup/store.py:185-225 | The staging entry is removed unless it is a different file than the backup |
| StoreDirectory.PrivateDirectory.DiscardPrivateStaging | libexec/wg_healthcheck_setup/store.py:169-182 | A leftover staging entry is removed durably |
| StoreDirectory.PrivateDirectory.RestoreSnapshot | libexec/wg_healthcheck_setup/store.py:482-489 | Clean, read, rewrite in place, as specified |
| StoreDirectory.PrivateDirectory.DurableUnlink | libexec/wg_healthcheck_setup/store.py:492-504 | Clean, unlink, sync in place, as specified |
| RotationLaws.RotateIsSafe | bin/wg-healthcheck:1612-1699 | Every cut of a rotation leaves the marker over an exact backup with the marker's endpoint, or no marker and the old profile, or no marker and a candidate that passed every demanded check; its own stamp stays without a marker only in the last case |
| RotationLaws.ReconcileLaw | bin/wg-healthcheck:1532-1556 | Reconciliation restores exactly the backed-up profile and drops stamp and marker; cut, it stays pending |
| RotationLaws.CalmReconcile | bin/wg-healthcheck:1532-1556 | Undisturbed, reconciliation completes |
| RotationLaws.UndoLaw | bin/wg-healthcheck:1505-1530 | A rollback cut anywhere stays pending; completed, the old profile is back and the stamp gone |
| RotationLaws.RemovePendingLaw | bin/wg-healthcheck:1227-1236 | A marker removal that could not be made durable leaves the marker gone or back exactly as it was |
| RotationLaws.BeginLaw | bin/wg-healthcheck:1238-1241 | Beginning never touches the profile; the marker appears only over a complete backup with its endpoint |
| RotationLaws.InterruptedRotationResolves | bin/wg-healthcheck:1532-1556 | A cut rotation followed by reconciliations cut anywhere: once the marker is gone the old profile is back |
| RotationLaws.RunsStayRecoverable | bin/wg-healthcheck:1612-1699 | Over every run of rotations and reconciliations the profile is the first one or a checked one, or a marker stands over a backup that is |
| RotationLaws.TargetIsConfigured | bin/wg-healthcheck:1161-1190 | The rewritten profile is configured for exactly the candidate |
| ProfileText.RewriteKeepsCounts | bin/wg-healthcheck:1130-1148 | Rewriting the endpoint keeps the peer and endpoint counts and reads as the new endpoint |
| ProfileText.RewriteTouchesEndpointsOnly | bin/wg-healthcheck:1175-1183 | No other line changes |
| ProfileText.RewriteTwice | bin/wg-healthcheck:1175-1183 | A second rewrite makes the first one irrelevant |
| ProfileText.ScanProfile | bin/wg-healthcheck:1130-1148 | The scanning loop counts peers and endpoints as specified |
| ProfileText.RewriteEndpoint | bin/wg-healthcheck:1175-1183 | The rewriting loop replaces exactly the endpoint lines |
| RotationRuntime.Runtime.RotateStaticEndpoint | bin/wg-healthcheck:1612-1699 | The in-place rotation ends as the specified one |
| RotationRuntime.Runtime.ReconcilePendingRotation | bin/wg-healthcheck:1532-1556 | The in-place reconciliation ends as the specified one |
| RotationRuntime.Runtime.RollbackRotation | bin/wg-healthcheck:1505-1530 | The in-place rollback ends as the specified one |
| RotationRuntime.Runtime.SetConfigEndpoint | bin/wg-healthcheck:1161-1190 | Checks, rewrite, rename and barrier in place, as specified |
| RotationRuntime.Runtime.RemoveRotationPending | bin/wg-healthcheck:1227-1236 | Removal, barrier and rewriting of the marker in place, as specified |
| RotationRuntime.Runtime.ReadRotationPending | bin/wg-healthcheck:1216-1225 | The marker reads exactly when it is canonical and the backup is configured for it |
| RotationRuntime.Runtime.BeginRotationTransaction | bin/wg-healthcheck:1238-1241 | Backup before marker, in place, as specified |
| ManagedJournalLaws.RunsAreRecoverable | libexec/wg-healthcheck-managed.d/20-journal-transitions.bash:466-581 | Over every run the recorded phase moves one step at a time with unchanged digests and endpoints, every record was true of the files when written, the last is the one on disk, and recovery classifies the files as consistent |
| ManagedJournalLaws.TransitionAgrees | libexec/wg-healthcheck-managed.d/20-journal-transitions.bash:528-547 | After any transition, also one whose commit failed after the rename, the variables are cleared or equal the disk record |
| ManagedJournalLaws.PrepareAgreesExactly | libexec/wg-healthcheck-managed.d/20-journal-transitions.bash:488-526 | A prepare leaves variables without a disk record if and only if its commit stopped before the rename |
| ManagedJournalLaws.TransitionWrites | libexec/wg-healthcheck-managed.d/20-journal-transitions.bash:528-547 | A transition changes the disk only by writing the next step of the recorded change, verified just before |
| ManagedJournalLaws.PrepareWrites | libexec/wg-healthcheck-managed.d/20-journal-transitions.bash:488-526 | A prepare changes the disk only by writing the record of the files as they are |
| ManagedJournalLaws.DroppingStagedIsRecoverableExactly | libexec/wg-healthcheck-managed.d/20-journal-transitions.bash:549-581 | Removing the staged file keeps a state recoverable if and only if the backup is active or the phase is `verified` |
| ManagedJournalLaws.InstallKeeps | libexec/wg-healthcheck-managed.d/20-journal-transitions.bash:549-581 | Installing the staged candidate keeps a state recoverable |
| ManagedJournalLaws.RestoreKeeps | libexec/wg-healthcheck-managed.d/20-journal-transitions.bash:549-581 | Restoring the backup keeps a state recoverable |
| ManagedJournalLaws.RoundTrip | libexec/wg-healthcheck-managed.d/20-journal-transitions.bash:20-64 | A valid journal reads back as itself within the loader's limits |
| ManagedJournalLaws.AcceptedIsRendering | libexec/wg-healthcheck-managed.d/20-journal-transitions.bash:20-64 | An accepted journal file is the rendering of what it decodes to |
| ManagedSafety.RunsAreDescribed | libexec/wg-healthcheck-managed.d/20-journal-transitions.bash:248-297 | Over every run the safety record on disk describes the files, so from `committed` on the candidate alone is in place |
| ManagedSafety.CommitmentIsFinal | libexec/wg-healthcheck-managed.d/20-journal-transitions.bash:447-464 | A committed record never goes back to pending, and neither its binding nor the files change any more |
| ManagedSafety.TransitionWrites | libexec/wg-healthcheck-managed.d/20-journal-transitions.bash:447-464 | A safety transition writes only the next stage of the same record, over files that record describes |
| ManagedRuntime.JournalVariables.Load | libexec/wg-healthcheck-managed.d/20-journal-transitions.bash:20-64 | Clears, decodes and assigns in place, as specified |
| ManagedRuntime.JournalVariables.Commit | libexec/wg-healthcheck-managed.d/20-journal-transitions.bash:70-119 | Writes the variables' rendering or nothing, as specified |
| ManagedRuntime.JournalVariables.Prepare | libexec/wg-healthcheck-managed.d/20-journal-transitions.bash:488-526 | Checks, assigns and commits in place, as specified |
| ManagedRuntime.JournalVariables.Transition | libexec/wg-healthcheck-managed.d/20-journal-transitions.bash:528-547 | Loads, checks, advances, commits and reloads in place, as specified |
| ManagedRuntime.JournalVariables.CheckPhase | libexec/wg-healthcheck-managed.d/20-journal-transitions.bash:466-486 | Accepts exactly the files a phase promises |
| ManagedRuntime.JournalVariables.RecoveryIsConsistent | libexec/wg-healthcheck-managed.d/20-journal-transitions.bash:549-581 | Accepts exactly the states recovery can finish or undo |
| ManagedRuntime.SafetyVariables.Prepare | libexec/wg-healthcheck-managed.d/20-journal-transitions.bash:421-445 | The in-place prepare ends as the specified one |
| ManagedRuntime.SafetyVariables.Transition | libexec/wg-healthcheck-managed.d/20-journal-transitions.bash:447-464 | The in-place transition ends as the specified one |
| LockLaws.EveryRunExcludes | bin/wg-healthcheck:992-1041 | Over every interleaving of any number of processes and crashes in which setups unlock only after the runtimes they gave the lease to, at most one process is in the interface's critical section, it holds the guard or the lease, at most one setup holds the lease, and beside it only runtimes that adopted exactly that lease pass the guard |
| LockLaws.RunsKeep | bin/wg-healthcheck:1866-1872 | Every step of every process in such a run keeps the lock invariant |
| LockLaws.SetupExcludesRuntimes | libexec/wg_healthcheck_setup/apply_system.py:160-186 | While a setup holds its lease every runtime past the guard adopted that lease |
| LockLaws.AdoptedLeaseExcludesRuntimes | bin/wg-healthcheck:992-1022 | An adopted lease keeps ordinary runtimes out even when its setup has died |
| LockLaws.InterfaceIsExclusive | bin/wg-healthcheck:1866-1872 | Two processes are never both in the critical section, setup's own probe included |
| LockLaws.InterfaceHolderIsGuarded | bin/wg-healthcheck:2050-2065 | Whoever is in the critical section still holds its guard or lease |
| LockLaws.LeaseIsExclusive | libexec/wg_healthcheck_setup/apply_system.py:160-186 | At most one setup holds the lease |
| LockLaws.EarlyUnlockBreaksExclusion | libexec/wg_healthcheck_setup/apply_system.py:179-186 | That condition is needed: a run from boot is given in which a setup unlocks under the runtime that adopted its lease and another setup takes the lease while that runtime is in the critical section |
| ProfilePinning.PinnedReadsBack | libexec/airvpn-api:633-653 | Re-reading a pinned rendering as an installed profile gives exactly the installed address, key, DNS, table and hooks in order, with the generated peer fields; it succeeds only for one identity |
| ProfilePinning.PinnedSucceedsExactly | libexec/airvpn-api:608-653 | A pinned rendering succeeds if and only if both profiles are accepted and have one identity, every hook is one, the installed DNS line fits once its entries are listed one by one, and the whole text keeps the line and byte limits |
| ProfilePinning.PinnedIsInstalled | libexec/airvpn-api:633-653 | The re-read profile is the pinned one whole, for every hook list the size checks admit |
| ProfilePinning.NormalTextParses | libexec/airvpn-api:556-587 | Parsing the rendering of a normal profile whose DNS line fits gives it back |
| ProfilePinning.RenderParsesBackExactly | libexec/airvpn-api:556-587 | A rendered profile parses back to its normal form if and only if that form's DNS line fits in 1024 bytes |
| ProfilePinning.ListedProfilesParseBack | libexec/airvpn-api:556-587 | A profile whose DNS entries are single addresses always parses back to itself |
| ProfilePinning.ParsedIsNormal | libexec/airvpn-api:337-419 | Whatever the strict parser returns is normal and has the expected endpoint |
| ProfilePinning.TextIsSifted | libexec/airvpn-api:422-444 | The installed-file reader takes out exactly the interface's hooks, in order |
| ProfilePinning.NormalizeNormal | libexec/airvpn-api:451-519 | A normal profile is accepted unchanged if and only if its DNS line fits |
| ProfilePinning.ComposeLaw | libexec/airvpn-api:608-630 | Composition succeeds only for one identity and takes identity, DNS and table from the current profile |
| ProfileRoundTrip.LinesReadBack | libexec/airvpn-api:216-244 | Joined printable lines within the limits are read back as they are |
| ProfileRoundTrip.DnsReadsBack | libexec/airvpn-api:278-299 | Joined DNS addresses split into themselves |
| ProfileReader.ParseWireguardProfile | libexec/airvpn-api:337-419 | The parsing loop over the lines returns exactly the specified profile or refusal |
| ProfileReader.ParseTrustedInstalledProfile | libexec/airvpn-api:422-444 | The sieving loop returns exactly the specified profile and hooks or refusal |
| WireGuardKey.ValidatorsAgree | libexec/wg-healthcheck-managed.d/10-integrity.bash:236-241 | On strings of any length the character check accepts exactly the keys the byte check accepts |
| WireGuardKey.FinalLetters | libexec/wg-healthcheck-managed.d/10-integrity.bash:239 | The allowed final letters are exactly those whose two spare bits are zero |
| WireGuardKey.PaddedTextIsCanonical | libexec/airvpn-api:246-261 | Texts of full groups and one padded group with zero spare bits are exactly the canonical encodings of 3n + 2 bytes |
| WireGuardKey.DecodeOfEncode | libexec/airvpn-api:246-261 | Decoding an encoding gives the bytes back |
| WireGuardKey.ZeroKeyIsZeros | libexec/wg-healthcheck-managed.d/10-integrity.bash:240 | The one excluded text is the encoding of 32 zero bytes |
| ConfigLaws.UpdatesReadBack | libexec/wg_healthcheck_setup/apply_config.py:37-79 | Each updated key reads back its value and every other key reads as before, on text with any line ends |
| ConfigLaws.UpdatesReadBackExactly | libexec/wg_healthcheck_setup/apply_config.py:49-79 | All updates read back if and only if all values are single lines |
| ConfigLaws.OtherLinesStay | libexec/wg_healthcheck_setup/apply_config.py:59-68 | Lines that assign no updated key keep content and place |
| ConfigLaws.RewritingIsIdempotent | libexec/wg_healthcheck_setup/apply_config.py:49-79 | Rewriting the result again changes nothing |
| ConfigLaws.RuntimeReadsUpdates | bin/wg-healthcheck:514-608 | A file the runtime accepts is still accepted after a rewrite with known keys, values free of control characters and lines that fit, with every update and every other setting |
| ConfigLaws.RuntimeReadsUpdatesExactly | bin/wg-healthcheck:514-608 | For every file the runtime accepts and every rewrite setup makes of it, the runtime accepts the result and reads each update back if and only if each key is known, each value is free of control characters and each assignment, as quoted, has at most 4096 characters |
| ConfigLaws.OwnUpdatesReadBack | libexec/wg_healthcheck_setup/apply_config.py:12-14 | The updates setup makes, a source, a device and a country list, meet these conditions, so both readers read them back from every file the runtime accepts |
| ConfigLaws.QuoteRoundTrip | libexec/wg_healthcheck_setup/apply_config.py:16-34 | A quoted value parses back to itself |
| ConfigLaws.RuntimeReadsQuoted | bin/wg-healthcheck:569-597 | The runtime reads a quoted value as the same text |
| ConfigFile.FindConfigValue | libexec/wg_healthcheck_setup/apply_config.py:37-46 | The search loop returns exactly the specified value, absence or error |
| ConfigFile.RewriteConfig | libexec/wg_healthcheck_setup/apply_config.py:49-79 | The rewriting loops return exactly the specified text or error |
| ConfigFile.ParseHealthcheckConfig | bin/wg-healthcheck:514-608 | The runtime's loop accepts exactly the specified files and settings |
| SelectionLaws.SelectionIsOrderFree | libexec/airvpn-api:909-996 | When no number is a signed zero every order of the list gives the same answer |
| SelectionLaws.OrderFreeExactly | libexec/airvpn-api:909-996 | Every order gives the same answer if and only if the list is refused or its least offers are one and the same |
| SelectionLaws.OnlySignsDiffer | libexec/airvpn-api:978-989 | Least offers that differ have equal keys and differ only in the sign of a zero |
| SelectionLaws.SignedZeroDependsOnOrder | libexec/airvpn-api:978-996 | Two otherwise equal servers, one with load "-0", are chosen by position |
| SelectionLaws.SelectIsLeast | libexec/airvpn-api:992-996 | Selection fails exactly on a refused server, finds nothing exactly without offers, and else returns a least offer |
| SelectionLaws.SelectionScoresLeast | libexec/airvpn-api:963-996 | No eligible server scores less than the chosen one |
| Selection.SelectCandidate | libexec/airvpn-api:909-996 | The selection loop returns the first least candidate or the refusal |
| Selection.KeyOrder | libexec/airvpn-api:978-989 | Sort keys are totally ordered |
| Text.UintIsNumericBound | libexec/wg-healthcheck-managed.d/10-integrity.bash:60-68 | The shell's length-then-text comparison is the numeric bound at any length |
| Text.DecimalRoundTrip | libexec/wg-healthcheck-managed.d/10-integrity.bash:60-68 | Rendering a number gives its canonical decimal, which reads back |
| Text.CanonicalIsRendering | libexec/wg-healthcheck-managed.d/10-integrity.bash:60-68 | Canonical decimals are exactly the renderings |

## Left out

- Post-commit actions of setup, timers, prompts, previews and command-line parsing; stopping the units and probing the locks is one step that may fail.
- Checks of a request's form (device, country list, timer and reset combinations), which only refuse.
- Network requests, response classification, JSON parsing, `wg-quick`, ping and speed tests: only their success or failure appears, as a choice.
- File ownership, modes, symbolic links and descriptor numbers, except inode identity and link counts of snapshots.
- Effects of an operation that reported an error count as durable in the setup transaction; directory versions that reappear after a power loss are modelled in the private-file component only.
- Power loss for the shell's writes: rotation, ledger and managed journal see process crashes between effects, and a save is replaced as a whole or not at all.
- `MANAGED_API_STATE_NOW` and `MANAGED_API_OBSERVED_AT` are one variable, since every function assigns both together.
- Parallel arrays of exclusion names and expiries are paired in the specification; the class keeps the two lists.
- Text that is not UTF-8 and the byte-level form of profiles; profiles are sequences of characters with their encoded sizes.
- IPv6 formatting, Unicode case folding, printability beyond ASCII and SHA-256, which are uninterpreted functions with the properties the code relies on.
- The safety record's text form, its container and process fields, and its variables after a malformed record.
- The driver of the managed profile transaction; only the steps it may take and when are modelled.
- The locks are a step machine over kernel descriptions; the shell's descriptor bookkeeping around them is not.
- The exclusion arguments handed to the server selection, which only list the live names.
- The `status` command, which takes neither guard nor lock.
- The global runtime lock, which setup probes exactly as it probes the interface lock.
- The contents of the status file written by static rotation.
- Bounds on JSON numbers and on country names: a server number is absent when the source would refuse it.
- Guard and lock file creation, installation and packaging.
