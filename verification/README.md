# Verified model of the profile manager and its protocols

The service manages Codex accounts and profiles. This project models its state machines, its
transactional code and its concurrency protocols in Dafny and proves what they promise, for every input,
every pattern of failing writes, every run and every interleaving. `dafny verify dfyconfig.toml` checks it.

How the parts fit together:

- **Profiles.** `ProfileStore` is the store (files and settings, each present or absent) and the pure config
  patches; `ProfileOps` specifies every operation for an arbitrary set of failing write attempts;
  `ProfileManager` is the class that performs them step by step, proved against that specification.
  `ModelsCommit` (commit and rollback), `ProfileAttempts` (which write attempt is which),
  `ProfileBackups` and `ProfileRestore` (nothing is lost),
  `CatalogPointer` and `PointerRuns` (the user's `model_catalog_json`), `SelectionConsistency` (selection and
  catalog file) and `SelectionChanges` with `CatalogSelection` and `Lists` (the list passes) hold the results.
  `SwitchOutcomes` and `SyncOutcomes` say what completed operations leave, location by location and key by key,
  and `WriteOrder` how far one gets whose writes fail.
- **The mutation lease.** `MutationLease` interleaves callers, disk workers and cancellations over the same
  store, and shows that every interleaving is a serial one; `ProfilePhases` gives all operations by their phases,
  the config being read in one and written in a later one, so that an interleaving is a run of `ProfileRuns`;
  `ProfileConcurrency` carries the results about runs over to interleavings.
- **History.** `RolloutPatch` and `SessionIndex` are the file formats, `HistoryRepair` the repair with its
  backups, `HistoryPruning` the retention of backup directories.
- **SQLite shim.** `SqliteTransactions` is the state machine of threads that share one handle, with the
  invariant of every step; `SqliteRuns` reads the statement log of every run, `SqliteEndings` shows that what
  a caller asks for is what SQLite is told, `SqliteProgress` that no thread is stuck. `SqlPlaceholders` is the
  placeholder rewriting, byte by byte, and `SqlLiterals` compares it with a reading that knows literals, quoted
  names and comments.
- **Agent tasks.** `FailureTable` is the table of recent failures, `AgentTasks` the registration protocol
  of concurrent callers, `AgentCooldown` its cool-down, `AgentOutcomes` why a call ends without a task.
- **Catalog cache.** `CatalogCache` is the refresh under a lock that its disk worker takes over, and
  `CacheOutcomes` what its callers get.
- **Model association and process tree.** `ModelAssociation` with `AssociationLaws`, and `ProcessTree`.

Where the code and what one would expect of it differ, the model follows the code:

- A rollback writes an absent setting back as an empty text, which reads the same (`ModelsCommit.CleanRollback`).
- A switch that fails between config and state loses the saved catalog pointer, and so do selected models
  applied outside the gateway and aggregate modes, and pointers that are no text (`PointerRuns.TornSwitchLosesPointer`,
  `CatalogPointer.ModelsKeepPointer`, `PointerRuns.PointerMustBeText`).
- A restore that fails at its last write leaves a state without a backup, and the next sync may then rewrite a config
  that nothing brings back (`ProfileRestore.RestoreKeepsStateBacked`, `ProfileRestore.TornRestoreLosesConfig`).
- A rollback that withdraws a new backup entry but cannot restore the config, or the state, leaves a profile that
  cannot be restored, or a state without a backup (`ProfileRestore.DirtyRollback`, `ProfileRestore.CommitSafety`).
- Placeholder rewriting takes every `?` for a placeholder, also inside a literal (`SqlLiterals.LiteralIsRewritten`,
  `SqlLiterals.BindingIsSqlite`), takes `?0` for `?1`, and writes bytes above 127 back as two bytes each
  (`SqlPlaceholders.TextIsKept`).
- After a COMMIT and a ROLLBACK that both failed the handle goes back although SQLite may still be in a
  transaction (`SqliteRuns.OnlyFailedRollbackLeavesOpen`).

## Model

| member | source | states |
|---|---|---|
| ProfileManager.Manager.ApplyModelsCommitLocked | crates/service/src/codex_profile.rs:1077-1208 | Whatever writes fail: either catalog, config, marker, state and home setting are all new and a backup entry exists, or every captured location whose own restore worked is back at its old content and nothing else was touched |
| ModelsCommit.ModelsAllOrNothing | crates/service/src/codex_profile.rs:1077-1208 | The same for every store and every pattern of faults; a location whose restore failed keeps what the commit had left there |
| ModelsCommit.CleanRollback | crates/service/src/codex_profile.rs:1138-1208 | A rollback without errors leaves every file the same and every setting reading the same; the store is the very same exactly when the three settings were present (an absent one comes back as an empty text, crates/service/src/app_settings/store.rs:86-89) |
| ModelsCommit.CommitKeepsState | crates/service/src/codex_profile.rs:3078-3154 | A selection applied to a profile that has a state keeps that state's mode, key and saved pointer and changes only the selection and the time |
| ModelsCommit.RestoreAllEffect | crates/service/src/codex_profile.rs:1138-1208 | The rollback tries every location even after failures, and reports exactly the ones that it could not restore |
| ProfileRestore.DirtyRollback | crates/service/src/codex_profile.rs:1138-1208 | Applying models keeps the profile restorable if and only if not all of this happens: the profile had no backup, the config was a different one, migration, backup, catalog and config are written, one of the three later necessary writes fails, the rollback's fifth attempt fails (it counts from the one after that write: the config) and its seventh works (it withdraws the new backup entry) |
| ProfileRestore.CommitSafety | crates/service/src/codex_profile.rs:1077-1208 | Applying models keeps every profile restorable and the state backed if and only if its failing attempts neither lose the backup nor, numbered likewise, leave the new state behind with the entry withdrawn |
| ProfileAttempts.CommitAttempts | crates/service/src/codex_profile.rs:1093-1208 | On a profile without a backup the numbers of the failing attempts decide how far the commit gets, at which attempt it ends, and whether config and state are old or new then |
| ProfileManager.Manager.ApplyDirectAccount | crates/service/src/codex_profile.rs:635-717 | The direct account switch, step by step, ends as the operation's specification says for every pattern of faults |
| ProfileManager.Manager.ApplyGateway | crates/service/src/codex_profile.rs:915-1022 | The gateway switch: migration, backup, catalog, config, marker, state and home, in this order, each failure ending it there |
| ProfileManager.Manager.ApplyDirectAggregate | crates/service/src/codex_profile.rs:731-897 | The aggregate switch, with its backup in the first phase and its writes in the last |
| ProfileManager.Manager.RestoreLocked | crates/service/src/codex_profile.rs:1245-1272 | The restore: files, markers, backup entry and state, in this order |
| ProfileManager.Manager.SyncAfterModelChanges | crates/service/src/codex_profile.rs:3205-3382 | The sync after model changes: the plan, then catalog, config and state |
| ProfileManager.Manager.EnsureBackup | crates/service/src/codex_profile.rs:3494-3512 | A first touch saves the two files as they are; an entry that exists is never overwritten |
| ProfileManager.Manager.WriteManagedState | crates/service/src/codex_profile.rs:3467-3492 | Marker first, then the persisted state |
| ProfileManager.Manager.MigrateLegacyMarker | crates/service/src/codex_profile.rs:1474-1491 | The legacy marker is copied unless there is a new one, and then removed |
| ProfileManager.Manager.Rollback | crates/service/src/codex_profile.rs:1138-1208 | The rollback over the captured locations |
| ProfileRestore.RestoreBringsBack | crates/service/src/codex_profile.rs:1245-1272 | From a store without backups and state, after any run of the six operations over any number of profiles, with any writes failing except where the next row says that it does harm, a restore gives auth.json and config.toml of the beginning back, or their absence; the persisted state always belongs to a profile with a backup |
| ProfileRestore.OperationIsSafe | crates/service/src/codex_profile.rs:3494-3512 | Every operation keeps every profile restorable and the state backed if and only if it is tidy, a condition on inputs: no restore whose first five writes work and whose sixth fails while the state is the profile's, and no commit of models that loses the backup or leaves the state in its rollback |
| ProfileRestore.RestoreWorks | crates/service/src/codex_profile.rs:1245-1272 | Without faults a restore finishes: the saved files are back, the entry, the state and the markers are gone |
| ProfileRestore.RestoreNeedsBackup | crates/service/src/codex_profile.rs:1245-1257 | A restore of a profile without a backup is an error and changes nothing |
| ProfileRestore.RestoreCanBeRetried | crates/service/src/codex_profile.rs:1245-1272 | A restore that failed before its backup entry was dropped can be repeated and ends in the store that an undisturbed restore would have left |
| ProfileRestore.RestoreKeepsRestorable | crates/service/src/codex_profile.rs:1245-1272 | No failing write of a restore loses the original files |
| ProfileRestore.RestoreKeepsStateBacked | crates/service/src/codex_profile.rs:1264-1271 | A restore leaves a state without a backup if and only if the profile has an entry and the state, its first five writes work (the fifth drops the entry) and its sixth, which clears the state, fails |
| ProfileAttempts.RestoreAttempts | crates/service/src/codex_profile.rs:1245-1272 | The entry is dropped exactly when the first five attempts work; the restore finishes exactly when they do and, if the state is the profile's, the sixth does |
| ProfileRestore.SyncAfterTornRestore | crates/service/src/codex_profile.rs:3319-3380 | From any store with such a state of a profile without a backup, the next sync rewrites a config that no backup can bring back |
| ProfileRestore.TornRestoreLosesConfig | crates/service/src/codex_profile.rs:1264-1271 | A run that gets there: from a store without backups and state, a gateway switch whose writes all work, a restore whose sixth write fails, and a sync; the profile is not restorable any more |
| ProfileBackups.SyncEffect | crates/service/src/codex_profile.rs:3205-3382 | Whatever writes fail, a sync touches only catalog, config and markers of the profile that the state names, and the state; of the state it changes the selection and the websocket flag only |
| SwitchOutcomes.AccountSwitched | crates/service/src/codex_profile.rs:684-716 | A completed switch to an account, whatever optional writes failed: auth.json is the input's; the config has no provider, no table cm_aggregate, the compatibility table under cm, and every other table, model and rest as before; state and marker name DirectAccount and the account id; nothing but these files, backup, state and home has changed |
| SwitchOutcomes.AccountCompletes | crates/service/src/codex_profile.rs:635-716 | Without failing writes it completes if and only if the account is usable and the config can be read and has no model_providers that is no table |
| SwitchOutcomes.GatewaySwitched | crates/service/src/codex_profile.rs:985-1021 | A completed switch to the gateway: provider cm with name, base_url, token, wire_api, websocket flag and header, without settings that conflict with the token, other keys of that table and other tables, model and rest as before; its catalog in the managed file; state and marker name the key; auth.json is not touched |
| SwitchOutcomes.GatewayCompletes | crates/service/src/codex_profile.rs:915-1022 | Without failing writes it completes if and only if the key is accepted, its secret is not blank, and the config can be read and patched |
| SwitchOutcomes.AggregateSwitched | crates/service/src/codex_profile.rs:840-896 | A completed switch to an aggregate API: provider cm_aggregate with exactly its settings and headers, the override or the first model as model, other tables and rest as before; the catalog file and the state list the offered models that the catalog has, in its order; auth.json is not touched |
| SwitchOutcomes.AggregateCompletes | crates/service/src/codex_profile.rs:731-897 | Without failing writes it completes if and only if config and secret are usable and the catalog knows every model that the API offers, of which there is one |
| SwitchOutcomes.ModelsApplied | crates/service/src/codex_profile.rs:1077-1137 | Applied models: the config changes in its catalog pointer only; catalog file and state list the requested models of the catalog; the rest of the state is the persisted one's, else the marker's, be it legacy or not, else what can be found out of the files |
| SwitchOutcomes.ModelsComplete | crates/service/src/codex_profile.rs:1042-1137 | Without failing writes models are applied if and only if the config can be read and the selection is accepted; otherwise nothing changes |
| SwitchOutcomes.DetectedMode | crates/service/src/codex_profile.rs:2548-2582 | Which files and provider tables decide the detected mode of a profile without state and marker |
| SwitchOutcomes.ConfigIsRead | crates/service/src/codex_profile.rs:2834-2852 | A config.toml that is missing or empty counts as one that says nothing, and what is no TOML cannot be read |
| WriteOrder.AccountOrder | crates/service/src/codex_profile.rs:3460-3482 | How far a switch to an account gets, by the numbers of the failing attempts: auth.json, config.toml, marker, state and home are new exactly up to the first necessary attempt that fails |
| WriteOrder.ManagedOrder | crates/service/src/codex_profile.rs:1004-1020 | The same for the switches and commits that manage the catalog: catalog, config.toml, marker, state, home, and when the legacy marker goes |
| WriteOrder.RestoreOrder | crates/service/src/codex_profile.rs:1245-1272 | The same for a restore: auth.json, config.toml, the two markers, the backup entry, the state |
| WriteOrder.SyncOrder | crates/service/src/codex_profile.rs:3349-3380 | The same for the writes of a sync: catalog, config.toml if it changes, marker and state if the state is dirty |
| WriteOrder.DetachOrder | crates/service/src/codex_profile.rs:3319-3380 | The same for a sync that detaches the config |
| WriteOrder.MigrationOrder | crates/service/src/codex_profile.rs:1474-1491 | A migration moves the legacy marker to its new place unless there is one, and a failure of it is not one of the operation |
| PointerRuns.AccountPutsPointerBack | crates/service/src/codex_profile.rs:2834-2913 | After any careful run on a profile whose original model_catalog_json is u or absent, a completed switch to a direct account leaves u there, or no key |
| PointerRuns.RunKeepsPointer | crates/service/src/codex_profile.rs:2834-3051 | Every careful run keeps: while the config points to the managed file the saved pointer is u, otherwise the config holds u |
| CatalogPointer.GatewayKeepsPointer | crates/service/src/codex_profile.rs:2854-2872 | The gateway switch keeps that invariant if and only if it is not torn between config and state on a profile that was not managed before |
| CatalogPointer.ManagingSwitch | crates/service/src/codex_profile.rs:3467-3470 | The same if and only if for the shared writes of both managing switches |
| CatalogPointer.AggregateKeepsPointer | crates/service/src/codex_profile.rs:2834-2852 | The aggregate switch that gets to its writes keeps the invariant if and only if the profile was managed before or the switch is not torn between config and state |
| CatalogPointer.AccountKeepsPointer | crates/service/src/codex_profile.rs:682-716 | The direct account switch keeps it under every pattern of faults |
| CatalogPointer.ModelsKeepPointer | crates/service/src/codex_profile.rs:3078-3154 | Applying selected models to a profile with a state keeps the invariant if and only if that state is a gateway or aggregate one |
| CatalogPointer.FirstModelsKeepPointer | crates/service/src/codex_profile.rs:3078-3154 | On a profile never managed it keeps the invariant if and only if the mode detected is a gateway or aggregate one |
| CatalogPointer.SelectionKeepsPointer | crates/service/src/codex_profile.rs:3078-3154 | In general, with or without state and marker, applied models keep the invariant if and only if the state that the selection is added to is a gateway or aggregate one that has u saved |
| CatalogPointer.SyncKeepsPointer | crates/service/src/codex_profile.rs:3029-3051 | Syncs keep it, also when they detach the config from the managed file |
| CatalogPointer.RestoreKeepsPointer | crates/service/src/codex_profile.rs:1245-1272 | A restore of the original file keeps it |
| PointerRuns.TornSwitchLosesPointer | crates/service/src/codex_profile.rs:3467-3470 | The excluded fault does lose the pointer: the next direct account switch takes the managed path, which is in the config by then, for the saved one, and leaves it there instead of u |
| PointerRuns.PointerMustBeText | crates/service/src/codex_profile.rs:2834-2872 | A pointer that is not a string is not carried: the switches drop it |
| SelectionConsistency.RunConsistent | crates/service/src/codex_profile.rs:860-888 | In every fault-free run a non-empty persisted selection lists, in order, the slugs of that profile's catalog file |
| SelectionConsistency.OperationConsistent | crates/service/src/codex_profile.rs:1093-1103 | Every fault-free operation keeps that |
| SelectionConsistency.PlanWithoutModels | crates/service/src/codex_profile.rs:3233-3318 | When the changes or the catalog take the last selected model, the plan is a detachment if there is no gateway key, whatever the gateway would answer; with a key it is the full gateway catalog, or a failure if the gateway does not answer |
| SelectionConsistency.LosingTheLastModel | crates/service/src/codex_profile.rs:3319-3380 | What that does: without a key the config points to the saved catalog again and the selection is empty; with a key the catalog file is the gateway's and the selection is empty if gateway, secret and config allow it, and otherwise nothing changes |
| SyncOutcomes.SyncOutcome | crates/service/src/codex_profile.rs:3205-3382 | What an undisturbed sync leaves, in every case: with nothing to do, the store; with a key, the selection that remains of the changed one, its catalog or else the gateway's, the patched config and the settled websocket flag, or no change at all if gateway, secret or config do not allow it; without a key, the remaining selection with its catalog and the config as it was, or the detached config with an empty selection, or an error |
| CatalogSelection.DeduplicateRequests | crates/service/src/codex_model_catalog.rs:161-218 | The loop keeps the first of every requested slug up to case and white space, and collects their keys |
| CatalogSelection.MatchingMembers | crates/service/src/codex_model_catalog.rs:161-250 | A slug is chosen exactly when the catalog has it and its key was requested |
| CatalogSelection.SelectionIsComplete | crates/service/src/codex_model_catalog.rs:161-218 | An accepted selection is not empty and leaves no request out |
| CatalogSelection.SelectAnswers | crates/service/src/codex_model_catalog.rs:161-218 | A selection lists exactly the models of the catalog that some request, trimmed, names up to case, in catalog order; it is refused if and only if no request is left or one names no model |
| CatalogSelection.ReconcileAnswers | crates/service/src/codex_model_catalog.rs:219-250 | So does a reconciled selection, which is none if and only if no model of the catalog is named |
| CatalogSelection.ReconcileIsStable | crates/service/src/codex_model_catalog.rs:219-250 | Reconciling a reconciled selection with the same catalog gives the same list in the same order |
| SelectionChanges.ApplyManagedModelSelectionChanges | crates/service/src/codex_profile.rs:3384-3418 | The nested loops equal: push each slug through all renames and removals on its own, drop blanks, keep first occurrences up to case; the flag is true exactly when the list changed |
| SelectionChanges.SelectionMembership | crates/service/src/codex_profile.rs:3384-3418 | A key is in the result exactly when some slug ends up with it |
| SelectionChanges.SelectionIsStable | crates/service/src/codex_profile.rs:3384-3418 | No key is in the result twice, and cleaning it again changes nothing |
| SelectionChanges.RenameMoves | crates/service/src/codex_profile.rs:3384-3418 | After a rename a key is selected exactly when a selected model that is not renamed has it, or a renamed one was selected and it is the key of the new name |
| SelectionChanges.RemovalDrops | crates/service/src/codex_profile.rs:3384-3418 | After a removal, or a rename to nothing, exactly the models that it is not about are still selected |
| SelectionChanges.ChangesCompose | crates/service/src/codex_profile.rs:3384-3418 | Several changes take effect one after the other |
| MutationLease.NoLostUpdate | crates/service/src/codex_profile.rs:742-897 | In every interleaving of operations, workers and cancellations, the store does not change between two accesses of the operation that has the lease: what its first phase read is there when its last phase writes |
| MutationLease.InterleavingIsSerial | crates/service/src/codex_profile.rs:67-86 | The store always equals that of the operations run one after the other in the order of their leases, each with a prefix of its accesses, cut between phases unless a worker died |
| MutationLease.InterleavingIsARun | crates/service/src/codex_profile.rs:915-1074 | When the accesses of each operation amount to a profile operation, the interleaving is a run of profile operations, so the results about runs apply |
| ProfilePhases.EveryInterleavingIsARun | crates/service/src/codex_profile.rs:635-1074 | Any number of calls of any of the six operations, on any profiles, with any failing writes and cancelled at any moment, leave the store of a run of operations in the order of their leases, in which each call took place, or what its first phase amounts to did, or nothing |
| ProfilePhases.WholeIsOperation | crates/service/src/codex_profile.rs:742-1021 | All phases of a call in a row, with the write attempts counted on from phase to phase and the config of an earlier phase patched in a later one, are the operation on the store as it is |
| ProfilePhases.FirstPhaseIsOperation | crates/service/src/codex_profile.rs:742-784 | What a call amounts to that ends after its first phase: an account switch has migrated the markers, an aggregate switch has taken the backup as well, like a call whose account or models are refused; the others have changed nothing |
| ProfileConcurrency.ConcurrentRestoreBringsBack | crates/service/src/codex_profile.rs:1245-1272 | For such callers, with cancellations and any failing writes, a restore afterwards gives the files of the beginning back and the state is backed, if what the calls did is a tidy run |
| ProfileConcurrency.HarmlessCallsAreTidy | crates/service/src/codex_profile.rs:1077-1272 | What the calls did is a tidy run in every interleaving if each commit of models has at most one failing attempt and the sixth of each restore works |
| ProfileConcurrency.ConcurrentSelection | crates/service/src/codex_profile.rs:860-888 | For such callers without failing writes a non-empty persisted selection lists the slugs of the catalog file |
| ProfileConcurrency.ConcurrentPointer | crates/service/src/codex_profile.rs:2834-3051 | For such callers on one profile the user's pointer is carried if what the calls did is a careful run |
| ProfileConcurrency.HarmlessSwitchesAreCareful | crates/service/src/codex_profile.rs:635-1022 | What the calls did is a careful run in every interleaving of harmless calls that select no models and whose gateway and aggregate switches have no failing writes |
| MutationLease.WorkerKeepsLease | crates/service/src/codex_profile.rs:67-86 | While a worker runs, also one whose caller is gone, nobody else gets the lease and no other worker runs |
| MutationLease.LockIsReleased | crates/service/src/codex_profile.rs:67-86 | The lock is held exactly while a future or a worker of a granted operation is left |
| MutationLease.OnlyHolderActs | crates/service/src/codex_profile.rs:67-86 | No step but an access of the lease's operation changes the store |
| MutationLease.StepKeepsPhases | crates/service/src/codex_profile.rs:52-77 | Cancellation never cuts a phase that started |
| SqliteRuns.NoForeignStatement | crates/rusqlite/src/lib.rs:161-209 | Between a transaction's BEGIN and its COMMIT or ROLLBACK every statement is its own or comes from a Connection call of the thread that began it; no other BEGIN runs and the handle is not returned |
| SqliteRuns.PublishedHasOnlyHandle | crates/rusqlite/src/lib.rs:161-209 | A published transaction has the only handle: none is in the pool, with a thread, or behind another transaction |
| SqliteTransactions.SecondCheckNeverFires | crates/rusqlite/src/lib.rs:182-196 | The second already-active check never finds a transaction |
| SqliteEndings.EndedAsAsked | crates/rusqlite/src/lib.rs:908-986 | In every run a transaction that is over was ended as asked: after commit() by one COMMIT that worked and nothing else, or by one that failed and then a ROLLBACK; after a drop by one ROLLBACK and no COMMIT; one that is not over has no COMMIT that worked and no ROLLBACK |
| SqliteEndings.CommitAnswers | crates/rusqlite/src/lib.rs:908-938 | A call of commit() leaves with what the one COMMIT of the transaction answered |
| SqliteEndings.CommitIsFinal | crates/rusqlite/src/lib.rs:908-938 | One that leaves with success has committed, and no later state of the run has a ROLLBACK of the transaction |
| SqliteRuns.NestedBeginIsRefused | crates/rusqlite/src/lib.rs:161-181 | A BEGIN on the thread that owns the active transaction runs nothing, only leaves, and answers with an error |
| SqliteTransactions.StepKeepsConsistent | crates/rusqlite/src/lib.rs:161-209 | Every step of every thread keeps handle, references, slot, locks and transaction stages in agreement |
| SqliteRuns.OwnerUsesHeldHandle | crates/rusqlite/src/lib.rs:268-303 | A Connection call of the owner thread takes the held handle, and a thread that owns the active transaction never waits for the pool |
| SqliteRuns.HandleReturnedOnce | crates/rusqlite/src/lib.rs:956-964 | The handle of a transaction is returned at most once, and has been exactly when no reference is left |
| SqliteRuns.HandleReturnedCleared | crates/rusqlite/src/lib.rs:940-964 | When it is returned the slot is clear and the transaction is over |
| SqliteRuns.OnlyFailedRollbackLeavesOpen | crates/rusqlite/src/lib.rs:908-938 | SQLite is in a transaction while the handle is in the pool only if the last ROLLBACK failed |
| SqliteProgress.NeverStuck | crates/rusqlite/src/lib.rs:161-303 | While any call is under way some call can go on, or a transaction is open that nobody is using |
| SqliteProgress.AllFinishedMeansReturned | crates/rusqlite/src/lib.rs:988-1004 | When every call came back and every transaction was finished, handle and slot are as at the start and each handle was returned once |
| SqlPlaceholders.Normalize | crates/rusqlite/src/lib.rs:1617-1659 | The loop succeeds exactly when every placeholder denotes a parameter under SQLite's numbering, and then answers with the same pieces with bare placeholders and the values in their order; otherwise with the placeholder at fault |
| SqlPlaceholders.ValueOfDecimal | crates/rusqlite/src/lib.rs:1628-1635 | The number of an explicit placeholder is the one that its digits write |
| SqlPlaceholders.NewStatementBinds | crates/rusqlite/src/lib.rs:1617-1659 | By SQLite's numbering rule, with every ? taken for a placeholder, the new statement with its values binds at its k-th placeholder what the k-th old one denotes |
| SqlPlaceholders.NoDigitAfterPlaceholder | crates/rusqlite/src/lib.rs:1628-1651 | No placeholder of the new statement is followed by a digit |
| SqlPlaceholders.TextIsKept | crates/rusqlite/src/lib.rs:1654-1655 | The rest of the text is kept piece by piece if and only if the statement is ASCII |
| SqlPlaceholders.SecondPassIsIdentity | crates/rusqlite/src/lib.rs:1617-1659 | For ASCII statements a second pass changes neither statement nor values |
| SqlLiterals.ReadAlike | crates/rusqlite/src/lib.rs:1622-1628 | The rewriting sees the placeholders that SQLite sees if and only if none of these hides a ? |
| SqlLiterals.BindingIsSqlite | crates/rusqlite/src/lib.rs:1617-1659 | Read that way, the new statement with its values binds what the old one with the parameters does if and only if no ? stands in a literal, a quoted name or a comment |
| SqlLiterals.TextIsSqlite | crates/rusqlite/src/lib.rs:1628-1655 | Read with literals, quoted names and comments, the text of an ASCII statement is kept if and only if no digit follows a ? inside one of them |
| SqlLiterals.LiteralIsRewritten | crates/rusqlite/src/lib.rs:1617-1659 | The input `SELECT '?1', ?2`: the literal loses its digit, and the one placeholder that SQLite sees, which denoted the second parameter, is bound to the first |
| SqlLiterals.QuotedRegion | crates/rusqlite/src/lib.rs:1622-1628 | In the reading that the rewriting is compared with, a literal or quoted name hides everything to the next quote that closes it |
| SqlLiterals.BlockComment | crates/rusqlite/src/lib.rs:1622-1628 | A comment in slashes and stars hides everything to the next star and slash |
| SqlLiterals.LineComment | crates/rusqlite/src/lib.rs:1622-1628 | A comment in dashes hides everything to the end of the line |
| AgentTasks.RegistrationsAreBounded | crates/service/src/agent_identity.rs:226-305 | In every interleaving of callers the tasks persisted for an account are at most the distinct stale ids reported, and one more if none was stored |
| AgentTasks.SuccessIsAnotherTask | crates/service/src/agent_identity.rs:259-290 | A caller that succeeds gets a stored task that is not the one it reported failed |
| AgentTasks.StepKeepsHistory | crates/service/src/agent_identity.rs:251-288 | A task is replaced only when it was missing or reported, and never by one that was there before |
| AgentCooldown.NoRegistrationWhileCoolingDown | crates/service/src/agent_identity.rs:266-303 | After a failure no registration call for the account is made for 300 seconds, whatever other callers and other users of the table do |
| FailureTable.BootstrapFailures.IsActive | crates/service/src/agent_identity.rs:510-522 | Pruning drops exactly the expired failures; the answer is true exactly for a live failure of the same material |
| FailureTable.BootstrapFailures.Remember | crates/service/src/agent_identity.rs:524-533 | Enters or replaces the failure of the key only |
| FailureTable.BootstrapFailures.Clear | crates/service/src/agent_identity.rs:535-545 | A success removes only an entry of the same material |
| AgentCooldown.ClearKeeps | crates/service/src/agent_identity.rs:292-303 | Clearing after a success never shortens a cool-down that is running |
| AgentOutcomes.FailureHasReason | crates/service/src/agent_identity.rs:226-305 | In every interleaving a call for a known account ends without a task only if signing, storage or the server refused it something or a failure of the same material was younger than 300 seconds; so a usable task is always served |
| AgentOutcomes.RegistersOnlyWhenNeeded | crates/service/src/agent_identity.rs:251-288 | A registration is sent only by a call that found no task under the lock, or the one that it had reported |
| AgentOutcomes.SuccessClears | crates/service/src/agent_identity.rs:292-303 | After a success nothing holds registrations of the account back until a later failure is entered |
| CatalogCache.CommitsAreSpaced | crates/service/src/codex_model_catalog.rs:279-329 | Snapshots committed for one key and version carry stamps more than 300 seconds apart, in every interleaving with cancellations, while second looks can read the file |
| CatalogCache.ServedIsTraced | crates/service/src/codex_model_catalog.rs:451-500 | What a call returns has its version and comes from its key's file and was fresh when checked, or was fetched and committed by the call, or is stale after a failed fetch of its own |
| CacheOutcomes.FreshIsServed | crates/service/src/codex_model_catalog.rs:283-309 | A call whose first or second look finds a snapshot of its version no older than 300 seconds is answered with it at once and for good |
| CacheOutcomes.ErrorHasReason | crates/service/src/codex_model_catalog.rs:311-335 | A call gets an error only if its answer was invalid or could not be written, or its fetch failed and its second look had found no snapshot: with one, a failed fetch serves that |
| CacheOutcomes.FetchesAfterLook | crates/service/src/codex_model_catalog.rs:301-311 | A call fetches only after a second look without a fresh snapshot, and keeps what that look found |
| CacheOutcomes.CommitsAreAnswers | crates/service/src/codex_model_catalog.rs:311-320 | What a call commits is what the server had answered it, with the time at which its worker took it over |
| CatalogCache.StepKeepsLock | crates/service/src/codex_model_catalog.rs:294-318 | The lock has one owner at a time, the future or, once it started, the disk worker |
| CatalogCache.StepKeepsJustified | crates/service/src/codex_model_catalog.rs:301-329 | Whoever refreshes has a file that stays stale until it writes |
| RolloutPatch.PatchRollout | crates/service/src/codex_profile.rs:1921-1941 | None exactly when no line needs the patch; otherwise all segments, patched where needed |
| RolloutPatch.LinesInNeed | crates/service/src/codex_profile.rs:1943-1982 | Exactly the lines need the patch that are not blank and hold a session_meta record whose payload is an object with another provider, none, or one that is no text |
| RolloutPatch.PatchKeepsTheRest | crates/service/src/codex_profile.rs:1921-1982 | Same number of segments, same line feeds and trailing carriage returns, lines not concerned byte for byte, and session_meta records the same but for the target provider |
| RolloutPatch.PatchIsDone | crates/service/src/codex_profile.rs:1968-1982 | A patched file needs no patch |
| RolloutPatch.PatchOfDone | crates/service/src/codex_profile.rs:1937-1940 | A file that needs no patch would come out unchanged |
| RolloutPatch.SegmentsSplit | crates/service/src/codex_profile.rs:1924 | Splitting at line feeds loses nothing |
| RolloutPatch.SegmentsOfConcat | crates/service/src/codex_profile.rs:1924-1936 | Joining lines and splitting again gives the same lines |
| RolloutPatch.PatchLines | crates/service/src/codex_profile.rs:1921-1941 | The loop, for any way to patch a line |
| HistoryRepair.Repairer.Repair | crates/service/src/codex_profile.rs:1710-1823 | Under every pattern of faults, at every moment of the run, whatever differs from the start has its old form or absence in the backup directory and its repaired form in place, and the database has the same columns and threads in the same order, each with its id, title and time, and its old provider or the target; a run without warnings leaves nothing to do, and the target in every thread; on aligned files nothing is written and no directory made; at the end old backup directories are pruned, and the run's own one stays if none is newer |
| HistoryRepair.Repairer.RepairTwice | crates/service/src/codex_profile.rs:1710-1823 | After a run without warnings an immediate second run, whatever fails in it, leaves all files alone, writes nothing, and makes and prunes no backup directory |
| HistoryRepair.Repairer.PruneDirs | crates/service/src/codex_profile.rs:2288-2340 | The pruning at the end of a run leaves what the retention keeps and what could not be removed, or everything when the directories cannot be listed |
| HistoryRepair.CleanRunAligns | crates/service/src/codex_profile.rs:1710-1823 | After a run whose steps all worked no file, row or index entry is left to repair |
| HistoryRepair.Repairer.RepairRollouts | crates/service/src/codex_profile.rs:1767-1775 | Each planned file is copied before it is written; without warnings exactly the planned files changed |
| HistoryRepair.Repairer.RepairDb | crates/service/src/codex_profile.rs:2135-2152 | The database is snapshot before the rows are relabelled; threads change in their provider only, to the target, which all have after a success |
| HistoryRepair.Repairer.RepairIndex | crates/service/src/codex_profile.rs:2154-2176 | The index is copied, if there is one, before entries are appended |
| HistoryRepair.Repairer.CollectUpdates | crates/service/src/codex_profile.rs:1865-1886 | One update for each file that needs one; a read error spoils the list |
| HistoryRepair.PlannedMembers | crates/service/src/codex_profile.rs:1865-1886 | The updates are exactly those of the listed files that need one |
| HistoryRepair.MissingPicks | crates/service/src/codex_profile.rs:2049-2102 | The threads to be appended are exactly those whose ids the index lacks, in the order of the database, each once |
| SessionIndex.AppendedIds | crates/service/src/codex_profile.rs:2104-2176 | After the append the index has exactly the ids it had and those of the appended threads |
| SessionIndex.AppendedRecords | crates/service/src/codex_profile.rs:2084-2176 | Behind the old records there is one for each thread, in their order, with its id, its title or Untitled, and its time |
| SessionIndex.AppendKeepsContent | crates/service/src/codex_profile.rs:2154-2176 | The old content is the beginning of the new one |
| SessionIndex.AppendEntries | crates/service/src/codex_profile.rs:2154-2176 | The loop of the append |
| ModelAssociation.ModelCatalog.Associate | crates/service/src/aggregate_api.rs:1717-1858 | The call's whole effect and answer; a bad name or a failed transaction changes nothing |
| ModelAssociation.Plan | crates/service/src/aggregate_api.rs:1748-1847 | The loop's inputs, written one by one in the transaction, give the outcome: matched models with the request's route, and one new model for each other request |
| ModelAssociation.Requests | crates/service/src/aggregate_api.rs:1732-1747 | Requests are the first of every id up to case; one invalid name refuses all |
| AssociationLaws.RepeatedCall | crates/service/src/aggregate_api.rs:1717-1858 | The call on names as they come in: its requests are distinct up to case and clean, and repeating it with the same names changes nothing and adds nothing |
| AssociationLaws.IdsAreClean | crates/service/src/aggregate_api.rs:1642-1656 | An accepted name is not empty, has no white space or control characters and at most 200 bytes, and trimming leaves it alone |
| AssociationLaws.RefusedNames | crates/service/src/aggregate_api.rs:1642-1656 | A name is refused only if, trimmed and without Gemini's prefix, it is empty, has more than 200 bytes, or has a space or a control character |
| AssociationLaws.IdsAreStable | crates/service/src/aggregate_api.rs:1642-1656 | An accepted name is accepted again as it is; for Gemini if and only if no second models/ prefix is left |
| AssociationLaws.NothingIsLost | crates/service/src/aggregate_api.rs:1766-1801 | Every model keeps its modelled fields and its routes in place and gains at most one route, of this api |
| AssociationLaws.AddedRouteServes | crates/service/src/aggregate_api.rs:1772-1803 | A model gains a route only for a request of its name that it had no route for; the route is enabled and of this api and request, with priority and weight of the api's first route of the model, or 0 and 1 |
| AssociationLaws.CreatedServes | crates/service/src/aggregate_api.rs:1804-1846 | A request that names no model makes a custom model of that slug with one enabled route to the request |
| AssociationLaws.EveryRequestIsReached | crates/service/src/aggregate_api.rs:1766-1847 | After the call every request has a model of its name with a route of the api to it |
| AssociationLaws.AddedOrPresent | crates/service/src/aggregate_api.rs:1766-1847 | A request is answered as unchanged or as added by whether its model had such a route before |
| AssociationLaws.RoutesAdded | crates/service/src/aggregate_api.rs:1766-1847 | The routes of the catalog grow by one for each added entry |
| AssociationLaws.AnswerPartitions | crates/service/src/aggregate_api.rs:1766-1847 | Each request is in exactly one of added and unchanged, and created are the added ones that the catalog lacked |
| AssociationLaws.NewModelsSortLast | crates/service/src/aggregate_api.rs:1751-1756 | New models sort after every existing one, in the order of the requests |
| AssociationLaws.SlugsStayUnique | crates/core/src/storage/model_catalog_v2.rs:1515-1560 | Slugs stay unique up to case |
| AssociationLaws.RepeatAddsNothing | crates/service/src/aggregate_api.rs:1717-1858 | Repeating the call changes nothing and adds nothing |
| ModelAssociation.ModelCatalog.UpsertAll | crates/core/src/storage/model_catalog_v2.rs:2362-2378 | All inputs are written or none |
| HistoryPruning.BackupRoot.Prune | crates/service/src/codex_profile.rs:2288-2340 | What is left is what the policy keeps and what could not be removed; removed and remaining add up to the count before |
| HistoryPruning.KeptIsPrefix | crates/service/src/codex_profile.rs:2297-2324 | What stays is a newest-first prefix |
| HistoryPruning.KeptIsSmall | crates/service/src/codex_profile.rs:2312-2318 | At most three backups stay |
| HistoryPruning.NewestStays | crates/service/src/codex_profile.rs:2312-2318 | The newest always stays, every other one only if it is no older than the cutoff |
| HistoryPruning.PruneAgain | crates/service/src/codex_profile.rs:2288-2340 | Pruning again at the same cutoff removes nothing |
| ProcessTree.CollectAncestors | crates/service/src/codex_runtime.rs:111-124 | Terminates on every parent map, cyclic ones too, with exactly the transitive parents |
| ProcessTree.Reload | crates/service/src/codex_runtime.rs:28-77 | Candidates are the matching processes that are no ancestors of the manager; every root that accepts it is signalled, each other one is a warning |
| ProcessTree.SignalsAreSafe | crates/service/src/codex_runtime.rs:41-58 | No signalled process is an ancestor of the manager or has a candidate parent |
| ProcessTree.EveryCandidateIsReached | crates/service/src/codex_runtime.rs:49-58 | Without cycles every candidate is a root or below one through candidates only |
| ProcessTree.ReachedUnlessCaught | crates/service/src/codex_runtime.rs:49-58 | With cycles, exactly the candidates from which climbing leaves the candidates are reached |

## Left out

- HTTP, OAuth, token refresh and model fetching appear as arbitrary results; no step depends on what they are.
- Cryptography: digests are identifiers that differ when the material differs; assertion headers are not modelled.
- JSON and TOML syntax: `config.toml` is a record of the keys that the code reads plus the rest, provider tables are maps of texts with dotted keys for nested tables, and session files go through a JSON library that is assumed to read back what it wrote on one line.
- Strings: trimming and case folding are those of ASCII; secrets are taken as trimmed already.
- Paths: comparison of paths is a fixed function of the environment, and profile hashes do not collide; the Windows rename fallback and the creation of parent directories are not modelled.
- Reads of settings and files succeed, or the operation ends before it writes; a settings read that fails and falls back to its default is not modelled, except for the reads of history repair and of the catalog cache.
- The detection of modes in `detect_mode` and its helpers is an arbitrary function of the two files.
- The times and ids that operations store are parameters.
- Status reports, candidate lists, input validators and URL defaults, which would only add easy members.
- The migration of legacy history backups, byte counts of backup directories and the manifest's content.
- Operations that do not take the mutation lease (setting the home, status with its migration, history repair, pruning) are not part of the interleavings; nor are editors that change files from outside.
- ProfilePhases.EveryInterleavingIsARun: asks that every worker has ended and none died in a phase; a last phase is one step, which cancellation cannot cut.
- The catalog pointer's history across two profiles that take turns in the one persisted state; the code does not keep it.
- ProfileOps.RestoreAll: does not model that a rollback also removes a managed directory that the commit created, a failure of which is reported as a rollback error.
- HistoryRepair.Repairer.Repair: rows without an id, which end the plan with a warning, are a failing plan.
- SqliteTransactions.StepKeepsConsistent: statements that callers run are opaque and neither begin nor end transactions themselves; the pool is a count of handles, and a panic inside a call is not modelled.
- The engine of SQLite, the foreign backup calls and the value conversions of the shim.
- SqlLiterals.BindingIsSqlite: is about statements without named parameters (`:a`, `@a`, `$a`, which the rewriting leaves alone); that SQLite refuses `?0` and numbers above its limit is not modelled.
- AgentTasks.RegistrationsAreBounded: is about unchanged identity material, ids that the server has not handed out before and the resolver shown in the cited lines; the module `async_completion` is not part of this model.
- CatalogCache.CommitsAreSpaced: asks that the key was used with one version between the two commits and that second looks could read the file; with two versions in turn, each overwrites the other's file and refreshes at once.
- AssociationLaws.NothingIsLost: is about the modelled fields; that the write marks a touched model as edited by the user and gives it new timestamps, and that routes are read back ordered by priority and id, is not modelled.
- ModelAssociation.ModelCatalog.Associate: checks of the storage that refuse a model count as a failed transaction; generated ids, prices and groups are not modelled, and sort orders are unbounded integers.
- Process signals, environments and command matching: which processes match and which accept a signal are arbitrary sets.
- All user interface code, the Tauri shell, RPC and HTTP plumbing, diagnostics and build scripts.
