/** Restoring a profile, at any point of any run of profile operations. */
module ProfileRestore {
  import opened Text
  import opened ProfileStore
  import opened ProfileOps
  import opened ProfileFrames
  import opened ModelsCommit
  import opened ProfileRuns
  import opened ProfileBackups
  import opened ProfileAttempts

  ghost predicate FilesRestored(s: Store, t: Store, p: Key, entry: BackupEntry, ok: bool) {
    && OnlyChanges(s, t, {AuthFile(p), ConfigFile(p), MarkerFile(p), LegacyMarkerFile(p)})
    && (Read(t, ConfigFile(p)) == Read(s, ConfigFile(p)) || Read(t, ConfigFile(p)) == entry.config)
    && (ok ==> Original(t, p) == entry)
    && (ok ==> MarkerFile(p) !in t && LegacyMarkerFile(p) !in t)
  }

  lemma RestoreFilesEffect(s: Store, p: Key, entry: BackupEntry, faults: set<nat>)
    ensures FilesRestored(s, RestoreFiles(s, p, entry, faults).store, p, entry, RestoreFiles(s, p, entry, faults).ok)
  {
  }

  ghost predicate Forgotten(u: Store, t: Store, p: Key, before: bool, ok: bool) {
    && OnlyChanges(u, t, {BackupsSetting, StateSetting})
    && (LoadBackups(t) == LoadBackups(u) || LoadBackups(t) == LoadBackups(u) - {p})
    && (p in LoadBackups(t) ==> !ok && t == u)
    && (p !in LoadBackups(t) ==> before)
    && (p !in LoadBackups(t) && !ok ==> StateOf(u, p).Some? && LoadState(t) == LoadState(u))
    && (ok ==> p !in LoadBackups(t) && StateOf(t, p).None?)
    && (LoadState(t) == LoadState(u) || (LoadState(t).None? && StateOf(u, p).Some?))
  }

  lemma ForgetEffect(o: Progress, p: Key, faults: set<nat>)
    requires p in LoadBackups(o.store)
    ensures Forgotten(o.store, Forget(o, p, faults).store, p, o.ok, Forget(o, p, faults).ok)
  {
  }

  /** Everything a restore leaves, for every pattern of failing writes. The entry is dropped only
      after the files are back; the one gap is a failure of the very last write, which clears the state. */
  ghost predicate RestoredFrom(s: Store, t: Store, p: Key, ok: bool)
    requires p in LoadBackups(s)
  {
    && OnlyChanges(s, t, Own(p) - {CatalogFile(p), HomeSetting} + {BackupsSetting})
    && (LoadBackups(t) == LoadBackups(s) || LoadBackups(t) == LoadBackups(s) - {p})
    && (p in LoadBackups(t) ==> !ok && LoadState(t) == LoadState(s))
    && (p in LoadBackups(t) ==> OnlyChanges(s, t, {AuthFile(p), ConfigFile(p), MarkerFile(p), LegacyMarkerFile(p)}))
    && (Read(t, ConfigFile(p)) == Read(s, ConfigFile(p)) || Read(t, ConfigFile(p)) == LoadBackups(s)[p].config)
    && (p !in LoadBackups(t) ==> Original(t, p) == LoadBackups(s)[p])
    && (p !in LoadBackups(t) && !ok ==> StateOf(s, p).Some? && LoadState(t) == LoadState(s))
    && (LoadState(t) == LoadState(s) || (LoadState(t).None? && StateOf(s, p).Some?))
    && (ok ==> p !in LoadBackups(t) && StateOf(t, p).None?)
  }

  lemma RestoreEffect(s: Store, p: Key, faults: set<nat>)
    requires p in LoadBackups(s)
    ensures RestoredFrom(s, Restore(s, p, faults).store, p, Restore(s, p, faults).ok)
  {
    var files := RestoreFiles(s, p, LoadBackups(s)[p], faults);
    RestoreFilesEffect(s, p, LoadBackups(s)[p], faults);
    ForgetEffect(files, p, faults);
    RestoreComposes(s, files.store, Restore(s, p, faults).store, p, files.ok, Restore(s, p, faults).ok);
  }

  lemma RestoreComposes(s: Store, u: Store, t: Store, p: Key, before: bool, ok: bool)
    requires p in LoadBackups(s)
    requires FilesRestored(s, u, p, LoadBackups(s)[p], before) && Forgotten(u, t, p, before, ok)
    ensures RestoredFrom(s, t, p, ok)
  {
    assert LoadBackups(u) == LoadBackups(s) && LoadState(u) == LoadState(s);
    assert Original(t, p) == Original(u, p);
  }

  /** A restore never loses the original files, whichever of its writes fail. */
  lemma RestoreKeepsRestorable(s0: Store, s: Store, p: Key, faults: set<nat>)
    requires Restorable(s0, s)
    ensures Restorable(s0, Restore(s, p, faults).store)
  {
    if p in LoadBackups(s) {
      RestoreEffect(s, p, faults);
      RestoredIsRestorable(s0, s, Restore(s, p, faults).store, p);
    }
  }

  lemma RestoredIsRestorable(s0: Store, s: Store, t: Store, p: Key)
    requires Restorable(s0, s) && p in LoadBackups(s)
    requires OnlyChanges(s, t, Own(p) - {CatalogFile(p), HomeSetting} + {BackupsSetting})
    requires LoadBackups(t) == LoadBackups(s) || LoadBackups(t) == LoadBackups(s) - {p}
    requires p !in LoadBackups(t) ==> Original(t, p) == LoadBackups(s)[p]
    ensures Restorable(s0, t)
  {
    forall q | q !in LoadBackups(t) ensures Original(t, q) == Original(s0, q) {
      if q != p {
        assert Original(t, q) == Original(s, q);
      }
    }
  }

  /** It leaves a state without a backup exactly when its fifth write drops the entry and its sixth, which
      clears the state, fails. */
  lemma RestoreKeepsStateBacked(s: Store, p: Key, faults: set<nat>)
    requires StateBacked(s)
    ensures StateBacked(Restore(s, p, faults).store) <==> !TornRestore(s, p, faults)
  {
    if p in LoadBackups(s) {
      RestoreEffect(s, p, faults);
      RestoreAttempts(s, p, faults);
    }
  }

  /** A restore of a profile without a backup is an error and changes nothing. */
  lemma RestoreNeedsBackup(s: Store, p: Key, faults: set<nat>)
    requires p !in LoadBackups(s)
    ensures !Restore(s, p, faults).ok && Restore(s, p, faults).store == s
  {
  }

  /** Without faults a restore finishes: the files are the saved ones, entry and state are gone. */
  lemma RestoreWorks(s: Store, p: Key)
    requires p in LoadBackups(s)
    ensures var r := Restore(s, p, {});
            && r.ok
            && Original(r.store, p) == LoadBackups(s)[p]
            && LoadBackups(r.store) == LoadBackups(s) - {p}
            && StateOf(r.store, p).None?
            && MarkerFile(p) !in r.store && LegacyMarkerFile(p) !in r.store
  {
    RestoreEffect(s, p, {});
    RestoreFilesEffect(s, p, LoadBackups(s)[p], {});
  }

  /** A restore that failed before it dropped the entry can be repeated: the repetition ends in the
      very store that an undisturbed restore would have left. */
  lemma RestoreCanBeRetried(s: Store, p: Key, faults: set<nat>)
    requires p in LoadBackups(s) && p in LoadBackups(Restore(s, p, faults).store)
    ensures Restore(Restore(s, p, faults).store, p, {}).store == Restore(s, p, {}).store
  {
    RestoreEffect(s, p, faults);
    SameRestore(s, Restore(s, p, faults).store, p);
  }

  /** What a restore rewrites anyway does not matter to its result. */
  lemma SameRestore(s: Store, t: Store, p: Key)
    requires p in LoadBackups(s) && OnlyChanges(s, t, {AuthFile(p), ConfigFile(p), MarkerFile(p), LegacyMarkerFile(p)})
    ensures Restore(t, p, {}).store == Restore(s, p, {}).store
  {
    assert LoadBackups(t) == LoadBackups(s) && LoadState(t) == LoadState(s);
    forall l ensures Read(Restore(t, p, {}).store, l) == Read(Restore(s, p, {}).store, l) {
      SameResult(s, t, p, l);
    }
    StoresAgree(Restore(s, p, {}).store, Restore(t, p, {}).store);
  }

  lemma SameResult(s: Store, t: Store, p: Key, l: Loc)
    requires p in LoadBackups(s) && LoadBackups(t) == LoadBackups(s) && LoadState(t) == LoadState(s)
    requires OnlyChanges(s, t, {AuthFile(p), ConfigFile(p), MarkerFile(p), LegacyMarkerFile(p)})
    ensures Read(Restore(t, p, {}).store, l) == Read(Restore(s, p, {}).store, l)
  {
    RestoreResult(s, p, l);
    RestoreResult(t, p, l);
  }

  /** Where a location of an undisturbed restore comes from. */
  lemma RestoreResult(s: Store, p: Key, l: Loc)
    requires p in LoadBackups(s)
    ensures Read(Restore(s, p, {}).store, l) ==
              if l == AuthFile(p) then LoadBackups(s)[p].auth
              else if l == ConfigFile(p) then LoadBackups(s)[p].config
              else if l == MarkerFile(p) || l == LegacyMarkerFile(p) then None
              else if l == BackupsSetting then Some(BackupsJson(LoadBackups(s) - {p}))
              else if l == StateSetting && StateOf(s, p).Some? then Some(Blank)
              else Read(s, l)
  {
    var files := RestoreFiles(s, p, LoadBackups(s)[p], {});
    RestoreFilesEffect(s, p, LoadBackups(s)[p], {});
    ForgetEffect(files, p, {});
  }

  // ----- whole runs -----

  /** No write fails at one of the few places where that does harm: between dropping the entry and clearing
      the state of a restore, and in the rollback of a first commit of selected models. Every other pattern of
      faults is allowed. */
  predicate Tidy(env: Env, s: Store, op: Op) {
    && (op.ModelsOp? && ConfigOf(s, op.p).Some? && CatalogSelection.Select(op.managed, op.requested).Some? ==>
          && !LosesBackup(env, s, op.p, ConfigOf(s, op.p).value, op.faults)
          && !LeavesState(s, op.p, op.faults))
    && (op.RestoreOp? ==> !TornRestore(s, op.p, op.faults))
  }

  lemma ModelsSafety(env: Env, s0: Store, s: Store, p: Key, managed: seq<string>, requested: seq<string>, now: int,
                     faults: set<nat>)
    requires Safe(s0, s)
    ensures Safe(s0, ApplyModels(env, s, p, managed, requested, now, faults).store)
       <==> Tidy(env, s, ModelsOp(p, managed, requested, now, faults))
  {
    var config, slugs := ConfigOf(s, p), CatalogSelection.Select(managed, requested);
    if config.Some? && slugs.Some? {
      CommitSafety(env, s0, s, p, config.value, slugs.value, now, faults);
    }
  }

  /** Every operation keeps every profile restorable and the state backed, exactly when it is tidy. */
  lemma OperationIsSafe(env: Env, s0: Store, s: Store, op: Op)
    requires Safe(s0, s)
    ensures Safe(s0, Perform(env, s, op)) <==> Tidy(env, s, op)
  {
    match op
    case DirectAccountOp(p, input, now, faults) => AccountIsSafe(env, s0, s, p, input, now, faults);
    case DirectAggregateOp(p, input, now, faults) => AggregateIsSafe(env, s0, s, p, input, now, faults);
    case GatewayOp(p, input, now, faults) => GatewayIsSafe(env, s0, s, p, input, now, faults);
    case ModelsOp(p, managed, requested, now, faults) => ModelsSafety(env, s0, s, p, managed, requested, now, faults);
    case SyncOp(changes, input, faults) => SyncIsSafe(env, s0, s, changes, input, faults);
    case RestoreOp(p, faults) =>
      RestoreKeepsRestorable(s0, s, p, faults);
      RestoreKeepsStateBacked(s, p, faults);
  }

  ghost predicate TidyRun(env: Env, s: Store, ops: seq<Op>) {
    forall i :: 0 <= i < |ops| ==> Tidy(env, Run(env, s, ops[..i]), ops[i])
  }

  lemma {:induction false} RunIsSafe(env: Env, s0: Store, ops: seq<Op>)
    requires Safe(s0, s0) && TidyRun(env, s0, ops)
    ensures Safe(s0, Run(env, s0, ops))
  {
    if ops != [] {
      var n := |ops| - 1;
      forall i | 0 <= i < n ensures Tidy(env, Run(env, s0, ops[..n][..i]), ops[..n][i]) {
        assert ops[..n][..i] == ops[..i];
      }
      RunIsSafe(env, s0, ops[..n]);
      assert Tidy(env, Run(env, s0, ops[..n]), ops[n]);
      OperationIsSafe(env, s0, Run(env, s0, ops[..n]), ops[n]);
    }
  }

  /** The main result: from a store without backups and without a state, after any run over any number
      of profiles, a restore gives every profile its auth.json and config.toml of the beginning back,
      including their absence, and the persisted state never names a profile that cannot be restored. */
  lemma RestoreBringsBack(env: Env, s0: Store, ops: seq<Op>, p: Key)
    requires LoadBackups(s0) == map[] && LoadState(s0).None? && TidyRun(env, s0, ops)
    ensures StateBacked(Run(env, s0, ops))
    ensures Original(Restore(Run(env, s0, ops), p, {}).store, p) == Original(s0, p)
  {
    RunIsSafe(env, s0, ops);
    var t := Run(env, s0, ops);
    if p in LoadBackups(t) {
      RestoreWorks(t, p);
    }
  }

  // ----- where the guarantee ends -----

  /** What the excluded failure of a restore leads to: a state without a backup lets the next sync
      rewrite a config that nothing can bring back any more. */
  lemma SyncAfterTornRestore(env: Env, s0: Store, s: Store, p: Key, input: SyncInput)
    requires Restorable(s0, s) && p !in LoadBackups(s)
    requires StateOf(s, p).Some? && StateOf(s, p).value.mode.Gateway? && StateOf(s, p).value.apiKeyId.Some?
    requires StateOf(s, p).value.slugs == []
    requires input.websockets.Some? && input.gatewayCatalog.Some? && input.secret.Some? && input.secret.value != ""
    requires ConfigOf(s, p).Some? && ConfigOf(s, p).value.provider != Some(PROVIDER_ID)
    requires TakesGateway(ConfigOf(s, p).value)
    ensures !Restorable(s0, Sync(env, s, [], input, {}).store)
  {
    var st := StateOf(s, p).value.(slugs := []);
    SyncWithoutSelection(env, s, input);
    RewriteIsNotRestorable(env, s0, s, st, input.gatewayCatalog.value, SyncWebsockets(st, input), input.secret.value);
  }

  /** An input that gets there: a first switch to the gateway, a restore whose sixth write fails, and a sync.
      All other writes work; the original config is gone, and there is nothing to restore it from. */
  lemma TornRestoreLosesConfig(env: Env, s0: Store, p: Key, gateway: GatewayInput, now: int, input: SyncInput)
    requires LoadBackups(s0) == map[] && LoadState(s0).None?
    requires ConfigOf(s0, p).Some? && ConfigOf(s0, p).value.provider != Some(PROVIDER_ID)
    requires TakesGateway(ConfigOf(s0, p).value) && gateway.secret != ""
    requires input.websockets.Some? && input.gatewayCatalog.Some? && input.secret.Some? && input.secret.value != ""
    ensures var switched := ApplyGateway(env, s0, p, Some(gateway), now, {}).store;
            var torn := Restore(switched, p, {5}).store;
            var t := Sync(env, torn, [], input, {}).store;
            && !Restorable(s0, t) && LoadState(torn).Some? && p !in LoadBackups(torn)
  {
    var switched := ApplyGateway(env, s0, p, Some(gateway), now, {}).store;
    var torn := Restore(switched, p, {5}).store;
    FirstGateway(env, s0, p, gateway, now);
    GatewayIsSafe(env, s0, s0, p, Some(gateway), now, {});
    RestoreEffect(switched, p, {5});
    RestoreAttempts(switched, p, {5});
    RestoreKeepsRestorable(s0, switched, p, {5});
    assert NoneBelow(5, {5});
    assert Original(torn, p) == Original(s0, p);
    SyncAfterTornRestore(env, s0, torn, p, input);
  }

  lemma FirstGateway(env: Env, s0: Store, p: Key, gateway: GatewayInput, now: int)
    requires LoadBackups(s0) == map[] && LoadState(s0).None? && ConfigOf(s0, p).Some?
    requires TakesGateway(ConfigOf(s0, p).value) && gateway.secret != ""
    ensures var t := ApplyGateway(env, s0, p, Some(gateway), now, {}).store;
            && p in LoadBackups(t) && LoadBackups(t)[p] == Original(s0, p)
            && LoadState(t) == Some(GatewayState(p, gateway, PreviousCatalog(s0, p, ConfigOf(s0, p).value), now))
  {
    var config := ConfigOf(s0, p).value;
    var patched := PatchForGateway(config, gateway.baseUrl, env.managedCatalog(p), gateway.websockets, gateway.secret);
    FirstBackup(s0, p);
    GatewayIsTaken(config, gateway.baseUrl, env.managedCatalog(p), gateway.websockets, gateway.secret);
    FirstWrites(EnsureBackup(TryMigrate(Start(s0), p, {}), p, {}), gateway.catalog, patched.value,
                GatewayState(p, gateway, PreviousCatalog(s0, p, config), now));
  }

  lemma FirstBackup(s0: Store, p: Key)
    requires LoadBackups(s0) == map[]
    ensures var backed := EnsureBackup(TryMigrate(Start(s0), p, {}), p, {});
            backed.ok && p in LoadBackups(backed.store) && LoadBackups(backed.store)[p] == Original(s0, p)
  {
    var migrated := TryMigrate(Start(s0), p, {});
    MigrateEffect(Start(s0), p, {});
    BackupEffect(migrated, p, {});
    assert Original(migrated.store, p) == Original(s0, p) && LoadBackups(migrated.store) == map[];
  }

  lemma FirstWrites(backed: Progress, catalog: seq<string>, config: Config, st: ManagedState)
    requires backed.ok
    ensures var t := ManagedWrites(backed, catalog, config, st, {}).store;
            LoadBackups(t) == LoadBackups(backed.store) && LoadState(t) == Some(st)
  {
    WritesAttempts(backed, catalog, config, st, {});
    ManagedWritesEffect(backed, catalog, config, st, {});
  }

  lemma RewriteIsNotRestorable(env: Env, s0: Store, s: Store, st: ManagedState, catalog: seq<string>,
                               websockets: Option<bool>, secret: string)
    requires Restorable(s0, s) && st.profile !in LoadBackups(s)
    requires LoadState(s).Some? && websockets.Some? && secret != ""
    requires ConfigOf(s, st.profile).Some? && ConfigOf(s, st.profile).value.provider != Some(PROVIDER_ID)
    requires TakesGateway(ConfigOf(s, st.profile).value)
    ensures !Restorable(s0, SyncRewrite(env, s, st, catalog, [], websockets, Some(secret), {}).store)
  {
    var patched := PatchForGateway(ConfigOf(s, st.profile).value, st.gatewayBaseUrl.GetOr(DEFAULT_GATEWAY_BASE_URL),
                                   env.managedCatalog(st.profile), websockets.value, secret);
    var settled := st.(slugs := [], supportsWebsockets := websockets);
    WritesAreNotRestorable(s0, s, catalog, patched.value, Dirty(LoadState(s).value, st, settled), settled);
  }

  lemma WritesAreNotRestorable(s0: Store, s: Store, catalog: seq<string>, config: Config, dirty: bool, st: ManagedState)
    requires Restorable(s0, s) && st.profile !in LoadBackups(s)
    requires ConfigOf(s, st.profile).Some? && ConfigOf(s, st.profile).value != config
    ensures !Restorable(s0, SyncWrites(s, catalog, Some(config), dirty, st, {}).store)
  {
    SyncConfigWritten(s, catalog, config, dirty, st);
    SyncWritesEffect(s, catalog, Some(config), dirty, st, {});
    ChangedIsNotRestorable(s0, s, SyncWrites(s, catalog, Some(config), dirty, st, {}).store, st.profile);
  }

  lemma SyncWithoutSelection(env: Env, s: Store, input: SyncInput)
    requires LoadState(s).Some? && LoadState(s).value.mode.Gateway? && LoadState(s).value.apiKeyId.Some?
    requires LoadState(s).value.slugs == [] && input.websockets.Some? && input.gatewayCatalog.Some?
    ensures Sync(env, s, [], input, {})
         == SyncRewrite(env, s, LoadState(s).value.(slugs := []), input.gatewayCatalog.value, [],
                        SyncWebsockets(LoadState(s).value, input), input.secret, {})
  {
    PlanWithoutSelection(env, s, input);
  }

  /** Without a selection, a sync of a gateway profile rewrites its full catalog. */
  lemma PlanWithoutSelection(env: Env, s: Store, input: SyncInput)
    requires LoadState(s).Some? && LoadState(s).value.mode.Gateway? && LoadState(s).value.apiKeyId.Some?
    requires LoadState(s).value.slugs == [] && input.websockets.Some? && input.gatewayCatalog.Some?
    ensures PlanSync(env, s, [], input)
         == Rewrite(LoadState(s).value.(slugs := []), input.gatewayCatalog.value, [],
                    SyncWebsockets(LoadState(s).value, input))
  {
    SelectionChanges.EmptySelectionStays([]);
  }

  lemma SyncConfigWritten(s: Store, catalog: seq<string>, config: Config, dirty: bool, st: ManagedState)
    ensures Read(SyncWrites(s, catalog, Some(config), dirty, st, {}).store, ConfigFile(st.profile))
        == Some(Toml(config))
  {
  }

  lemma ChangedIsNotRestorable(s0: Store, s: Store, t: Store, p: Key)
    requires Restorable(s0, s) && p !in LoadBackups(s) && OnlyChanges(s, t, Own(p))
    requires ConfigOf(s, p).Some? && ConfigOf(t, p).Some? && ConfigOf(t, p) != ConfigOf(s, p)
    ensures !Restorable(s0, t)
  {
    assert LoadBackups(t) == LoadBackups(s);
    assert Original(t, p).config != Original(s, p).config;
  }

  // ----- selected models: the rollbacks that do harm -----

  /** The rollback takes a new backup entry back but cannot restore the config that the commit wrote. */
  ghost predicate Withdrawn(s: Store, left: Store, p: Key, failed: set<Loc>) {
    && p !in LoadBackups(s) && BackupsSetting !in failed
    && ConfigFile(p) in failed && Read(left, ConfigFile(p)) != Read(s, ConfigFile(p))
  }

  /** Whatever fails, the profile stays restorable unless the commit took its first backup and wrote another
      config, and the rollback then withdraws the backup and fails to restore the config. */
  lemma DirtyRollback(env: Env, s0: Store, s: Store, p: Key, config: Config, slugs: seq<string>, now: int,
                      faults: set<nat>)
    requires Restorable(s0, s)
    ensures Restorable(s0, ApplyModelsCommit(env, s, p, config, slugs, now, faults).store)
        <==> !LosesBackup(env, s, p, config, faults)
  {
    var r := ApplyModelsCommit(env, s, p, config, slugs, now, faults);
    var left := CommitModels(env, s, p, config, slugs, now, faults).store;
    ModelsAllOrNothing(env, s, p, config, slugs, now, faults);
    CapturedMembers(p);
    if r.RolledBack? {
      CommitBackups(env, s, p, config, slugs, now, faults);
      PartlyRestored(s0, s, left, r.store, p, r.failed);
      WithdrawnByNumbers(env, s, p, config, slugs, now, faults);
    } else {
      CommittedIsRestorable(env, s0, s, r.store, p, config, slugs);
      if p !in LoadBackups(s) {
        CommitAttempts(env, s, p, config, slugs, now, faults);
      }
    }
  }

  lemma CommittedIsRestorable(env: Env, s0: Store, s: Store, t: Store, p: Key, config: Config, slugs: seq<string>)
    requires Restorable(s0, s) && Committed(env, s, t, p, config, slugs)
    ensures Restorable(s0, t)
  {
    CapturedMembers(p);
    forall q | q != p ensures Original(t, q) == Original(s, q) {
    }
  }

  /** Which of the seven restores of a rollback fail. */
  lemma RollbackNumbers(env: Env, s: Store, p: Key, config: Config, slugs: seq<string>, now: int, faults: set<nat>)
    requires ApplyModelsCommit(env, s, p, config, slugs, now, faults).RolledBack?
    ensures var r, c := ApplyModelsCommit(env, s, p, config, slugs, now, faults),
        CommitModels(env, s, p, config, slugs, now, faults).clock;
            && !CommitModels(env, s, p, config, slugs, now, faults).ok
            && (StateSetting in r.failed <==> c + 1 in faults)
            && (ConfigFile(p) in r.failed <==> c + 4 in faults)
            && (BackupsSetting in r.failed <==> c + 6 in faults)
  {
    var commit := CommitModels(env, s, p, config, slugs, now, faults);
    var u := Undo(commit.store, commit.clock, {});
    RollbackAttempts(u, s, Captured(p), faults, 1);
    RollbackAttempts(u, s, Captured(p), faults, 4);
    RollbackAttempts(u, s, Captured(p), faults, 6);
  }

  lemma WithdrawnByNumbers(env: Env, s: Store, p: Key, config: Config, slugs: seq<string>, now: int, faults: set<nat>)
    requires ApplyModelsCommit(env, s, p, config, slugs, now, faults).RolledBack?
    ensures Withdrawn(s, CommitModels(env, s, p, config, slugs, now, faults).store, p,
                      ApplyModelsCommit(env, s, p, config, slugs, now, faults).failed)
       <==> LosesBackup(env, s, p, config, faults)
  {
    if p !in LoadBackups(s) {
      var commit := CommitModels(env, s, p, config, slugs, now, faults);
      CommitAttempts(env, s, p, config, slugs, now, faults);
      RollbackNumbers(env, s, p, config, slugs, now, faults);
      WithdrawnWhen(env, s, commit, p, config,
                    SelectionState(env, PrepareModels(s, p, faults).store, p, config, slugs, now),
                    ApplyModelsCommit(env, s, p, config, slugs, now, faults).failed, faults);
    }
  }

  lemma WithdrawnWhen(env: Env, s: Store, commit: Progress, p: Key, config: Config, st: ManagedState, failed: set<Loc>,
                      faults: set<nat>)
    requires p !in LoadBackups(s) && !commit.ok
    requires Reached(s, commit, p, MigrationWrites(s, p) + 1, PatchForManagedCatalog(config, env.managedCatalog(p)), st,
                     faults)
    requires ConfigFile(p) in failed <==> commit.clock + 4 in faults
    requires BackupsSetting in failed <==> commit.clock + 6 in faults
    ensures Withdrawn(s, commit.store, p, failed) <==> LosesBackup(env, s, p, config, faults)
  {
  }

  /** Applying models keeps everything safe exactly when no rollback loses the backup or leaves the state. */
  lemma CommitSafety(env: Env, s0: Store, s: Store, p: Key, config: Config, slugs: seq<string>, now: int,
                     faults: set<nat>)
    requires Safe(s0, s)
    ensures Safe(s0, ApplyModelsCommit(env, s, p, config, slugs, now, faults).store)
       <==> !LosesBackup(env, s, p, config, faults) && !LeavesState(s, p, faults)
  {
    DirtyRollback(env, s0, s, p, config, slugs, now, faults);
    StateStaysBacked(env, s, p, config, slugs, now, faults);
  }

  lemma StateStaysBacked(env: Env, s: Store, p: Key, config: Config, slugs: seq<string>, now: int, faults: set<nat>)
    requires StateBacked(s)
    ensures StateBacked(ApplyModelsCommit(env, s, p, config, slugs, now, faults).store) <==> !LeavesState(s, p, faults)
  {
    if ApplyModelsCommit(env, s, p, config, slugs, now, faults).RolledBack? {
      RolledBackState(env, s, p, config, slugs, now, faults);
    } else {
      AppliedState(env, s, p, config, slugs, now, faults);
    }
  }

  lemma AppliedState(env: Env, s: Store, p: Key, config: Config, slugs: seq<string>, now: int, faults: set<nat>)
    requires CommitModels(env, s, p, config, slugs, now, faults).ok
    ensures StateBacked(CommitModels(env, s, p, config, slugs, now, faults).store) && !LeavesState(s, p, faults)
  {
    CommitEffect(env, s, p, config, slugs, now, faults);
    CommittedIsBacked(env, s, CommitModels(env, s, p, config, slugs, now, faults).store, p, config, slugs);
    if p !in LoadBackups(s) {
      CommitAttempts(env, s, p, config, slugs, now, faults);
      ReachedEnd(s, CommitModels(env, s, p, config, slugs, now, faults), p,
                 PatchForManagedCatalog(config, env.managedCatalog(p)),
                 SelectionState(env, PrepareModels(s, p, faults).store, p, config, slugs, now), faults);
    }
  }

  lemma CommittedIsBacked(env: Env, s: Store, t: Store, p: Key, config: Config, slugs: seq<string>)
    requires Committed(env, s, t, p, config, slugs)
    ensures StateBacked(t)
  {
  }

  lemma ReachedEnd(s: Store, o: Progress, p: Key, patched: Config, st: ManagedState, faults: set<nat>)
    requires o.ok && Reached(s, o, p, MigrationWrites(s, p) + 1, patched, st, faults)
    ensures !LeavesState(s, p, faults)
  {
  }

  lemma RolledBackState(env: Env, s: Store, p: Key, config: Config, slugs: seq<string>, now: int, faults: set<nat>)
    requires StateBacked(s) && ApplyModelsCommit(env, s, p, config, slugs, now, faults).RolledBack?
    ensures StateBacked(ApplyModelsCommit(env, s, p, config, slugs, now, faults).store) <==> !LeavesState(s, p, faults)
  {
    var r := ApplyModelsCommit(env, s, p, config, slugs, now, faults);
    var left := CommitModels(env, s, p, config, slugs, now, faults).store;
    RolledBackSettings(env, s, p, config, slugs, now, faults);
    CommitBackups(env, s, p, config, slugs, now, faults);
    CommitStates(env, s, p, config, slugs, now, faults);
    BackedAfterRollback(s, left, r.store, p, StateSetting in r.failed, BackupsSetting in r.failed);
    LeftByNumbers(env, s, p, config, slugs, now, faults);
  }

  lemma RolledBackSettings(env: Env, s: Store, p: Key, config: Config, slugs: seq<string>, now: int, faults: set<nat>)
    requires ApplyModelsCommit(env, s, p, config, slugs, now, faults).RolledBack?
    ensures var r := ApplyModelsCommit(env, s, p, config, slugs, now, faults);
            var left := CommitModels(env, s, p, config, slugs, now, faults).store;
            && LoadState(r.store) == (if StateSetting in r.failed then LoadState(left) else LoadState(s))
            && LoadBackups(r.store) == (if BackupsSetting in r.failed then LoadBackups(left) else LoadBackups(s))
  {
    ModelsAllOrNothing(env, s, p, config, slugs, now, faults);
    var r := ApplyModelsCommit(env, s, p, config, slugs, now, faults);
    RestoredSettings(s, r.store, CommitModels(env, s, p, config, slugs, now, faults).store, p, r.failed);
  }

  lemma RestoredSettings(s: Store, t: Store, left: Store, p: Key, failed: set<Loc>)
    requires forall l :: l in CapturedSet(p) - failed ==> Read(t, l) == SavedContent(s, l)
    requires forall l :: l in failed ==> Read(t, l) == Read(left, l)
    ensures LoadState(t) == (if StateSetting in failed then LoadState(left) else LoadState(s))
    ensures LoadBackups(t) == (if BackupsSetting in failed then LoadBackups(left) else LoadBackups(s))
  {
    CapturedMembers(p);
  }

  /** After a rollback the state is backed, unless a new state stays while its new backup is withdrawn. */
  lemma BackedAfterRollback(s: Store, left: Store, t: Store, p: Key, stateFailed: bool, backupsFailed: bool)
    requires StateBacked(s) && BackedFirst(s, left, p)
    requires LoadState(t) == if stateFailed then LoadState(left) else LoadState(s)
    requires LoadBackups(t) == if backupsFailed then LoadBackups(left) else LoadBackups(s)
    requires LoadState(left) == LoadState(s)
        || (LoadState(left).Some? && LoadState(left).value.profile == p && p in LoadBackups(left))
    ensures StateBacked(t)
        <==> !(p !in LoadBackups(s) && stateFailed && !backupsFailed && LoadState(left) != LoadState(s))
  {
  }

  /** The rollback takes a new backup entry back but cannot restore the state that the commit saved. */
  ghost predicate LeftBehind(s: Store, left: Store, p: Key, failed: set<Loc>) {
    && p !in LoadBackups(s) && StateSetting in failed && BackupsSetting !in failed
    && LoadState(left) != LoadState(s)
  }

  lemma LeftByNumbers(env: Env, s: Store, p: Key, config: Config, slugs: seq<string>, now: int, faults: set<nat>)
    requires StateBacked(s) && ApplyModelsCommit(env, s, p, config, slugs, now, faults).RolledBack?
    ensures LeftBehind(s, CommitModels(env, s, p, config, slugs, now, faults).store, p,
                       ApplyModelsCommit(env, s, p, config, slugs, now, faults).failed)
       <==> LeavesState(s, p, faults)
  {
    if p !in LoadBackups(s) {
      CommitAttempts(env, s, p, config, slugs, now, faults);
      RollbackNumbers(env, s, p, config, slugs, now, faults);
      LeftWhen(s, CommitModels(env, s, p, config, slugs, now, faults), p,
               PatchForManagedCatalog(config, env.managedCatalog(p)),
               SelectionState(env, PrepareModels(s, p, faults).store, p, config, slugs, now),
               ApplyModelsCommit(env, s, p, config, slugs, now, faults).failed, faults);
    }
  }

  lemma LeftWhen(s: Store, commit: Progress, p: Key, patched: Config, st: ManagedState, failed: set<Loc>,
                 faults: set<nat>)
    requires StateBacked(s) && p !in LoadBackups(s) && !commit.ok && st.profile == p
    requires Reached(s, commit, p, MigrationWrites(s, p) + 1, patched, st, faults)
    requires StateSetting in failed <==> commit.clock + 1 in faults
    requires BackupsSetting in failed <==> commit.clock + 6 in faults
    ensures LeftBehind(s, commit.store, p, failed) <==> LeavesState(s, p, faults)
  {
  }

  lemma WritesState(o: Progress, catalog: seq<string>, config: Config, st: ManagedState, faults: set<nat>)
    requires o.ok ==> st.profile in LoadBackups(o.store)
    ensures var t := ManagedWrites(o, catalog, config, st, faults).store;
            LoadState(t) == LoadState(o.store) || (LoadState(t) == Some(st) && st.profile in LoadBackups(t))
  {
    if o.ok {
      ManagedWritesEffect(o, catalog, config, st, faults);
      StateSaved(o, ManagedWrites(o, catalog, config, st, faults), catalog, config, st);
    } else {
      StoppedStays(o, catalog, config, st, faults);
    }
  }

  lemma StateSaved(o: Progress, r: Progress, catalog: seq<string>, config: Config, st: ManagedState)
    requires ManagedWritten(o, r, catalog, config, st) && st.profile in LoadBackups(o.store)
    ensures LoadState(r.store) == LoadState(o.store)
         || (LoadState(r.store) == Some(st) && st.profile in LoadBackups(r.store))
  {
    assert LoadBackups(r.store) == LoadBackups(o.store);
  }

  /** A commit saves no state, or one of its profile with the backup taken. */
  lemma CommitStates(env: Env, s: Store, p: Key, config: Config, slugs: seq<string>, now: int, faults: set<nat>)
    ensures var t := CommitModels(env, s, p, config, slugs, now, faults).store;
            LoadState(t) == LoadState(s)
              || (LoadState(t).Some? && LoadState(t).value.profile == p && p in LoadBackups(t))
  {
    var backed := PrepareModels(s, p, faults);
    PrepareEffect(s, p, faults);
    PrepareIsBackedFirst(s, p, faults);
    StateUntouched(s, backed.store, {MarkerFile(p), LegacyMarkerFile(p), BackupsSetting});
    WritesState(backed, slugs, PatchForManagedCatalog(config, env.managedCatalog(p)),
                SelectionState(env, backed.store, p, config, slugs, now), faults);
  }

  /** A commit either adds the entry of this profile or leaves the backups as they are. */
  lemma CommitBackups(env: Env, s: Store, p: Key, config: Config, slugs: seq<string>, now: int, faults: set<nat>)
    ensures BackedFirst(s, CommitModels(env, s, p, config, slugs, now, faults).store, p)
  {
    var backed := PrepareModels(s, p, faults);
    PrepareIsBackedFirst(s, p, faults);
    var st := SelectionState(env, backed.store, p, config, slugs, now);
    WritesStayBackedFirst(s, backed, slugs, PatchForManagedCatalog(config, env.managedCatalog(p)), st, faults);
  }

  ghost predicate BackedFirst(s: Store, t: Store, p: Key) {
    && (LoadBackups(t) == LoadBackups(s)
        || (p !in LoadBackups(s) && LoadBackups(t) == LoadBackups(s)[p := Original(s, p)]))
    && (p !in LoadBackups(t) ==> Read(t, ConfigFile(p)) == Read(s, ConfigFile(p)))
  }

  lemma PrepareIsBackedFirst(s: Store, p: Key, faults: set<nat>)
    ensures BackedFirst(s, PrepareModels(s, p, faults).store, p)
    ensures PrepareModels(s, p, faults).ok ==> p in LoadBackups(PrepareModels(s, p, faults).store)
  {
    PrepareEffect(s, p, faults);
    var migrated := if LegacyMarkerFile(p) in s then Migrate(Start(s), p, faults) else Start(s);
    MigrateEffect(Start(s), p, faults);
    assert LoadBackups(migrated.store) == LoadBackups(s) && Original(migrated.store, p) == Original(s, p);
  }

  lemma StaysBackedFirst(s: Store, u: Store, t: Store, p: Key)
    requires BackedFirst(s, u, p) && p in LoadBackups(u) && OnlyChanges(u, t, Own(p))
    ensures BackedFirst(s, t, p)
  {
    assert LoadBackups(t) == LoadBackups(u);
  }

  lemma WritesStayBackedFirst(s: Store, backed: Progress, slugs: seq<string>, config: Config, st: ManagedState,
                              faults: set<nat>)
    requires BackedFirst(s, backed.store, st.profile)
    requires backed.ok ==> st.profile in LoadBackups(backed.store)
    ensures BackedFirst(s, ManagedWrites(backed, slugs, config, st, faults).store, st.profile)
  {
    if backed.ok {
      ManagedWritesEffect(backed, slugs, config, st, faults);
      StaysBackedFirst(s, backed.store, ManagedWrites(backed, slugs, config, st, faults).store, st.profile);
    } else {
      StoppedStays(backed, slugs, config, st, faults);
    }
  }

  lemma PartlyRestored(s0: Store, s: Store, left: Store, t: Store, p: Key, failed: set<Loc>)
    requires Restorable(s0, s)
    requires OnlyChanges(s, t, CapturedSet(p))
    requires forall l :: l in CapturedSet(p) - failed ==> Read(t, l) == SavedContent(s, l)
    requires forall l :: l in failed ==> Read(t, l) == Read(left, l)
    requires CapturedSet(p) == {HomeSetting, StateSetting, MarkerFile(p), LegacyMarkerFile(p), ConfigFile(p),
                                CatalogFile(p), BackupsSetting}
    requires BackedFirst(s, left, p)
    ensures Restorable(s0, t) <==> !Withdrawn(s, left, p, failed)
  {
    assert LoadBackups(t) == if BackupsSetting in failed then LoadBackups(left) else LoadBackups(s);
    assert Read(t, ConfigFile(p)) == if ConfigFile(p) in failed then Read(left, ConfigFile(p))
        else Read(s, ConfigFile(p));
    assert Read(t, AuthFile(p)) == Read(s, AuthFile(p));
    forall q | q != p ensures Original(t, q) == Original(s, q) {
    }
    WithdrawnOrKept(s0, s, left, t, p, failed);
  }

  lemma WithdrawnOrKept(s0: Store, s: Store, left: Store, t: Store, p: Key, failed: set<Loc>)
    requires Restorable(s0, s) && BackedFirst(s, left, p)
    requires LoadBackups(t) == if BackupsSetting in failed then LoadBackups(left) else LoadBackups(s)
    requires Read(t, ConfigFile(p)) == if ConfigFile(p) in failed then Read(left, ConfigFile(p))
        else Read(s, ConfigFile(p))
    requires Read(t, AuthFile(p)) == Read(s, AuthFile(p))
    requires forall q :: q != p ==> Original(t, q) == Original(s, q)
    ensures Restorable(s0, t) <==> !Withdrawn(s, left, p, failed)
  {
  }
}
