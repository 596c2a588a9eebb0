/** The first-touch backup: what a restore can always bring back. */
module ProfileBackups {
  import opened Text
  import opened ProfileStore
  import opened ProfileOps
  import opened ProfileFrames
  import opened ModelsCommit
  import opened ProfileRuns

  /** Every profile either has its original files in the backups or still has them in place. */
  ghost predicate Restorable(s0: Store, s: Store) {
    && (forall p :: p in LoadBackups(s) ==> LoadBackups(s)[p] == Original(s0, p))
    && (forall p :: p !in LoadBackups(s) ==> Original(s, p) == Original(s0, p))
  }

  /** The persisted state belongs to a profile that has a backup entry. */
  ghost predicate StateBacked(s: Store) {
    LoadState(s).Some? ==> LoadState(s).value.profile in LoadBackups(s)
  }

  ghost predicate Safe(s0: Store, s: Store) {
    Restorable(s0, s) && StateBacked(s)
  }

  /** The locations of one profile, and the settings other than the backups. */
  ghost function Own(p: Key): set<Loc> {
    {AuthFile(p), ConfigFile(p), CatalogFile(p), MarkerFile(p), LegacyMarkerFile(p), StateSetting, HomeSetting}
  }

  /** Once a profile is backed up, its own files may change at will. */
  lemma SafeFrame(s0: Store, s: Store, t: Store, p: Key)
    requires Safe(s0, s) && p in LoadBackups(s) && OnlyChanges(s, t, Own(p))
    requires LoadState(t) == LoadState(s) || (LoadState(t).Some? ==> LoadState(t).value.profile == p)
    ensures Safe(s0, t)
  {
    assert LoadBackups(t) == LoadBackups(s);
    forall q | q !in LoadBackups(t) ensures Original(t, q) == Original(s0, q) {
      assert Original(s, q) == Original(s0, q);
    }
  }

  /** Migrating markers and taking the backup keeps everything safe; a backup that worked is there. */
  lemma BackupIsSafe(s0: Store, s: Store, o: Progress, p: Key, faults: set<nat>)
    requires Safe(s0, s) && OnlyChanges(s, o.store, {MarkerFile(p), LegacyMarkerFile(p)})
    ensures Safe(s0, EnsureBackup(o, p, faults).store)
    ensures EnsureBackup(o, p, faults).ok ==> p in LoadBackups(EnsureBackup(o, p, faults).store)
  {
    var t := o.store;
    assert LoadBackups(t) == LoadBackups(s) && LoadState(t) == LoadState(s);
    forall q ensures Original(t, q) == Original(s, q) {
    }
    var r := EnsureBackup(o, p, faults);
    BackupEffect(o, p, faults);
    forall q ensures Original(r.store, q) == Original(t, q) {
    }
    assert LoadState(r.store) == LoadState(s);
    if p !in LoadBackups(t) {
      assert LoadBackups(r.store) == LoadBackups(t) || LoadBackups(r.store) == LoadBackups(t)[p := Original(t, p)];
    }
  }

  /** The writes after the backup keep everything safe, wherever they stop. */
  lemma WritesAreSafe(s0: Store, o: Progress, t: Store, p: Key)
    requires Safe(s0, o.store) && (o.ok ==> p in LoadBackups(o.store))
    requires o.ok ==> OnlyChanges(o.store, t, Own(p))
    requires !o.ok ==> t == o.store
    requires LoadState(t) == LoadState(o.store) || (LoadState(t).Some? && LoadState(t).value.profile == p)
    ensures Safe(s0, t)
  {
    if o.ok {
      SafeFrame(s0, o.store, t, p);
    }
  }

  lemma ManagedWritesAreSafe(s0: Store, o: Progress, catalog: seq<string>, config: Config, st: ManagedState,
                             faults: set<nat>)
    requires Safe(s0, o.store) && (o.ok ==> st.profile in LoadBackups(o.store))
    ensures Safe(s0, ManagedWrites(o, catalog, config, st, faults).store)
  {
    ManagedWritesEffect(o, catalog, config, st, faults);
    WritesAreSafe(s0, o, ManagedWrites(o, catalog, config, st, faults).store, st.profile);
  }

  lemma AccountWritesAreSafe(s0: Store, o: Progress, auth: Content, config: Config, st: ManagedState, faults: set<nat>)
    requires Safe(s0, o.store) && (o.ok ==> st.profile in LoadBackups(o.store))
    ensures Safe(s0, AccountWrites(o, auth, config, st, faults).store)
  {
    AccountWritesEffect(o, auth, config, st, faults);
    WritesAreSafe(s0, o, AccountWrites(o, auth, config, st, faults).store, st.profile);
  }

  lemma PreparedIsSafe(s0: Store, s: Store, p: Key, faults: set<nat>)
    requires Safe(s0, s)
    ensures Safe(s0, TryMigrate(Start(s), p, faults).store)
    ensures var backed := EnsureBackup(TryMigrate(Start(s), p, faults), p, faults);
            Safe(s0, backed.store) && (backed.ok ==> p in LoadBackups(backed.store))
  {
    var migrated := TryMigrate(Start(s), p, faults);
    MigrateEffect(Start(s), p, faults);
    BackupIsSafe(s0, s, migrated, p, faults);
    BackupIsSafe(s0, s, migrated.(ok := false), p, faults);
  }

  lemma AccountIsSafe(env: Env, s0: Store, s: Store, p: Key, input: Option<AccountInput>, now: int, faults: set<nat>)
    requires Safe(s0, s)
    ensures Safe(s0, ApplyDirectAccount(env, s, p, input, now, faults).store)
  {
    PreparedIsSafe(s0, s, p, faults);
    var backed := EnsureBackup(TryMigrate(Start(s), p, faults), p, faults);
    forall config | input.Some?
      ensures var st := AccountState(p, input.value.accountId, now);
              Safe(s0, AccountWrites(backed, input.value.auth, config, st, faults).store)
    {
      AccountWritesAreSafe(s0, backed, input.value.auth, config, AccountState(p, input.value.accountId, now), faults);
    }
  }

  lemma GatewayIsSafe(env: Env, s0: Store, s: Store, p: Key, input: Option<GatewayInput>, now: int, faults: set<nat>)
    requires Safe(s0, s)
    ensures Safe(s0, ApplyGateway(env, s, p, input, now, faults).store)
  {
    PreparedIsSafe(s0, s, p, faults);
    var backed := EnsureBackup(TryMigrate(Start(s), p, faults), p, faults);
    if input.Some? && ConfigOf(s, p).Some? {
      var i, config := input.value, ConfigOf(s, p).value;
      var patched := PatchForGateway(config, i.baseUrl, env.managedCatalog(p), i.websockets, i.secret);
      if patched.Some? {
        ManagedWritesAreSafe(s0, backed, i.catalog, patched.value,
                             GatewayState(p, i, PreviousCatalog(s, p, config), now), faults);
      }
    }
  }

  lemma AggregateIsSafe(env: Env, s0: Store, s: Store, p: Key, input: Option<AggregateInput>, now: int,
                        faults: set<nat>)
    requires Safe(s0, s)
    ensures Safe(s0, ApplyDirectAggregate(env, s, p, input, now, faults).store)
  {
    PreparedIsSafe(s0, s, p, faults);
    if input.Some? && input.value.upstream.Some? && ConfigOf(s, p).Some? {
      var backed := EnsureBackup(TryMigrate(Start(s), p, faults), p, faults);
      var slugs := CatalogSelection.Select(input.value.managed, input.value.upstream.value);
      if slugs.Some? && slugs.value != [] {
        SwitchIsSafe(env, s0, s, backed, p, input.value, ConfigOf(s, p).value, slugs.value, now, faults);
      }
    }
  }

  lemma SwitchIsSafe(env: Env, s0: Store, s: Store, backed: Progress, p: Key, input: AggregateInput, config: Config,
                     slugs: seq<string>, now: int, faults: set<nat>)
    requires slugs != [] && Safe(s0, backed.store) && (backed.ok ==> p in LoadBackups(backed.store))
    ensures Safe(s0, SwitchToAggregate(env, s, backed, p, input, config, slugs, now, faults).store)
  {
    var previous := PreviousCatalog(s, p, config);
    var patched := PatchForAggregate(env, config, p, input.api, input.secret, previous,
                                     DefaultModel(slugs, input.api.modelOverride));
    if patched.Some? {
      ManagedWritesAreSafe(s0, backed, slugs, patched.value, AggregateState(p, input, previous, slugs, now), faults);
    }
  }

  lemma SyncIsSafe(env: Env, s0: Store, s: Store, changes: seq<SelectionChanges.Change>, input: SyncInput,
                   faults: set<nat>)
    requires Safe(s0, s)
    ensures Safe(s0, Sync(env, s, changes, input, faults).store)
  {
    SyncEffect(env, s, changes, input, faults);
    var t := Sync(env, s, changes, input, faults).store;
    if LoadState(s).Some? {
      SafeFrame(s0, s, t, LoadState(s).value.profile);
    } else {
      StoresAgree(s, t);
    }
  }

  /** The files of a profile that a sync writes, and the state. */
  ghost function SyncedBy(p: Key): set<Loc> {
    {CatalogFile(p), ConfigFile(p), MarkerFile(p), LegacyMarkerFile(p), StateSetting}
  }

  /** The same state apart from the selection and the websocket flag. */
  predicate SameButSelection(a: ManagedState, b: ManagedState) {
    a == b.(slugs := a.slugs, supportsWebsockets := a.supportsWebsockets)
  }

  /** A sync only touches the profile that the persisted state names, and of the state only the selection and
      the websocket flag. */
  lemma SyncEffect(env: Env, s: Store, changes: seq<SelectionChanges.Change>, input: SyncInput, faults: set<nat>)
    ensures var t := Sync(env, s, changes, input, faults).store;
            && (LoadState(s).None? ==> OnlyChanges(s, t, {}))
            && (LoadState(s).Some? ==> OnlyChanges(s, t, SyncedBy(LoadState(s).value.profile)))
            && (LoadState(s).Some? ==>
                  LoadState(t).Some? && SameButSelection(LoadState(t).value, LoadState(s).value))
  {
    if LoadState(s).Some? {
      match PlanSync(env, s, changes, input)
      case Skip =>
      case Fail =>
      case Detach(st) =>
        assert SameButSelection(st, LoadState(s).value);
        SyncDetachEffect(env, s, st, faults);
      case Rewrite(st, catalog, slugs, websockets) =>
        assert SameButSelection(st, LoadState(s).value);
        SyncRewriteEffect(env, s, st, catalog, slugs, websockets, input.secret, faults);
    }
  }

  lemma SaveIfDirtyEffect(o: Progress, dirty: bool, st: ManagedState, faults: set<nat>)
    ensures var r := SaveIfDirty(o, dirty, st, faults);
            && OnlyChanges(o.store, r.store, {MarkerFile(st.profile), LegacyMarkerFile(st.profile), StateSetting})
            && (LoadState(r.store) == LoadState(o.store) || LoadState(r.store) == Some(st))
  {
    var marked := SaveMarker(o, st, faults);
    assert OnlyChanges(o.store, marked.store, {MarkerFile(st.profile), LegacyMarkerFile(st.profile)});
  }

  lemma SyncDetachEffect(env: Env, s: Store, st: ManagedState, faults: set<nat>)
    requires LoadState(s).Some? && SameButSelection(st, LoadState(s).value)
    ensures var t := SyncDetach(env, s, st, faults).store;
            && OnlyChanges(s, t, SyncedBy(st.profile))
            && LoadState(t).Some? && SameButSelection(LoadState(t).value, LoadState(s).value)
  {
    var config := ConfigOf(s, st.profile);
    if config.Some? {
      var restored := RestorePreviousCatalog(env, config.value, st.profile, st.previousCatalog);
      var configured := Must(Start(s), ConfigFile(st.profile), Some(Toml(restored)), faults);
      var cleared := st.(slugs := []);
      SaveIfDirtyEffect(configured, Dirty(LoadState(s).value, st, cleared), cleared, faults);
    }
  }

  lemma SyncRewriteEffect(env: Env, s: Store, st: ManagedState, catalog: seq<string>, slugs: seq<string>,
                          websockets: Option<bool>, secret: Option<string>, faults: set<nat>)
    requires LoadState(s).Some? && SameButSelection(st, LoadState(s).value)
    ensures var t := SyncRewrite(env, s, st, catalog, slugs, websockets, secret, faults).store;
            && OnlyChanges(s, t, SyncedBy(st.profile))
            && LoadState(t).Some? && SameButSelection(LoadState(t).value, LoadState(s).value)
  {
    var config := ConfigOf(s, st.profile);
    var settled := st.(slugs := slugs,
                       supportsWebsockets := if websockets.Some? then websockets else st.supportsWebsockets);
    var dirty := Dirty(LoadState(s).value, st, settled);
    if websockets.None? {
      SyncWritesEffect(s, catalog, None, dirty, settled, faults);
    } else if config.Some? && secret.Some? {
      var patched := PatchForGateway(config.value, st.gatewayBaseUrl.GetOr(DEFAULT_GATEWAY_BASE_URL),
                                     env.managedCatalog(st.profile), websockets.value, secret.value);
      if patched.Some? {
        SyncWritesEffect(s, catalog, patched, dirty, settled, faults);
      }
    }
  }

  lemma SyncWritesEffect(s: Store, catalog: seq<string>, config: Option<Config>, dirty: bool, st: ManagedState,
                         faults: set<nat>)
    ensures var t := SyncWrites(s, catalog, config, dirty, st, faults).store;
            && OnlyChanges(s, t, SyncedBy(st.profile))
            && (LoadState(t) == LoadState(s) || LoadState(t) == Some(st))
            && (Read(t, ConfigFile(st.profile)) == Read(s, ConfigFile(st.profile))
                || (config.Some? && Read(t, ConfigFile(st.profile)) == Some(Toml(config.value))))
  {
    var listed := Must(Start(s), CatalogFile(st.profile), Some(CatalogJson(catalog)), faults);
    var configured := if config.Some? then Must(listed, ConfigFile(st.profile), Some(Toml(config.value)), faults)
        else listed;
    SaveIfDirtyEffect(configured, dirty, st, faults);
  }
}
