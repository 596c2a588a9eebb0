/** Carrying the user's own `model_catalog_json` through the modes that replace it. */
module CatalogPointer {
  import opened Text
  import opened ProfileStore
  import opened ProfileOps
  import opened ProfileFrames
  import opened ModelsCommit
  import opened ProfileRuns
  import opened ProfileBackups
  import opened ProfileAttempts
  import opened ProfileRestore

  /** The modes whose saved pointer later operations trust. */
  predicate Managing(st: ManagedState) {
    st.mode.Gateway? || st.mode.DirectAggregate?
  }

  ghost predicate ManagedBy(s: Store, p: Key) {
    StateOf(s, p).Some? && Managing(StateOf(s, p).value)
  }

  /** The user's own pointer is no path of the manager's. */
  ghost predicate Foreign(env: Env, p: Key, u: Option<string>) {
    u.Some? ==> !env.SamePath(u.value, env.managedCatalog(p))
  }

  /** A config holds the managed pointer while a managing state has the user's, or else the user's. */
  ghost predicate PointerKept(env: Env, p: Key, u: Option<string>, c: Config, state: Option<ManagedState>) {
    if env.PointsToManaged(c, p) then
      c.catalog == Catalog(env.managedCatalog(p)) && state.Some? && state.value.profile == p && Managing(state.value)
    else c.catalog == OptCatalog(u)
  }

  /** On the one profile `p`, whose own pointer is `u`. */
  ghost predicate Carried(env: Env, p: Key, u: Option<string>, s: Store) {
    && ConfigOf(s, p).Some?
    && (LoadState(s).Some? ==> LoadState(s).value.profile == p)
    && (LoadState(s).Some? && Managing(LoadState(s).value) ==> LoadState(s).value.previousCatalog == u)
    && PointerKept(env, p, u, ConfigOf(s, p).value, LoadState(s))
  }

  /** What the pointer depends on. */
  lemma CarriedDependsOn(env: Env, p: Key, u: Option<string>, s: Store, t: Store)
    requires Carried(env, p, u, s)
    requires Read(t, ConfigFile(p)) == Read(s, ConfigFile(p)) && LoadState(t) == LoadState(s)
    ensures Carried(env, p, u, t)
  {
  }

  /** The pointer that a switch saves or puts back is the user's own. */
  lemma PreviousIsOwn(env: Env, p: Key, u: Option<string>, s: Store)
    requires Carried(env, p, u, s)
    ensures PreviousCatalog(s, p, ConfigOf(s, p).value) == u
  {
  }

  lemma PrepareKeepsPointer(s: Store, p: Key, faults: set<nat>)
    ensures var backed := EnsureBackup(TryMigrate(Start(s), p, faults), p, faults);
            Read(backed.store, ConfigFile(p)) == Read(s, ConfigFile(p)) && LoadState(backed.store) == LoadState(s)
    ensures var migrated := TryMigrate(Start(s), p, faults);
            Read(migrated.store, ConfigFile(p)) == Read(s, ConfigFile(p)) && LoadState(migrated.store) == LoadState(s)
  {
    MigrateEffect(Start(s), p, faults);
    BackupEffect(TryMigrate(Start(s), p, faults), p, faults);
  }

  // ----- the switch to a managing mode -----

  /** Switching to a managing mode keeps the pointer, except when it is torn while no managing mode was
      there to have saved it: both directions. */
  lemma ManagingSwitch(env: Env, p: Key, u: Option<string>, o: Progress, catalog: seq<string>, config: Config,
                       st: ManagedState, faults: set<nat>)
    requires Carried(env, p, u, o.store) && Foreign(env, p, u)
    requires st.profile == p && Managing(st) && st.previousCatalog == u
    requires config.catalog == Catalog(env.managedCatalog(p))
    ensures Carried(env, p, u, ManagedWrites(o, catalog, config, st, faults).store)
       <==> !(Torn(o, faults) && !ManagedBy(o.store, p))
  {
    ManagedWritesReach(o, catalog, config, st, faults);
    var written := o.ok && o.clock !in faults && o.clock + 1 !in faults;
    ReachedPointer(env, p, u, o.store, ManagedWrites(o, catalog, config, st, faults).store, config, st, written,
                   Torn(o, faults));
  }

  lemma ReachedPointer(env: Env, p: Key, u: Option<string>, s: Store, t: Store, config: Config, st: ManagedState,
                       written: bool, torn: bool)
    requires Carried(env, p, u, s) && Foreign(env, p, u)
    requires st.profile == p && Managing(st) && st.previousCatalog == u
    requires config.catalog == Catalog(env.managedCatalog(p))
    requires Read(t, ConfigFile(p)) == (if written then Some(Toml(config)) else Read(s, ConfigFile(p)))
    requires LoadState(t) == (if written && !torn then Some(st) else LoadState(s)) && (torn ==> written)
    ensures Carried(env, p, u, t) <==> !(torn && !ManagedBy(s, p))
  {
  }

  lemma GatewayKeepsPointer(env: Env, p: Key, u: Option<string>, s: Store, input: GatewayInput, now: int,
                            faults: set<nat>)
    requires Carried(env, p, u, s) && Foreign(env, p, u)
    requires PatchForGateway(ConfigOf(s, p).value, input.baseUrl, env.managedCatalog(p), input.websockets,
                             input.secret).Some?
    ensures Carried(env, p, u, ApplyGateway(env, s, p, Some(input), now, faults).store)
       <==> !(Torn(EnsureBackup(TryMigrate(Start(s), p, faults), p, faults), faults) && !ManagedBy(s, p))
  {
    PreviousIsOwn(env, p, u, s);
    PrepareKeepsPointer(s, p, faults);
    var backed := EnsureBackup(TryMigrate(Start(s), p, faults), p, faults);
    CarriedDependsOn(env, p, u, s, backed.store);
    var patched := PatchForGateway(ConfigOf(s, p).value, input.baseUrl, env.managedCatalog(p), input.websockets,
                                   input.secret);
    ManagingSwitch(env, p, u, backed, input.catalog, patched.value, GatewayState(p, input, u, now), faults);
  }

  /** The config that the aggregate switch writes. */
  function AggregatePatch(env: Env, s: Store, p: Key, input: AggregateInput, slugs: seq<string>): Option<Config>
    requires slugs != [] && ConfigOf(s, p).Some?
  {
    var config := ConfigOf(s, p).value;
    PatchForAggregate(env, config, p, input.api, input.secret, PreviousCatalog(s, p, config),
                      DefaultModel(slugs, input.api.modelOverride))
  }

  lemma SwitchKeepsPointer(env: Env, p: Key, u: Option<string>, s: Store, backed: Progress, input: AggregateInput,
                           slugs: seq<string>, now: int, faults: set<nat>)
    requires Carried(env, p, u, s) && Foreign(env, p, u) && slugs != [] && AggregatePatch(env, s, p, input, slugs).Some?
    requires Read(backed.store, ConfigFile(p)) == Read(s, ConfigFile(p)) && LoadState(backed.store) == LoadState(s)
    ensures Carried(env, p, u,
                    SwitchToAggregate(env, s, backed, p, input, ConfigOf(s, p).value, slugs, now, faults).store)
       <==> !(Torn(backed, faults) && !ManagedBy(s, p))
  {
    PreviousIsOwn(env, p, u, s);
    CarriedDependsOn(env, p, u, s, backed.store);
    ManagingSwitch(env, p, u, backed, slugs, AggregatePatch(env, s, p, input, slugs).value,
                   AggregateState(p, input, u, slugs, now), faults);
  }

  /** The aggregate switch keeps the pointer exactly when the gateway switch would. */
  lemma AggregateKeepsPointer(env: Env, p: Key, u: Option<string>, s: Store, input: AggregateInput, now: int,
                              faults: set<nat>)
    requires Carried(env, p, u, s) && Foreign(env, p, u)
    requires input.upstream.Some? && CatalogSelection.Select(input.managed, input.upstream.value).Some?
    requires var slugs := CatalogSelection.Select(input.managed, input.upstream.value).value;
             slugs != [] && AggregatePatch(env, s, p, input, slugs).Some?
    ensures Carried(env, p, u, ApplyDirectAggregate(env, s, p, Some(input), now, faults).store)
       <==> !(Torn(EnsureBackup(TryMigrate(Start(s), p, faults), p, faults), faults) && !ManagedBy(s, p))
  {
    var backed := EnsureBackup(TryMigrate(Start(s), p, faults), p, faults);
    PrepareKeepsPointer(s, p, faults);
    CarriedDependsOn(env, p, u, s, backed.store);
    SwitchKeepsPointer(env, p, u, s, backed, input, CatalogSelection.Select(input.managed, input.upstream.value).value,
                       now, faults);
  }

  // ----- back to an account -----

  /** The account switch keeps the pointer wherever it stops, and a finished one has put it back. */
  lemma AccountWritesKeepPointer(env: Env, p: Key, u: Option<string>, o: Progress, auth: Content, config: Config,
                                 st: ManagedState, faults: set<nat>)
    requires Carried(env, p, u, o.store) && Foreign(env, p, u)
    requires st.profile == p && !Managing(st) && config.catalog == OptCatalog(u)
    ensures var r := AccountWrites(o, auth, config, st, faults);
            && Carried(env, p, u, r.store)
            && (r.ok ==> ConfigOf(r.store, p) == Some(config))
  {
    AccountWritesEffect(o, auth, config, st, faults);
    AccountWritesReach(o, auth, config, st, faults);
    UnmanagedPointer(env, p, u, o.store, AccountWrites(o, auth, config, st, faults).store, config, st);
  }

  lemma UnmanagedPointer(env: Env, p: Key, u: Option<string>, s: Store, t: Store, config: Config, st: ManagedState)
    requires Carried(env, p, u, s) && Foreign(env, p, u)
    requires st.profile == p && !Managing(st) && config.catalog == OptCatalog(u)
    requires LoadState(t) == LoadState(s) || LoadState(t) == Some(st)
    requires (Read(t, ConfigFile(p)) == Read(s, ConfigFile(p)) && LoadState(t) == LoadState(s))
        || Read(t, ConfigFile(p)) == Some(Toml(config))
    ensures Carried(env, p, u, t)
  {
  }

  /** The state is not saved before the config is written. */
  lemma AccountWritesReach(o: Progress, auth: Content, config: Config, st: ManagedState, faults: set<nat>)
    ensures var t := AccountWrites(o, auth, config, st, faults).store;
            || (Read(t, ConfigFile(st.profile)) == Read(o.store, ConfigFile(st.profile))
                && LoadState(t) == LoadState(o.store))
            || Read(t, ConfigFile(st.profile)) == Some(Toml(config))
  {
    var authed := Must(o, AuthFile(st.profile), Some(auth), faults);
    var configured := Must(authed, ConfigFile(st.profile), Some(Toml(config)), faults);
    FinishEffect(configured, st, faults);
    if !configured.ok {
      FinishStopped(configured, st, faults);
    }
  }

  lemma AccountKeepsPointer(env: Env, p: Key, u: Option<string>, s: Store, input: Option<AccountInput>, now: int,
                            faults: set<nat>)
    requires Carried(env, p, u, s) && Foreign(env, p, u)
    ensures var r := ApplyDirectAccount(env, s, p, input, now, faults);
            && Carried(env, p, u, r.store)
            && (r.ok ==> ConfigOf(r.store, p).Some? && ConfigOf(r.store, p).value.catalog == OptCatalog(u))
  {
    PreviousIsOwn(env, p, u, s);
    PrepareKeepsPointer(s, p, faults);
    var migrated := TryMigrate(Start(s), p, faults);
    var backed := EnsureBackup(migrated, p, faults);
    CarriedDependsOn(env, p, u, s, migrated.store);
    CarriedDependsOn(env, p, u, s, backed.store);
    var patched := PatchForDirect(ConfigOf(s, p).value, env.managedCatalog(p), u);
    if input.Some? && patched.Some? {
      AccountWritesKeepPointer(env, p, u, backed, input.value.auth, patched.value,
                               AccountState(p, input.value.accountId, now), faults);
    }
  }

  // ----- selected models, syncs, restores -----

  /** Applying selected models keeps the pointer exactly when the persisted state is a managing one. */
  lemma ModelsKeepPointer(env: Env, p: Key, u: Option<string>, s: Store, slugs: seq<string>, now: int, faults: set<nat>)
    requires Carried(env, p, u, s) && Foreign(env, p, u) && StateOf(s, p).Some?
    requires ApplyModelsCommit(env, s, p, ConfigOf(s, p).value, slugs, now, faults).Applied?
    ensures Carried(env, p, u, ApplyModelsCommit(env, s, p, ConfigOf(s, p).value, slugs, now, faults).store)
       <==> ManagedBy(s, p)
  {
    var config := ConfigOf(s, p).value;
    ModelsAllOrNothing(env, s, p, config, slugs, now, faults);
    CommitKeepsState(env, s, p, config, slugs, now, faults);
    AppliedKeepsPointer(env, p, u, config, CommitModels(env, s, p, config, slugs, now, faults).store,
                        StateOf(s, p).value.(slugs := slugs, updatedAt := now));
  }

  lemma AppliedKeepsPointer(env: Env, p: Key, u: Option<string>, config: Config, t: Store, st: ManagedState)
    requires Read(t, ConfigFile(p)) == Some(Toml(PatchForManagedCatalog(config, env.managedCatalog(p))))
    requires LoadState(t) == Some(st) && st.profile == p
    ensures Carried(env, p, u, t) <==> Managing(st) && st.previousCatalog == u
  {
  }

  /** What the marker migration and the backup of a commit leave when they work does not depend on the faults. */
  lemma PreparedAlike(s: Store, p: Key, faults: set<nat>)
    requires PrepareModels(s, p, faults).ok
    ensures PrepareModels(s, p, faults) == PrepareModels(s, p, {})
  {
  }

  /** In general, with or without a persisted state or a marker: applying selected models keeps the pointer
      exactly when the state that the selection is added to is a managing one that has the user's pointer. */
  lemma SelectionKeepsPointer(env: Env, p: Key, u: Option<string>, s: Store, slugs: seq<string>, now: int,
                              faults: set<nat>)
    requires Carried(env, p, u, s) && Foreign(env, p, u)
    requires ApplyModelsCommit(env, s, p, ConfigOf(s, p).value, slugs, now, faults).Applied?
    ensures Carried(env, p, u, ApplyModelsCommit(env, s, p, ConfigOf(s, p).value, slugs, now, faults).store)
       <==> (var st := StateForModels(env, PrepareModels(s, p, {}).store, p, ConfigOf(s, p).value, now);
             Managing(st) && st.previousCatalog == u)
  {
    var config := ConfigOf(s, p).value;
    ModelsAllOrNothing(env, s, p, config, slugs, now, faults);
    CommitIsPrepared(env, s, p, config, slugs, now, faults);
    PreparedAlike(s, p, faults);
    CommitState(env, s, p, config, slugs, now, faults);
    AppliedKeepsPointer(env, p, u, config, CommitModels(env, s, p, config, slugs, now, faults).store,
                        SelectionState(env, PrepareModels(s, p, faults).store, p, config, slugs, now));
  }

  lemma CommitIsPrepared(env: Env, s: Store, p: Key, config: Config, slugs: seq<string>, now: int, faults: set<nat>)
    requires CommitModels(env, s, p, config, slugs, now, faults).ok
    ensures PrepareModels(s, p, faults).ok
  {
    var backed := PrepareModels(s, p, faults);
    if !backed.ok {
      StoppedStays(backed, slugs, PatchForManagedCatalog(config, env.managedCatalog(p)),
                   SelectionState(env, backed.store, p, config, slugs, now), faults);
    }
  }

  /** On a profile that was never managed, it keeps the pointer exactly when the configuration is
      detected to be in a managing mode already. */
  lemma FirstModelsKeepPointer(env: Env, p: Key, u: Option<string>, s: Store, slugs: seq<string>, now: int,
                               faults: set<nat>)
    requires Carried(env, p, u, s) && Foreign(env, p, u)
    requires LoadState(s).None? && MarkerFile(p) !in s && LegacyMarkerFile(p) !in s
    requires ApplyModelsCommit(env, s, p, ConfigOf(s, p).value, slugs, now, faults).Applied?
    ensures Carried(env, p, u, ApplyModelsCommit(env, s, p, ConfigOf(s, p).value, slugs, now, faults).store)
       <==> DetectMode(env, Read(s, AuthFile(p)), Read(s, ConfigFile(p))) in {Gateway, DirectAggregate}
  {
    var config := ConfigOf(s, p).value;
    ModelsAllOrNothing(env, s, p, config, slugs, now, faults);
    CommitState(env, s, p, config, slugs, now, faults);
    var backed := PrepareModels(s, p, faults);
    BackupEffect(Start(s), p, faults);
    StateUntouched(s, backed.store, {BackupsSetting});
    var st := SelectionState(env, backed.store, p, config, slugs, now);
    FirstSelection(env, p, u, s, backed.store, slugs, now);
    AppliedKeepsPointer(env, p, u, config, CommitModels(env, s, p, config, slugs, now, faults).store, st);
  }

  /** The state that a first selection starts from: the detected mode and the pointer that is there. */
  lemma FirstSelection(env: Env, p: Key, u: Option<string>, s: Store, t: Store, slugs: seq<string>, now: int)
    requires Carried(env, p, u, s) && Foreign(env, p, u) && OnlyChanges(s, t, {BackupsSetting})
    requires LoadState(s).None? && LoadState(t).None? && MarkerFile(p) !in s
    ensures var st := SelectionState(env, t, p, ConfigOf(s, p).value, slugs, now);
            && (Managing(st) ==> st.previousCatalog == u)
            && (Managing(st)
                <==> DetectMode(env, Read(s, AuthFile(p)), Read(s, ConfigFile(p))) in {Gateway, DirectAggregate})
  {
    assert Read(t, MarkerFile(p)) == Read(s, MarkerFile(p)) == None;
    assert Read(t, AuthFile(p)) == Read(s, AuthFile(p)) && Read(t, ConfigFile(p)) == Read(s, ConfigFile(p));
  }

  /** The states that a sync can leave differ from the persisted one in selection and websockets only. */
  predicate SameMode(a: ManagedState, b: ManagedState) {
    a.profile == b.profile && a.mode == b.mode && a.previousCatalog == b.previousCatalog
  }

  lemma SyncedPointer(env: Env, p: Key, u: Option<string>, s: Store, t: Store)
    requires Carried(env, p, u, s) && Foreign(env, p, u) && LoadState(s).Some?
    requires LoadState(t).Some? && SameMode(LoadState(t).value, LoadState(s).value)
    requires Read(t, ConfigFile(p)) != Read(s, ConfigFile(p)) ==>
               && ConfigOf(t, p).Some?
               && (ConfigOf(t, p).value.catalog == OptCatalog(u)
                   || (ConfigOf(t, p).value.catalog == Catalog(env.managedCatalog(p)) && Managing(LoadState(s).value)))
    ensures Carried(env, p, u, t)
  {
  }

  lemma SyncDetachPointer(env: Env, p: Key, u: Option<string>, s: Store, st: ManagedState, faults: set<nat>)
    requires Carried(env, p, u, s) && Foreign(env, p, u) && LoadState(s).Some?
    requires SameMode(st, LoadState(s).value) && env.PointsToManaged(ConfigOf(s, p).value, p)
    ensures Carried(env, p, u, SyncDetach(env, s, st, faults).store)
  {
    var restored := RestorePreviousCatalog(env, ConfigOf(s, p).value, p, st.previousCatalog);
    assert restored.catalog == OptCatalog(u);
    var configured := Must(Start(s), ConfigFile(p), Some(Toml(restored)), faults);
    var cleared := st.(slugs := []);
    var dirty := Dirty(LoadState(s).value, st, cleared);
    SaveIfDirtyEffect(configured, dirty, cleared, faults);
    SyncedPointer(env, p, u, s, SaveIfDirty(configured, dirty, cleared, faults).store);
  }

  lemma SyncRewritePointer(env: Env, p: Key, u: Option<string>, s: Store, st: ManagedState, catalog: seq<string>,
                           slugs: seq<string>, websockets: Option<bool>, secret: Option<string>, faults: set<nat>)
    requires Carried(env, p, u, s) && Foreign(env, p, u) && LoadState(s).Some?
    requires SameMode(st, LoadState(s).value) && (websockets.Some? ==> st.mode.Gateway?)
    ensures Carried(env, p, u, SyncRewrite(env, s, st, catalog, slugs, websockets, secret, faults).store)
  {
    var config := ConfigOf(s, p).value;
    var settled := st.(slugs := slugs,
                       supportsWebsockets := if websockets.Some? then websockets else st.supportsWebsockets);
    var dirty := Dirty(LoadState(s).value, st, settled);
    if websockets.None? {
      SyncWritesEffect(s, catalog, None, dirty, settled, faults);
      SyncedPointer(env, p, u, s, SyncWrites(s, catalog, None, dirty, settled, faults).store);
    } else if secret.Some? {
      var patched := PatchForGateway(config, st.gatewayBaseUrl.GetOr(DEFAULT_GATEWAY_BASE_URL),
                                     env.managedCatalog(p), websockets.value, secret.value);
      if patched.Some? {
        assert patched.value.catalog == Catalog(env.managedCatalog(p));
        SyncWritesPointer(env, p, u, s, catalog, patched.value, dirty, settled, faults);
      }
    }
  }

  lemma SyncWritesPointer(env: Env, p: Key, u: Option<string>, s: Store, catalog: seq<string>, config: Config,
                          dirty: bool,
                          st: ManagedState, faults: set<nat>)
    requires Carried(env, p, u, s) && Foreign(env, p, u) && LoadState(s).Some?
    requires SameMode(st, LoadState(s).value) && Managing(st) && config.catalog == Catalog(env.managedCatalog(p))
    ensures Carried(env, p, u, SyncWrites(s, catalog, Some(config), dirty, st, faults).store)
  {
    SyncWritesEffect(s, catalog, Some(config), dirty, st, faults);
    SyncedPointer(env, p, u, s, SyncWrites(s, catalog, Some(config), dirty, st, faults).store);
  }

  /** A sync keeps the pointer, whichever of its writes fail. */
  lemma SyncKeepsPointer(env: Env, p: Key, u: Option<string>, s: Store, changes: seq<SelectionChanges.Change>,
                         input: SyncInput, faults: set<nat>)
    requires Carried(env, p, u, s) && Foreign(env, p, u)
    ensures Carried(env, p, u, Sync(env, s, changes, input, faults).store)
  {
    PlanKeepsMode(env, s, changes, input);
    match PlanSync(env, s, changes, input)
    case Skip =>
    case Fail =>
    case Detach(st) => SyncDetachPointer(env, p, u, s, st, faults);
    case Rewrite(st, catalog, slugs, websockets) =>
      SyncRewritePointer(env, p, u, s, st, catalog, slugs, websockets, input.secret, faults);
  }

  /** What the phases before the last one decide keeps mode and pointer; the catalog is only detached
      from a config that points to it. */
  lemma PlanKeepsMode(env: Env, s: Store, changes: seq<SelectionChanges.Change>, input: SyncInput)
    ensures var plan := PlanSync(env, s, changes, input);
            && (plan.Detach? || plan.Rewrite? ==> LoadState(s).Some? && SameMode(plan.st, LoadState(s).value))
            && (plan.Detach? ==> ConfigOf(s, plan.st.profile).Some?)
            && (plan.Detach? ==> env.PointsToManaged(ConfigOf(s, plan.st.profile).value, plan.st.profile))
            && (plan.Rewrite? && plan.websockets.Some? ==> plan.st.mode.Gateway?)
  {
    if LoadState(s).Some? {
      var st0 := LoadState(s).value;
      var next := SelectionChanges.Selected(st0.slugs, changes);
      if st0.slugs == [] {
        SelectionChanges.EmptySelectionStays(changes);
      }
      PlanFromKeepsMode(st0, next, CatalogSelection.Reconcile(input.managed, next), UsesManaged(env, s, st0.profile),
                        input);
    }
  }

  lemma PlanFromKeepsMode(st0: ManagedState, next: seq<string>, reconciled: Option<seq<string>>, points: bool,
                          input: SyncInput)
    requires st0.slugs == [] ==> next == []
    ensures var plan := PlanFrom(st0, next, reconciled, points, input);
            && (plan.Detach? || plan.Rewrite? ==> SameMode(plan.st, st0))
            && (plan.Detach? ==> points)
            && (plan.Rewrite? && plan.websockets.Some? ==> plan.st.mode.Gateway?)
  {
  }

  /** A restore keeps the pointer, whichever of its writes fail, when the backup holds it. */
  lemma RestoreKeepsPointer(env: Env, p: Key, u: Option<string>, s: Store, faults: set<nat>)
    requires Carried(env, p, u, s) && Foreign(env, p, u)
    requires p in LoadBackups(s) ==>
        var c := ParseConfig(LoadBackups(s)[p].config); c.Some? && c.value.catalog == OptCatalog(u)
    ensures Carried(env, p, u, Restore(s, p, faults).store)
  {
    if p in LoadBackups(s) {
      RestoreEffect(s, p, faults);
      RestoredPointer(env, p, u, s, Restore(s, p, faults).store, Restore(s, p, faults).ok);
    }
  }

  lemma RestoredPointer(env: Env, p: Key, u: Option<string>, s: Store, t: Store, ok: bool)
    requires Carried(env, p, u, s) && Foreign(env, p, u) && p in LoadBackups(s)
    requires var c := ParseConfig(LoadBackups(s)[p].config); c.Some? && c.value.catalog == OptCatalog(u)
    requires RestoredFrom(s, t, p, ok)
    ensures Carried(env, p, u, t)
  {
  }
}
