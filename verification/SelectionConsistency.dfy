/** The persisted model selection and the catalog file that Codex reads. */
module SelectionConsistency {
  import opened Text
  import opened Lists
  import opened ProfileStore
  import opened ProfileOps
  import opened ProfileFrames
  import opened ProfileAttempts
  import opened ModelsCommit
  import opened ProfileRuns
  import opened ProfileBackups
  import opened ProfileRestore
  import opened CatalogPointer
  import opened CatalogSelection
  import opened SelectionChanges

  /** A selection that is not empty is what the catalog file of its profile lists, in order. */
  ghost predicate Consistent(s: Store) {
    LoadState(s).Some? && LoadState(s).value.slugs != [] ==>
      Read(s, CatalogFile(LoadState(s).value.profile)) == Some(CatalogJson(LoadState(s).value.slugs))
  }

  /** Steps that touch neither the state nor a catalog file. */
  lemma ConsistentFrame(s: Store, t: Store)
    requires Consistent(s) && LoadState(t) == LoadState(s)
    requires forall p :: Read(t, CatalogFile(p)) == Read(s, CatalogFile(p))
    ensures Consistent(t)
  {
  }

  lemma UndisturbedManaged(o: Progress, catalog: seq<string>, config: Config, st: ManagedState)
    requires o.ok && (st.slugs == [] || st.slugs == catalog)
    ensures var r := ManagedWrites(o, catalog, config, st, {});
            Consistent(r.store) && LoadState(r.store) == Some(st)
              && Read(r.store, CatalogFile(st.profile)) == Some(CatalogJson(catalog))
  {
    ManagedWritesEffect(o, catalog, config, st, {});
    ManagedWritesReach(o, catalog, config, st, {});
    CatalogListed(o, catalog, config, st);
  }

  lemma CatalogListed(o: Progress, catalog: seq<string>, config: Config, st: ManagedState)
    requires o.ok
    ensures Read(ManagedWrites(o, catalog, config, st, {}).store, CatalogFile(st.profile)) == Some(CatalogJson(catalog))
  {
    var listed := Must(o, CatalogFile(st.profile), Some(CatalogJson(catalog)), {});
    FinishEffect(Must(listed, ConfigFile(st.profile), Some(Toml(config)), {}), st, {});
  }

  lemma PreparedConsistent(s: Store, p: Key)
    requires Consistent(s)
    ensures Consistent(TryMigrate(Start(s), p, {}).store)
    ensures var backed := EnsureBackup(TryMigrate(Start(s), p, {}), p, {}); backed.ok && Consistent(backed.store)
  {
    var migrated := TryMigrate(Start(s), p, {});
    MigrateEffect(Start(s), p, {});
    BackupEffect(migrated, p, {});
    ConsistentFrame(s, migrated.store);
    ConsistentFrame(migrated.store, EnsureBackup(migrated, p, {}).store);
  }

  lemma AccountConsistent(env: Env, s: Store, p: Key, input: Option<AccountInput>, now: int)
    requires Consistent(s)
    ensures Consistent(ApplyDirectAccount(env, s, p, input, now, {}).store)
  {
    PreparedConsistent(s, p);
    var backed := EnsureBackup(TryMigrate(Start(s), p, {}), p, {});
    forall config | input.Some?
      ensures Consistent(AccountWrites(backed, input.value.auth, config, AccountState(p, input.value.accountId, now),
                                       {}).store)
    {
      AccountWritesConsistent(backed, input.value.auth, config, AccountState(p, input.value.accountId, now));
    }
  }

  lemma AccountWritesConsistent(o: Progress, auth: Content, config: Config, st: ManagedState)
    requires o.ok && st.slugs == []
    ensures Consistent(AccountWrites(o, auth, config, st, {}).store)
  {
    var configured := Must(Must(o, AuthFile(st.profile), Some(auth), {}), ConfigFile(st.profile), Some(Toml(config)),
                           {});
    FinishReach(configured, st, {});
  }

  lemma GatewayConsistent(env: Env, s: Store, p: Key, input: Option<GatewayInput>, now: int)
    requires Consistent(s)
    ensures Consistent(ApplyGateway(env, s, p, input, now, {}).store)
  {
    PreparedConsistent(s, p);
    var backed := EnsureBackup(TryMigrate(Start(s), p, {}), p, {});
    forall config, previous | input.Some?
      ensures Consistent(ManagedWrites(backed, input.value.catalog, config, GatewayState(p, input.value, previous, now),
                                       {}).store)
    {
      UndisturbedManaged(backed, input.value.catalog, config, GatewayState(p, input.value, previous, now));
    }
  }

  lemma AggregateConsistent(env: Env, s: Store, p: Key, input: Option<AggregateInput>, now: int)
    requires Consistent(s)
    ensures Consistent(ApplyDirectAggregate(env, s, p, input, now, {}).store)
  {
    PreparedConsistent(s, p);
    if input.Some? && input.value.upstream.Some? && ConfigOf(s, p).Some? {
      var slugs := Select(input.value.managed, input.value.upstream.value);
      if slugs.Some? && slugs.value != [] {
        SwitchConsistent(env, s, EnsureBackup(TryMigrate(Start(s), p, {}), p, {}), p, input.value,
                         ConfigOf(s, p).value, slugs.value, now);
      }
    }
  }

  lemma SwitchConsistent(env: Env, s: Store, backed: Progress, p: Key, input: AggregateInput, config: Config,
                         slugs: seq<string>, now: int)
    requires slugs != [] && backed.ok && Consistent(backed.store)
    ensures Consistent(SwitchToAggregate(env, s, backed, p, input, config, slugs, now, {}).store)
  {
    var previous := PreviousCatalog(s, p, config);
    var patched := PatchForAggregate(env, config, p, input.api, input.secret, previous,
                                     DefaultModel(slugs, input.api.modelOverride));
    if patched.Some? {
      UndisturbedManaged(backed, slugs, patched.value, AggregateState(p, input, previous, slugs, now));
    }
  }

  lemma ModelsConsistent(env: Env, s: Store, p: Key, managed: seq<string>, requested: seq<string>, now: int)
    requires Consistent(s)
    ensures Consistent(ApplyModels(env, s, p, managed, requested, now, {}).store)
  {
    if ConfigOf(s, p).Some? && Select(managed, requested).Some? {
      UndisturbedCommit(env, s, p, ConfigOf(s, p).value, Select(managed, requested).value, now);
      ModelsAllOrNothing(env, s, p, ConfigOf(s, p).value, Select(managed, requested).value, now, {});
    }
  }

  lemma UndisturbedCommit(env: Env, s: Store, p: Key, config: Config, slugs: seq<string>, now: int)
    ensures CommitModels(env, s, p, config, slugs, now, {}).ok
  {
    var backed := PrepareModels(s, p, {});
    UndisturbedFinishes(backed, slugs, PatchForManagedCatalog(config, env.managedCatalog(p)),
                        SelectionState(env, backed.store, p, config, slugs, now));
  }

  lemma UndisturbedFinishes(o: Progress, catalog: seq<string>, config: Config, st: ManagedState)
    requires o.ok
    ensures ManagedWrites(o, catalog, config, st, {}).ok
  {
  }

  // ----- syncs -----

  /** A sync either lists what it selects or, with nothing selected, the gateway's own catalog. */
  lemma PlanListsSelection(env: Env, s: Store, changes: seq<Change>, input: SyncInput)
    ensures var plan := PlanSync(env, s, changes, input);
            && (plan.Detach? || plan.Rewrite? ==> LoadState(s).Some? && plan.st.profile == LoadState(s).value.profile)
            && (plan.Rewrite? ==> plan.slugs == [] || plan.slugs == plan.catalog)
  {
    if LoadState(s).Some? {
      var st0 := LoadState(s).value;
      var next := Selected(st0.slugs, changes);
      PlanFromLists(st0, next, Reconcile(input.managed, next), UsesManaged(env, s, st0.profile), input);
    }
  }

  lemma PlanFromLists(st0: ManagedState, next: seq<string>, reconciled: Option<seq<string>>, points: bool,
                      input: SyncInput)
    ensures var plan := PlanFrom(st0, next, reconciled, points, input);
            && (plan.Detach? || plan.Rewrite? ==> plan.st.profile == st0.profile)
            && (plan.Rewrite? ==> plan.slugs == [] || plan.slugs == plan.catalog)
  {
  }

  lemma SyncWritesConsistent(s: Store, catalog: seq<string>, config: Option<Config>, dirty: bool, st: ManagedState)
    requires LoadState(s).Some? && st.profile == LoadState(s).value.profile
    requires st.slugs == [] || st.slugs == catalog
    requires !dirty ==> LoadState(s).value.slugs == st.slugs
    ensures var t := SyncWrites(s, catalog, config, dirty, st, {}).store;
            && Consistent(t) && LoadState(t).Some? && LoadState(t).value.slugs == st.slugs
            && Read(t, CatalogFile(st.profile)) == Some(CatalogJson(catalog))
  {
    var listed := Must(Start(s), CatalogFile(st.profile), Some(CatalogJson(catalog)), {});
    var configured := if config.Some? then Must(listed, ConfigFile(st.profile), Some(Toml(config.value)), {})
        else listed;
    assert configured.ok && Read(configured.store, CatalogFile(st.profile)) == Some(CatalogJson(catalog));
    SaveIfDirtyEffect(configured, dirty, st, {});
    SavedWhenDirty(configured, dirty, st);
  }

  lemma SavedWhenDirty(o: Progress, dirty: bool, st: ManagedState)
    requires o.ok
    ensures LoadState(SaveIfDirty(o, dirty, st, {}).store) == if dirty then Some(st) else LoadState(o.store)
  {
  }

  lemma SyncRewriteConsistent(env: Env, s: Store, st: ManagedState, catalog: seq<string>, slugs: seq<string>,
                              websockets: Option<bool>, secret: Option<string>)
    requires Consistent(s) && LoadState(s).Some? && st.profile == LoadState(s).value.profile
    requires slugs == [] || slugs == catalog
    ensures Consistent(SyncRewrite(env, s, st, catalog, slugs, websockets, secret, {}).store)
  {
    var config := ConfigOf(s, st.profile);
    var settled := st.(slugs := slugs,
                       supportsWebsockets := if websockets.Some? then websockets else st.supportsWebsockets);
    var dirty := Dirty(LoadState(s).value, st, settled);
    if websockets.None? {
      SyncWritesConsistent(s, catalog, None, dirty, settled);
    } else if config.Some? && secret.Some? {
      var patched := PatchForGateway(config.value, st.gatewayBaseUrl.GetOr(DEFAULT_GATEWAY_BASE_URL),
                                     env.managedCatalog(st.profile), websockets.value, secret.value);
      if patched.Some? {
        SyncWritesConsistent(s, catalog, patched, dirty, settled);
      }
    }
  }

  lemma SyncDetachConsistent(env: Env, s: Store, st: ManagedState)
    requires Consistent(s) && LoadState(s).Some? && st.profile == LoadState(s).value.profile
    ensures var t := SyncDetach(env, s, st, {}).store;
            && Consistent(t)
            && (ConfigOf(s, st.profile).Some? ==> LoadState(t).Some? && LoadState(t).value.slugs == [])
  {
    if ConfigOf(s, st.profile).Some? {
      var restored := RestorePreviousCatalog(env, ConfigOf(s, st.profile).value, st.profile, st.previousCatalog);
      var configured := Must(Start(s), ConfigFile(st.profile), Some(Toml(restored)), {});
      SavedWhenDirty(configured, Dirty(LoadState(s).value, st, st.(slugs := [])), st.(slugs := []));
    }
  }

  lemma SyncConsistent(env: Env, s: Store, changes: seq<Change>, input: SyncInput)
    requires Consistent(s)
    ensures Consistent(Sync(env, s, changes, input, {}).store)
  {
    PlanListsSelection(env, s, changes, input);
    match PlanSync(env, s, changes, input)
    case Skip =>
    case Fail =>
    case Detach(st) => SyncDetachConsistent(env, s, st);
    case Rewrite(st, catalog, slugs, websockets) => SyncRewriteConsistent(env, s, st, catalog, slugs, websockets,
                                                                          input.secret);
  }

  lemma RestoreConsistent(s: Store, p: Key)
    requires Consistent(s)
    ensures Consistent(Restore(s, p, {}).store)
  {
    if p in LoadBackups(s) {
      RestoreEffect(s, p, {});
      RestoredIsConsistent(s, Restore(s, p, {}).store, p, Restore(s, p, {}).ok);
    }
  }

  lemma RestoredIsConsistent(s: Store, t: Store, p: Key, ok: bool)
    requires Consistent(s) && p in LoadBackups(s) && RestoredFrom(s, t, p, ok)
    ensures Consistent(t)
  {
  }

  // ----- whole runs -----

  ghost predicate Undisturbed(op: Op) {
    op.faults == {}
  }

  lemma OperationConsistent(env: Env, s: Store, op: Op)
    requires Consistent(s) && Undisturbed(op)
    ensures Consistent(Perform(env, s, op))
  {
    match op
    case DirectAccountOp(p, input, now, _) => AccountConsistent(env, s, p, input, now);
    case DirectAggregateOp(p, input, now, _) => AggregateConsistent(env, s, p, input, now);
    case GatewayOp(p, input, now, _) => GatewayConsistent(env, s, p, input, now);
    case ModelsOp(p, managed, requested, now, _) => ModelsConsistent(env, s, p, managed, requested, now);
    case SyncOp(changes, input, _) => SyncConsistent(env, s, changes, input);
    case RestoreOp(p, _) => RestoreConsistent(s, p);
  }

  /** The main result: over any fault-free run on any number of profiles, a persisted selection that is
      not empty is the list of the profile's catalog file. */
  lemma {:induction false} RunConsistent(env: Env, s0: Store, ops: seq<Op>)
    requires Consistent(s0) && forall op :: op in ops ==> Undisturbed(op)
    ensures Consistent(Run(env, s0, ops))
  {
    if ops != [] {
      RunConsistent(env, s0, ops[..|ops| - 1]);
      OperationConsistent(env, Run(env, s0, ops[..|ops| - 1]), ops[|ops| - 1]);
    }
  }

  // ----- losing the last selected model -----

  lemma NothingSelected(managed: seq<string>)
    ensures Reconcile(managed, []) == None
  {
    var chosen := Matching(managed, RequestedKeys([]));
    assert chosen == [] || chosen[0] in chosen;
    MatchingMembers(managed, RequestedKeys([]));
  }

  /** The changes, or the catalog, take the last selected model of a profile away that uses the managed
      catalog. */
  ghost predicate LastModelGoes(env: Env, s: Store, changes: seq<Change>, input: SyncInput) {
    && LoadState(s).Some? && LoadState(s).value.slugs != []
    && UsesManaged(env, s, LoadState(s).value.profile)
    && Reconcile(input.managed, Selected(LoadState(s).value.slugs, changes)).None?
  }

  /** The gateway answers what the plan asks it. */
  predicate GatewayAnswers(input: SyncInput) {
    input.websockets.Some? && input.gatewayCatalog.Some?
  }

  /** The plan then falls back to the gateway's catalog if there is a key, or fails if the gateway does not
      answer; without a key it detaches the config, whatever the gateway would answer. */
  lemma PlanWithoutModels(env: Env, s: Store, changes: seq<Change>, input: SyncInput)
    requires LastModelGoes(env, s, changes, input)
    ensures var st0 := LoadState(s).value;
            var st := st0.(slugs := Selected(st0.slugs, changes));
            PlanSync(env, s, changes, input)
              == (if !(st0.mode.Gateway? && st0.apiKeyId.Some?) then Detach(st)
                  else if GatewayAnswers(input) then
                    Rewrite(st, input.gatewayCatalog.value, [], SyncWebsockets(st, input))
                  else Fail)
  {
    NothingSelected(input.managed);
  }

  /** The config can be patched for the gateway. */
  predicate CanPatch(s: Store, p: Key, input: SyncInput) {
    && input.secret.Some? && input.secret.value != ""
    && ConfigOf(s, p).Some? && TakesGateway(ConfigOf(s, p).value)
  }

  /** What becomes of the profile. Without a key, the config points to the previous catalog again. With one, the
      catalog file lists the gateway's full catalog. The selection is empty in both cases. But with a key and
      without the answers of the gateway, a secret or a config to patch, nothing at all changes. */
  lemma LosingTheLastModel(env: Env, s: Store, changes: seq<Change>, input: SyncInput)
    requires LastModelGoes(env, s, changes, input)
    ensures var st := LoadState(s).value;
            var t := Sync(env, s, changes, input, {}).store;
            var emptied := LoadState(t).Some? && LoadState(t).value.slugs == [];
            if !(st.mode.Gateway? && st.apiKeyId.Some?) then
              && emptied && ConfigOf(t, st.profile).Some?
              && ConfigOf(t, st.profile).value.catalog == OptCatalog(st.previousCatalog)
            else if GatewayAnswers(input) && CanPatch(s, st.profile, input) then
              emptied && Read(t, CatalogFile(st.profile)) == Some(CatalogJson(input.gatewayCatalog.value))
            else t == s
  {
    PlanWithoutModels(env, s, changes, input);
    var st0 := LoadState(s).value;
    var st := st0.(slugs := Selected(st0.slugs, changes));
    if !(st0.mode.Gateway? && st0.apiKeyId.Some?) {
      DetachRestoresPointer(env, s, st);
    } else if GatewayAnswers(input) {
      if CanPatch(s, st0.profile, input) {
        RewriteWithoutModels(env, s, st, input.gatewayCatalog.value, SyncWebsockets(st, input), input.secret.value);
      } else {
        RewriteStops(env, s, st, input.gatewayCatalog.value, SyncWebsockets(st, input), input);
      }
    }
  }

  lemma RewriteStops(env: Env, s: Store, st: ManagedState, catalog: seq<string>, websockets: Option<bool>,
                     input: SyncInput)
    requires websockets.Some? && !CanPatch(s, st.profile, input)
    ensures SyncRewrite(env, s, st, catalog, [], websockets, input.secret, {}).store == s
  {
    if ConfigOf(s, st.profile).Some? && input.secret.Some? {
      GatewayIsTaken(ConfigOf(s, st.profile).value, st.gatewayBaseUrl.GetOr(DEFAULT_GATEWAY_BASE_URL),
                     env.managedCatalog(st.profile), websockets.value, input.secret.value);
    }
  }

  lemma RewriteWithoutModels(env: Env, s: Store, st: ManagedState, catalog: seq<string>, websockets: Option<bool>,
                             secret: string)
    requires LoadState(s).Some? && st.profile == LoadState(s).value.profile && websockets.Some? && secret != ""
    requires ConfigOf(s, st.profile).Some? && TakesGateway(ConfigOf(s, st.profile).value)
    ensures var t := SyncRewrite(env, s, st, catalog, [], websockets, Some(secret), {}).store;
            && LoadState(t).Some? && LoadState(t).value.slugs == []
            && Read(t, CatalogFile(st.profile)) == Some(CatalogJson(catalog))
  {
    var patched := PatchForGateway(ConfigOf(s, st.profile).value, st.gatewayBaseUrl.GetOr(DEFAULT_GATEWAY_BASE_URL),
                                   env.managedCatalog(st.profile), websockets.value, secret);
    var settled := st.(slugs := [], supportsWebsockets := websockets);
    SyncWritesConsistent(s, catalog, patched, Dirty(LoadState(s).value, st, settled), settled);
  }

  lemma DetachRestoresPointer(env: Env, s: Store, st: ManagedState)
    requires LoadState(s).Some? && LoadState(s).value.slugs != [] && ConfigOf(s, st.profile).Some?
    requires env.PointsToManaged(ConfigOf(s, st.profile).value, st.profile)
    ensures var t := SyncDetach(env, s, st, {}).store;
            && ConfigOf(t, st.profile).Some? && ConfigOf(t, st.profile).value.catalog == OptCatalog(st.previousCatalog)
            && LoadState(t).Some? && LoadState(t).value.slugs == []
  {
    var restored := RestorePreviousCatalog(env, ConfigOf(s, st.profile).value, st.profile, st.previousCatalog);
    var configured := Must(Start(s), ConfigFile(st.profile), Some(Toml(restored)), {});
    SaveIfDirtyEffect(configured, Dirty(LoadState(s).value, st, st.(slugs := [])), st.(slugs := []), {});
    SavedWhenDirty(configured, Dirty(LoadState(s).value, st, st.(slugs := [])), st.(slugs := []));
  }
}
