/** The user's catalog pointer over whole runs on one profile, and where it gets lost. */
module PointerRuns {
  import opened Text
  import opened ProfileStore
  import opened ProfileOps
  import opened ProfileFrames
  import opened ModelsCommit
  import opened ProfileRuns
  import opened ProfileBackups
  import opened ProfileAttempts
  import opened ProfileRestore
  import opened CatalogPointer

  function Prepared(s: Store, p: Key, faults: set<nat>): Progress {
    EnsureBackup(TryMigrate(Start(s), p, faults), p, faults)
  }

  /** Selected models are applied in a managing mode only, and a switch to a managing mode from outside
      one is not torn between its config and its state. */
  ghost predicate Careful(env: Env, p: Key, s: Store, op: Op) {
    && Tidy(env, s, op)
    && OnProfile(op, p)
    && (op.ModelsOp? ==> ManagedBy(s, p))
    && (op.GatewayOp? || op.DirectAggregateOp? ==> ManagedBy(s, p) || !Torn(Prepared(s, p, op.faults), op.faults))
  }

  lemma GatewayStep(env: Env, p: Key, u: Option<string>, s: Store, input: Option<GatewayInput>, now: int,
                    faults: set<nat>)
    requires Carried(env, p, u, s) && Foreign(env, p, u)
    requires ManagedBy(s, p) || !Torn(Prepared(s, p, faults), faults)
    ensures Carried(env, p, u, ApplyGateway(env, s, p, input, now, faults).store)
  {
    if input.Some? {
      var i := input.value;
      if PatchForGateway(ConfigOf(s, p).value, i.baseUrl, env.managedCatalog(p), i.websockets, i.secret).Some? {
        GatewayKeepsPointer(env, p, u, s, i, now, faults);
      }
    }
  }

  /** The aggregate switch gets to its writes. */
  predicate AggregateWrites(env: Env, s: Store, p: Key, input: Option<AggregateInput>) {
    && input.Some? && input.value.upstream.Some? && ConfigOf(s, p).Some?
    && var slugs := CatalogSelection.Select(input.value.managed, input.value.upstream.value);
       slugs.Some? && slugs.value != [] && AggregatePatch(env, s, p, input.value, slugs.value).Some?
  }

  lemma AggregateStops(env: Env, s: Store, p: Key, input: Option<AggregateInput>, now: int, faults: set<nat>)
    requires !AggregateWrites(env, s, p, input)
    ensures ApplyDirectAggregate(env, s, p, input, now, faults).store
         in {TryMigrate(Start(s), p, faults).store, Prepared(s, p, faults).store}
  {
  }

  lemma AggregateStep(env: Env, p: Key, u: Option<string>, s: Store, input: Option<AggregateInput>, now: int,
                      faults: set<nat>)
    requires Carried(env, p, u, s) && Foreign(env, p, u)
    requires ManagedBy(s, p) || !Torn(Prepared(s, p, faults), faults)
    ensures Carried(env, p, u, ApplyDirectAggregate(env, s, p, input, now, faults).store)
  {
    if AggregateWrites(env, s, p, input) {
      AggregateKeepsPointer(env, p, u, s, input.value, now, faults);
    } else {
      AggregateStops(env, s, p, input, now, faults);
      PrepareKeepsPointer(s, p, faults);
      CarriedDependsOn(env, p, u, s, TryMigrate(Start(s), p, faults).store);
      CarriedDependsOn(env, p, u, s, Prepared(s, p, faults).store);
    }
  }

  /** In a managing mode applying models keeps the pointer, whichever of its writes and restores fail. */
  lemma ModelsStep(env: Env, p: Key, u: Option<string>, s: Store, managed: seq<string>, requested: seq<string>,
                   now: int,
                   faults: set<nat>)
    requires Carried(env, p, u, s) && Foreign(env, p, u) && ManagedBy(s, p)
    ensures Carried(env, p, u, ApplyModels(env, s, p, managed, requested, now, faults).store)
  {
    var slugs := CatalogSelection.Select(managed, requested);
    if slugs.Some? {
      if ApplyModelsCommit(env, s, p, ConfigOf(s, p).value, slugs.value, now, faults).Applied? {
        ModelsKeepPointer(env, p, u, s, slugs.value, now, faults);
      } else {
        UndoneModelsStep(env, p, u, s, slugs.value, now, faults);
      }
    }
  }

  lemma UndoneModelsStep(env: Env, p: Key, u: Option<string>, s: Store, slugs: seq<string>, now: int, faults: set<nat>)
    requires Carried(env, p, u, s) && Foreign(env, p, u) && ManagedBy(s, p)
    requires !ApplyModelsCommit(env, s, p, ConfigOf(s, p).value, slugs, now, faults).Applied?
    ensures Carried(env, p, u, ApplyModelsCommit(env, s, p, ConfigOf(s, p).value, slugs, now, faults).store)
  {
    var config := ConfigOf(s, p).value;
    var r := ApplyModelsCommit(env, s, p, config, slugs, now, faults);
    ManagedCommit(env, s, p, config, slugs, now, faults);
    RolledBackSettings(env, s, p, config, slugs, now, faults);
    RolledBackConfig(env, s, p, config, slugs, now, faults);
    MixedPointer(env, p, u, s, r.store, CommitModels(env, s, p, config, slugs, now, faults).store, r.failed);
  }

  lemma RolledBackConfig(env: Env, s: Store, p: Key, config: Config, slugs: seq<string>, now: int, faults: set<nat>)
    requires ApplyModelsCommit(env, s, p, config, slugs, now, faults).RolledBack?
    ensures var r := ApplyModelsCommit(env, s, p, config, slugs, now, faults);
            var left := CommitModels(env, s, p, config, slugs, now, faults).store;
            Read(r.store, ConfigFile(p)) == if ConfigFile(p) in r.failed then Read(left, ConfigFile(p))
              else Read(s, ConfigFile(p))
  {
    ModelsAllOrNothing(env, s, p, config, slugs, now, faults);
    CapturedMembers(p);
  }

  /** What a commit leaves of config and state on a profile with a state: old or new, each on its own. */
  ghost predicate OldOrNew(env: Env, s: Store, left: Store, p: Key) {
    && (Read(left, ConfigFile(p)) == Read(s, ConfigFile(p))
        || (ConfigOf(s, p).Some? && Read(left, ConfigFile(p))
            == Some(Toml(PatchForManagedCatalog(ConfigOf(s, p).value, env.managedCatalog(p))))))
    && LoadState(left).Some? && LoadState(s).Some? && SameMode(LoadState(left).value, LoadState(s).value)
  }

  lemma ManagedCommit(env: Env, s: Store, p: Key, config: Config, slugs: seq<string>, now: int, faults: set<nat>)
    requires StateOf(s, p).Some? && ConfigOf(s, p) == Some(config)
    ensures OldOrNew(env, s, CommitModels(env, s, p, config, slugs, now, faults).store, p)
  {
    var backed := PrepareModels(s, p, faults);
    var patched := PatchForManagedCatalog(config, env.managedCatalog(p));
    PrepareEffect(s, p, faults);
    StateUntouched(s, backed.store, {MarkerFile(p), LegacyMarkerFile(p), BackupsSetting});
    KeptSelection(env, backed.store, p, config, slugs, now);
    ManagedWritesReach(backed, slugs, patched, SelectionState(env, backed.store, p, config, slugs, now), faults);
  }

  lemma MixedPointer(env: Env, p: Key, u: Option<string>, s: Store, t: Store, left: Store, failed: set<Loc>)
    requires Carried(env, p, u, s) && Foreign(env, p, u) && ManagedBy(s, p) && OldOrNew(env, s, left, p)
    requires Read(t, ConfigFile(p)) == if ConfigFile(p) in failed then Read(left, ConfigFile(p))
        else Read(s, ConfigFile(p))
    requires LoadState(t) == if StateSetting in failed then LoadState(left) else LoadState(s)
    ensures Carried(env, p, u, t)
  {
  }

  lemma OperationKeepsPointer(env: Env, p: Key, u: Option<string>, s0: Store, s: Store, op: Op)
    requires Carried(env, p, u, s) && Foreign(env, p, u) && Careful(env, p, s, op)
    requires Safe(s0, s) && ConfigOf(s0, p).Some? && ConfigOf(s0, p).value.catalog == OptCatalog(u)
    ensures Carried(env, p, u, Perform(env, s, op))
  {
    match op
    case DirectAccountOp(_, input, now, faults) => AccountKeepsPointer(env, p, u, s, input, now, faults);
    case DirectAggregateOp(_, input, now, faults) => AggregateStep(env, p, u, s, input, now, faults);
    case GatewayOp(_, input, now, faults) => GatewayStep(env, p, u, s, input, now, faults);
    case ModelsOp(_, managed, requested, now, faults) => ModelsStep(env, p, u, s, managed, requested, now, faults);
    case SyncOp(changes, input, faults) => SyncKeepsPointer(env, p, u, s, changes, input, faults);
    case RestoreOp(_, faults) =>
      assert p in LoadBackups(s) ==> LoadBackups(s)[p].config == Read(s0, ConfigFile(p));
      RestoreKeepsPointer(env, p, u, s, faults);
  }

  ghost predicate CarefulRun(env: Env, p: Key, s: Store, ops: seq<Op>) {
    forall i :: 0 <= i < |ops| ==> Careful(env, p, Run(env, s, ops[..i]), ops[i])
  }

  lemma {:induction false} RunKeepsPointer(env: Env, p: Key, u: Option<string>, s0: Store, ops: seq<Op>)
    requires Safe(s0, s0) && Foreign(env, p, u) && CarefulRun(env, p, s0, ops)
    requires LoadState(s0).None? && ConfigOf(s0, p).Some? && ConfigOf(s0, p).value.catalog == OptCatalog(u)
    ensures Safe(s0, Run(env, s0, ops)) && Carried(env, p, u, Run(env, s0, ops))
  {
    if ops != [] {
      var n := |ops| - 1;
      forall i | 0 <= i < n ensures Careful(env, p, Run(env, s0, ops[..n][..i]), ops[..n][i]) {
        assert ops[..n][..i] == ops[..i];
      }
      RunKeepsPointer(env, p, u, s0, ops[..n]);
      var s := Run(env, s0, ops[..n]);
      assert Careful(env, p, s, ops[n]);
      OperationIsSafe(env, s0, s, ops[n]);
      OperationKeepsPointer(env, p, u, s0, s, ops[n]);
    }
  }

  /** The main result: after any careful run on a profile whose own pointer is `u`, a finished switch to
      an account leaves `u`, or no pointer if there was none. */
  lemma AccountPutsPointerBack(env: Env, p: Key, u: Option<string>, s0: Store, ops: seq<Op>,
                               input: Option<AccountInput>, now: int, faults: set<nat>)
    requires LoadBackups(s0) == map[] && LoadState(s0).None?
    requires Foreign(env, p, u) && ConfigOf(s0, p).Some? && ConfigOf(s0, p).value.catalog == OptCatalog(u)
    requires CarefulRun(env, p, s0, ops)
    requires ApplyDirectAccount(env, Run(env, s0, ops), p, input, now, faults).ok
    ensures var t := ApplyDirectAccount(env, Run(env, s0, ops), p, input, now, faults).store;
            ConfigOf(t, p).Some? && ConfigOf(t, p).value.catalog == OptCatalog(u)
  {
    RunKeepsPointer(env, p, u, s0, ops);
    AccountKeepsPointer(env, p, u, Run(env, s0, ops), input, now, faults);
  }

  // ----- where it gets lost -----

  /** A finished switch to an account got to its writes. */
  lemma AccountIsWritten(env: Env, s: Store, p: Key, input: Option<AccountInput>, now: int, faults: set<nat>)
    requires ApplyDirectAccount(env, s, p, input, now, faults).ok
    ensures input.Some? && ConfigOf(s, p).Some?
    ensures var patched :=
        PatchForDirect(ConfigOf(s, p).value, env.managedCatalog(p), PreviousCatalog(s, p, ConfigOf(s, p).value));
            && patched.Some?
            && ApplyDirectAccount(env, s, p, input, now, faults)
            == AccountWrites(Prepared(s, p, faults), input.value.auth, patched.value,
                             AccountState(p, input.value.accountId, now), faults)
  {
  }

  /** A finished switch to an account has written the patched config. */
  lemma AccountResult(env: Env, s: Store, p: Key, input: Option<AccountInput>, now: int, faults: set<nat>)
    requires ApplyDirectAccount(env, s, p, input, now, faults).ok
    ensures ConfigOf(s, p).Some?
    ensures var patched :=
        PatchForDirect(ConfigOf(s, p).value, env.managedCatalog(p), PreviousCatalog(s, p, ConfigOf(s, p).value));
            patched.Some? && ConfigOf(ApplyDirectAccount(env, s, p, input, now, faults).store, p) == patched
  {
    AccountIsWritten(env, s, p, input, now, faults);
    var backed := Prepared(s, p, faults);
    var patched := PatchForDirect(ConfigOf(s, p).value, env.managedCatalog(p),
                                  PreviousCatalog(s, p, ConfigOf(s, p).value));
    AccountWritesEffect(backed, input.value.auth, patched.value, AccountState(p, input.value.accountId, now), faults);
  }

  /** After a torn switch from outside the managing modes, the next switch to an account takes the
      managed path for the user's own and leaves it in the config. */
  lemma TornSwitchLosesPointer(env: Env, p: Key, s: Store, gateway: GatewayInput, faults: set<nat>,
                               account: Option<AccountInput>, now: int)
    requires !ManagedBy(s, p) && ConfigOf(s, p).Some?
    requires PatchForGateway(ConfigOf(s, p).value, gateway.baseUrl, env.managedCatalog(p), gateway.websockets,
                             gateway.secret).Some?
    requires Torn(Prepared(s, p, faults), faults)
    requires ApplyDirectAccount(env, ApplyGateway(env, s, p, Some(gateway), now, faults).store, p, account, now, {}).ok
    ensures var torn := ApplyGateway(env, s, p, Some(gateway), now, faults).store;
            var t := ApplyDirectAccount(env, torn, p, account, now, {}).store;
            ConfigOf(t, p).Some? && ConfigOf(t, p).value.catalog == Catalog(env.managedCatalog(p))
  {
    TornGateway(env, p, s, gateway, now, faults);
    var torn := ApplyGateway(env, s, p, Some(gateway), now, faults).store;
    AccountResult(env, torn, p, account, now, {});
  }

  lemma TornGateway(env: Env, p: Key, s: Store, input: GatewayInput, now: int, faults: set<nat>)
    requires !ManagedBy(s, p) && ConfigOf(s, p).Some?
    requires PatchForGateway(ConfigOf(s, p).value, input.baseUrl, env.managedCatalog(p), input.websockets,
                             input.secret).Some?
    requires Torn(Prepared(s, p, faults), faults)
    ensures var torn := ApplyGateway(env, s, p, Some(input), now, faults).store;
            && !ManagedBy(torn, p)
            && ConfigOf(torn, p).Some? && ConfigOf(torn, p).value.catalog == Catalog(env.managedCatalog(p))
  {
    var patched := PatchForGateway(ConfigOf(s, p).value, input.baseUrl, env.managedCatalog(p), input.websockets,
                                   input.secret);
    var st := GatewayState(p, input, PreviousCatalog(s, p, ConfigOf(s, p).value), now);
    PrepareKeepsPointer(s, p, faults);
    TornWrites(env, p, Prepared(s, p, faults), input.catalog, patched.value, st, faults);
  }

  lemma TornWrites(env: Env, p: Key, o: Progress, catalog: seq<string>, config: Config, st: ManagedState,
                   faults: set<nat>)
    requires Torn(o, faults) && !ManagedBy(o.store, p) && st.profile == p
    requires config.catalog == Catalog(env.managedCatalog(p))
    ensures var t := ManagedWrites(o, catalog, config, st, faults).store;
            && !ManagedBy(t, p)
            && ConfigOf(t, p).Some? && ConfigOf(t, p).value.catalog == Catalog(env.managedCatalog(p))
  {
    ManagedWritesReach(o, catalog, config, st, faults);
  }

  lemma UndisturbedWrites(env: Env, p: Key, o: Progress, catalog: seq<string>, config: Config, st: ManagedState)
    requires o.ok && st.profile == p && config.catalog == Catalog(env.managedCatalog(p))
    ensures var t := ManagedWrites(o, catalog, config, st, {}).store;
            && LoadState(t) == Some(st)
            && ConfigOf(t, p).Some? && ConfigOf(t, p).value.catalog == Catalog(env.managedCatalog(p))
  {
    ManagedWritesReach(o, catalog, config, st, {});
  }

  /** A pointer that is no string cannot be saved: gateway and back removes it. */
  lemma PointerMustBeText(env: Env, p: Key, s: Store, gateway: GatewayInput, account: Option<AccountInput>, now: int)
    requires LoadState(s).None? && ConfigOf(s, p).Some? && ConfigOf(s, p).value.catalog == NotText
    requires PatchForGateway(ConfigOf(s, p).value, gateway.baseUrl, env.managedCatalog(p), gateway.websockets,
                             gateway.secret).Some?
    requires ApplyDirectAccount(env, ApplyGateway(env, s, p, Some(gateway), now, {}).store, p, account, now, {}).ok
    ensures var t :=
        ApplyDirectAccount(env, ApplyGateway(env, s, p, Some(gateway), now, {}).store, p, account, now, {}).store;
            ConfigOf(t, p).Some? && ConfigOf(t, p).value.catalog == NoCatalog
  {
    UndisturbedGateway(env, p, s, gateway, now);
    AccountResult(env, ApplyGateway(env, s, p, Some(gateway), now, {}).store, p, account, now, {});
  }

  lemma UndisturbedGateway(env: Env, p: Key, s: Store, input: GatewayInput, now: int)
    requires ConfigOf(s, p).Some?
    requires PatchForGateway(ConfigOf(s, p).value, input.baseUrl, env.managedCatalog(p), input.websockets,
                             input.secret).Some?
    ensures var t := ApplyGateway(env, s, p, Some(input), now, {}).store;
            && LoadState(t) == Some(GatewayState(p, input, PreviousCatalog(s, p, ConfigOf(s, p).value), now))
            && ConfigOf(t, p).Some? && ConfigOf(t, p).value.catalog == Catalog(env.managedCatalog(p))
  {
    var patched := PatchForGateway(ConfigOf(s, p).value, input.baseUrl, env.managedCatalog(p), input.websockets,
                                   input.secret);
    var st := GatewayState(p, input, PreviousCatalog(s, p, ConfigOf(s, p).value), now);
    assert Prepared(s, p, {}).ok;
    UndisturbedWrites(env, p, Prepared(s, p, {}), input.catalog, patched.value, st);
  }
}
