/** What every profile operation does to the store, for an arbitrary pattern of failing writes.

    `faults` holds the numbers of the write attempts of one operation that fail; a failing write
    leaves its location as it was (files are replaced by renaming a finished temporary file). */
module ProfileOps {
  import opened Text
  import opened ProfileStore
  import opened CatalogSelection
  import opened SelectionChanges

  /** A running operation: once `ok` is false, nothing more is written. */
  datatype Progress = Progress(store: Store, clock: nat, ok: bool)

  function Start(s: Store): Progress {
    Progress(s, 0, true)
  }

  function Stop(o: Progress): Progress {
    o.(ok := false)
  }

  /** A write whose failure ends the operation. */
  function Must(o: Progress, loc: Loc, content: Option<Content>, faults: set<nat>): Progress {
    if !o.ok then o
    else if o.clock in faults then Progress(o.store, o.clock + 1, false)
    else Progress(Write(o.store, loc, content), o.clock + 1, true)
  }

  /** A write whose failure is ignored. */
  function Try(o: Progress, loc: Loc, content: Option<Content>, faults: set<nat>): Progress {
    if !o.ok then o else Must(o, loc, content, faults).(ok := true)
  }

  // ----- shared steps -----

  /** `migrate_legacy_marker`, called when the legacy marker exists. */
  function Migrate(o: Progress, p: Key, faults: set<nat>): Progress {
    var copied := if MarkerFile(p) in o.store then o
                  else Must(o, MarkerFile(p), Read(o.store, LegacyMarkerFile(p)), faults);
    Must(copied, LegacyMarkerFile(p), None, faults)
  }

  /** `ensure_managed_profile_migrated`: a failed migration is only a warning. */
  function TryMigrate(o: Progress, p: Key, faults: set<nat>): Progress {
    if o.ok && LegacyMarkerFile(p) in o.store then Migrate(o, p, faults).(ok := true) else o
  }

  /** What a first touch saves. */
  function Original(s: Store, p: Key): BackupEntry {
    BackupEntry(Read(s, AuthFile(p)), Read(s, ConfigFile(p)))
  }

  function EnsureBackup(o: Progress, p: Key, faults: set<nat>): Progress {
    var backups := LoadBackups(o.store);
    if !o.ok || p in backups then o
    else Must(o, BackupsSetting, Some(BackupsJson(backups[p := Original(o.store, p)])), faults)
  }

  function SaveMarker(o: Progress, st: ManagedState, faults: set<nat>): Progress {
    var marked := Must(o, MarkerFile(st.profile), Some(MarkerJson(MarkerOf(st))), faults);
    Try(marked, LegacyMarkerFile(st.profile), None, faults)
  }

  function SaveState(o: Progress, st: ManagedState, faults: set<nat>): Progress {
    Must(o, StateSetting, Some(StateJson(st)), faults)
  }

  function SaveManaged(o: Progress, st: ManagedState, faults: set<nat>): Progress {
    SaveState(SaveMarker(o, st, faults), st, faults)
  }

  function SaveHome(o: Progress, p: Key, faults: set<nat>): Progress {
    Must(o, HomeSetting, Some(HomeText(p)), faults)
  }

  /** The last steps of a mode switch: marker, state, profile directory, and the status report, which
      retries a pending marker migration. */
  function Finish(o: Progress, st: ManagedState, faults: set<nat>): Progress {
    TryMigrate(SaveHome(SaveManaged(o, st, faults), st.profile, faults), st.profile, faults)
  }

  /** What follows the backup in every switch that manages the catalog. */
  function ManagedWrites(o: Progress, catalog: seq<string>, config: Config, st: ManagedState,
                         faults: set<nat>): Progress {
    var listed := Must(o, CatalogFile(st.profile), Some(CatalogJson(catalog)), faults);
    var configured := Must(listed, ConfigFile(st.profile), Some(Toml(config)), faults);
    Finish(configured, st, faults)
  }

  /** What follows the backup in the switch to an account. */
  function AccountWrites(o: Progress, auth: Content, config: Config, st: ManagedState, faults: set<nat>): Progress {
    var authed := Must(o, AuthFile(st.profile), Some(auth), faults);
    var configured := Must(authed, ConfigFile(st.profile), Some(Toml(config)), faults);
    Finish(configured, st, faults)
  }

  // ----- the three mode switches -----

  /** A usable account: its id and the auth.json built from it. */
  datatype AccountInput = AccountInput(accountId: string, auth: Content)

  function AccountState(p: Key, accountId: string, now: int): ManagedState {
    ManagedState(p, DirectAccount, Some(accountId), None, None, None, None, None, OPENAI_PROVIDER_ID, None, [], now)
  }

  /** `input` is `None` when the lookup or the token refresh failed. */
  function ApplyDirectAccount(env: Env, s: Store, p: Key, input: Option<AccountInput>, now: int,
                              faults: set<nat>): Progress {
    var migrated := TryMigrate(Start(s), p, faults);
    if input.None? then Stop(migrated)
    else
      var backed := EnsureBackup(migrated, p, faults);
      if !backed.ok then backed
      else
        var config := ConfigOf(s, p);
        if config.None? then Stop(backed)
        else
          var patched := PatchForDirect(config.value, env.managedCatalog(p), PreviousCatalog(s, p, config.value));
          if patched.None? then Stop(backed)
          else AccountWrites(backed, input.value.auth, patched.value, AccountState(p, input.value.accountId, now),
                             faults)
  }

  /** An accepted platform key and the catalog fetched for it. */
  datatype GatewayInput = GatewayInput(apiKeyId: string, baseUrl: string, secret: string, websockets: bool,
                                       catalog: seq<string>)

  function GatewayState(p: Key, input: GatewayInput, previous: Option<string>, now: int): ManagedState {
    ManagedState(p, Gateway, None, Some(input.apiKeyId), None, Some(input.baseUrl), None, Some(input.websockets),
                 PROVIDER_ID, previous, [], now)
  }

  /** `input` is `None` when the key is refused or its catalog cannot be had. */
  function ApplyGateway(env: Env, s: Store, p: Key, input: Option<GatewayInput>, now: int, faults: set<nat>): Progress {
    var config := ConfigOf(s, p);
    if input.None? || config.None? then Stop(Start(s))
    else
      var patched := PatchForGateway(config.value, input.value.baseUrl, env.managedCatalog(p), input.value.websockets,
                                     input.value.secret);
      if patched.None? then Stop(Start(s))
      else
        var backed := EnsureBackup(TryMigrate(Start(s), p, faults), p, faults);
        ManagedWrites(backed, input.value.catalog, patched.value,
                      GatewayState(p, input.value, PreviousCatalog(s, p, config.value), now), faults)
  }

  /** An active aggregate API, and the model names it offers; `None` when fetching them failed. */
  datatype AggregateInput = AggregateInput(id: string, api: AggregateConfig, secret: string,
                                           upstream: Option<seq<string>>, managed: seq<string>)

  function AggregateState(p: Key, input: AggregateInput, previous: Option<string>, slugs: seq<string>,
                          now: int): ManagedState {
    ManagedState(p, DirectAggregate, None, None, Some(input.id), None, Some(input.api.baseUrl), Some(false),
                 AGGREGATE_PROVIDER_ID, previous, slugs, now)
  }

  /** The override when the catalog has it, else the first model. */
  function DefaultModel(slugs: seq<string>, preferred: Option<string>): string
    requires slugs != []
  {
    if preferred.Some? && exists s :: s in slugs && EqIgnoreCase(s, preferred.value)
    then FirstNamed(slugs, preferred.value)
    else slugs[0]
  }

  function FirstNamed(slugs: seq<string>, name: string): (r: string)
    requires exists s :: s in slugs && EqIgnoreCase(s, name)
    ensures r in slugs && EqIgnoreCase(r, name)
  {
    if EqIgnoreCase(slugs[0], name) then slugs[0] else FirstNamed(slugs[1..], name)
  }

  /** `None` as input stands for a call that fails before it touches the profile. The backup is taken in
      the first phase, before the models are fetched. */
  function ApplyDirectAggregate(env: Env, s: Store, p: Key, input: Option<AggregateInput>, now: int,
                                faults: set<nat>): Progress {
    var migrated := TryMigrate(Start(s), p, faults);
    if input.None? then Stop(migrated)
    else
      var backed := EnsureBackup(migrated, p, faults);
      var config := ConfigOf(s, p);
      if !backed.ok || config.None? || input.value.upstream.None? then Stop(backed)
      else
        var slugs := Select(input.value.managed, input.value.upstream.value);
        if slugs.None? || slugs.value == [] then Stop(backed)
        else SwitchToAggregate(env, s, backed, p, input.value, config.value, slugs.value, now, faults)
  }

  /** The last phase, with the config and the pointer read in the first. */
  function SwitchToAggregate(env: Env, s: Store, backed: Progress, p: Key, input: AggregateInput, config: Config,
                             slugs: seq<string>, now: int, faults: set<nat>): Progress
    requires slugs != []
  {
    var previous := PreviousCatalog(s, p, config);
    var patched := PatchForAggregate(env, config, p, input.api, input.secret, previous,
                                     DefaultModel(slugs, input.api.modelOverride));
    if patched.None? then Stop(backed)
    else ManagedWrites(backed, slugs, patched.value, AggregateState(p, input, previous, slugs, now), faults)
  }

  // ----- selected models: commit and rollback -----

  /** The first steps of the commit: here a failing migration ends it. */
  function PrepareModels(s: Store, p: Key, faults: set<nat>): Progress {
    EnsureBackup(if LegacyMarkerFile(p) in s then Migrate(Start(s), p, faults) else Start(s), p, faults)
  }

  /** The commit closure of `apply_models_commit_locked`. */
  function CommitModels(env: Env, s: Store, p: Key, config: Config, slugs: seq<string>, now: int,
                        faults: set<nat>): Progress {
    var backed := PrepareModels(s, p, faults);
    var st := SelectionState(env, backed.store, p, config, slugs, now);
    ManagedWrites(backed, slugs, PatchForManagedCatalog(config, env.managedCatalog(p)), st, faults)
  }

  function SelectionState(env: Env, s: Store, p: Key, config: Config, slugs: seq<string>, now: int): (st: ManagedState)
    ensures st.profile == p && st.slugs == slugs
  {
    StateForModels(env, s, p, config, now).(slugs := slugs, updatedAt := now)
  }

  /** The locations captured before the commit, in the order in which a rollback restores them. */
  function Captured(p: Key): seq<Loc> {
    [HomeSetting, StateSetting, MarkerFile(p), LegacyMarkerFile(p), ConfigFile(p), CatalogFile(p), BackupsSetting]
  }

  /** What a restore puts back: a file that was absent is removed, but a setting that was absent is
      saved as the empty text. */
  function SavedContent(s: Store, loc: Loc): Option<Content> {
    if IsSetting(loc) && loc !in s then Some(Blank) else Read(s, loc)
  }

  /** A rollback goes on after a failing restore and reports the locations it could not restore. */
  datatype Undo = Undo(store: Store, clock: nat, failed: set<Loc>)

  function RestoreOne(u: Undo, saved: Store, loc: Loc, faults: set<nat>): Undo {
    if u.clock in faults then Undo(u.store, u.clock + 1, u.failed + {loc})
    else Undo(Write(u.store, loc, SavedContent(saved, loc)), u.clock + 1, u.failed)
  }

  function RestoreAll(u: Undo, saved: Store, locs: seq<Loc>, faults: set<nat>): Undo
    decreases |locs|
  {
    if locs == [] then u else RestoreAll(RestoreOne(u, saved, locs[0], faults), saved, locs[1..], faults)
  }

  datatype ModelsOutcome =
    | Applied(store: Store)
    | Refused(store: Store)
    | RolledBack(store: Store, failed: set<Loc>)

  function ApplyModelsCommit(env: Env, s: Store, p: Key, config: Config, slugs: seq<string>, now: int,
                             faults: set<nat>): ModelsOutcome {
    var commit := CommitModels(env, s, p, config, slugs, now, faults);
    if commit.ok then Applied(commit.store)
    else
      var undo := RestoreAll(Undo(commit.store, commit.clock, {}), s, Captured(p), faults);
      RolledBack(undo.store, undo.failed)
  }

  function ApplyModels(env: Env, s: Store, p: Key, managed: seq<string>, requested: seq<string>, now: int,
                       faults: set<nat>): ModelsOutcome {
    var config := ConfigOf(s, p);
    var slugs := Select(managed, requested);
    if config.None? || slugs.None? then Refused(s)
    else ApplyModelsCommit(env, s, p, config.value, slugs.value, now, faults)
  }

  // ----- restore -----

  function Restore(s: Store, p: Key, faults: set<nat>): Progress {
    var backups := LoadBackups(s);
    if p !in backups then Stop(Start(s)) else Forget(RestoreFiles(s, p, backups[p], faults), p, faults)
  }

  /** The restore up to the point where the backup entry is dropped. */
  function RestoreFiles(s: Store, p: Key, entry: BackupEntry, faults: set<nat>): Progress {
    var authed := Must(Start(s), AuthFile(p), entry.auth, faults);
    var configured := Must(authed, ConfigFile(p), entry.config, faults);
    Must(Must(configured, MarkerFile(p), None, faults), LegacyMarkerFile(p), None, faults)
  }

  /** Dropping the backup entry, and then the state if it is this profile's. */
  function Forget(o: Progress, p: Key, faults: set<nat>): Progress {
    var forgotten := Must(o, BackupsSetting, Some(BackupsJson(LoadBackups(o.store) - {p})), faults);
    if StateOf(o.store, p).Some? then Must(forgotten, StateSetting, Some(Blank), faults) else forgotten
  }

  // ----- sync after model changes -----

  /** What a sync reads outside the profile: the managed catalog, whether the key exists and offers
      websockets, the key's full gateway catalog and its secret. */
  datatype SyncInput = SyncInput(managed: seq<string>, websockets: Option<bool>, gatewayCatalog: Option<seq<string>>,
                                 secret: Option<string>)

  /** What the phases before the last one decide. */
  datatype SyncPlan =
    | Skip
    | Fail
    | Detach(st: ManagedState)
    | Rewrite(st: ManagedState, catalog: seq<string>, slugs: seq<string>, websockets: Option<bool>)

  /** Whether the websocket flag must be settled, and to what. */
  function SyncWebsockets(st: ManagedState, input: SyncInput): Option<bool> {
    if st.mode.Gateway? && st.apiKeyId.Some? && input.websockets.Some? then
      Some(st.supportsWebsockets.GetOr(input.websockets.value) && input.websockets.value)
    else None
  }

  /** The config is there and uses the managed catalog. */
  predicate UsesManaged(env: Env, s: Store, p: Key) {
    Read(s, ConfigFile(p)).Some? && ConfigOf(s, p).Some? && env.PointsToManaged(ConfigOf(s, p).value, p)
  }

  /** The plan for a state whose selection becomes `next`; `points` says whether the config uses the
      managed catalog, and `reconciled` is what the managed catalog has of the selection. */
  function PlanFrom(st0: ManagedState, next: seq<string>, reconciled: Option<seq<string>>, points: bool,
                    input: SyncInput): SyncPlan {
    var st := st0.(slugs := next);
    var hasKey := st.mode.Gateway? && st.apiKeyId.Some?;
    if st0.slugs != [] && !points then Skip
    else if st0.slugs == [] && !st.mode.Gateway? && next == st0.slugs then Skip
    else if st0.slugs != [] && next == [] && !hasKey then Detach(st)
    else if hasKey && input.websockets.None? then Fail
    else if st.mode.Gateway? && !hasKey && next == [] then Fail
    else
      var websockets := SyncWebsockets(st, input);
      if next == [] then
        // only a gateway profile with a key gets here
        if input.gatewayCatalog.None? then Fail else Rewrite(st, input.gatewayCatalog.value, [], websockets)
      else if reconciled.Some? then Rewrite(st, reconciled.value, reconciled.value, websockets)
      else if hasKey then
        if input.gatewayCatalog.None? then Fail else Rewrite(st, input.gatewayCatalog.value, [], websockets)
      else Detach(st)
  }

  function PlanSync(env: Env, s: Store, changes: seq<Change>, input: SyncInput): SyncPlan {
    if LoadState(s).None? then Skip
    else
      var st0 := LoadState(s).value;
      var next := Selected(st0.slugs, changes);
      PlanFrom(st0, next, Reconcile(input.managed, next), UsesManaged(env, s, st0.profile), input)
  }

  /** The state is only saved when the selection or the websocket flag was touched. */
  function SaveIfDirty(o: Progress, dirty: bool, st: ManagedState, faults: set<nat>): Progress {
    if dirty then SaveManaged(o, st, faults) else o
  }

  /** The selection changed in the first phase, or the catalog reconciled it to another one, or the
      websocket flag was settled to another value. */
  predicate Dirty(before: ManagedState, planned: ManagedState, after: ManagedState) {
    planned.slugs != before.slugs || after.slugs != planned.slugs
      || after.supportsWebsockets != planned.supportsWebsockets
  }

  function Sync(env: Env, s: Store, changes: seq<Change>, input: SyncInput, faults: set<nat>): Progress {
    match PlanSync(env, s, changes, input)
    case Skip => Start(s)
    case Fail => Stop(Start(s))
    case Detach(st) => SyncDetach(env, s, st, faults)
    case Rewrite(st, catalog, slugs, websockets) => SyncRewrite(env, s, st, catalog, slugs, websockets, input.secret,
                                                                faults)
  }

  function SyncDetach(env: Env, s: Store, st: ManagedState, faults: set<nat>): Progress {
    var config := ConfigOf(s, st.profile);
    if config.None? || LoadState(s).None? then Stop(Start(s))
    else
      var restored := RestorePreviousCatalog(env, config.value, st.profile, st.previousCatalog);
      var configured := Must(Start(s), ConfigFile(st.profile), Some(Toml(restored)), faults);
      var cleared := st.(slugs := []);
      SaveIfDirty(configured, Dirty(LoadState(s).value, st, cleared), cleared, faults)
  }

  function SyncRewrite(env: Env, s: Store, st: ManagedState, catalog: seq<string>, slugs: seq<string>,
                       websockets: Option<bool>, secret: Option<string>, faults: set<nat>): Progress {
    var config := ConfigOf(s, st.profile);
    var settled := st.(slugs := slugs,
                       supportsWebsockets := if websockets.Some? then websockets else st.supportsWebsockets);
    if LoadState(s).None? then Stop(Start(s))
    else
      var dirty := Dirty(LoadState(s).value, st, settled);
      if websockets.None? then SyncWrites(s, catalog, None, dirty, settled, faults)
      else if config.None? || secret.None? then Stop(Start(s))
      else
        var patched := PatchForGateway(config.value, st.gatewayBaseUrl.GetOr(DEFAULT_GATEWAY_BASE_URL),
                                       env.managedCatalog(st.profile), websockets.value, secret.value);
        if patched.None? then Stop(Start(s)) else SyncWrites(s, catalog, patched, dirty, settled, faults)
  }

  /** The catalog, the config if it has to change, and the state if it is dirty. */
  function SyncWrites(s: Store, catalog: seq<string>, config: Option<Config>, dirty: bool, st: ManagedState,
                      faults: set<nat>): Progress {
    var listed := Must(Start(s), CatalogFile(st.profile), Some(CatalogJson(catalog)), faults);
    var configured := if config.Some? then Must(listed, ConfigFile(st.profile), Some(Toml(config.value)), faults)
        else listed;
    SaveIfDirty(configured, dirty, st, faults)
  }
}
