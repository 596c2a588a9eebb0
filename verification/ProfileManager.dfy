/** The profile manager as the service runs it: step by step over files and settings that it changes
    in place, returning early at the first failing write. Every method is proved against the
    specification of its operation; what the operations guarantee is proved about those. */
module ProfileManager {
  import opened Text
  import opened ProfileStore
  import Ops = ProfileOps
  import Commit = ModelsCommit
  import Frames = ProfileFrames
  import CatalogSelection
  import SelectionChanges

  class Manager {
    const env: Env
    var store: Store
    /** The numbers of the write attempts of the running operation that fail. */
    var faults: set<nat>
    var clock: nat

    constructor (env: Env, store: Store)
      ensures this.env == env && this.store == store
    {
      this.env, this.store, this.faults, this.clock := env, store, {}, 0;
    }

    /** The running operation, as the specification sees it. */
    function Now(ok: bool): Ops.Progress
      reads this
    {
      Ops.Progress(store, clock, ok)
    }

    /** A new operation: its writes are counted from zero. */
    method Begin(faults: set<nat>)
      modifies this
      ensures store == old(store) && this.faults == faults && clock == 0
    {
      this.faults, clock := faults, 0;
    }

    /** `write_atomic`, `remove_file_if_exists` or saving a setting: all or nothing. */
    method Put(loc: Loc, content: Option<Content>) returns (ok: bool)
      modifies this`store, this`clock
      ensures Now(ok) == Ops.Must(old(Now(true)), loc, content, faults)
    {
      ok := clock !in faults;
      clock := clock + 1;
      if ok {
        store := Write(store, loc, content);
      }
    }

    method MigrateLegacyMarker(p: Key) returns (ok: bool)
      modifies this`store, this`clock
      ensures Now(ok) == Ops.Migrate(old(Now(true)), p, faults)
    {
      if MarkerFile(p) !in store {
        ok := Put(MarkerFile(p), Read(store, LegacyMarkerFile(p)));
        if !ok {
          return;
        }
      }
      ok := Put(LegacyMarkerFile(p), None);
    }

    /** A migration whose failure is only reported. */
    method EnsureMigrated(p: Key)
      modifies this`store, this`clock
      ensures Now(true) == Ops.TryMigrate(old(Now(true)), p, faults)
    {
      if LegacyMarkerFile(p) in store {
        var _ := MigrateLegacyMarker(p);
      }
    }

    method EnsureBackup(p: Key) returns (ok: bool)
      modifies this`store, this`clock
      ensures Now(ok) == Ops.EnsureBackup(old(Now(true)), p, faults)
    {
      var backups := LoadBackups(store);
      if p in backups {
        return true;
      }
      var entry := BackupEntry(Read(store, AuthFile(p)), Read(store, ConfigFile(p)));
      ok := Put(BackupsSetting, Some(BackupsJson(backups[p := entry])));
    }

    method WriteManagedMarker(st: ManagedState) returns (ok: bool)
      modifies this`store, this`clock
      ensures Now(ok) == Ops.SaveMarker(old(Now(true)), st, faults)
    {
      ok := Put(MarkerFile(st.profile), Some(MarkerJson(MarkerOf(st))));
      if ok {
        var _ := Put(LegacyMarkerFile(st.profile), None);
      }
    }

    method WriteManagedState(st: ManagedState) returns (ok: bool)
      modifies this`store, this`clock
      ensures Now(ok) == Ops.SaveManaged(old(Now(true)), st, faults)
    {
      ok := WriteManagedMarker(st);
      if ok {
        ok := Put(StateSetting, Some(StateJson(st)));
      }
    }

    /** Marker, state, profile directory and status. */
    method FinishSwitch(st: ManagedState) returns (ok: bool)
      modifies this`store, this`clock
      ensures Now(ok) == Ops.Finish(old(Now(true)), st, faults)
    {
      ok := WriteManagedState(st);
      if !ok {
        return;
      }
      ok := Put(HomeSetting, Some(HomeText(st.profile)));
      if ok {
        EnsureMigrated(st.profile);
      }
    }

    method WriteManagedFiles(catalog: seq<string>, config: Config, st: ManagedState) returns (ok: bool)
      modifies this`store, this`clock
      ensures Now(ok) == Ops.ManagedWrites(old(Now(true)), catalog, config, st, faults)
    {
      ok := Put(CatalogFile(st.profile), Some(CatalogJson(catalog)));
      if !ok {
        return;
      }
      ok := Put(ConfigFile(st.profile), Some(Toml(config)));
      if ok {
        ok := FinishSwitch(st);
      }
    }

    method WriteProfileFiles(auth: Content, config: Config, st: ManagedState) returns (ok: bool)
      modifies this`store, this`clock
      ensures Now(ok) == Ops.AccountWrites(old(Now(true)), auth, config, st, faults)
    {
      ok := Put(AuthFile(st.profile), Some(auth));
      if !ok {
        return;
      }
      ok := Put(ConfigFile(st.profile), Some(Toml(config)));
      if ok {
        ok := FinishSwitch(st);
      }
    }

    /** Steps before the writes of a switch do not touch what the switch reads. */
    lemma Unread(s: Store, p: Key)
      ensures var migrated := Ops.TryMigrate(Ops.Start(s), p, faults);
              ConfigOf(migrated.store, p) == ConfigOf(s, p) && StateOf(migrated.store, p) == StateOf(s, p)
      ensures var backed := Ops.EnsureBackup(Ops.TryMigrate(Ops.Start(s), p, faults), p, faults);
              ConfigOf(backed.store, p) == ConfigOf(s, p) && StateOf(backed.store, p) == StateOf(s, p)
    {
      var migrated := Ops.TryMigrate(Ops.Start(s), p, faults);
      Frames.MigrateEffect(Ops.Start(s), p, faults);
      Frames.BackupEffect(migrated, p, faults);
    }

    method ApplyDirectAccount(p: Key, input: Option<Ops.AccountInput>, now: int, faults: set<nat>) returns (ok: bool)
      modifies this
      ensures Now(ok) == Ops.ApplyDirectAccount(env, old(store), p, input, now, faults)
    {
      Begin(faults);
      Unread(store, p);
      EnsureMigrated(p);
      if input.None? {
        return false;
      }
      ok := EnsureBackup(p);
      if !ok {
        return;
      }
      var config := ConfigOf(store, p);
      if config.None? {
        return false;
      }
      var previous := PreviousCatalog(store, p, config.value);
      var patched := PatchForDirect(config.value, env.managedCatalog(p), previous);
      if patched.None? {
        return false;
      }
      ok := WriteProfileFiles(input.value.auth, patched.value, Ops.AccountState(p, input.value.accountId, now));
    }

    method ApplyGateway(p: Key, input: Option<Ops.GatewayInput>, now: int, faults: set<nat>) returns (ok: bool)
      modifies this
      ensures Now(ok) == Ops.ApplyGateway(env, old(store), p, input, now, faults)
    {
      Begin(faults);
      var config := ConfigOf(store, p);
      if input.None? || config.None? {
        return false;
      }
      var previous := PreviousCatalog(store, p, config.value);
      var patched := PatchForGateway(config.value, input.value.baseUrl, env.managedCatalog(p), input.value.websockets,
                                     input.value.secret);
      if patched.None? {
        return false;
      }
      EnsureMigrated(p);
      ok := EnsureBackup(p);
      ghost var backed := Now(ok);
      if !ok {
        Frames.StoppedStays(backed, input.value.catalog, patched.value,
                            Ops.GatewayState(p, input.value, previous, now), faults);
        return;
      }
      ok := WriteManagedFiles(input.value.catalog, patched.value, Ops.GatewayState(p, input.value, previous, now));
    }

    /** The first phase up to the backup. */
    method ApplyDirectAggregate(p: Key, input: Option<Ops.AggregateInput>, now: int,
                                faults: set<nat>) returns (ok: bool)
      modifies this
      ensures Now(ok) == Ops.ApplyDirectAggregate(env, old(store), p, input, now, faults)
    {
      Begin(faults);
      Unread(store, p);
      ghost var before := store;
      EnsureMigrated(p);
      if input.None? {
        return false;
      }
      ok := EnsureBackup(p);
      if !ok {
        return;
      }
      var config := ConfigOf(store, p);
      if config.None? || input.value.upstream.None? {
        return false;
      }
      var slugs := CatalogSelection.Select(input.value.managed, input.value.upstream.value);
      if slugs.None? || slugs.value == [] {
        return false;
      }
      ok := SwitchToAggregate(p, before, input.value, config.value, slugs.value, now);
    }

    method SwitchToAggregate(p: Key, ghost before: Store, input: Ops.AggregateInput, config: Config,
                             slugs: seq<string>, now: int)
      returns (ok: bool)
      requires slugs != [] && StateOf(store, p) == StateOf(before, p)
      modifies this`store, this`clock
      ensures Now(ok) == Ops.SwitchToAggregate(env, before, old(Now(true)), p, input, config, slugs, now, faults)
    {
      var previous := PreviousCatalog(store, p, config);
      var patched := PatchForAggregate(env, config, p, input.api, input.secret, previous,
                                       Ops.DefaultModel(slugs, input.api.modelOverride));
      if patched.None? {
        return false;
      }
      ok := WriteManagedFiles(slugs, patched.value, Ops.AggregateState(p, input, previous, slugs, now));
    }

    // ----- selected models -----

    /** The captured locations with their contents. */
    method Capture(p: Key) returns (locs: seq<Loc>, saved: seq<Option<Content>>)
      ensures locs == Ops.Captured(p) && |saved| == |locs|
      ensures forall i :: 0 <= i < |locs| ==> saved[i] == Read(store, locs[i])
    {
      locs := Ops.Captured(p);
      saved := [];
      for i := 0 to |locs|
        invariant |saved| == i && forall j :: 0 <= j < i ==> saved[j] == Read(store, locs[j])
      {
        saved := saved + [Read(store, locs[i])];
      }
    }

    /** Restores every captured location, going on after a failure and collecting the errors. */
    method Rollback(locs: seq<Loc>, saved: seq<Option<Content>>, ghost before: Store) returns (failed: set<Loc>)
      requires |saved| == |locs| && forall i :: 0 <= i < |locs| ==> saved[i] == Read(before, locs[i])
      modifies this`store, this`clock
      ensures Ops.Undo(store, clock, failed) == Ops.RestoreAll(old(Ops.Undo(store, clock, {})), before, locs, faults)
    {
      failed := {};
      ghost var start := Ops.Undo(store, clock, {});
      for i := 0 to |locs|
        invariant Ops.RestoreAll(Ops.Undo(store, clock, failed), before, locs[i..], faults)
               == Ops.RestoreAll(start, before, locs, faults)
      {
        assert locs[i..][0] == locs[i] && locs[i..][1..] == locs[i + 1..];
        var content := if IsSetting(locs[i]) && saved[i].None? then Some(Blank) else saved[i];
        assert content == Ops.SavedContent(before, locs[i]);
        var ok := Put(locs[i], content);
        if !ok {
          failed := failed + {locs[i]};
        }
      }
    }

    method CommitModels(p: Key, config: Config, slugs: seq<string>, now: int) returns (ok: bool)
      requires clock == 0
      modifies this`store, this`clock
      ensures Now(ok) == Ops.CommitModels(env, old(store), p, config, slugs, now, faults)
    {
      ok := PrepareModels(p);
      ghost var backed := Now(ok);
      var st := Ops.SelectionState(env, store, p, config, slugs, now);
      var patched := PatchForManagedCatalog(config, env.managedCatalog(p));
      if !ok {
        Frames.StoppedStays(backed, slugs, patched, st, faults);
        return;
      }
      ok := WriteManagedFiles(slugs, patched, st);
    }

    method PrepareModels(p: Key) returns (ok: bool)
      requires clock == 0
      modifies this`store, this`clock
      ensures Now(ok) == Ops.PrepareModels(old(store), p, faults)
    {
      if LegacyMarkerFile(p) in store {
        ok := MigrateLegacyMarker(p);
        if !ok {
          return;
        }
      }
      ok := EnsureBackup(p);
    }

    /** Either everything is new and the backup entry is there, or every location whose own restore
        worked is as it was; nothing else in the store changes. */
    method ApplyModelsCommitLocked(p: Key, config: Config, slugs: seq<string>, now: int, faults: set<nat>)
      returns (applied: bool, failed: set<Loc>)
      modifies this
      ensures applied ==> Commit.Committed(env, old(store), store, p, config, slugs)
      ensures !applied ==> forall l :: l in Ops.Captured(p) && l !in failed ==>
          Read(store, l) == Ops.SavedContent(old(store), l)
      ensures forall l :: l !in Ops.Captured(p) ==> Read(store, l) == Read(old(store), l)
      ensures Ops.ApplyModelsCommit(env, old(store), p, config, slugs, now, faults)
           == if applied then Ops.Applied(store) else Ops.RolledBack(store, failed)
    {
      Begin(faults);
      ghost var before := store;
      Commit.ModelsAllOrNothing(env, before, p, config, slugs, now, faults);
      var locs, saved := Capture(p);
      failed := {};
      applied := CommitModels(p, config, slugs, now);
      if !applied {
        failed := Rollback(locs, saved, before);
      }
    }

    // ----- restore -----

    method RestoreFiles(p: Key, entry: BackupEntry) returns (ok: bool)
      requires clock == 0
      modifies this`store, this`clock
      ensures Now(ok) == Ops.RestoreFiles(old(store), p, entry, faults)
    {
      ok := Put(AuthFile(p), entry.auth);
      if !ok {
        return;
      }
      ok := Put(ConfigFile(p), entry.config);
      if !ok {
        return;
      }
      ok := Put(MarkerFile(p), None);
      if ok {
        ok := Put(LegacyMarkerFile(p), None);
      }
    }

    method RestoreLocked(p: Key, faults: set<nat>) returns (ok: bool)
      modifies this
      ensures Now(ok) == Ops.Restore(old(store), p, faults)
    {
      Begin(faults);
      var backups := LoadBackups(store);
      if p !in backups {
        return false;
      }
      ok := RestoreFiles(p, backups[p]);
      if !ok {
        return;
      }
      assert LoadBackups(store) == backups;
      ok := Forget(p, backups);
    }

    method Forget(p: Key, backups: map<Key, BackupEntry>) returns (ok: bool)
      requires LoadBackups(store) == backups
      modifies this`store, this`clock
      ensures Now(ok) == Ops.Forget(old(Now(true)), p, faults)
    {
      ok := Put(BackupsSetting, Some(BackupsJson(backups - {p})));
      if ok && StateOf(store, p).Some? {
        ok := Put(StateSetting, Some(Blank));
      }
    }

    // ----- sync after model changes -----

    method SaveIfDirty(dirty: bool, st: ManagedState) returns (ok: bool)
      modifies this`store, this`clock
      ensures Now(ok) == Ops.SaveIfDirty(old(Now(true)), dirty, st, faults)
    {
      ok := true;
      if dirty {
        ok := WriteManagedState(st);
      }
    }

    method SyncWrites(catalog: seq<string>, config: Option<Config>, dirty: bool, st: ManagedState) returns (ok: bool)
      requires clock == 0
      modifies this`store, this`clock
      ensures Now(ok) == Ops.SyncWrites(old(store), catalog, config, dirty, st, faults)
    {
      ok := Put(CatalogFile(st.profile), Some(CatalogJson(catalog)));
      if !ok {
        return;
      }
      if config.Some? {
        ok := Put(ConfigFile(st.profile), Some(Toml(config.value)));
        if !ok {
          return;
        }
      }
      ok := SaveIfDirty(dirty, st);
    }

    method SyncAfterModelChanges(changes: seq<SelectionChanges.Change>, input: Ops.SyncInput,
                                 faults: set<nat>) returns (ok: bool)
      modifies this
      ensures Now(ok) == Ops.Sync(env, old(store), changes, input, faults)
    {
      Begin(faults);
      var plan := Ops.PlanSync(env, store, changes, input);
      match plan
      case Skip => ok := true;
      case Fail => ok := false;
      case Detach(st) => ok := SyncDetach(st);
      case Rewrite(st, catalog, slugs, websockets) => ok := SyncRewrite(st, catalog, slugs, websockets, input.secret);
    }

    method SyncDetach(st: ManagedState) returns (ok: bool)
      requires clock == 0
      modifies this`store, this`clock
      ensures Now(ok) == Ops.SyncDetach(env, old(store), st, faults)
    {
      var config, before := ConfigOf(store, st.profile), LoadState(store);
      if config.None? || before.None? {
        return false;
      }
      var restored := RestorePreviousCatalog(env, config.value, st.profile, st.previousCatalog);
      ok := Put(ConfigFile(st.profile), Some(Toml(restored)));
      if ok {
        var cleared := st.(slugs := []);
        ok := SaveIfDirty(Ops.Dirty(before.value, st, cleared), cleared);
      }
    }

    method SyncRewrite(st: ManagedState, catalog: seq<string>, slugs: seq<string>, websockets: Option<bool>,
                       secret: Option<string>)
      returns (ok: bool)
      requires clock == 0
      modifies this`store, this`clock
      ensures Now(ok) == Ops.SyncRewrite(env, old(store), st, catalog, slugs, websockets, secret, faults)
    {
      var config, before := ConfigOf(store, st.profile), LoadState(store);
      if before.None? {
        return false;
      }
      var settled := st.(slugs := slugs,
                         supportsWebsockets := if websockets.Some? then websockets else st.supportsWebsockets);
      var dirty := Ops.Dirty(before.value, st, settled);
      if websockets.None? {
        ok := SyncWrites(catalog, None, dirty, settled);
        return;
      }
      if config.None? || secret.None? {
        return false;
      }
      var patched := PatchForGateway(config.value, st.gatewayBaseUrl.GetOr(DEFAULT_GATEWAY_BASE_URL),
                                     env.managedCatalog(st.profile), websockets.value, secret.value);
      if patched.None? {
        return false;
      }
      ok := SyncWrites(catalog, patched, dirty, settled);
    }
  }
}
