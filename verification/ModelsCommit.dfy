/** Applying selected models is all or nothing: the commit either finishes or is undone. */
module ModelsCommit {
  import opened Text
  import opened ProfileFrames
  import opened ProfileStore
  import opened ProfileOps

  ghost function CapturedSet(p: Key): set<Loc> {
    set l | l in Captured(p)
  }

  /** What a finished commit leaves. */
  ghost predicate Committed(env: Env, s: Store, t: Store, p: Key, config: Config, slugs: seq<string>) {
    && Read(t, CatalogFile(p)) == Some(CatalogJson(slugs))
    && Read(t, ConfigFile(p)) == Some(Toml(PatchForManagedCatalog(config, env.managedCatalog(p))))
    && Read(t, HomeSetting) == Some(HomeText(p))
    && LoadState(t).Some? && LoadState(t).value.profile == p && LoadState(t).value.slugs == slugs
    && Read(t, MarkerFile(p)) == Some(MarkerJson(MarkerOf(LoadState(t).value)))
    && LoadBackups(t) == (if p in LoadBackups(s) then LoadBackups(s) else LoadBackups(s)[p := Original(s, p)])
    && OnlyChanges(s, t, CapturedSet(p))
  }

  /** The state that a finished commit saves. */
  lemma CommitState(env: Env, s: Store, p: Key, config: Config, slugs: seq<string>, now: int, faults: set<nat>)
    requires CommitModels(env, s, p, config, slugs, now, faults).ok
    ensures LoadState(CommitModels(env, s, p, config, slugs, now, faults).store)
         == Some(SelectionState(env, PrepareModels(s, p, faults).store, p, config, slugs, now))
  {
    var backed := PrepareModels(s, p, faults);
    ManagedWritesEffect(backed, slugs, PatchForManagedCatalog(config, env.managedCatalog(p)),
                        SelectionState(env, backed.store, p, config, slugs, now), faults);
  }

  /** It is the persisted state of the profile with the new selection, when there is one. */
  lemma CommitKeepsState(env: Env, s: Store, p: Key, config: Config, slugs: seq<string>, now: int, faults: set<nat>)
    requires CommitModels(env, s, p, config, slugs, now, faults).ok && StateOf(s, p).Some?
    ensures LoadState(CommitModels(env, s, p, config, slugs, now, faults).store)
         == Some(StateOf(s, p).value.(slugs := slugs, updatedAt := now))
  {
    PrepareEffect(s, p, faults);
    var backed := PrepareModels(s, p, faults);
    StateUntouched(s, backed.store, {MarkerFile(p), LegacyMarkerFile(p), BackupsSetting});
    KeptSelection(env, backed.store, p, config, slugs, now);
    CommitState(env, s, p, config, slugs, now, faults);
  }

  lemma KeptSelection(env: Env, s: Store, p: Key, config: Config, slugs: seq<string>, now: int)
    requires StateOf(s, p).Some?
    ensures SelectionState(env, s, p, config, slugs, now) == StateOf(s, p).value.(slugs := slugs, updatedAt := now)
  {
  }

  /** Undoing puts back every location whose own restore worked and leaves the others alone. */
  lemma {:induction false} RestoreAllEffect(u: Undo, saved: Store, locs: seq<Loc>, faults: set<nat>)
    requires forall i, j :: 0 <= i < j < |locs| ==> locs[i] != locs[j]
    requires forall l :: l in locs ==> l !in u.failed
    ensures var r := RestoreAll(u, saved, locs, faults);
            && u.failed <= r.failed
            && (forall l :: l in r.failed ==> l in u.failed || l in locs)
            && (forall l :: l in locs && l !in r.failed ==> Read(r.store, l) == SavedContent(saved, l))
            && (forall l :: l !in locs || l in r.failed ==> Read(r.store, l) == Read(u.store, l))
    decreases |locs|
  {
    if locs != [] {
      var next := RestoreOne(u, saved, locs[0], faults);
      assert forall l :: l in locs <==> l == locs[0] || l in locs[1..];
      forall l | l in locs[1..] ensures l !in next.failed {
        var i :| 0 <= i < |locs[1..]| && locs[1..][i] == l;
        assert locs[i + 1] == l && locs[0] != l;
      }
      assert locs[0] !in locs[1..];
      RestoreAllEffect(next, saved, locs[1..], faults);
    }
  }

  lemma PrepareEffect(s: Store, p: Key, faults: set<nat>)
    ensures var r := PrepareModels(s, p, faults);
            && OnlyChanges(s, r.store, {MarkerFile(p), LegacyMarkerFile(p), BackupsSetting})
            && (r.ok ==> LoadBackups(r.store) == (if p in LoadBackups(s) then LoadBackups(s)
                                                  else LoadBackups(s)[p := Original(s, p)]))
  {
    MigrateEffect(Start(s), p, faults);
    var migrated := if LegacyMarkerFile(p) in s then Migrate(Start(s), p, faults) else Start(s);
    BackupEffect(migrated, p, faults);
    assert Original(migrated.store, p) == Original(s, p);
  }

  /** A commit changes nothing outside the captured locations, and finishes with everything new. */
  lemma CommitEffect(env: Env, s: Store, p: Key, config: Config, slugs: seq<string>, now: int, faults: set<nat>)
    ensures var o := CommitModels(env, s, p, config, slugs, now, faults);
            && OnlyChanges(s, o.store, CapturedSet(p))
            && (o.ok ==> Committed(env, s, o.store, p, config, slugs))
  {
    PrepareEffect(s, p, faults);
    var backed := PrepareModels(s, p, faults);
    PreparedThenWritten(env, s, backed, p, config, slugs, SelectionState(env, backed.store, p, config, slugs, now),
                        faults);
  }

  lemma PreparedThenWritten(env: Env, s: Store, backed: Progress, p: Key, config: Config, slugs: seq<string>,
                            st: ManagedState, faults: set<nat>)
    requires st.profile == p && st.slugs == slugs
    requires OnlyChanges(s, backed.store, {MarkerFile(p), LegacyMarkerFile(p), BackupsSetting})
    requires backed.ok ==> LoadBackups(backed.store) == (if p in LoadBackups(s) then LoadBackups(s)
                                                         else LoadBackups(s)[p := Original(s, p)])
    ensures var o := ManagedWrites(backed, slugs, PatchForManagedCatalog(config, env.managedCatalog(p)), st, faults);
            && OnlyChanges(s, o.store, CapturedSet(p))
            && (o.ok ==> Committed(env, s, o.store, p, config, slugs))
  {
    var patched := PatchForManagedCatalog(config, env.managedCatalog(p));
    ManagedWritesEffect(backed, slugs, patched, st, faults);
    WrittenIsCommitted(env, s, backed, ManagedWrites(backed, slugs, patched, st, faults), p, config, slugs, st);
  }

  lemma WrittenIsCommitted(env: Env, s: Store, backed: Progress, o: Progress, p: Key, config: Config,
                           slugs: seq<string>, st: ManagedState)
    requires st.profile == p && st.slugs == slugs
    requires OnlyChanges(s, backed.store, {MarkerFile(p), LegacyMarkerFile(p), BackupsSetting})
    requires backed.ok ==> LoadBackups(backed.store) == (if p in LoadBackups(s) then LoadBackups(s)
                                                         else LoadBackups(s)[p := Original(s, p)])
    requires ManagedWritten(backed, o, slugs, PatchForManagedCatalog(config, env.managedCatalog(p)), st)
    ensures OnlyChanges(s, o.store, CapturedSet(p)) && (o.ok ==> Committed(env, s, o.store, p, config, slugs))
  {
    CapturedMembers(p);
    assert LoadBackups(o.store) == LoadBackups(backed.store);
  }

  lemma CapturedMembers(p: Key)
    ensures CapturedSet(p) == {HomeSetting, StateSetting, MarkerFile(p), LegacyMarkerFile(p), ConfigFile(p),
                               CatalogFile(p), BackupsSetting}
  {
  }

  /** The main result: for every pattern of failing writes, either everything is new and a backup
      entry is there, or every location whose restore did not itself fail is as it was before. A
      location whose restore failed holds what the commit had left there. */
  lemma ModelsAllOrNothing(env: Env, s: Store, p: Key, config: Config, slugs: seq<string>, now: int, faults: set<nat>)
    ensures match ApplyModelsCommit(env, s, p, config, slugs, now, faults)
            case Applied(t) => Committed(env, s, t, p, config, slugs)
            case Refused(t) => false
            case RolledBack(t, failed) =>
              && failed <= CapturedSet(p)
              && OnlyChanges(s, t, CapturedSet(p))
              && (forall l :: l in CapturedSet(p) - failed ==> Read(t, l) == SavedContent(s, l))
              && (forall l :: l in failed ==>
                    Read(t, l) == Read(CommitModels(env, s, p, config, slugs, now, faults).store, l))
  {
    CommitEffect(env, s, p, config, slugs, now, faults);
    var commit := CommitModels(env, s, p, config, slugs, now, faults);
    if !commit.ok {
      RestoreAllEffect(Undo(commit.store, commit.clock, {}), s, Captured(p), faults);
    }
  }

  /** A rollback that reports no error leaves every file as before and every setting reading as
      before. It leaves the very same store exactly when all three settings were there: one that was
      absent comes back as an empty text. */
  lemma CleanRollback(env: Env, s: Store, p: Key, config: Config, slugs: seq<string>, now: int, faults: set<nat>)
    requires var r := ApplyModelsCommit(env, s, p, config, slugs, now, faults);
             r.RolledBack? && r.failed == {}
    ensures var t := ApplyModelsCommit(env, s, p, config, slugs, now, faults).store;
            && (forall l :: !IsSetting(l) ==> Read(t, l) == Read(s, l))
            && LoadState(t) == LoadState(s)
            && LoadBackups(t) == LoadBackups(s)
            && (t == s <==> forall l :: IsSetting(l) ==> l in s)
  {
    ModelsAllOrNothing(env, s, p, config, slugs, now, faults);
    var r := ApplyModelsCommit(env, s, p, config, slugs, now, faults);
    assert CapturedSet(p) - r.failed == CapturedSet(p);
    RestoredEverywhere(s, r.store, p);
  }

  lemma RestoredEverywhere(s: Store, t: Store, p: Key)
    requires OnlyChanges(s, t, CapturedSet(p))
    requires forall l :: l in CapturedSet(p) ==> Read(t, l) == SavedContent(s, l)
    ensures forall l :: !IsSetting(l) ==> Read(t, l) == Read(s, l)
    ensures LoadState(t) == LoadState(s)
    ensures LoadBackups(t) == LoadBackups(s)
    ensures t == s <==> forall l :: IsSetting(l) ==> l in s
  {
    CapturedMembers(p);
    assert forall l :: IsSetting(l) ==> l in CapturedSet(p);
    assert forall l :: Read(t, l) == SavedContent(s, l);
    if forall l :: IsSetting(l) ==> l in s {
      forall l ensures Read(t, l) == Read(s, l) {
        assert Read(t, l) == SavedContent(s, l);
      }
      StoresAgree(s, t);
    }
    if t == s {
      forall l | IsSetting(l) ensures l in s {
        assert Read(t, l) == SavedContent(s, l);
      }
    }
  }
}
