/** Which write attempt of an operation is which: what the numbers of the failing attempts decide. */
module ProfileAttempts {
  import opened Text
  import opened ProfileStore
  import opened ProfileOps
  import opened ProfileFrames
  import opened ModelsCommit

  predicate NoneBelow(n: nat, faults: set<nat>) {
    forall k: nat :: k < n ==> k !in faults
  }

  // ----- the writes after the backup -----

  /** The config is written and the state is not: the third or the fifth of these writes fails, and
      neither of the first two does. */
  predicate Torn(o: Progress, faults: set<nat>) {
    && o.ok && o.clock !in faults && o.clock + 1 !in faults
    && (o.clock + 2 in faults || o.clock + 4 in faults)
  }

  /** Which of the two halves of a managing switch its writes reach. */
  lemma ManagedWritesReach(o: Progress, catalog: seq<string>, config: Config, st: ManagedState, faults: set<nat>)
    ensures var t := ManagedWrites(o, catalog, config, st, faults).store;
            var written := o.ok && o.clock !in faults && o.clock + 1 !in faults;
            && Read(t, ConfigFile(st.profile))
              == (if written then Some(Toml(config)) else Read(o.store, ConfigFile(st.profile)))
            && LoadState(t) == (if written && !Torn(o, faults) then Some(st) else LoadState(o.store))
  {
    var p := st.profile;
    var listed := Must(o, CatalogFile(p), Some(CatalogJson(catalog)), faults);
    var configured := Must(listed, ConfigFile(p), Some(Toml(config)), faults);
    TwoWritesReach(o, CatalogFile(p), CatalogJson(catalog), ConfigFile(p), Toml(config), faults);
    FinishReaches(configured, st, faults);
  }

  lemma FinishReaches(o: Progress, st: ManagedState, faults: set<nat>)
    ensures var t := Finish(o, st, faults).store;
            && Read(t, ConfigFile(st.profile)) == Read(o.store, ConfigFile(st.profile))
            && LoadState(t)
              == (if o.ok && o.clock !in faults && o.clock + 2 !in faults then Some(st) else LoadState(o.store))
  {
    FinishEffect(o, st, faults);
    FinishReach(o, st, faults);
  }

  /** A marker that is not written, a state that is not, or a home that is not ends the last steps. The
      removal of the legacy marker in between may fail. */
  lemma FinishAttempts(o: Progress, st: ManagedState, faults: set<nat>)
    requires o.ok
    ensures var r, c := Finish(o, st, faults), o.clock;
            && (r.ok <==> c !in faults && c + 2 !in faults && c + 3 !in faults)
            && (!r.ok ==> r.clock == 1 + (if c in faults then c else if c + 2 in faults then c + 2 else c + 3))
  {
    var marked := SaveMarker(o, st, faults);
    var saved := SaveState(marked, st, faults);
    var homed := SaveHome(saved, st.profile, faults);
    assert homed.ok <==> o.clock !in faults && o.clock + 2 !in faults && o.clock + 3 !in faults;
  }

  /** The attempt that ends a commit whose config, the attempt before `c`, was written. */
  function Fatal(c: nat, faults: set<nat>): nat {
    if c in faults then c else if c + 2 in faults then c + 2 else c + 3
  }

  /** The writes after the backup finish exactly when none of five attempts fails. */
  lemma WritesAttempts(o: Progress, catalog: seq<string>, config: Config, st: ManagedState, faults: set<nat>)
    requires o.ok
    ensures var r, c := ManagedWrites(o, catalog, config, st, faults), o.clock;
            && (r.ok <==> c !in faults && c + 1 !in faults && Fatal(c + 2, faults) !in faults)
            && (c !in faults && c + 1 !in faults && !r.ok ==> r.clock == Fatal(c + 2, faults) + 1)
  {
    var p := st.profile;
    var listed := Must(o, CatalogFile(p), Some(CatalogJson(catalog)), faults);
    var configured := Must(listed, ConfigFile(p), Some(Toml(config)), faults);
    TwoWritesReach(o, CatalogFile(p), CatalogJson(catalog), ConfigFile(p), Toml(config), faults);
    if configured.ok {
      FinishAttempts(configured, st, faults);
    } else {
      FinishStopped(configured, st, faults);
    }
  }

  // ----- the commit of selected models -----

  /** How many writes the migration of the markers takes. */
  function MigrationWrites(s: Store, p: Key): nat {
    if LegacyMarkerFile(p) !in s then 0 else if MarkerFile(p) in s then 1 else 2
  }

  /** On a profile without a backup, migration and backup take the first attempts. */
  lemma PrepareAttempts(s: Store, p: Key, faults: set<nat>)
    requires p !in LoadBackups(s)
    ensures var o, c := PrepareModels(s, p, faults), MigrationWrites(s, p) + 1;
            && (o.ok <==> NoneBelow(c, faults)) && (o.ok ==> o.clock == c)
  {
    var migrated := if LegacyMarkerFile(p) in s then Migrate(Start(s), p, faults) else Start(s);
    var m := MigrationWrites(s, p);
    MigrateEffect(Start(s), p, faults);
    assert LoadBackups(migrated.store) == LoadBackups(s);
    assert migrated.ok <==> NoneBelow(m, faults) by {
      assert m == 2 ==> (NoneBelow(m, faults) <==> 0 !in faults && 1 !in faults);
    }
    assert migrated.ok ==> migrated.clock == m;
    assert NoneBelow(m + 1, faults) <==> NoneBelow(m, faults) && m !in faults;
  }

  /** How far a commit gets that makes `c` attempts before it writes the config `patched` and the state `st`. */
  ghost predicate Reached(s: Store, o: Progress, p: Key, c: nat, patched: Config, st: ManagedState, faults: set<nat>) {
    var written := NoneBelow(c + 2, faults);
    && (o.ok <==> written && Fatal(c + 2, faults) !in faults)
    && (written && !o.ok ==> o.clock == Fatal(c + 2, faults) + 1)
    && Read(o.store, ConfigFile(p)) == (if written then Some(Toml(patched)) else Read(s, ConfigFile(p)))
    && LoadState(o.store) == (if written && c + 2 !in faults && c + 4 !in faults then Some(st) else LoadState(s))
  }

  /** How far the commit on a profile without a backup gets. */
  lemma CommitAttempts(env: Env, s: Store, p: Key, config: Config, slugs: seq<string>, now: int, faults: set<nat>)
    requires p !in LoadBackups(s)
    ensures Reached(s, CommitModels(env, s, p, config, slugs, now, faults), p, MigrationWrites(s, p) + 1,
                    PatchForManagedCatalog(config, env.managedCatalog(p)),
                    SelectionState(env, PrepareModels(s, p, faults).store, p, config, slugs, now), faults)
  {
    var backed := PrepareModels(s, p, faults);
    PrepareAttempts(s, p, faults);
    PrepareEffect(s, p, faults);
    StateUntouched(s, backed.store, {MarkerFile(p), LegacyMarkerFile(p), BackupsSetting});
    WritesOutcome(s, backed, MigrationWrites(s, p) + 1, slugs, PatchForManagedCatalog(config, env.managedCatalog(p)),
                  SelectionState(env, backed.store, p, config, slugs, now), faults);
  }

  /** The writes after `c` earlier attempts, which all had to work and touched neither config nor state. */
  lemma WritesOutcome(s: Store, o: Progress, c: nat, catalog: seq<string>, config: Config, st: ManagedState,
                      faults: set<nat>)
    requires (o.ok <==> NoneBelow(c, faults)) && (o.ok ==> o.clock == c)
    requires Read(o.store, ConfigFile(st.profile)) == Read(s, ConfigFile(st.profile))
    requires LoadState(o.store) == LoadState(s)
    ensures Reached(s, ManagedWrites(o, catalog, config, st, faults), st.profile, c, config, st, faults)
  {
    var r := ManagedWrites(o, catalog, config, st, faults);
    ManagedWritesReach(o, catalog, config, st, faults);
    if o.ok {
      WritesAttempts(o, catalog, config, st, faults);
    } else {
      StoppedStays(o, catalog, config, st, faults);
    }
    ReachedFrom(s, o, r, c, config, st, faults);
  }

  lemma ReachedFrom(s: Store, o: Progress, r: Progress, c: nat, config: Config, st: ManagedState, faults: set<nat>)
    requires (o.ok <==> NoneBelow(c, faults)) && (o.ok ==> o.clock == c) && (!o.ok ==> r == o)
    requires Read(o.store, ConfigFile(st.profile)) == Read(s, ConfigFile(st.profile))
    requires LoadState(o.store) == LoadState(s)
    requires o.ok ==> (r.ok <==> c !in faults && c + 1 !in faults && Fatal(c + 2, faults) !in faults)
    requires o.ok && c !in faults && c + 1 !in faults && !r.ok ==> r.clock == Fatal(c + 2, faults) + 1
    requires var written := o.ok && o.clock !in faults && o.clock + 1 !in faults;
             && Read(r.store, ConfigFile(st.profile))
               == (if written then Some(Toml(config)) else Read(o.store, ConfigFile(st.profile)))
             && LoadState(r.store) == (if written && !Torn(o, faults) then Some(st) else LoadState(o.store))
    ensures Reached(s, r, st.profile, c, config, st, faults)
  {
    NoneBelowTwoMore(c, faults);
  }

  lemma NoneBelowTwoMore(c: nat, faults: set<nat>)
    ensures NoneBelow(c + 2, faults) <==> NoneBelow(c, faults) && c !in faults && c + 1 !in faults
  {
  }

  /** The rollback's attempts follow the one that ended the commit, one for each captured location. */
  lemma {:induction false} RollbackAttempts(u: Undo, saved: Store, locs: seq<Loc>, faults: set<nat>, i: nat)
    requires forall i, j :: 0 <= i < j < |locs| ==> locs[i] != locs[j]
    requires i < |locs| && locs[i] !in u.failed
    ensures locs[i] in RestoreAll(u, saved, locs, faults).failed <==> u.clock + i in faults
    decreases |locs|
  {
    var next := RestoreOne(u, saved, locs[0], faults);
    if i == 0 {
      StaysReported(next, saved, locs[1..], faults, locs[0]);
    } else {
      RollbackAttempts(next, saved, locs[1..], faults, i - 1);
    }
  }

  lemma {:induction false} StaysReported(u: Undo, saved: Store, locs: seq<Loc>, faults: set<nat>, l: Loc)
    requires l !in locs
    ensures l in RestoreAll(u, saved, locs, faults).failed <==> l in u.failed
    decreases |locs|
  {
    if locs != [] {
      StaysReported(RestoreOne(u, saved, locs[0], faults), saved, locs[1..], faults, l);
    }
  }

  /** The profile had no backup; the commit ends after it wrote another config; the rollback cannot put the
      config back, and does withdraw the new backup. */
  predicate LosesBackup(env: Env, s: Store, p: Key, config: Config, faults: set<nat>) {
    var c := MigrationWrites(s, p) + 3;
    && p !in LoadBackups(s)
    && Read(s, ConfigFile(p)) != Some(Toml(PatchForManagedCatalog(config, env.managedCatalog(p))))
    && NoneBelow(c, faults)
    && Fatal(c, faults) in faults && Fatal(c, faults) + 5 in faults && Fatal(c, faults) + 7 !in faults
  }

  /** The profile had no backup; the commit ends after it saved the state; the rollback cannot put the state
      back, and does withdraw the new backup. */
  predicate LeavesState(s: Store, p: Key, faults: set<nat>) {
    var c := MigrationWrites(s, p) + 3;
    && p !in LoadBackups(s)
    && NoneBelow(c, faults)
    && c !in faults && c + 2 !in faults && c + 3 in faults && c + 5 in faults && c + 10 !in faults
  }

  // ----- the restore -----

  /** The restore drops the entry, its fifth write, and fails to clear the profile's state, its sixth. */
  predicate TornRestore(s: Store, p: Key, faults: set<nat>) {
    p in LoadBackups(s) && StateOf(s, p).Some? && NoneBelow(5, faults) && 5 in faults
  }

  lemma RestoreAttempts(s: Store, p: Key, faults: set<nat>)
    requires p in LoadBackups(s)
    ensures var r := Restore(s, p, faults);
            && (p !in LoadBackups(r.store) <==> NoneBelow(5, faults))
            && (r.ok <==> NoneBelow(5, faults) && (StateOf(s, p).Some? ==> 5 !in faults))
  {
    var files := RestoreFiles(s, p, LoadBackups(s)[p], faults);
    assert LoadBackups(files.store) == LoadBackups(s) && StateOf(files.store, p) == StateOf(s, p);
    assert files.ok <==> 0 !in faults && 1 !in faults && 2 !in faults && 3 !in faults;
    assert files.ok ==> files.clock == 4;
    assert NoneBelow(5, faults) <==> files.ok && 4 !in faults;
  }
}
