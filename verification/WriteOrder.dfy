/** In which order the operations write: how far each gets, by the numbers of the failing attempts. */
module WriteOrder {
  import opened Text
  import opened ProfileStore
  import opened ProfileOps
  import opened ProfileFrames
  import opened ProfileAttempts

  /** The location has its new content if the attempts up to its own all work that have to, and its old one
      otherwise. */
  predicate WrittenIf(before: Store, after: Store, loc: Loc, content: Option<Content>, works: bool) {
    Read(after, loc) == if works then content else Read(before, loc)
  }

  /** The last steps: the marker, the removal of the legacy marker, which may fail, the state, and the home; at
      the end the removal is tried once more if it failed. */
  ghost predicate FinishedInOrder(o: Progress, r: Progress, st: ManagedState, faults: set<nat>) {
    var c := o.clock;
    var marked := o.ok && c !in faults;
    var saved := marked && c + 2 !in faults;
    && WrittenIf(o.store, r.store, MarkerFile(st.profile), Some(MarkerJson(MarkerOf(st))), marked)
    && WrittenIf(o.store, r.store, StateSetting, Some(StateJson(st)), saved)
    && WrittenIf(o.store, r.store, HomeSetting, Some(HomeText(st.profile)), saved && c + 3 !in faults)
    && (r.ok <==> saved && c + 3 !in faults)
    && WrittenIf(o.store, r.store, LegacyMarkerFile(st.profile), None,
                 marked && (c + 1 !in faults || (r.ok && c + 4 !in faults)))
    && OnlyChanges(o.store, r.store, {MarkerFile(st.profile), LegacyMarkerFile(st.profile), StateSetting, HomeSetting})
  }

  /** A migration moves the legacy marker to its new place, unless there is one already, and never fails. */
  lemma MigrationOrder(o: Progress, p: Key, faults: set<nat>)
    requires o.ok
    ensures var r, legacy := TryMigrate(o, p, faults), LegacyMarkerFile(p) in o.store;
            var moves := legacy && MarkerFile(p) !in o.store;
            && r.ok
            && WrittenIf(o.store, r.store, MarkerFile(p), Read(o.store, LegacyMarkerFile(p)),
                         moves && o.clock !in faults)
            && WrittenIf(o.store, r.store, LegacyMarkerFile(p), None,
                         legacy && o.clock !in faults && (moves ==> o.clock + 1 !in faults))
            && OnlyChanges(o.store, r.store, {MarkerFile(p), LegacyMarkerFile(p)})
  {
  }

  lemma HomedInOrder(o: Progress, r: Progress, st: ManagedState, faults: set<nat>)
    requires r == SaveHome(SaveManaged(o, st, faults), st.profile, faults)
    ensures var c, marked := o.clock, o.ok && o.clock !in faults;
            var saved := marked && c + 2 !in faults;
            && WrittenIf(o.store, r.store, MarkerFile(st.profile), Some(MarkerJson(MarkerOf(st))), marked)
            && WrittenIf(o.store, r.store, LegacyMarkerFile(st.profile), None, marked && c + 1 !in faults)
            && WrittenIf(o.store, r.store, StateSetting, Some(StateJson(st)), saved)
            && WrittenIf(o.store, r.store, HomeSetting, Some(HomeText(st.profile)), saved && c + 3 !in faults)
            && (r.ok <==> saved && c + 3 !in faults) && (r.ok ==> r.clock == c + 4)
            && OnlyChanges(o.store, r.store,
                           {MarkerFile(st.profile), LegacyMarkerFile(st.profile), StateSetting, HomeSetting})
  {
  }

  lemma FinishOrder(o: Progress, st: ManagedState, faults: set<nat>)
    ensures FinishedInOrder(o, Finish(o, st, faults), st, faults)
  {
    var homed := SaveHome(SaveManaged(o, st, faults), st.profile, faults);
    HomedInOrder(o, homed, st, faults);
    if homed.ok {
      MigrationOrder(homed, st.profile, faults);
    }
  }

  /** Two files, and then the last steps. */
  ghost predicate WrittenInOrder(o: Progress, r: Progress, a: Loc, x: Content, b: Loc, y: Content, st: ManagedState,
                                 faults: set<nat>) {
    var c := o.clock;
    var second := c !in faults && c + 1 !in faults;
    var marked := second && c + 2 !in faults;
    var saved := marked && c + 4 !in faults;
    && WrittenIf(o.store, r.store, a, Some(x), c !in faults)
    && WrittenIf(o.store, r.store, b, Some(y), second)
    && WrittenIf(o.store, r.store, MarkerFile(st.profile), Some(MarkerJson(MarkerOf(st))), marked)
    && WrittenIf(o.store, r.store, StateSetting, Some(StateJson(st)), saved)
    && WrittenIf(o.store, r.store, HomeSetting, Some(HomeText(st.profile)), saved && c + 5 !in faults)
    && WrittenIf(o.store, r.store, LegacyMarkerFile(st.profile), None,
                 marked && (c + 3 !in faults || (r.ok && c + 6 !in faults)))
    && (r.ok <==> saved && c + 5 !in faults)
  }

  lemma TwoInOrder(o: Progress, a: Loc, x: Content, b: Loc, y: Content, faults: set<nat>)
    requires o.ok && a != b
    ensures var r := Must(Must(o, a, Some(x), faults), b, Some(y), faults);
            && WrittenIf(o.store, r.store, a, Some(x), o.clock !in faults)
            && WrittenIf(o.store, r.store, b, Some(y), r.ok)
            && (r.ok <==> o.clock !in faults && o.clock + 1 !in faults) && (r.ok ==> r.clock == o.clock + 2)
            && OnlyChanges(o.store, r.store, {a, b})
  {
  }

  lemma InOrder(o: Progress, w: Progress, r: Progress, a: Loc, x: Content, b: Loc, y: Content, st: ManagedState,
                faults: set<nat>)
    requires WrittenIf(o.store, w.store, a, Some(x), o.clock !in faults)
    requires WrittenIf(o.store, w.store, b, Some(y), w.ok)
    requires (w.ok <==> o.clock !in faults && o.clock + 1 !in faults) && (w.ok ==> w.clock == o.clock + 2)
    requires OnlyChanges(o.store, w.store, {a, b}) && FinishedInOrder(w, r, st, faults)
    requires {a, b} !! {MarkerFile(st.profile), LegacyMarkerFile(st.profile), StateSetting, HomeSetting}
    ensures WrittenInOrder(o, r, a, x, b, y, st, faults)
  {
    assert Read(r.store, a) == Read(w.store, a) && Read(r.store, b) == Read(w.store, b);
  }

  /** A switch to an account: auth.json, then config.toml, then the last steps. */
  lemma AccountOrder(o: Progress, auth: Content, config: Config, st: ManagedState, faults: set<nat>)
    requires o.ok
    ensures WrittenInOrder(o, AccountWrites(o, auth, config, st, faults), AuthFile(st.profile), auth,
                           ConfigFile(st.profile), Toml(config), st, faults)
  {
    var p := st.profile;
    var configured := Must(Must(o, AuthFile(p), Some(auth), faults), ConfigFile(p), Some(Toml(config)), faults);
    TwoInOrder(o, AuthFile(p), auth, ConfigFile(p), Toml(config), faults);
    FinishOrder(configured, st, faults);
    InOrder(o, configured, Finish(configured, st, faults), AuthFile(p), auth, ConfigFile(p), Toml(config), st, faults);
  }

  /** A switch that manages the catalog, or a commit of models: catalog, config.toml, then the last steps. */
  lemma ManagedOrder(o: Progress, catalog: seq<string>, config: Config, st: ManagedState, faults: set<nat>)
    requires o.ok
    ensures WrittenInOrder(o, ManagedWrites(o, catalog, config, st, faults), CatalogFile(st.profile),
                           CatalogJson(catalog), ConfigFile(st.profile), Toml(config), st, faults)
  {
    var p, listing := st.profile, CatalogJson(catalog);
    var configured := Must(Must(o, CatalogFile(p), Some(listing), faults), ConfigFile(p), Some(Toml(config)), faults);
    TwoInOrder(o, CatalogFile(p), listing, ConfigFile(p), Toml(config), faults);
    FinishOrder(configured, st, faults);
    InOrder(o, configured, Finish(configured, st, faults), CatalogFile(p), listing, ConfigFile(p), Toml(config), st,
            faults);
  }

  /** A restore: auth.json, config.toml, the two markers, the entry, and the state if it is the profile's. */
  lemma RestoreOrder(s: Store, p: Key, faults: set<nat>)
    requires p in LoadBackups(s)
    ensures var t, entry := Restore(s, p, faults).store, LoadBackups(s)[p];
            && FilesInOrder(s, t, p, entry, faults)
            && WrittenIf(s, t, BackupsSetting, Some(BackupsJson(LoadBackups(s) - {p})), NoneBelow(5, faults))
            && WrittenIf(s, t, StateSetting, Some(Blank), StateOf(s, p).Some? && NoneBelow(6, faults))
  {
    var entry := LoadBackups(s)[p];
    var files := RestoreFiles(s, p, entry, faults);
    RestoreFilesOrder(s, p, entry, faults);
    ForgetOrder(files, p, faults);
    FilesThenEntry(s, files, Restore(s, p, faults).store, p, entry, faults);
  }

  ghost predicate FilesInOrder(s: Store, t: Store, p: Key, entry: BackupEntry, faults: set<nat>) {
    && WrittenIf(s, t, AuthFile(p), entry.auth, 0 !in faults)
    && WrittenIf(s, t, ConfigFile(p), entry.config, NoneBelow(2, faults))
    && WrittenIf(s, t, MarkerFile(p), None, NoneBelow(3, faults))
    && WrittenIf(s, t, LegacyMarkerFile(p), None, NoneBelow(4, faults))
  }

  lemma FilesThenEntry(s: Store, files: Progress, t: Store, p: Key, entry: BackupEntry, faults: set<nat>)
    requires FilesInOrder(s, files.store, p, entry, faults)
    requires OnlyChanges(s, files.store, {AuthFile(p), ConfigFile(p), MarkerFile(p), LegacyMarkerFile(p)})
    requires OnlyChanges(files.store, t, {BackupsSetting, StateSetting})
    requires (files.ok <==> NoneBelow(4, faults)) && (files.ok ==> files.clock == 4)
    requires ForgottenInOrder(files, t, p, faults)
    ensures FilesInOrder(s, t, p, entry, faults)
    ensures WrittenIf(s, t, BackupsSetting, Some(BackupsJson(LoadBackups(s) - {p})), NoneBelow(5, faults))
    ensures WrittenIf(s, t, StateSetting, Some(Blank), StateOf(s, p).Some? && NoneBelow(6, faults))
  {
    assert LoadBackups(files.store) == LoadBackups(s) && StateOf(files.store, p) == StateOf(s, p);
    assert NoneBelow(5, faults) <==> NoneBelow(4, faults) && 4 !in faults;
    assert NoneBelow(6, faults) <==> NoneBelow(5, faults) && 5 !in faults;
  }

  ghost predicate ForgottenInOrder(o: Progress, t: Store, p: Key, faults: set<nat>) {
    var dropped := o.ok && o.clock !in faults;
    && WrittenIf(o.store, t, BackupsSetting, Some(BackupsJson(LoadBackups(o.store) - {p})), dropped)
    && WrittenIf(o.store, t, StateSetting, Some(Blank),
                 dropped && StateOf(o.store, p).Some? && o.clock + 1 !in faults)
  }

  lemma RestoreFilesOrder(s: Store, p: Key, entry: BackupEntry, faults: set<nat>)
    ensures var r := RestoreFiles(s, p, entry, faults);
            && FilesInOrder(s, r.store, p, entry, faults)
            && OnlyChanges(s, r.store, {AuthFile(p), ConfigFile(p), MarkerFile(p), LegacyMarkerFile(p)})
            && (r.ok <==> NoneBelow(4, faults)) && (r.ok ==> r.clock == 4)
  {
    assert NoneBelow(2, faults) <==> 0 !in faults && 1 !in faults;
    assert NoneBelow(3, faults) <==> NoneBelow(2, faults) && 2 !in faults;
    assert NoneBelow(4, faults) <==> NoneBelow(3, faults) && 3 !in faults;
  }

  lemma ForgetOrder(o: Progress, p: Key, faults: set<nat>)
    ensures ForgottenInOrder(o, Forget(o, p, faults).store, p, faults)
    ensures OnlyChanges(o.store, Forget(o, p, faults).store, {BackupsSetting, StateSetting})
  {
  }

  /** A sync: the catalog, config.toml if it changes, and then marker and state if the state is dirty. */
  lemma SyncOrder(s: Store, catalog: seq<string>, config: Option<Config>, dirty: bool, st: ManagedState,
                  faults: set<nat>)
    ensures var t, p := SyncWrites(s, catalog, config, dirty, st, faults).store, st.profile;
            var n := if config.Some? then 2 else 1;
            && WrittenIf(s, t, CatalogFile(p), Some(CatalogJson(catalog)), 0 !in faults)
            && (config.Some? ==> WrittenIf(s, t, ConfigFile(p), Some(Toml(config.value)), NoneBelow(2, faults)))
            && WrittenIf(s, t, MarkerFile(p), Some(MarkerJson(MarkerOf(st))), dirty && NoneBelow(n + 1, faults))
            && WrittenIf(s, t, StateSetting, Some(StateJson(st)), dirty && NoneBelow(n + 1, faults) && n + 2 !in faults)
  {
    var listed := Must(Start(s), CatalogFile(st.profile), Some(CatalogJson(catalog)), faults);
    var configured := if config.Some? then Must(listed, ConfigFile(st.profile), Some(Toml(config.value)), faults)
        else listed;
    var n := if config.Some? then 2 else 1;
    assert NoneBelow(2, faults) <==> 0 !in faults && 1 !in faults;
    assert NoneBelow(n + 1, faults) <==> NoneBelow(n, faults) && n !in faults;
    assert configured.ok <==> NoneBelow(n, faults);
    SaveOrder(configured, dirty, st, faults);
  }

  lemma SaveOrder(o: Progress, dirty: bool, st: ManagedState, faults: set<nat>)
    ensures var r := SaveIfDirty(o, dirty, st, faults);
            var marked := dirty && o.ok && o.clock !in faults;
            && WrittenIf(o.store, r.store, MarkerFile(st.profile), Some(MarkerJson(MarkerOf(st))), marked)
            && WrittenIf(o.store, r.store, StateSetting, Some(StateJson(st)), marked && o.clock + 2 !in faults)
            && OnlyChanges(o.store, r.store, {MarkerFile(st.profile), LegacyMarkerFile(st.profile), StateSetting})
  {
  }

  /** A detachment: config.toml, and then marker and state. */
  lemma DetachOrder(env: Env, s: Store, st: ManagedState, faults: set<nat>)
    requires LoadState(s).Some? && LoadState(s).value.slugs != [] && ConfigOf(s, st.profile).Some?
    ensures var t, p, cleared := SyncDetach(env, s, st, faults).store, st.profile, st.(slugs := []);
            var restored := RestorePreviousCatalog(env, ConfigOf(s, p).value, p, st.previousCatalog);
            && WrittenIf(s, t, ConfigFile(p), Some(Toml(restored)), 0 !in faults)
            && WrittenIf(s, t, MarkerFile(p), Some(MarkerJson(MarkerOf(cleared))), NoneBelow(2, faults))
            && WrittenIf(s, t, StateSetting, Some(StateJson(cleared)), NoneBelow(2, faults) && 3 !in faults)
  {
    var restored := RestorePreviousCatalog(env, ConfigOf(s, st.profile).value, st.profile, st.previousCatalog);
    var configured := Must(Start(s), ConfigFile(st.profile), Some(Toml(restored)), faults);
    var cleared := st.(slugs := []);
    assert NoneBelow(2, faults) <==> 0 !in faults && 1 !in faults;
    SaveOrder(configured, Dirty(LoadState(s).value, st, cleared), cleared, faults);
  }
}
