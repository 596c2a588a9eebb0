/** What the shared steps of the profile operations leave alone, under every pattern of faults. */
module ProfileFrames {
  import opened Text
  import opened ProfileStore
  import opened ProfileOps

  /** Everything outside `locs` reads as before. */
  ghost predicate OnlyChanges(s: Store, t: Store, locs: set<Loc>) {
    forall l :: l !in locs ==> Read(t, l) == Read(s, l)
  }

  /** Two stores that read the same everywhere are the same. */
  lemma StoresAgree(s: Store, t: Store)
    requires OnlyChanges(s, t, {})
    ensures s == t
  {
    forall l ensures l in s <==> l in t {
      assert Read(t, l) == Read(s, l);
    }
    forall l | l in s ensures s[l] == t[l] {
      assert Read(t, l) == Read(s, l);
    }
  }

  lemma StateUntouched(s: Store, t: Store, locs: set<Loc>)
    requires OnlyChanges(s, t, locs) && StateSetting !in locs
    ensures LoadState(t) == LoadState(s)
  {
  }

  /** Migration and backup touch the two markers and the backups setting only. */
  lemma BackupEffect(o: Progress, p: Key, faults: set<nat>)
    ensures var r := EnsureBackup(o, p, faults);
            && OnlyChanges(o.store, r.store, {BackupsSetting})
            && (r.ok ==> o.ok)
            && (r.ok ==> LoadBackups(r.store) == (if p in LoadBackups(o.store) then LoadBackups(o.store)
                                                  else LoadBackups(o.store)[p := Original(o.store, p)]))
  {
  }

  lemma MigrateEffect(o: Progress, p: Key, faults: set<nat>)
    ensures OnlyChanges(o.store, Migrate(o, p, faults).store, {MarkerFile(p), LegacyMarkerFile(p)})
    ensures OnlyChanges(o.store, TryMigrate(o, p, faults).store, {MarkerFile(p), LegacyMarkerFile(p)})
  {
  }

  ghost predicate Finished(o: Progress, r: Progress, st: ManagedState) {
    && OnlyChanges(o.store, r.store, {MarkerFile(st.profile), LegacyMarkerFile(st.profile), StateSetting, HomeSetting})
    && (r.ok ==> o.ok)
    && (LoadState(r.store) == LoadState(o.store) || LoadState(r.store) == Some(st))
    && (r.ok ==> Read(r.store, MarkerFile(st.profile)) == Some(MarkerJson(MarkerOf(st))))
    && (r.ok ==> LoadState(r.store) == Some(st))
    && (r.ok ==> Read(r.store, HomeSetting) == Some(HomeText(st.profile)))
  }

  /** The last steps touch the marker, the legacy marker, the state and the profile directory only. */
  lemma FinishEffect(o: Progress, st: ManagedState, faults: set<nat>)
    ensures Finished(o, Finish(o, st, faults), st)
  {
    var marked := SaveMarker(o, st, faults);
    var saved := SaveState(marked, st, faults);
    var homed := SaveHome(saved, st.profile, faults);
  }

  /** The last steps save the state exactly when neither the marker nor the state write fails. */
  lemma FinishReach(o: Progress, st: ManagedState, faults: set<nat>)
    ensures LoadState(Finish(o, st, faults).store)
         == if o.ok && o.clock !in faults && o.clock + 2 !in faults then Some(st) else LoadState(o.store)
  {
    var marked := SaveMarker(o, st, faults);
    assert LoadState(marked.store) == LoadState(o.store);
    assert marked.ok <==> o.ok && o.clock !in faults;
    var saved := SaveState(marked, st, faults);
    var homed := SaveHome(saved, st.profile, faults);
    assert LoadState(homed.store) == LoadState(saved.store);
    MigrateEffect(homed, st.profile, faults);
  }

  /** A stopped operation does not finish. */
  lemma FinishStopped(o: Progress, st: ManagedState, faults: set<nat>)
    requires !o.ok
    ensures Finish(o, st, faults) == o
  {
  }

  /** Two writes in a row to files. */
  lemma TwoWrites(o: Progress, a: Loc, x: Content, b: Loc, y: Content, faults: set<nat>)
    requires a != b && !IsSetting(a) && !IsSetting(b)
    ensures WroteTwo(o, Must(Must(o, a, Some(x), faults), b, Some(y), faults), a, x, b, y)
  {
  }

  ghost predicate WroteTwo(o: Progress, r: Progress, a: Loc, x: Content, b: Loc, y: Content) {
    && OnlyChanges(o.store, r.store, {a, b}) && LoadState(r.store) == LoadState(o.store)
    && (r.ok ==> o.ok && Read(r.store, a) == Some(x) && Read(r.store, b) == Some(y))
  }

  /** Two writes to files and then the last steps. */
  lemma WroteThenFinished(o: Progress, c: Progress, r: Progress, a: Loc, x: Content, b: Loc, y: Content,
                          st: ManagedState)
    requires WroteTwo(o, c, a, x, b, y) && Finished(c, r, st) && !IsSetting(a) && !IsSetting(b)
    requires !a.MarkerFile? && !b.MarkerFile? && !a.LegacyMarkerFile? && !b.LegacyMarkerFile?
    ensures OnlyChanges(o.store, r.store,
                        {a, b, MarkerFile(st.profile), LegacyMarkerFile(st.profile), StateSetting, HomeSetting})
    ensures r.ok ==> o.ok && Read(r.store, a) == Some(x) && Read(r.store, b) == Some(y)
    ensures LoadState(r.store) == LoadState(o.store) || LoadState(r.store) == Some(st)
  {
    assert Read(r.store, a) == Read(c.store, a) && Read(r.store, b) == Read(c.store, b);
  }

  ghost predicate ManagedWritten(o: Progress, r: Progress, catalog: seq<string>, config: Config, st: ManagedState) {
    var p := st.profile;
    && OnlyChanges(o.store, r.store,
                   {CatalogFile(p), ConfigFile(p), MarkerFile(p), LegacyMarkerFile(p), StateSetting, HomeSetting})
    && (r.ok ==> o.ok)
    && (r.ok ==> Read(r.store, CatalogFile(p)) == Some(CatalogJson(catalog)))
    && (r.ok ==> Read(r.store, ConfigFile(p)) == Some(Toml(config)))
    && (r.ok ==> Read(r.store, MarkerFile(p)) == Some(MarkerJson(MarkerOf(st))))
    && (r.ok ==> Read(r.store, HomeSetting) == Some(HomeText(p)))
    && (r.ok ==> LoadState(r.store) == Some(st))
    && (LoadState(r.store) == LoadState(o.store) || LoadState(r.store) == Some(st))
  }

  /** Which of two writes in a row are reached. */
  lemma TwoWritesReach(o: Progress, a: Loc, x: Content, b: Loc, y: Content, faults: set<nat>)
    requires a != b && !IsSetting(a) && !IsSetting(b)
    ensures var r := Must(Must(o, a, Some(x), faults), b, Some(y), faults);
            && (r.ok <==> o.ok && o.clock !in faults && o.clock + 1 !in faults)
            && (r.ok ==> r.clock == o.clock + 2)
            && Read(r.store, b) == (if r.ok then Some(y) else Read(o.store, b))
              && LoadState(r.store) == LoadState(o.store)
  {
  }

  /** The writes that follow the backup change the catalog, the config and what the last steps change. */
  lemma ManagedWritesEffect(o: Progress, catalog: seq<string>, config: Config, st: ManagedState, faults: set<nat>)
    ensures ManagedWritten(o, ManagedWrites(o, catalog, config, st, faults), catalog, config, st)
  {
    var listed := Must(o, CatalogFile(st.profile), Some(CatalogJson(catalog)), faults);
    var configured := Must(listed, ConfigFile(st.profile), Some(Toml(config)), faults);
    TwoWrites(o, CatalogFile(st.profile), CatalogJson(catalog), ConfigFile(st.profile), Toml(config), faults);
    FinishEffect(configured, st, faults);
    WroteThenFinished(o, configured, Finish(configured, st, faults), CatalogFile(st.profile), CatalogJson(catalog),
                      ConfigFile(st.profile), Toml(config), st);
  }

  lemma AccountWritesEffect(o: Progress, auth: Content, config: Config, st: ManagedState, faults: set<nat>)
    ensures var p := st.profile;
            var r := AccountWrites(o, auth, config, st, faults);
            && OnlyChanges(o.store, r.store,
                           {AuthFile(p), ConfigFile(p), MarkerFile(p), LegacyMarkerFile(p), StateSetting, HomeSetting})
            && (r.ok ==> o.ok)
            && (r.ok ==> Read(r.store, AuthFile(p)) == Some(auth))
            && (r.ok ==> Read(r.store, ConfigFile(p)) == Some(Toml(config)))
            && (r.ok ==> LoadState(r.store) == Some(st))
            && (LoadState(r.store) == LoadState(o.store) || LoadState(r.store) == Some(st))
  {
    var authed := Must(o, AuthFile(st.profile), Some(auth), faults);
    var configured := Must(authed, ConfigFile(st.profile), Some(Toml(config)), faults);
    TwoWrites(o, AuthFile(st.profile), auth, ConfigFile(st.profile), Toml(config), faults);
    FinishEffect(configured, st, faults);
    WroteThenFinished(o, configured, Finish(configured, st, faults), AuthFile(st.profile), auth, ConfigFile(st.profile),
                      Toml(config), st);
  }

  /** A stopped operation writes nothing more. */
  lemma StoppedStays(o: Progress, catalog: seq<string>, config: Config, st: ManagedState, faults: set<nat>)
    requires !o.ok
    ensures ManagedWrites(o, catalog, config, st, faults) == o
  {
  }
}
