/** What an undisturbed sync after model changes leaves, in every case. */
module SyncOutcomes {
  import opened Text
  import opened ProfileStore
  import opened ProfileOps
  import opened ProfileFrames
  import opened ProfileBackups
  import opened CatalogSelection
  import opened SelectionChanges
  import opened SelectionConsistency
  import opened SwitchOutcomes

  predicate HasKey(st: ManagedState) {
    st.mode == Gateway && st.apiKeyId.Some?
  }

  /** Nothing to do: no state; a selection that the config does not use; no selection outside the gateway mode. */
  predicate Idle(env: Env, s: Store) {
    || LoadState(s).None?
    || (LoadState(s).value.slugs != [] && !UsesManaged(env, s, LoadState(s).value.profile))
    || (LoadState(s).value.slugs == [] && LoadState(s).value.mode != Gateway)
  }

  /** What remains of the selection, if anything: the models of the catalog that the changed selection names. */
  function Remaining(s: Store, changes: seq<Change>, input: SyncInput): Option<seq<string>>
    requires LoadState(s).Some?
  {
    Reconcile(input.managed, Selected(LoadState(s).value.slugs, changes))
  }

  /** The catalog to be written: of the remaining models, and without any the gateway's own. */
  function CatalogFor(s: Store, changes: seq<Change>, input: SyncInput): Option<seq<string>>
    requires LoadState(s).Some?
  {
    if Remaining(s, changes, input).Some? then Remaining(s, changes, input) else input.gatewayCatalog
  }

  /** The websocket flag stays switched off if it was, and is switched off if the gateway has none. */
  predicate Settles(st: ManagedState, input: SyncInput)
    requires input.websockets.Some?
  {
    input.websockets.value && st.supportsWebsockets != Some(false)
  }

  /** The state has another selection and flag, and the marker follows a state that changed. */
  ghost predicate Reselected(s: Store, t: Store, slugs: seq<string>, websockets: Option<bool>) {
    && LoadState(s).Some? && LoadState(t) == Some(LoadState(s).value.(slugs := slugs, supportsWebsockets := websockets))
    && (LoadState(t) != LoadState(s) ==>
          var marker := Read(t, MarkerFile(LoadState(s).value.profile));
          marker.Some? && marker.value.MarkerJson? && MarkerRepeats(marker.value.marker, LoadState(t).value))
  }

  /** A profile with a key: catalog, config and state follow the models that remain; or nothing changes, if the
      gateway does not answer or the config cannot be patched. */
  ghost predicate SyncedWithKey(env: Env, s: Store, changes: seq<Change>, input: SyncInput, r: Progress) {
    && LoadState(s).Some?
    && var st, t := LoadState(s).value, r.store;
       var remaining, catalog := Remaining(s, changes, input), CatalogFor(s, changes, input);
       if input.websockets.Some? && catalog.Some? && CanPatch(s, st.profile, input) then
         && r.ok && Reselected(s, t, remaining.GetOr([]), Some(Settles(st, input)))
         && Read(t, CatalogFile(st.profile)) == Some(CatalogJson(catalog.value)) && ConfigOf(t, st.profile).Some?
         && GatewayConfig(ConfigOf(s, st.profile).value, ConfigOf(t, st.profile).value, env.managedCatalog(st.profile),
                          st.gatewayBaseUrl.GetOr("http://localhost:48760/v1"), Settles(st, input), input.secret.value)
       else !r.ok && t == s
  }

  /** A profile without a key: catalog and state follow the models that remain, and the config stays; without any
      the config is detached from the managed catalog; a gateway profile without a selection is an error. */
  ghost predicate SyncedWithoutKey(env: Env, s: Store, changes: seq<Change>, input: SyncInput, r: Progress) {
    && LoadState(s).Some?
    && var st, t := LoadState(s).value, r.store;
       var remaining := Remaining(s, changes, input);
       if st.slugs == [] then !r.ok && t == s
       else
         && r.ok && Reselected(s, t, remaining.GetOr([]), st.supportsWebsockets)
         && (remaining.Some? ==>
               && Read(t, CatalogFile(st.profile)) == Some(CatalogJson(remaining.value))
               && Read(t, ConfigFile(st.profile)) == Read(s, ConfigFile(st.profile)))
         && (remaining.None? ==>
               && Read(t, CatalogFile(st.profile)) == Read(s, CatalogFile(st.profile))
               && ConfigOf(s, st.profile).Some? && ConfigOf(t, st.profile).Some?
               && Detached(ConfigOf(s, st.profile).value, ConfigOf(t, st.profile).value, st.previousCatalog))
  }

  /** The config points to the saved catalog again, and says the same otherwise. */
  predicate Detached(c: Config, d: Config, previous: Option<string>) {
    && d.catalog == (if previous.Some? then Catalog(previous.value) else NoCatalog)
    && d.provider == c.provider && d.model == c.model && d.providers == c.providers && d.rest == c.rest
  }

  /** The main result: an undisturbed sync, on any store, with any changes and any answers. */
  lemma SyncOutcome(env: Env, s: Store, changes: seq<Change>, input: SyncInput)
    ensures var r := Sync(env, s, changes, input, {});
            if Idle(env, s) then r.ok && r.store == s
            else if HasKey(LoadState(s).value) then SyncedWithKey(env, s, changes, input, r)
            else SyncedWithoutKey(env, s, changes, input, r)
  {
    if !Idle(env, s) {
      if LoadState(s).value.slugs == [] {
        EmptySelectionStays(changes);
        NothingSelected(input.managed);
      }
      if HasKey(LoadState(s).value) {
        SyncWithKey(env, s, changes, input);
      } else {
        SyncWithoutKey(env, s, changes, input);
      }
    }
  }

  // ----- with a key -----

  lemma PlanWithKey(env: Env, s: Store, changes: seq<Change>, input: SyncInput)
    requires !Idle(env, s) && HasKey(LoadState(s).value)
    requires LoadState(s).value.slugs == [] ==> Selected([], changes) == []
    ensures var st := LoadState(s).value.(slugs := Selected(LoadState(s).value.slugs, changes));
            var remaining, catalog := Remaining(s, changes, input), CatalogFor(s, changes, input);
            PlanSync(env, s, changes, input)
              == (if input.websockets.None? || catalog.None? then Fail
                  else Rewrite(st, catalog.value, remaining.GetOr([]), Some(Settles(LoadState(s).value, input))))
  {
    NothingSelected(input.managed);
  }

  lemma SyncWithKey(env: Env, s: Store, changes: seq<Change>, input: SyncInput)
    requires !Idle(env, s) && HasKey(LoadState(s).value)
    requires LoadState(s).value.slugs == [] ==> Selected([], changes) == []
    ensures SyncedWithKey(env, s, changes, input, Sync(env, s, changes, input, {}))
  {
    var st0, catalog := LoadState(s).value, CatalogFor(s, changes, input);
    var st := st0.(slugs := Selected(st0.slugs, changes));
    PlanWithKey(env, s, changes, input);
    if input.websockets.Some? && catalog.Some? {
      if CanPatch(s, st0.profile, input) {
        RewriteOutcome(env, s, st, catalog.value, Remaining(s, changes, input).GetOr([]), Settles(st0, input),
                       input.secret.value);
      } else {
        RewriteRefused(env, s, st, catalog.value, Remaining(s, changes, input).GetOr([]), Settles(st0, input), input);
      }
    }
  }

  lemma RewriteRefused(env: Env, s: Store, st: ManagedState, catalog: seq<string>, slugs: seq<string>, websockets: bool,
                       input: SyncInput)
    requires !CanPatch(s, st.profile, input)
    ensures SyncRewrite(env, s, st, catalog, slugs, Some(websockets), input.secret, {}) == Stop(Start(s))
  {
    if ConfigOf(s, st.profile).Some? && input.secret.Some? {
      GatewayIsTaken(ConfigOf(s, st.profile).value, st.gatewayBaseUrl.GetOr(DEFAULT_GATEWAY_BASE_URL),
                     env.managedCatalog(st.profile), websockets, input.secret.value);
    }
  }

  lemma RewriteOutcome(env: Env, s: Store, st: ManagedState, catalog: seq<string>, slugs: seq<string>, websockets: bool,
                       secret: string)
    requires LoadState(s).Some? && st == LoadState(s).value.(slugs := st.slugs) && secret != ""
    requires ConfigOf(s, st.profile).Some? && TakesGateway(ConfigOf(s, st.profile).value)
    ensures var r := SyncRewrite(env, s, st, catalog, slugs, Some(websockets), Some(secret), {});
            && r.ok && Reselected(s, r.store, slugs, Some(websockets))
            && Read(r.store, CatalogFile(st.profile)) == Some(CatalogJson(catalog))
            && ConfigOf(r.store, st.profile).Some?
            && GatewayConfig(ConfigOf(s, st.profile).value, ConfigOf(r.store, st.profile).value,
                             env.managedCatalog(st.profile), st.gatewayBaseUrl.GetOr(DEFAULT_GATEWAY_BASE_URL),
                             websockets, secret)
  {
    var c, baseUrl := ConfigOf(s, st.profile).value, st.gatewayBaseUrl.GetOr(DEFAULT_GATEWAY_BASE_URL);
    var managed := env.managedCatalog(st.profile);
    var settled := st.(slugs := slugs, supportsWebsockets := Some(websockets));
    RewriteWrites(env, s, st, catalog, slugs, websockets, secret);
    GatewayPatch(c, baseUrl, managed, websockets, secret);
    WritesOutcome(s, catalog, PatchForGateway(c, baseUrl, managed, websockets, secret),
                  Dirty(LoadState(s).value, st, settled), settled);
  }

  lemma RewriteWrites(env: Env, s: Store, st: ManagedState, catalog: seq<string>, slugs: seq<string>, websockets: bool,
                      secret: string)
    requires LoadState(s).Some? && secret != ""
    requires ConfigOf(s, st.profile).Some? && TakesGateway(ConfigOf(s, st.profile).value)
    ensures var patched := PatchForGateway(ConfigOf(s, st.profile).value,
                                           st.gatewayBaseUrl.GetOr(DEFAULT_GATEWAY_BASE_URL),
                                           env.managedCatalog(st.profile), websockets, secret);
            var settled := st.(slugs := slugs, supportsWebsockets := Some(websockets));
            && patched.Some?
            && SyncRewrite(env, s, st, catalog, slugs, Some(websockets), Some(secret), {})
                 == SyncWrites(s, catalog, patched, Dirty(LoadState(s).value, st, settled), settled, {})
  {
    GatewayIsTaken(ConfigOf(s, st.profile).value, st.gatewayBaseUrl.GetOr(DEFAULT_GATEWAY_BASE_URL),
                   env.managedCatalog(st.profile), websockets, secret);
  }

  /** The writes of a sync that all work. */
  lemma WritesOutcome(s: Store, catalog: seq<string>, config: Option<Config>, dirty: bool, st: ManagedState)
    requires LoadState(s).Some? && SameButSelection(st, LoadState(s).value)
    requires !dirty ==> st == LoadState(s).value
    ensures var r := SyncWrites(s, catalog, config, dirty, st, {});
            && r.ok && Reselected(s, r.store, st.slugs, st.supportsWebsockets)
            && Read(r.store, CatalogFile(st.profile)) == Some(CatalogJson(catalog))
            && Read(r.store, ConfigFile(st.profile))
              == (if config.Some? then Some(Toml(config.value)) else Read(s, ConfigFile(st.profile)))
  {
    var listed := Must(Start(s), CatalogFile(st.profile), Some(CatalogJson(catalog)), {});
    var configured := if config.Some? then Must(listed, ConfigFile(st.profile), Some(Toml(config.value)), {})
        else listed;
    SaveOutcome(configured, dirty, st);
  }

  lemma SaveOutcome(o: Progress, dirty: bool, st: ManagedState)
    requires o.ok
    ensures var r := SaveIfDirty(o, dirty, st, {});
            && r.ok && LoadState(r.store) == (if dirty then Some(st) else LoadState(o.store))
            && (dirty ==> Read(r.store, MarkerFile(st.profile)) == Some(MarkerJson(MarkerOf(st))))
            && OnlyChanges(o.store, r.store, {MarkerFile(st.profile), LegacyMarkerFile(st.profile), StateSetting})
  {
    SaveIfDirtyEffect(o, dirty, st, {});
    SavedWhenDirty(o, dirty, st);
  }

  // ----- without a key -----

  lemma PlanWithoutKey(env: Env, s: Store, changes: seq<Change>, input: SyncInput)
    requires !Idle(env, s) && !HasKey(LoadState(s).value)
    requires LoadState(s).value.slugs == [] ==> Selected([], changes) == []
    ensures var st := LoadState(s).value.(slugs := Selected(LoadState(s).value.slugs, changes));
            var remaining := Remaining(s, changes, input);
            PlanSync(env, s, changes, input)
              == (if LoadState(s).value.slugs == [] then Fail
                  else if remaining.Some? then Rewrite(st, remaining.value, remaining.value, None)
                  else Detach(st))
  {
    NothingSelected(input.managed);
  }

  lemma SyncWithoutKey(env: Env, s: Store, changes: seq<Change>, input: SyncInput)
    requires !Idle(env, s) && !HasKey(LoadState(s).value)
    requires LoadState(s).value.slugs == [] ==> Selected([], changes) == []
    ensures SyncedWithoutKey(env, s, changes, input, Sync(env, s, changes, input, {}))
  {
    var st0, remaining := LoadState(s).value, Remaining(s, changes, input);
    var st := st0.(slugs := Selected(st0.slugs, changes));
    PlanWithoutKey(env, s, changes, input);
    if st0.slugs != [] {
      if remaining.Some? {
        var settled := st.(slugs := remaining.value);
        WritesOutcome(s, remaining.value, None, Dirty(st0, st, settled), settled);
      } else {
        DetachOutcome(env, s, st);
      }
    }
  }

  lemma DetachOutcome(env: Env, s: Store, st: ManagedState)
    requires LoadState(s).Some? && st == LoadState(s).value.(slugs := st.slugs) && UsesManaged(env, s, st.profile)
    ensures var r := SyncDetach(env, s, st, {});
            && r.ok && Reselected(s, r.store, [], st.supportsWebsockets)
            && Read(r.store, CatalogFile(st.profile)) == Read(s, CatalogFile(st.profile))
            && ConfigOf(r.store, st.profile).Some?
            && Detached(ConfigOf(s, st.profile).value, ConfigOf(r.store, st.profile).value, st.previousCatalog)
  {
    var restored := RestorePreviousCatalog(env, ConfigOf(s, st.profile).value, st.profile, st.previousCatalog);
    var configured := Must(Start(s), ConfigFile(st.profile), Some(Toml(restored)), {});
    var cleared := st.(slugs := []);
    SaveOutcome(configured, Dirty(LoadState(s).value, st, cleared), cleared);
  }
}
