/** What completed switches leave in the files and the state of their profile. */
module SwitchOutcomes {
  import opened Text
  import opened ProfileStore
  import opened ProfileOps
  import opened ProfileFrames
  import opened ProfileAttempts
  import opened ModelsCommit
  import opened CatalogSelection
  import opened CatalogPointer
  import opened PointerRuns
  import opened SelectionConsistency

  // ----- configs, by what they say -----

  /** The provider tables but for those of `ids` are the same. */
  ghost predicate KeepsTables(c: Config, d: Config, ids: set<string>) {
    && ProviderEntries(c).Some? && d.providers.ProviderTable?
    && (forall id :: id !in ids ==> (id in d.providers.entries <==> id in ProviderEntries(c).value))
    && (forall id :: id !in ids && id in d.providers.entries ==>
          d.providers.entries[id] == ProviderEntries(c).value[id])
  }

  predicate Has(provider: Provider, key: string, value: string) {
    key in provider && provider[key] == value
  }

  /** The config of a profile that uses an account: no provider of its own, a table "cm" that makes old sessions
      work, none for an aggregate API, and the user's catalog instead of the managed one. */
  ghost predicate AccountConfig(c: Config, d: Config, managed: string, previous: Option<string>) {
    && d.provider == None && d.model == c.model && d.rest == c.rest
    && KeepsTables(c, d, {"cm", "cm_aggregate"})
    && "cm_aggregate" !in d.providers.entries && "cm" in d.providers.entries
    && d.providers.entries["cm"].Keys == {"name", "wire_api", "requires_openai_auth"}
    && Has(d.providers.entries["cm"], "name", "OpenAI compatibility")
    && Has(d.providers.entries["cm"], "wire_api", "responses")
    && Has(d.providers.entries["cm"], "requires_openai_auth", "true")
    && (c.catalog != Catalog(managed) ==> d.catalog == c.catalog)
    && (c.catalog == Catalog(managed) ==>
          d.catalog == (if previous.Some? then Catalog(previous.value) else NoCatalog))
  }

  const ACTOR_HEADER := "http_headers.x-openai-actor-authorization"

  /** Keys of the table "cm" that the gateway patch sets or removes. */
  predicate GatewayKey(key: string) {
    || key in {"name", "requires_openai_auth", "experimental_bearer_token", "base_url", "wire_api",
               "supports_websockets", ACTOR_HEADER}
    || ConflictsWithToken(key)
  }

  ghost predicate GatewayTable(t: Provider, baseUrl: string, websockets: bool, token: string) {
    && Has(t, "name", "cm") && Has(t, "base_url", baseUrl) && Has(t, "wire_api", "responses")
    && Has(t, "experimental_bearer_token", token) && Has(t, "requires_openai_auth", "true")
    && Has(t, "supports_websockets", if websockets then "true" else "false")
    && Has(t, ACTOR_HEADER, "local-image-extension")
    && (forall key :: ConflictsWithToken(key) ==> key !in t)
  }

  /** Keys that the gateway has nothing to do with stay. */
  ghost predicate KeepsOtherKeys(before: Provider, after: Provider) {
    forall key :: !GatewayKey(key) ==>
      (key in after <==> key in before) && (key in after ==> after[key] == before[key])
  }

  /** The config of a profile that uses the gateway. */
  ghost predicate GatewayConfig(c: Config, d: Config, managed: string, baseUrl: string, websockets: bool,
                                token: string) {
    && d.provider == Some("cm") && d.catalog == Catalog(managed) && d.model == c.model && d.rest == c.rest
    && KeepsTables(c, d, {"cm"}) && "cm" in d.providers.entries
    && var before := if "cm" in ProviderEntries(c).value then ProviderEntries(c).value["cm"] else map[];
       GatewayTable(d.providers.entries["cm"], baseUrl, websockets, token)
         && KeepsOtherKeys(before, d.providers.entries["cm"])
  }

  predicate AggregateKey(api: AggregateConfig, key: string) {
    || key in {"name", "base_url", "wire_api", "supports_websockets", "experimental_bearer_token"}
    || (api.auth.Header? && (key == "requires_openai_auth" || key == "http_headers." + api.auth.name))
    || (api.userAgent.Some? && key == "http_headers.User-Agent")
  }

  /** The whole table of an aggregate API: nothing of an earlier one is left. */
  ghost predicate AggregateTable(t: Provider, api: AggregateConfig, secret: string) {
    && Has(t, "name", api.providerName) && Has(t, "base_url", api.baseUrl) && Has(t, "wire_api", "responses")
    && Has(t, "supports_websockets", "false") && Has(t, "experimental_bearer_token", secret)
    && (api.auth.Header? ==> Has(t, "requires_openai_auth", "false"))
    && (api.auth.Header? && !(api.userAgent.Some? && api.auth.name == "User-Agent") ==>
          Has(t, "http_headers." + api.auth.name, if api.auth.bearerFormat then "Bearer " + secret else secret))
    && (api.userAgent.Some? ==> Has(t, "http_headers.User-Agent", api.userAgent.value))
    && (forall key :: key in t ==> AggregateKey(api, key))
  }

  /** The config of a profile that uses an aggregate API. */
  ghost predicate AggregateConfigured(c: Config, d: Config, managed: string, api: AggregateConfig, secret: string,
                                      model: string) {
    && d.provider == Some("cm_aggregate") && d.catalog == Catalog(managed) && d.model == Some(model) && d.rest == c.rest
    && KeepsTables(c, d, {"cm_aggregate"}) && "cm_aggregate" in d.providers.entries
    && AggregateTable(d.providers.entries["cm_aggregate"], api, secret)
  }

  /** A config.toml that is missing or empty counts as one that says nothing, and what is no TOML cannot be read. */
  lemma ConfigIsRead(s: Store, p: Key)
    ensures ConfigFile(p) !in s || s[ConfigFile(p)] == Blank ==>
              ConfigOf(s, p) == Some(Config(None, NoCatalog, None, NoProviders, ""))
    ensures ConfigFile(p) in s && s[ConfigFile(p)] != Blank ==>
              ConfigOf(s, p) == if s[ConfigFile(p)].Toml? then Some(s[ConfigFile(p)].config) else None
  {
  }

  // ----- the patches -----

  lemma DirectPatch(c: Config, managed: string, previous: Option<string>)
    requires PatchForDirect(c, managed, previous).Some?
    ensures AccountConfig(c, PatchForDirect(c, managed, previous).value, managed, previous)
  {
  }

  lemma KeysAreFree(key: string)
    requires key in {"name", "requires_openai_auth", "experimental_bearer_token", "base_url", "wire_api",
                     "supports_websockets", ACTOR_HEADER}
    ensures !ConflictsWithToken(key)
  {
    assert key[0] != 'a' && "auth."[0] == 'a' && "aws."[0] == 'a';
    assert "env_key"[1] == 'n' && "experimental_bearer_token"[1] == 'x';
  }

  /** A provider with its token: named, and without what conflicts with the token. */
  ghost predicate Authed(t: Provider, token: string) {
    && Has(t, "name", "cm") && Has(t, "requires_openai_auth", "true") && Has(t, "experimental_bearer_token", token)
    && (forall key :: ConflictsWithToken(key) ==> key !in t)
  }

  lemma TokenIsSet(existing: Provider, token: string)
    requires token != ""
    ensures Authed(BearerAuth(existing["name" := PROVIDER_ID]["requires_openai_auth" := "true"], token).value, token)
  {
    KeysAreFree("name");
    KeysAreFree("requires_openai_auth");
    KeysAreFree("experimental_bearer_token");
  }

  lemma TableIsFilled(t: Provider, baseUrl: string, websockets: bool, token: string)
    requires Authed(t, token)
    ensures GatewayTable(t["base_url" := baseUrl]["wire_api" := "responses"]
                         ["supports_websockets" := BoolText(websockets)][ACTOR_HEADER := "local-image-extension"],
                         baseUrl, websockets, token)
  {
    KeysAreFree("base_url");
    KeysAreFree("wire_api");
    KeysAreFree("supports_websockets");
    KeysAreFree(ACTOR_HEADER);
    assert "base_url"[0] == 'b' && "wire_api"[0] == 'w';
  }

  lemma ActorKey()
    ensures HTTP_HEADERS + "." + "x-openai-actor-authorization" == ACTOR_HEADER
  {
  }

  /** The table of a gateway, once the token is in it. */
  lemma GatewaySteps(existing: Provider, baseUrl: string, websockets: bool, token: string)
    requires GatewayProvider(existing, baseUrl, websockets, token).Some?
    ensures token != ""
    ensures var t := BearerAuth(existing["name" := PROVIDER_ID]["requires_openai_auth" := "true"], token).value;
            GatewayProvider(existing, baseUrl, websockets, token).value
              == t["base_url" := baseUrl]["wire_api" := "responses"]["supports_websockets" := BoolText(websockets)]
                  [ACTOR_HEADER := "local-image-extension"]
  {
    ActorKey();
  }

  lemma TableOfGateway(existing: Provider, baseUrl: string, websockets: bool, token: string)
    requires GatewayProvider(existing, baseUrl, websockets, token).Some?
    ensures GatewayTable(GatewayProvider(existing, baseUrl, websockets, token).value, baseUrl, websockets, token)
  {
    GatewaySteps(existing, baseUrl, websockets, token);
    TokenIsSet(existing, token);
    TableIsFilled(BearerAuth(existing["name" := PROVIDER_ID]["requires_openai_auth" := "true"], token).value, baseUrl,
                  websockets, token);
  }

  lemma OtherKeysOfGateway(existing: Provider, baseUrl: string, websockets: bool, token: string)
    requires GatewayProvider(existing, baseUrl, websockets, token).Some?
    ensures KeepsOtherKeys(existing, GatewayProvider(existing, baseUrl, websockets, token).value)
  {
    GatewaySteps(existing, baseUrl, websockets, token);
  }

  lemma GatewayPatch(c: Config, baseUrl: string, managed: string, websockets: bool, token: string)
    requires PatchForGateway(c, baseUrl, managed, websockets, token).Some?
    ensures GatewayConfig(c, PatchForGateway(c, baseUrl, managed, websockets, token).value, managed, baseUrl,
                          websockets, token)
  {
    var entries := ProviderEntries(c).value;
    var before := if PROVIDER_ID in entries then entries[PROVIDER_ID] else map[];
    TableOfGateway(before, baseUrl, websockets, token);
    OtherKeysOfGateway(before, baseUrl, websockets, token);
  }

  lemma HeaderKeys(name: string)
    ensures var key := HTTP_HEADERS + "." + name;
            key == "http_headers." + name && !ConflictsWithToken(key)
              && key !in {"name", "base_url", "wire_api", "supports_websockets", "experimental_bearer_token",
                          "requires_openai_auth"}
    ensures name != "User-Agent" ==> HTTP_HEADERS + "." + name != HTTP_HEADERS + ".User-Agent"
  {
    var key := HTTP_HEADERS + "." + name;
    assert key[0] == 'h' && key[13..] == name;
    assert (HTTP_HEADERS + ".User-Agent")[13..] == "User-Agent";
    assert "auth."[0] == 'a' && "aws."[0] == 'a';
  }

  /** The settings that every aggregate API has. */
  ghost predicate AggregateBase(t: Provider, api: AggregateConfig, secret: string) {
    && Has(t, "name", api.providerName) && Has(t, "base_url", api.baseUrl) && Has(t, "wire_api", "responses")
    && Has(t, "supports_websockets", "false") && Has(t, "experimental_bearer_token", secret)
    && t.Keys == {"name", "base_url", "wire_api", "supports_websockets", "experimental_bearer_token"}
  }

  lemma BaseOfAggregate(api: AggregateConfig, secret: string)
    requires secret != ""
    ensures var base: Provider := map["name" := api.providerName, "base_url" := api.baseUrl, "wire_api" := "responses",
                                      "supports_websockets" := "false"];
            AggregateBase(BearerAuth(base, secret).value, api, secret)
  {
    KeysAreFree("name");
    KeysAreFree("base_url");
    KeysAreFree("wire_api");
    KeysAreFree("supports_websockets");
    assert "base_url"[0] == 'b' && "wire_api"[0] == 'w';
  }

  function WithHeaders(t: Provider, api: AggregateConfig, value: string): Provider {
    var headed := if api.auth.Header? then
                    t["requires_openai_auth" := "false"][HTTP_HEADERS + "." + api.auth.name := value]
                  else t;
    if api.userAgent.Some? then headed[HTTP_HEADERS + ".User-Agent" := api.userAgent.value] else headed
  }

  lemma HeadersAreSet(t: Provider, api: AggregateConfig, secret: string, value: string)
    requires AggregateBase(t, api, secret)
    requires api.auth.Header? ==> value == if api.auth.bearerFormat then "Bearer " + secret else secret
    ensures AggregateTable(WithHeaders(t, api, value), api, secret)
  {
    HeaderKeys("User-Agent");
    assert HTTP_HEADERS + ".User-Agent" == "http_headers.User-Agent" == HTTP_HEADERS + "." + "User-Agent";
    if api.auth.Header? {
      HeaderKeys(api.auth.name);
    }
  }

  lemma TableOfAggregate(api: AggregateConfig, secret: string)
    requires AggregateProvider(api, secret).Some?
    ensures AggregateTable(AggregateProvider(api, secret).value, api, secret)
  {
    var base: Provider := map["name" := api.providerName, "base_url" := api.baseUrl, "wire_api" := "responses",
                              "supports_websockets" := "false"];
    var value := if api.auth.Header? then (if api.auth.bearerFormat then "Bearer " else "") + secret else "";
    assert api.auth.Header? && !api.auth.bearerFormat ==> value == secret;
    BaseOfAggregate(api, secret);
    HeadersAreSet(BearerAuth(base, secret).value, api, secret, value);
    assert AggregateProvider(api, secret).value == WithHeaders(BearerAuth(base, secret).value, api, value);
  }

  lemma AggregatePatched(env: Env, c: Config, p: Key, api: AggregateConfig, secret: string, previous: Option<string>,
                         model: string)
    requires PatchForAggregate(env, c, p, api, secret, previous, model).Some?
    ensures AggregateConfigured(c, PatchForAggregate(env, c, p, api, secret, previous, model).value,
                                env.managedCatalog(p), api, secret, model)
  {
    TableOfAggregate(api, secret);
  }

  // ----- state and marker -----

  /** The marker repeats what the state says, but for the profile and the saved pointer. */
  predicate MarkerRepeats(m: Marker, st: ManagedState) {
    && m.mode == st.mode && m.accountId == st.accountId && m.apiKeyId == st.apiKeyId && m.aggregateId == st.aggregateId
    && m.gatewayBaseUrl == st.gatewayBaseUrl && m.aggregateBaseUrl == st.aggregateBaseUrl
    && m.supportsWebsockets == st.supportsWebsockets && m.providerId == st.providerId
    && m.slugs == st.slugs && m.updatedAt == st.updatedAt
  }

  /** State, marker and profile directory agree. */
  ghost predicate Saved(t: Store, p: Key, st: ManagedState) {
    && st.profile == p && LoadState(t) == Some(st) && Read(t, HomeSetting) == Some(HomeText(p))
    && Read(t, MarkerFile(p)).Some? && Read(t, MarkerFile(p)).value.MarkerJson?
    && MarkerRepeats(Read(t, MarkerFile(p)).value.marker, st)
  }

  lemma AccountMarker(o: Progress, auth: Content, config: Config, st: ManagedState, faults: set<nat>)
    requires AccountWrites(o, auth, config, st, faults).ok
    ensures var t := AccountWrites(o, auth, config, st, faults).store;
            && Read(t, MarkerFile(st.profile)) == Some(MarkerJson(MarkerOf(st)))
            && Read(t, HomeSetting) == Some(HomeText(st.profile))
  {
    var authed := Must(o, AuthFile(st.profile), Some(auth), faults);
    var configured := Must(authed, ConfigFile(st.profile), Some(Toml(config)), faults);
    FinishEffect(configured, st, faults);
  }

  lemma AccountIsSaved(o: Progress, auth: Content, config: Config, st: ManagedState, faults: set<nat>)
    requires AccountWrites(o, auth, config, st, faults).ok
    ensures var t := AccountWrites(o, auth, config, st, faults).store;
            && Saved(t, st.profile, st) && Read(t, AuthFile(st.profile)) == Some(auth)
            && ConfigOf(t, st.profile) == Some(config) && OnlyChanges(o.store, t, AccountFiles(st.profile))
  {
    AccountMarker(o, auth, config, st, faults);
    AccountWritesEffect(o, auth, config, st, faults);
  }

  lemma ManagedIsSaved(o: Progress, catalog: seq<string>, config: Config, st: ManagedState, faults: set<nat>)
    requires ManagedWrites(o, catalog, config, st, faults).ok
    ensures var t := ManagedWrites(o, catalog, config, st, faults).store;
            && Saved(t, st.profile, st) && Read(t, CatalogFile(st.profile)) == Some(CatalogJson(catalog))
            && ConfigOf(t, st.profile) == Some(config) && OnlyChanges(o.store, t, ManagedFiles(st.profile))
  {
    ManagedWritesEffect(o, catalog, config, st, faults);
  }

  /** What a managing switch may touch: not the credentials. */
  ghost function ManagedFiles(p: Key): set<Loc> {
    {CatalogFile(p), ConfigFile(p), MarkerFile(p), LegacyMarkerFile(p), StateSetting, HomeSetting, BackupsSetting}
  }

  ghost function AccountFiles(p: Key): set<Loc> {
    {AuthFile(p), ConfigFile(p), MarkerFile(p), LegacyMarkerFile(p), StateSetting, HomeSetting, BackupsSetting}
  }

  lemma PreparedTouches(s: Store, p: Key, faults: set<nat>)
    ensures OnlyChanges(s, Prepared(s, p, faults).store, {MarkerFile(p), LegacyMarkerFile(p), BackupsSetting})
  {
    MigrateEffect(Start(s), p, faults);
    BackupEffect(TryMigrate(Start(s), p, faults), p, faults);
  }

  // ----- the switch to an account -----

  ghost predicate NamesAccount(st: ManagedState, id: string, now: int) {
    && st.mode == DirectAccount && st.accountId == Some(id) && st.apiKeyId == None && st.aggregateId == None
    && st.gatewayBaseUrl == None && st.aggregateBaseUrl == None && st.supportsWebsockets == None
    && st.providerId == "openai" && st.previousCatalog == None && st.slugs == [] && st.updatedAt == now
  }

  /** A completed switch to an account leaves its credentials, a config without the manager's providers, and a
      state and a marker that name it. */
  lemma AccountSwitched(env: Env, s: Store, p: Key, input: Option<AccountInput>, now: int, faults: set<nat>)
    requires ApplyDirectAccount(env, s, p, input, now, faults).ok
    ensures input.Some? && ConfigOf(s, p).Some?
    ensures var t, c := ApplyDirectAccount(env, s, p, input, now, faults).store, ConfigOf(s, p).value;
            && Read(t, AuthFile(p)) == Some(input.value.auth)
            && ConfigOf(t, p).Some?
            && AccountConfig(c, ConfigOf(t, p).value, env.managedCatalog(p), PreviousCatalog(s, p, c))
            && LoadState(t).Some? && Saved(t, p, LoadState(t).value)
            && NamesAccount(LoadState(t).value, input.value.accountId, now)
            && OnlyChanges(s, t, AccountFiles(p))
  {
    PreparedTouches(s, p, faults);
    AccountIsWritten(env, s, p, input, now, faults);
    var c := ConfigOf(s, p).value;
    var previous := PreviousCatalog(s, p, c);
    DirectPatch(c, env.managedCatalog(p), previous);
    AccountIsSaved(Prepared(s, p, faults), input.value.auth,
                   PatchForDirect(c, env.managedCatalog(p), previous).value,
                   AccountState(p, input.value.accountId, now), faults);
  }

  /** Without failing writes the switch completes exactly when there is a usable account, and the config can be
      read and has no `model_providers` that is no table. */
  lemma AccountCompletes(env: Env, s: Store, p: Key, input: Option<AccountInput>, now: int)
    ensures ApplyDirectAccount(env, s, p, input, now, {}).ok <==>
              input.Some? && ConfigOf(s, p).Some? && ConfigOf(s, p).value.providers != NotATable
  {
    UndisturbedBackup(s, p);
    if input.Some? && ConfigOf(s, p).Some? {
      var c := ConfigOf(s, p).value;
      var patched := PatchForDirect(c, env.managedCatalog(p), PreviousCatalog(s, p, c));
      if patched.Some? {
        AccountWritesFinish(Prepared(s, p, {}), input.value.auth, patched.value,
                            AccountState(p, input.value.accountId, now));
      }
    }
  }

  lemma AccountWritesFinish(o: Progress, auth: Content, config: Config, st: ManagedState)
    requires o.ok
    ensures AccountWrites(o, auth, config, st, {}).ok
  {
  }

  lemma UndisturbedBackup(s: Store, p: Key)
    ensures Prepared(s, p, {}).ok
  {
  }

  // ----- the switch to the gateway -----

  ghost predicate NamesGateway(st: ManagedState, input: GatewayInput, previous: Option<string>, now: int) {
    && st.mode == Gateway && st.accountId == None && st.apiKeyId == Some(input.apiKeyId) && st.aggregateId == None
    && st.gatewayBaseUrl == Some(input.baseUrl) && st.aggregateBaseUrl == None
    && st.supportsWebsockets == Some(input.websockets) && st.providerId == "cm" && st.previousCatalog == previous
    && st.slugs == [] && st.updatedAt == now
  }

  /** A completed switch to the gateway leaves its provider in the config, its catalog in the managed file, and a
      state and a marker that name the key; it leaves auth.json alone. */
  lemma GatewaySwitched(env: Env, s: Store, p: Key, input: Option<GatewayInput>, now: int, faults: set<nat>)
    requires ApplyGateway(env, s, p, input, now, faults).ok
    ensures input.Some? && ConfigOf(s, p).Some?
    ensures var t, c, i := ApplyGateway(env, s, p, input, now, faults).store, ConfigOf(s, p).value, input.value;
            && Read(t, CatalogFile(p)) == Some(CatalogJson(i.catalog))
            && ConfigOf(t, p).Some?
            && GatewayConfig(c, ConfigOf(t, p).value, env.managedCatalog(p), i.baseUrl, i.websockets, i.secret)
            && LoadState(t).Some? && Saved(t, p, LoadState(t).value)
            && NamesGateway(LoadState(t).value, i, PreviousCatalog(s, p, c), now)
            && OnlyChanges(s, t, ManagedFiles(p))
  {
    PreparedTouches(s, p, faults);
    var c, i := ConfigOf(s, p).value, input.value;
    GatewayPatch(c, i.baseUrl, env.managedCatalog(p), i.websockets, i.secret);
    ManagedIsSaved(Prepared(s, p, faults), i.catalog,
                   PatchForGateway(c, i.baseUrl, env.managedCatalog(p), i.websockets, i.secret).value,
                   GatewayState(p, i, PreviousCatalog(s, p, c), now), faults);
  }

  lemma GatewayCompletes(env: Env, s: Store, p: Key, input: Option<GatewayInput>, now: int)
    ensures ApplyGateway(env, s, p, input, now, {}).ok <==>
              input.Some? && ConfigOf(s, p).Some? && TakesGateway(ConfigOf(s, p).value) && input.value.secret != ""
  {
    UndisturbedBackup(s, p);
    if input.Some? && ConfigOf(s, p).Some? {
      GatewayIsTaken(ConfigOf(s, p).value, input.value.baseUrl, env.managedCatalog(p), input.value.websockets,
                     input.value.secret);
    }
  }

  // ----- the switch to an aggregate API -----

  ghost predicate NamesAggregate(st: ManagedState, input: AggregateInput, previous: Option<string>, slugs: seq<string>,
                                 now: int) {
    && st.mode == DirectAggregate && st.accountId == None && st.apiKeyId == None && st.aggregateId == Some(input.id)
    && st.gatewayBaseUrl == None && st.aggregateBaseUrl == Some(input.api.baseUrl)
    && st.supportsWebsockets == Some(false) && st.providerId == "cm_aggregate" && st.previousCatalog == previous
    && st.slugs == slugs && st.updatedAt == now
  }

  /** The override's first occurrence up to case, if there is one, and the first model otherwise. */
  ghost predicate IsDefault(slugs: seq<string>, preferred: Option<string>, model: string) {
    exists i :: 0 <= i < |slugs| && slugs[i] == model
      && (if preferred.Some? && EqIgnoreCase(model, preferred.value)
          then forall j :: 0 <= j < i ==> !EqIgnoreCase(slugs[j], preferred.value)
          else i == 0 && forall j :: 0 <= j < |slugs| && preferred.Some? ==> !EqIgnoreCase(slugs[j], preferred.value))
  }

  lemma {:induction false} FirstNamedIsFirst(slugs: seq<string>, name: string) returns (i: nat)
    requires exists s :: s in slugs && EqIgnoreCase(s, name)
    ensures i < |slugs| && slugs[i] == FirstNamed(slugs, name)
    ensures forall j :: 0 <= j < i ==> !EqIgnoreCase(slugs[j], name)
  {
    if EqIgnoreCase(slugs[0], name) {
      i := 0;
    } else {
      i := FirstNamedIsFirst(slugs[1..], name);
      i := i + 1;
    }
  }

  lemma DefaultIsDefault(slugs: seq<string>, preferred: Option<string>)
    requires slugs != []
    ensures IsDefault(slugs, preferred, DefaultModel(slugs, preferred))
  {
    if preferred.Some? && exists s :: s in slugs && EqIgnoreCase(s, preferred.value) {
      var i := FirstNamedIsFirst(slugs, preferred.value);
    } else {
      assert slugs[0] in slugs;
    }
  }

  /** A completed switch to an aggregate API leaves its provider and a model of its own in the config, the
      models that it offers and the catalog knows in the managed file, and a state and a marker that name it. */
  lemma AggregateSwitched(env: Env, s: Store, p: Key, input: Option<AggregateInput>, now: int, faults: set<nat>)
    returns (slugs: seq<string>, model: string)
    requires ApplyDirectAggregate(env, s, p, input, now, faults).ok
    ensures input.Some? && input.value.upstream.Some? && ConfigOf(s, p).Some?
    ensures ListsRequested(input.value.managed, input.value.upstream.value, slugs)
    ensures IsDefault(slugs, input.value.api.modelOverride, model)
    ensures var t, c, i := ApplyDirectAggregate(env, s, p, input, now, faults).store, ConfigOf(s, p).value, input.value;
            && Read(t, CatalogFile(p)) == Some(CatalogJson(slugs))
            && ConfigOf(t, p).Some?
            && AggregateConfigured(c, ConfigOf(t, p).value, env.managedCatalog(p), i.api, i.secret, model)
            && LoadState(t).Some? && Saved(t, p, LoadState(t).value)
            && NamesAggregate(LoadState(t).value, i, PreviousCatalog(s, p, c), slugs, now)
            && OnlyChanges(s, t, ManagedFiles(p))
  {
    PreparedTouches(s, p, faults);
    AggregateIsSwitch(env, s, p, input, now, faults);
    var c, i := ConfigOf(s, p).value, input.value;
    slugs := Select(i.managed, i.upstream.value).value;
    SelectAnswers(i.managed, i.upstream.value);
    model := DefaultModel(slugs, i.api.modelOverride);
    DefaultIsDefault(slugs, i.api.modelOverride);
    SwitchFinishes(env, s, Prepared(s, p, faults), p, i, c, slugs, now, faults);
  }

  /** A completed switch got to its last phase. */
  lemma AggregateIsSwitch(env: Env, s: Store, p: Key, input: Option<AggregateInput>, now: int, faults: set<nat>)
    requires ApplyDirectAggregate(env, s, p, input, now, faults).ok
    ensures input.Some? && input.value.upstream.Some? && ConfigOf(s, p).Some?
    ensures var slugs := Select(input.value.managed, input.value.upstream.value);
            && slugs.Some? && slugs.value != []
            && ApplyDirectAggregate(env, s, p, input, now, faults)
                 == SwitchToAggregate(env, s, Prepared(s, p, faults), p, input.value, ConfigOf(s, p).value, slugs.value,
                                      now, faults)
  {
  }

  lemma SwitchFinishes(env: Env, s: Store, backed: Progress, p: Key, i: AggregateInput, c: Config, slugs: seq<string>,
                       now: int, faults: set<nat>)
    requires slugs != [] && SwitchToAggregate(env, s, backed, p, i, c, slugs, now, faults).ok
    ensures var t := SwitchToAggregate(env, s, backed, p, i, c, slugs, now, faults).store;
            && Read(t, CatalogFile(p)) == Some(CatalogJson(slugs))
            && ConfigOf(t, p).Some?
            && AggregateConfigured(c, ConfigOf(t, p).value, env.managedCatalog(p), i.api, i.secret,
                                   DefaultModel(slugs, i.api.modelOverride))
            && LoadState(t).Some? && Saved(t, p, LoadState(t).value)
            && NamesAggregate(LoadState(t).value, i, PreviousCatalog(s, p, c), slugs, now)
            && OnlyChanges(backed.store, t, ManagedFiles(p))
  {
    var previous, model := PreviousCatalog(s, p, c), DefaultModel(slugs, i.api.modelOverride);
    AggregatePatched(env, c, p, i.api, i.secret, previous, model);
    ManagedIsSaved(backed, slugs, PatchForAggregate(env, c, p, i.api, i.secret, previous, model).value,
                   AggregateState(p, i, previous, slugs, now), faults);
  }

  /** Without failing writes the switch completes exactly when config and secret are usable and the catalog knows
      every model that the API offers, of which there is one. */
  lemma AggregateCompletes(env: Env, s: Store, p: Key, input: AggregateInput, offered: seq<string>, now: int)
    requires input.upstream == Some(offered)
    ensures ApplyDirectAggregate(env, s, p, Some(input), now, {}).ok <==>
              && ConfigOf(s, p).Some? && ConfigOf(s, p).value.providers != NotATable && input.secret != ""
              && AsksForAny(offered) && AllOffered(input.managed, offered)
  {
    var slugs := Select(input.managed, offered);
    SelectAnswers(input.managed, offered);
    AggregateReaches(env, s, p, input, slugs, now);
    if ConfigOf(s, p).Some? && slugs.Some? {
      SelectionIsComplete(input.managed, offered);
      SwitchCompletes(env, s, Prepared(s, p, {}), p, input, ConfigOf(s, p).value, slugs.value, now);
    }
  }

  lemma AggregateReaches(env: Env, s: Store, p: Key, input: AggregateInput, slugs: Option<seq<string>>, now: int)
    requires input.upstream.Some? && slugs == Select(input.managed, input.upstream.value)
    ensures ApplyDirectAggregate(env, s, p, Some(input), now, {}).ok <==>
              && ConfigOf(s, p).Some? && slugs.Some? && slugs.value != []
              && SwitchToAggregate(env, s, Prepared(s, p, {}), p, input, ConfigOf(s, p).value, slugs.value, now, {}).ok
  {
    UndisturbedBackup(s, p);
  }

  lemma SwitchCompletes(env: Env, s: Store, backed: Progress, p: Key, i: AggregateInput, c: Config, slugs: seq<string>,
                        now: int)
    requires slugs != [] && backed.ok
    ensures SwitchToAggregate(env, s, backed, p, i, c, slugs, now, {}).ok
       <==> c.providers != NotATable && i.secret != ""
  {
  }

  // ----- selected models -----

  /** Only the pointer to the catalog is another one. */
  predicate OnlyPointed(c: Config, d: Config, managed: string) {
    && d.catalog == Catalog(managed)
    && d.provider == c.provider && d.model == c.model && d.providers == c.providers && d.rest == c.rest
  }

  /** The marker of a profile, which may still have its old name. */
  function MarkerFound(s: Store, p: Key): Option<Content> {
    if MarkerFile(p) in s then Read(s, MarkerFile(p)) else Read(s, LegacyMarkerFile(p))
  }

  predicate HasMarker(s: Store, p: Key) {
    MarkerFound(s, p).Some? && MarkerFound(s, p).value.MarkerJson?
  }

  /** What can be found out of a profile that has neither a state nor a marker. */
  ghost predicate FoundOut(env: Env, s: Store, p: Key, c: Config, st: ManagedState) {
    var mode, gateway := DetectMode(env, Read(s, AuthFile(p)), Read(s, ConfigFile(p))), env.detectGateway(c);
    && st.mode == (if mode == Missing then Unmanaged else mode)
    && st.accountId == None && st.apiKeyId == None && st.aggregateId == None && st.aggregateBaseUrl == None
    && (gateway.Some? ==>
          && st.providerId == gateway.value.providerId && st.gatewayBaseUrl == Some(gateway.value.baseUrl)
          && st.supportsWebsockets == Some(gateway.value.supportsWebsockets))
    && (gateway.None? ==>
          st.providerId == c.provider.GetOr("cm") && st.gatewayBaseUrl == None && st.supportsWebsockets == None)
    && (st.previousCatalog.Some? <==> c.catalog.Catalog? && !env.SamePath(c.catalog.path, env.managedCatalog(p)))
    && (st.previousCatalog.Some? ==> c.catalog == Catalog(st.previousCatalog.value))
  }

  /** Which files and tables decide a detected mode. */
  lemma DetectedMode(env: Env, auth: Option<Content>, config: Option<Content>)
    ensures var mode := DetectMode(env, auth, config);
            var parsed := config.Some? && ParseConfig(config).Some?;
            var gateway := parsed && env.detectGateway(ParseConfig(config).value).Some?;
            var aggregate := parsed && env.detectAggregate(ParseConfig(config).value);
            var json := auth.Some? && auth.value.AuthJson?;
            && (mode == Gateway <==> gateway || (!aggregate && json && auth.value.apiKeyMode))
            && (mode == DirectAggregate <==> aggregate && !gateway)
            && (mode == Missing <==> auth == None && config == None)
            && (mode == DirectAccount <==>
                  !gateway && !aggregate && json && !auth.value.apiKeyMode && auth.value.hasTokens)
            && mode != ManagedUnknown
  {
  }

  /** Where the state comes from that a selection is added to. */
  ghost predicate StartsFrom(env: Env, s: Store, p: Key, c: Config, st: ManagedState, now: int) {
    if StateOf(s, p).Some? then st == StateOf(s, p).value
    else if HasMarker(s, p) then MarkerRepeats(MarkerFound(s, p).value.marker, st) && st.previousCatalog == None
    else FoundOut(env, s, p, c, st) && st.slugs == [] && st.updatedAt == now
  }

  lemma PreparedMarker(s: Store, p: Key, faults: set<nat>)
    requires PrepareModels(s, p, faults).ok
    ensures Read(PrepareModels(s, p, faults).store, MarkerFile(p)) == MarkerFound(s, p)
  {
    var migrated := if LegacyMarkerFile(p) in s then Migrate(Start(s), p, faults) else Start(s);
    assert migrated.ok && Read(migrated.store, MarkerFile(p)) == MarkerFound(s, p);
    BackupEffect(migrated, p, faults);
  }

  lemma StateStarts(env: Env, s: Store, t: Store, p: Key, c: Config, now: int)
    requires LoadState(t) == LoadState(s) && Read(t, MarkerFile(p)) == MarkerFound(s, p)
    requires Read(t, AuthFile(p)) == Read(s, AuthFile(p)) && Read(t, ConfigFile(p)) == Read(s, ConfigFile(p))
    ensures StartsFrom(env, s, p, c, StateForModels(env, t, p, c, now), now)
  {
  }

  /** Applied models leave the requested models of the catalog in the managed file, the config with another
      pointer and nothing else, and the state that was there or can be found out, with that selection. */
  lemma ModelsApplied(env: Env, s: Store, p: Key, managed: seq<string>, requested: seq<string>, now: int,
                      faults: set<nat>)
    returns (slugs: seq<string>, before: ManagedState)
    requires ApplyModels(env, s, p, managed, requested, now, faults).Applied?
    ensures ConfigOf(s, p).Some? && ListsRequested(managed, requested, slugs)
    ensures StartsFrom(env, s, p, ConfigOf(s, p).value, before, now)
    ensures var t, c := ApplyModels(env, s, p, managed, requested, now, faults).store, ConfigOf(s, p).value;
            && Read(t, CatalogFile(p)) == Some(CatalogJson(slugs))
            && ConfigOf(t, p).Some? && OnlyPointed(c, ConfigOf(t, p).value, env.managedCatalog(p))
            && Saved(t, p, before.(slugs := slugs, updatedAt := now))
            && OnlyChanges(s, t, ManagedFiles(p))
  {
    var c := ConfigOf(s, p).value;
    slugs := Select(managed, requested).value;
    SelectAnswers(managed, requested);
    before := CommitFinishes(env, s, p, c, slugs, now, faults);
  }

  lemma CommitStarts(env: Env, s: Store, p: Key, c: Config, now: int, faults: set<nat>)
    requires PrepareModels(s, p, faults).ok
    ensures StartsFrom(env, s, p, c, StateForModels(env, PrepareModels(s, p, faults).store, p, c, now), now)
  {
    var backed := PrepareModels(s, p, faults);
    PrepareEffect(s, p, faults);
    PreparedMarker(s, p, faults);
    StateUntouched(s, backed.store, {MarkerFile(p), LegacyMarkerFile(p), BackupsSetting});
    StateStarts(env, s, backed.store, p, c, now);
  }

  lemma CommitFinishes(env: Env, s: Store, p: Key, c: Config, slugs: seq<string>, now: int, faults: set<nat>)
    returns (before: ManagedState)
    requires CommitModels(env, s, p, c, slugs, now, faults).ok
    ensures StartsFrom(env, s, p, c, before, now)
    ensures var t := CommitModels(env, s, p, c, slugs, now, faults).store;
            && Read(t, CatalogFile(p)) == Some(CatalogJson(slugs))
            && ConfigOf(t, p).Some? && OnlyPointed(c, ConfigOf(t, p).value, env.managedCatalog(p))
            && Saved(t, p, before.(slugs := slugs, updatedAt := now))
            && OnlyChanges(s, t, ManagedFiles(p))
  {
    CommitIsPrepared(env, s, p, c, slugs, now, faults);
    CommitStarts(env, s, p, c, now, faults);
    var backed := PrepareModels(s, p, faults);
    before := StateForModels(env, backed.store, p, c, now);
    PrepareEffect(s, p, faults);
    PreparedIsSaved(s, backed, slugs, PatchForManagedCatalog(c, env.managedCatalog(p)),
                    SelectionState(env, backed.store, p, c, slugs, now), faults);
  }

  lemma PreparedIsSaved(s: Store, backed: Progress, slugs: seq<string>, d: Config, st: ManagedState, faults: set<nat>)
    requires OnlyChanges(s, backed.store, {MarkerFile(st.profile), LegacyMarkerFile(st.profile), BackupsSetting})
    requires ManagedWrites(backed, slugs, d, st, faults).ok
    ensures var t := ManagedWrites(backed, slugs, d, st, faults).store;
            && Read(t, CatalogFile(st.profile)) == Some(CatalogJson(slugs)) && ConfigOf(t, st.profile) == Some(d)
            && Saved(t, st.profile, st) && OnlyChanges(s, t, ManagedFiles(st.profile))
  {
    ManagedIsSaved(backed, slugs, d, st, faults);
  }

  /** Without failing writes models are applied exactly when the config can be read and the selection is accepted;
      otherwise the call changes nothing. */
  lemma ModelsComplete(env: Env, s: Store, p: Key, managed: seq<string>, requested: seq<string>, now: int)
    ensures var r := ApplyModels(env, s, p, managed, requested, now, {});
            && (r.Applied? <==> ConfigOf(s, p).Some? && AsksForAny(requested) && AllOffered(managed, requested))
            && (!r.Applied? ==> r.store == s)
  {
    SelectAnswers(managed, requested);
    if ConfigOf(s, p).Some? && Select(managed, requested).Some? {
      CommitCompletes(env, s, p, ConfigOf(s, p).value, Select(managed, requested).value, now);
      ModelsAccepted(env, s, p, managed, requested, now);
    } else {
      ModelsRefused(env, s, p, managed, requested, now);
    }
  }

  lemma ModelsAccepted(env: Env, s: Store, p: Key, managed: seq<string>, requested: seq<string>, now: int)
    requires ConfigOf(s, p).Some? && Select(managed, requested).Some?
    ensures ApplyModels(env, s, p, managed, requested, now, {})
         == ApplyModelsCommit(env, s, p, ConfigOf(s, p).value, Select(managed, requested).value, now, {})
  {
  }

  lemma ModelsRefused(env: Env, s: Store, p: Key, managed: seq<string>, requested: seq<string>, now: int)
    requires ConfigOf(s, p).None? || Select(managed, requested).None?
    ensures ApplyModels(env, s, p, managed, requested, now, {}) == Refused(s)
  {
  }

  lemma CommitCompletes(env: Env, s: Store, p: Key, c: Config, slugs: seq<string>, now: int)
    ensures ApplyModelsCommit(env, s, p, c, slugs, now, {}).Applied?
  {
    UndisturbedCommit(env, s, p, c, slugs, now);
  }
}
