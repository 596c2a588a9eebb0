/** What the profile manager reads and writes: the files of every Codex profile and three
    persisted settings, as a map from locations to contents. */
module ProfileStore {
  import opened Text

  /** A Codex profile directory. */
  type Key = string

  datatype Mode = Missing | Unmanaged | DirectAccount | DirectAggregate | Gateway | ManagedUnknown

  /** `model_catalog_json` of a config.toml. */
  datatype CatalogKey = NoCatalog | Catalog(path: string) | NotText

  /** A `[model_providers.x]` table; keys of nested tables are written with a dot. */
  type Provider = map<string, string>

  datatype Providers = NoProviders | ProviderTable(entries: map<string, Provider>) | NotATable

  /** A parsed config.toml: `provider` is the `model_provider` that is not blank, and `rest` stands for
      everything the manager does not touch. */
  datatype Config = Config(provider: Option<string>, catalog: CatalogKey, model: Option<string>,
                           providers: Providers, rest: string)

  const EmptyConfig := Config(None, NoCatalog, None, NoProviders, "")

  datatype ManagedState = ManagedState(
    profile: Key, mode: Mode, accountId: Option<string>, apiKeyId: Option<string>, aggregateId: Option<string>,
    gatewayBaseUrl: Option<string>, aggregateBaseUrl: Option<string>, supportsWebsockets: Option<bool>,
    providerId: string, previousCatalog: Option<string>, slugs: seq<string>, updatedAt: int)

  /** The marker file repeats the state, without the profile and the previous catalog. */
  datatype Marker = Marker(
    mode: Mode, accountId: Option<string>, apiKeyId: Option<string>, aggregateId: Option<string>,
    gatewayBaseUrl: Option<string>, aggregateBaseUrl: Option<string>, supportsWebsockets: Option<bool>,
    providerId: string, slugs: seq<string>, updatedAt: int)

  datatype BackupEntry = BackupEntry(auth: Option<Content>, config: Option<Content>)

  /** The text of a file or a setting, by what it parses to. */
  datatype Content =
    | Blank
    | AuthJson(account: string, apiKeyMode: bool, hasTokens: bool)
    | Toml(config: Config)
    | CatalogJson(slugs: seq<string>)
    | MarkerJson(marker: Marker)
    | StateJson(state: ManagedState)
    | BackupsJson(entries: map<Key, BackupEntry>)
    | HomeText(home: Key)
    | OtherText(raw: string)

  datatype Loc =
    | AuthFile(profile: Key)
    | ConfigFile(profile: Key)
    | CatalogFile(profile: Key)
    | MarkerFile(profile: Key)
    | LegacyMarkerFile(profile: Key)
    | StateSetting
    | BackupsSetting
    | HomeSetting

  type Store = map<Loc, Content>

  predicate IsSetting(loc: Loc) {
    loc.StateSetting? || loc.BackupsSetting? || loc.HomeSetting?
  }

  function Read(s: Store, loc: Loc): Option<Content> {
    if loc in s then Some(s[loc]) else None
  }

  /** `Some` puts the content there, `None` removes the file. */
  function Write(s: Store, loc: Loc, content: Option<Content>): (r: Store)
    ensures Read(r, loc) == content
    ensures forall l :: l != loc ==> Read(r, l) == Read(s, l)
  {
    match content
    case Some(c) => s[loc := c]
    case None => s - {loc}
  }

  /** A setting that does not parse reads as absent. */
  function LoadState(s: Store): Option<ManagedState> {
    match Read(s, StateSetting)
    case Some(StateJson(st)) => Some(st)
    case _ => None
  }

  function StateOf(s: Store, p: Key): Option<ManagedState> {
    var st := LoadState(s);
    if st.Some? && st.value.profile == p then st else None
  }

  function LoadBackups(s: Store): map<Key, BackupEntry> {
    match Read(s, BackupsSetting)
    case Some(BackupsJson(entries)) => entries
    case _ => map[]
  }

  /** A missing config.toml reads as the empty document; `None` is a parse error. */
  function ParseConfig(text: Option<Content>): Option<Config> {
    match text
    case None => Some(EmptyConfig)
    case Some(Blank) => Some(EmptyConfig)
    case Some(Toml(config)) => Some(config)
    case _ => None
  }

  function ConfigOf(s: Store, p: Key): Option<Config> {
    ParseConfig(Read(s, ConfigFile(p)))
  }

  function MarkerOf(st: ManagedState): Marker {
    Marker(st.mode, st.accountId, st.apiKeyId, st.aggregateId, st.gatewayBaseUrl, st.aggregateBaseUrl,
           st.supportsWebsockets, st.providerId, st.slugs, st.updatedAt)
  }

  // ----- the environment -----

  datatype DetectedGateway = DetectedGateway(providerId: string, baseUrl: string, supportsWebsockets: bool)

  /** Where the managed catalog of a profile lies, when two paths are the same, and what the
      configuration detectors answer. */
  datatype Env = Env(managedCatalog: Key -> string, normalizePath: string -> string,
                     detectGateway: Config -> Option<DetectedGateway>, detectAggregate: Config -> bool)
  {
    predicate SamePath(a: string, b: string) {
      normalizePath(a) == normalizePath(b)
    }

    /** The config points to the file that the manager writes for this profile. */
    predicate PointsToManaged(c: Config, p: Key) {
      c.catalog.Catalog? && SamePath(c.catalog.path, managedCatalog(p))
    }
  }

  // ----- editing config.toml -----

  const PROVIDER_ID := "cm"
  const AGGREGATE_PROVIDER_ID := "cm_aggregate"
  const OPENAI_PROVIDER_ID := "openai"
  const DEFAULT_GATEWAY_BASE_URL := "http://localhost:48760/v1"

  function OptCatalog(path: Option<string>): CatalogKey {
    match path
    case Some(v) => Catalog(v)
    case None => NoCatalog
  }

  function CatalogPath(c: CatalogKey): Option<string> {
    if c.Catalog? then Some(c.path) else None
  }

  /** `None` when `model_providers` is there but is no table. */
  function ProviderEntries(c: Config): Option<map<string, Provider>> {
    match c.providers
    case NoProviders => Some(map[])
    case ProviderTable(entries) => Some(entries)
    case NotATable => None
  }

  function CompatibilityProvider(): Provider {
    map["name" := "OpenAI compatibility", "wire_api" := "responses", "requires_openai_auth" := "true"]
  }

  /** Back to the account's own provider; a catalog pointer that is exactly the managed path is replaced. */
  function PatchForDirect(c: Config, managed: string, previous: Option<string>): Option<Config> {
    var entries := ProviderEntries(c);
    if entries.None? then None
    else
      var providers := ProviderTable((entries.value - {AGGREGATE_PROVIDER_ID})[PROVIDER_ID := CompatibilityProvider()]);
      Some(c.(provider := None, providers := providers,
              catalog := if c.catalog == Catalog(managed) then OptCatalog(previous) else c.catalog))
  }

  /** Settings of a provider that a token excludes, with everything in their tables. */
  predicate ConflictsWithToken(key: string) {
    key in {"env_key", "env_key_instructions", "auth", "aws"} || "auth." <= key || "aws." <= key
  }

  /** `token` is trimmed; a blank one is refused. */
  function BearerAuth(provider: Provider, token: string): Option<Provider> {
    if token == "" then None
    else
      var rest := map k | k in provider && !ConflictsWithToken(k) :: provider[k];
      Some(rest["experimental_bearer_token" := token])
  }

  function BoolText(b: bool): string {
    if b then "true" else "false"
  }

  const HTTP_HEADERS := "http_headers"

  /** `set_provider_http_header`: an `http_headers` that is there but is no table is an error. */
  function HttpHeader(provider: Provider, name: string, value: string): Option<Provider> {
    if HTTP_HEADERS in provider then None else Some(provider[HTTP_HEADERS + "." + name := value])
  }

  /** The table "cm" of a gateway, from what is there already. */
  function GatewayProvider(existing: Provider, baseUrl: string, websockets: bool, token: string): Option<Provider> {
    var authed := BearerAuth(existing["name" := PROVIDER_ID]["requires_openai_auth" := "true"], token);
    if authed.None? then None
    else
      HttpHeader(authed.value["base_url" := baseUrl]["wire_api" := "responses"]
                             ["supports_websockets" := BoolText(websockets)],
                 "x-openai-actor-authorization", "local-image-extension")
  }

  function PatchForGateway(c: Config, baseUrl: string, managed: string, websockets: bool,
                           token: string): Option<Config> {
    var entries := ProviderEntries(c);
    if entries.None? then None
    else
      var existing := if PROVIDER_ID in entries.value then entries.value[PROVIDER_ID] else map[];
      var provider := GatewayProvider(existing, baseUrl, websockets, token);
      if provider.None? then None
      else
        Some(c.(provider := Some(PROVIDER_ID), catalog := Catalog(managed),
                providers := ProviderTable(entries.value[PROVIDER_ID := provider.value])))
  }

  /** The config is one that the gateway patch accepts. */
  predicate TakesGateway(c: Config) {
    && ProviderEntries(c).Some?
    && (PROVIDER_ID in ProviderEntries(c).value ==> HTTP_HEADERS !in ProviderEntries(c).value[PROVIDER_ID])
  }

  lemma GatewayIsTaken(c: Config, baseUrl: string, managed: string, websockets: bool, token: string)
    ensures PatchForGateway(c, baseUrl, managed, websockets, token).Some? <==> TakesGateway(c) && token != ""
  {
    assert !ConflictsWithToken(HTTP_HEADERS) by {
      assert HTTP_HEADERS[0] == 'h';
    }
  }

  datatype AggregateAuth = Bearer | Header(name: string, bearerFormat: bool)

  datatype AggregateConfig = AggregateConfig(baseUrl: string, providerName: string, auth: AggregateAuth,
                                             userAgent: Option<string>, modelOverride: Option<string>)

  function RestorePreviousCatalog(env: Env, c: Config, p: Key, previous: Option<string>): Config {
    if env.PointsToManaged(c, p) then c.(catalog := OptCatalog(previous)) else c
  }

  /** The table of an aggregate API, made anew. */
  function AggregateProvider(api: AggregateConfig, secret: string): Option<Provider> {
    var base: Provider := map["name" := api.providerName, "base_url" := api.baseUrl, "wire_api" := "responses",
                              "supports_websockets" := "false"];
    var authed := BearerAuth(base, secret);
    if authed.None? then None
    else
      var headed := if api.auth.Header? then
                      authed.value["requires_openai_auth" := "false"]
                                  [HTTP_HEADERS + "." + api.auth.name :=
                                   (if api.auth.bearerFormat then "Bearer " else "") + secret]
                    else authed.value;
      Some(if api.userAgent.Some? then headed[HTTP_HEADERS + ".User-Agent" := api.userAgent.value] else headed)
  }

  function PatchForAggregate(env: Env, c: Config, p: Key, api: AggregateConfig, secret: string,
                             previous: Option<string>, model: string): Option<Config> {
    var restored := RestorePreviousCatalog(env, c, p, previous);
    var entries, provider := ProviderEntries(restored), AggregateProvider(api, secret);
    if entries.None? || provider.None? then None
    else
      Some(restored.(provider := Some(AGGREGATE_PROVIDER_ID), catalog := Catalog(env.managedCatalog(p)),
                     model := Some(model),
                     providers := ProviderTable(entries.value[AGGREGATE_PROVIDER_ID := provider.value])))
  }

  function PatchForManagedCatalog(c: Config, managed: string): Config {
    c.(catalog := Catalog(managed))
  }

  /** The pointer to carry: the one saved by a managing mode, else the one in the config. */
  function PreviousCatalog(s: Store, p: Key, c: Config): Option<string> {
    var st := StateOf(s, p);
    if st.Some? && (st.value.mode.Gateway? || st.value.mode.DirectAggregate?) then st.value.previousCatalog
    else CatalogPath(c.catalog)
  }

  /** `detect_mode`, without a marker. */
  function DetectMode(env: Env, auth: Option<Content>, config: Option<Content>): Mode {
    var parsed := if config.Some? then ParseConfig(config) else None;
    if parsed.Some? && env.detectGateway(parsed.value).Some? then Gateway
    else if parsed.Some? && env.detectAggregate(parsed.value) then DirectAggregate
    else if auth.Some? && auth.value.AuthJson? && auth.value.apiKeyMode then Gateway
    else if auth.None? && config.None? then Missing
    else if auth.Some? && auth.value.AuthJson? && auth.value.hasTokens then DirectAccount
    else Unmanaged
  }

  /** The state a model selection is added to: the persisted one, else the marker's, else a detected one. */
  function StateForModels(env: Env, s: Store, p: Key, c: Config, now: int): ManagedState {
    if StateOf(s, p).Some? then StateOf(s, p).value
    else if Read(s, MarkerFile(p)).Some? && Read(s, MarkerFile(p)).value.MarkerJson? then
      var m := Read(s, MarkerFile(p)).value.marker;
      ManagedState(p, m.mode, m.accountId, m.apiKeyId, m.aggregateId, m.gatewayBaseUrl, m.aggregateBaseUrl,
                   m.supportsWebsockets, m.providerId, None, m.slugs, m.updatedAt)
    else
      var detected := DetectMode(env, Read(s, AuthFile(p)), Read(s, ConfigFile(p)));
      var gateway := env.detectGateway(c);
      var provider := if gateway.Some? then gateway.value.providerId
                      else c.provider.GetOr(PROVIDER_ID);
      ManagedState(p, if detected.Missing? then Unmanaged else detected, None, None, None,
                   if gateway.Some? then Some(gateway.value.baseUrl) else None, None,
                   if gateway.Some? then Some(gateway.value.supportsWebsockets) else None, provider,
                   if env.PointsToManaged(c, p) then None else CatalogPath(c.catalog), [], now)
  }
}
