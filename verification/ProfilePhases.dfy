/** The six profile operations by their phases, as they run under the mutation lease: the config is read in
    one phase and written in a later one, and a caller may go away in between. */
module ProfilePhases {
  import opened Text
  import opened ProfileStore
  import opened ProfileOps
  import opened CatalogSelection
  import opened CatalogPointer
  import opened MutationLease
  import ProfileRuns
  import SelectionChanges

  /** What an operation carries from step to step and from phase to phase: the number of write attempts so
      far, whether all that had to work did, the config and the pointer it read; or the plan of a sync. */
  datatype Memory =
    | Nothing
    | Seen(clock: nat, ok: bool, config: Option<Config>, previous: Option<string>)
    | Planned(plan: SyncPlan)

  // ----- the steps -----

  function MigrateMarkers(p: Key, faults: set<nat>): Action<Memory> {
    (s: Store, m: Memory) =>
      var o := TryMigrate(Start(s), p, faults);
      (o.store, Seen(o.clock, o.ok, None, None))
  }

  /** `wanted` is false when the lookup before the backup failed. */
  function TakeBackup(p: Key, wanted: bool, faults: set<nat>): Action<Memory> {
    (s: Store, m: Memory) =>
      if !m.Seen? then (s, m)
      else if !wanted then (s, m.(ok := false))
      else
        var o := EnsureBackup(Progress(s, m.clock, m.ok), p, faults);
        (o.store, m.(clock := o.clock, ok := o.ok))
  }

  /** config.toml is read and parsed, and the pointer to save is found. */
  function ReadProfile(p: Key): Action<Memory> {
    (s: Store, m: Memory) =>
      var config := ConfigOf(s, p);
      var previous := if config.Some? then PreviousCatalog(s, p, config.value) else None;
      (s, if m.Seen? then m.(config := config, previous := previous) else Seen(0, true, config, previous))
  }

  /** The last step of the account switch. */
  function CommitAccount(env: Env, p: Key, input: Option<AccountInput>, now: int, faults: set<nat>): Action<Memory> {
    (s: Store, m: Memory) =>
      if !m.Seen? || !m.ok || m.config.None? || input.None? then (s, m)
      else
        var patched := PatchForDirect(m.config.value, env.managedCatalog(p), m.previous);
        if patched.None? then (s, m)
        else
          (AccountWrites(Progress(s, m.clock, m.ok), input.value.auth, patched.value,
                         AccountState(p, input.value.accountId, now), faults).store, m)
  }

  /** The last phase of the aggregate switch: it patches the config that the first phase read. */
  function CommitAggregate(env: Env, p: Key, input: Option<AggregateInput>, now: int,
                           faults: set<nat>): Action<Memory> {
    (s: Store, m: Memory) =>
      if !m.Seen? || !m.ok || m.config.None? || input.None? || input.value.upstream.None? then (s, m)
      else
        var slugs := Select(input.value.managed, input.value.upstream.value);
        if slugs.None? || slugs.value == [] then (s, m)
        else
          var patched := PatchForAggregate(env, m.config.value, p, input.value.api, input.value.secret, m.previous,
                                           DefaultModel(slugs.value, input.value.api.modelOverride));
          if patched.None? then (s, m)
          else
            (ManagedWrites(Progress(s, m.clock, m.ok), slugs.value, patched.value,
                           AggregateState(p, input.value, m.previous, slugs.value, now), faults).store, m)
  }

  /** The last phase of the gateway switch, which patches the config of the first phase, too. */
  function CommitGateway(env: Env, p: Key, input: Option<GatewayInput>, now: int, faults: set<nat>): Action<Memory> {
    (s: Store, m: Memory) =>
      if !m.Seen? || m.config.None? || input.None? then (s, m)
      else
        var patched :=
            PatchForGateway(m.config.value, input.value.baseUrl, env.managedCatalog(p), input.value.websockets,
                                       input.value.secret);
        if patched.None? then (s, m)
        else
          var backed := EnsureBackup(TryMigrate(Start(s), p, faults), p, faults);
          (ManagedWrites(backed, input.value.catalog, patched.value, GatewayState(p, input.value, m.previous, now),
                         faults).store, m)
  }

  /** The last phase of selecting models. */
  function CommitSelection(env: Env, p: Key, slugs: Option<seq<string>>, now: int, faults: set<nat>): Action<Memory> {
    (s: Store, m: Memory) =>
      if !m.Seen? || m.config.None? || slugs.None? then (s, m)
      else (ApplyModelsCommit(env, s, p, m.config.value, slugs.value, now, faults).store, m)
  }

  /** The phases of a sync: it plans on the state and the config, and commits its plan. */
  function PlanTheSync(env: Env, changes: seq<SelectionChanges.Change>, input: SyncInput): Action<Memory> {
    (s: Store, m: Memory) => (s, Planned(PlanSync(env, s, changes, input)))
  }

  function CommitSync(env: Env, secret: Option<string>, faults: set<nat>): Action<Memory> {
    (s: Store, m: Memory) =>
      if !m.Planned? then (s, m)
      else
        match m.plan
        case Detach(st) => (SyncDetach(env, s, st, faults).store, m)
        case Rewrite(st, catalog, slugs, websockets) =>
          (SyncRewrite(env, s, st, catalog, slugs, websockets, secret, faults).store, m)
        case _ => (s, m)
  }

  function RestoreAtOnce(p: Key, faults: set<nat>): Action<Memory> {
    (s: Store, m: Memory) => (Restore(s, p, faults).store, m)
  }

  // ----- the phases -----

  function PhasesOf(env: Env, what: ProfileRuns.Op): seq<seq<Action<Memory>>> {
    match what
    case DirectAccountOp(p, input, now, faults) =>
      [[MigrateMarkers(p, faults)],
       [TakeBackup(p, input.Some?, faults), ReadProfile(p), CommitAccount(env, p, input, now, faults)]]
    case DirectAggregateOp(p, input, now, faults) =>
      [[MigrateMarkers(p, faults), TakeBackup(p, input.Some?, faults), ReadProfile(p)],
       [CommitAggregate(env, p, input, now, faults)]]
    case GatewayOp(p, input, now, faults) => [[ReadProfile(p)], [CommitGateway(env, p, input, now, faults)]]
    case ModelsOp(p, managed, requested, now, faults) =>
      [[ReadProfile(p)], [CommitSelection(env, p, Select(managed, requested), now, faults)]]
    case SyncOp(changes, input, faults) => [[PlanTheSync(env, changes, input)], [CommitSync(env, input.secret, faults)]]
    case RestoreOp(p, faults) => [[RestoreAtOnce(p, faults)]]
  }

  /** An operation that changes nothing. */
  const SKIP: ProfileRuns.Op := ProfileRuns.GatewayOp("", None, 0, {})

  /** What a call amounts to that ends after its first phase: an account switch migrated the markers, an
      aggregate switch took the backup as well, as when the account or the models are refused; the others
      have only read. */
  function FirstPhase(what: ProfileRuns.Op): ProfileRuns.Op {
    match what
    case DirectAccountOp(p, _, now, faults) => ProfileRuns.DirectAccountOp(p, None, now, faults)
    case DirectAggregateOp(p, Some(input), now, faults) =>
      ProfileRuns.DirectAggregateOp(p, Some(input.(upstream := None)), now, faults)
    case DirectAggregateOp(_, None, _, _) => what
    case _ => SKIP
  }

  // ----- replaying phases -----

  lemma ReplayOne(store: Store, a: Action<Memory>)
    ensures Replay(store, Nothing, [a]) == a(store, Nothing)
  {
    ReplayExtends(store, Nothing, [], a);
    assert [] + [a] == [a];
  }

  lemma ReplayTwo(store: Store, a: Action<Memory>, b: Action<Memory>)
    ensures var first := a(store, Nothing);
            Replay(store, Nothing, [a, b]) == b(first.0, first.1)
  {
    ReplayOne(store, a);
    ReplayExtends(store, Nothing, [a], b);
    assert [a] + [b] == [a, b];
  }

  lemma ReplayThree(store: Store, a: Action<Memory>, b: Action<Memory>, c: Action<Memory>)
    ensures var first := a(store, Nothing);
            var second := b(first.0, first.1);
            Replay(store, Nothing, [a, b, c]) == c(second.0, second.1)
  {
    ReplayTwo(store, a, b);
    ReplayExtends(store, Nothing, [a, b], c);
    assert [a, b] + [c] == [a, b, c];
  }

  lemma FlatOfOne(first: seq<Action<Memory>>)
    ensures Flat([first]) == first && Flat<Memory>([]) == []
  {
    assert [first][..0] == [];
    assert Flat([first]) == Flat<Memory>([]) + first;
  }

  lemma FlatOfTwo(first: seq<Action<Memory>>, second: seq<Action<Memory>>)
    ensures Flat([first, second]) == first + second
  {
    FlatOfOne(first);
    assert [first, second][..1] == [first];
  }

  // ----- whole operations and their first phases -----

  lemma PreviousDependsOn(s: Store, t: Store, p: Key, config: Config)
    requires LoadState(t) == LoadState(s)
    ensures PreviousCatalog(t, p, config) == PreviousCatalog(s, p, config)
  {
  }

  /** What the first three steps of the account and the aggregate switch leave and remember; the config is
      still the one that was there at the start. */
  ghost predicate Begun(store: Store, p: Key, wanted: bool, faults: set<nat>, t: Store, m: Memory) {
    var migrated := TryMigrate(Start(store), p, faults);
    var backed := EnsureBackup(migrated, p, faults);
    var config := ConfigOf(store, p);
    var previous := if config.Some? then PreviousCatalog(store, p, config.value) else None;
    if wanted then t == backed.store && m == Seen(backed.clock, backed.ok, config, previous)
    else t == migrated.store && m.Seen? && !m.ok
  }

  lemma BeginSwitch(p: Key, wanted: bool, faults: set<nat>, store: Store) returns (t: Store, m: Memory)
    ensures Begun(store, p, wanted, faults, t, m)
    ensures Chained(store, MigrateMarkers(p, faults), TakeBackup(p, wanted, faults), ReadProfile(p), t, m)
  {
    var migrated := TryMigrate(Start(store), p, faults);
    PrepareKeepsPointer(store, p, faults);
    BackupAndRead(store, migrated, p, wanted, faults);
    var a := MigrateMarkers(p, faults)(store, Nothing);
    var b := TakeBackup(p, wanted, faults)(a.0, a.1);
    var c := ReadProfile(p)(b.0, b.1);
    t, m := c.0, c.1;
  }

  /** Three steps, one after the other. */
  ghost predicate Chained(store: Store, a: Action<Memory>, b: Action<Memory>, c: Action<Memory>, t: Store, m: Memory) {
    var first := a(store, Nothing);
    var second := b(first.0, first.1);
    c(second.0, second.1) == (t, m)
  }

  lemma ReplayChained(store: Store, a: Action<Memory>, b: Action<Memory>, c: Action<Memory>, d: Action<Memory>,
                      t: Store, m: Memory)
    requires Chained(store, a, b, c, t, m)
    ensures Replay(store, Nothing, Flat([[a], [b, c, d]])) == d(t, m)
    ensures Replay(store, Nothing, Flat([[a, b, c], [d]])) == d(t, m)
  {
    ReplayThree(store, a, b, c);
    ReplayExtends(store, Nothing, [a, b, c], d);
    FlatOfTwo([a], [b, c, d]);
    FlatOfTwo([a, b, c], [d]);
    assert [a] + [b, c, d] == [a, b, c] + [d];
  }

  lemma ReplayBegun(store: Store, a: Action<Memory>, b: Action<Memory>, c: Action<Memory>, t: Store, m: Memory)
    requires Chained(store, a, b, c, t, m)
    ensures Replay(store, Nothing, [a, b, c]).0 == t
  {
    ReplayThree(store, a, b, c);
  }

  lemma BackupAndRead(store: Store, migrated: Progress, p: Key, wanted: bool, faults: set<nat>)
    requires var backed := EnsureBackup(migrated, p, faults);
             Read(backed.store, ConfigFile(p)) == Read(store, ConfigFile(p))
               && LoadState(backed.store) == LoadState(store)
    ensures var b := TakeBackup(p, wanted, faults)(migrated.store, Seen(migrated.clock, migrated.ok, None, None));
            var c := ReadProfile(p)(b.0, b.1);
            var backed := EnsureBackup(migrated, p, faults);
            var config := ConfigOf(store, p);
            && (!wanted ==> c.0 == migrated.store && c.1.Seen? && !c.1.ok)
            && (wanted ==> c.0 == backed.store && c.1.Seen? && c.1.clock == backed.clock && c.1.ok == backed.ok)
            && (wanted ==> c.1.config == config)
            && (wanted ==> c.1.previous == if config.Some? then PreviousCatalog(store, p, config.value) else None)
  {
    assert Progress(migrated.store, migrated.clock, migrated.ok) == migrated;
    if ConfigOf(store, p).Some? {
      PreviousDependsOn(store, EnsureBackup(migrated, p, faults).store, p, ConfigOf(store, p).value);
    }
  }

  lemma AccountFinishes(env: Env, p: Key, input: Option<AccountInput>, now: int, faults: set<nat>, store: Store,
                        t: Store, m: Memory)
    requires Begun(store, p, input.Some?, faults, t, m)
    ensures CommitAccount(env, p, input, now, faults)(t, m).0
        == ApplyDirectAccount(env, store, p, input, now, faults).store
  {
    var backed := EnsureBackup(TryMigrate(Start(store), p, faults), p, faults);
    assert Progress(backed.store, backed.clock, backed.ok) == backed;
  }

  lemma AggregateFinishes(env: Env, p: Key, input: Option<AggregateInput>, now: int, faults: set<nat>, store: Store,
                          t: Store, m: Memory)
    requires Begun(store, p, input.Some?, faults, t, m)
    ensures CommitAggregate(env, p, input, now, faults)(t, m).0
        == ApplyDirectAggregate(env, store, p, input, now, faults).store
  {
    var backed := EnsureBackup(TryMigrate(Start(store), p, faults), p, faults);
    assert Progress(backed.store, backed.clock, backed.ok) == backed;
  }

  lemma AggregateBegins(env: Env, p: Key, input: Option<AggregateInput>, now: int, faults: set<nat>, store: Store,
                        t: Store, m: Memory)
    requires Begun(store, p, input.Some?, faults, t, m)
    requires input.Some? ==> input.value.upstream.None?
    ensures t == ApplyDirectAggregate(env, store, p, input, now, faults).store
  {
  }

  /** Two steps, one after the other, leave the store `end`. */
  ghost predicate Ends(store: Store, a: Action<Memory>, b: Action<Memory>, end: Store) {
    var first := a(store, Nothing);
    b(first.0, first.1).0 == end
  }

  lemma TwoSteps(store: Store, a: Action<Memory>, b: Action<Memory>, end: Store)
    requires Ends(store, a, b, end)
    ensures Replay(store, Nothing, Flat([[a], [b]])).0 == end
  {
    FlatOfTwo([a], [b]);
    assert [a] + [b] == [a, b];
    ReplayTwo(store, a, b);
  }

  /** The gateway switch in two phases, with the config of the first patched in the second, is the gateway
      switch in one. */
  lemma GatewaySteps(env: Env, p: Key, input: Option<GatewayInput>, now: int, faults: set<nat>, store: Store)
    ensures Ends(store, ReadProfile(p), CommitGateway(env, p, input, now, faults),
                 ApplyGateway(env, store, p, input, now, faults).store)
  {
  }

  lemma SelectionSteps(env: Env, p: Key, managed: seq<string>, requested: seq<string>, now: int, faults: set<nat>,
                       store: Store)
    ensures Ends(store, ReadProfile(p), CommitSelection(env, p, Select(managed, requested), now, faults),
                 ApplyModels(env, store, p, managed, requested, now, faults).store)
  {
  }

  lemma SyncSteps(env: Env, changes: seq<SelectionChanges.Change>, input: SyncInput, faults: set<nat>, store: Store)
    ensures Ends(store, PlanTheSync(env, changes, input), CommitSync(env, input.secret, faults),
                 Sync(env, store, changes, input, faults).store)
  {
  }

  lemma AccountWhole(env: Env, p: Key, input: Option<AccountInput>, now: int, faults: set<nat>, store: Store)
    ensures var what := ProfileRuns.DirectAccountOp(p, input, now, faults);
            var r := Replay(store, Nothing, Flat(PhasesOf(env, what)));
            r.0 == ApplyDirectAccount(env, store, p, input, now, faults).store
  {
    var t, m := BeginSwitch(p, input.Some?, faults, store);
    ReplayChained(store, MigrateMarkers(p, faults), TakeBackup(p, input.Some?, faults), ReadProfile(p),
                  CommitAccount(env, p, input, now, faults), t, m);
    AccountFinishes(env, p, input, now, faults, store, t, m);
  }

  lemma AggregateWhole(env: Env, p: Key, input: Option<AggregateInput>, now: int, faults: set<nat>, store: Store)
    ensures var what := ProfileRuns.DirectAggregateOp(p, input, now, faults);
            var r := Replay(store, Nothing, Flat(PhasesOf(env, what)));
            r.0 == ApplyDirectAggregate(env, store, p, input, now, faults).store
  {
    var t, m := BeginSwitch(p, input.Some?, faults, store);
    ReplayChained(store, MigrateMarkers(p, faults), TakeBackup(p, input.Some?, faults), ReadProfile(p),
                  CommitAggregate(env, p, input, now, faults), t, m);
    AggregateFinishes(env, p, input, now, faults, store, t, m);
  }

  lemma GatewayWhole(env: Env, p: Key, input: Option<GatewayInput>, now: int, faults: set<nat>, store: Store)
    ensures Replay(store, Nothing, Flat([[ReadProfile(p)], [CommitGateway(env, p, input, now, faults)]])).0
         == ApplyGateway(env, store, p, input, now, faults).store
  {
    GatewaySteps(env, p, input, now, faults, store);
    TwoSteps(store, ReadProfile(p), CommitGateway(env, p, input, now, faults),
             ApplyGateway(env, store, p, input, now, faults).store);
  }

  lemma SelectionWhole(env: Env, p: Key, managed: seq<string>, requested: seq<string>, now: int, faults: set<nat>,
                       store: Store)
    ensures Replay(store, Nothing,
                   Flat([[ReadProfile(p)], [CommitSelection(env, p, Select(managed, requested), now, faults)]])).0
         == ApplyModels(env, store, p, managed, requested, now, faults).store
  {
    SelectionSteps(env, p, managed, requested, now, faults, store);
    TwoSteps(store, ReadProfile(p), CommitSelection(env, p, Select(managed, requested), now, faults),
             ApplyModels(env, store, p, managed, requested, now, faults).store);
  }

  lemma SyncWhole(env: Env, changes: seq<SelectionChanges.Change>, input: SyncInput, faults: set<nat>, store: Store)
    ensures Replay(store, Nothing,
                   Flat([[PlanTheSync(env, changes, input)], [CommitSync(env, input.secret, faults)]])).0
         == Sync(env, store, changes, input, faults).store
  {
    SyncSteps(env, changes, input, faults, store);
    TwoSteps(store, PlanTheSync(env, changes, input), CommitSync(env, input.secret, faults),
             Sync(env, store, changes, input, faults).store);
  }

  lemma OneStep(store: Store, a: Action<Memory>)
    ensures Replay(store, Nothing, Flat([[a]])) == a(store, Nothing)
  {
    FlatOfOne([a]);
    ReplayOne(store, a);
  }

  lemma RestoreWhole(env: Env, p: Key, faults: set<nat>, store: Store)
    ensures Replay(store, Nothing, Flat([[RestoreAtOnce(p, faults)]])).0 == Restore(store, p, faults).store
  {
    OneStep(store, RestoreAtOnce(p, faults));
  }

  /** All phases together are the operation. */
  lemma WholeIsOperation(env: Env, what: ProfileRuns.Op, store: Store)
    ensures Replay(store, Nothing, Flat(PhasesOf(env, what))).0 == ProfileRuns.Perform(env, store, what)
  {
    match what
    case DirectAccountOp(p, input, now, faults) => AccountWhole(env, p, input, now, faults, store);
    case DirectAggregateOp(p, input, now, faults) => AggregateWhole(env, p, input, now, faults, store);
    case GatewayOp(p, input, now, faults) => GatewayWhole(env, p, input, now, faults, store);
    case ModelsOp(p, managed, requested, now, faults) => SelectionWhole(env, p, managed, requested, now, faults, store);
    case SyncOp(changes, input, faults) => SyncWhole(env, changes, input, faults, store);
    case RestoreOp(p, faults) => RestoreWhole(env, p, faults, store);
  }

  lemma SkipDoesNothing(env: Env, store: Store)
    ensures ProfileRuns.Perform(env, store, SKIP) == store
  {
  }

  lemma AggregateFirstPhase(env: Env, p: Key, input: Option<AggregateInput>, now: int, faults: set<nat>, store: Store)
    ensures var first := [MigrateMarkers(p, faults), TakeBackup(p, input.Some?, faults), ReadProfile(p)];
            var refused := if input.Some? then Some(input.value.(upstream := None)) else None;
            Replay(store, Nothing, first).0 == ApplyDirectAggregate(env, store, p, refused, now, faults).store
  {
    var refused := if input.Some? then Some(input.value.(upstream := None)) else None;
    var t, m := BeginSwitch(p, input.Some?, faults, store);
    ReplayBegun(store, MigrateMarkers(p, faults), TakeBackup(p, input.Some?, faults), ReadProfile(p), t, m);
    AggregateBegins(env, p, refused, now, faults, store, t, m);
  }

  /** The other operations of more than one phase only read in the first. */
  lemma ReadingPhase(store: Store, what: ProfileRuns.Op, env: Env)
    requires what.GatewayOp? || what.ModelsOp? || what.SyncOp?
    ensures Replay(store, Nothing, PhasesOf(env, what)[0]).0 == store
  {
    match what
    case GatewayOp(p, _, _, _) => ReplayOne(store, ReadProfile(p));
    case ModelsOp(p, _, _, _, _) => ReplayOne(store, ReadProfile(p));
    case SyncOp(changes, input, _) => ReplayOne(store, PlanTheSync(env, changes, input));
  }

  lemma AccountFirstPhase(env: Env, p: Key, now: int, faults: set<nat>, store: Store)
    ensures Replay(store, Nothing, [MigrateMarkers(p, faults)]).0
        == ApplyDirectAccount(env, store, p, None, now, faults).store
  {
    ReplayOne(store, MigrateMarkers(p, faults));
  }

  /** A call that ends after its first phase amounts to an operation as well, or has changed nothing. */
  lemma FirstPhaseIsOperation(env: Env, what: ProfileRuns.Op, store: Store)
    requires !what.RestoreOp?
    ensures Replay(store, Nothing, PhasesOf(env, what)[0]).0 == ProfileRuns.Perform(env, store, FirstPhase(what))
  {
    match what
    case DirectAccountOp(p, input, now, faults) => AccountFirstPhase(env, p, now, faults, store);
    case DirectAggregateOp(p, input, now, faults) => AggregateFirstPhase(env, p, input, now, faults, store);
    case _ =>
      ReadingPhase(store, what, env);
      SkipDoesNothing(env, store);
  }

  // ----- every interleaving -----

  /** A call of the operation that no failed worker cut in a phase. */
  ghost predicate Follows(env: Env, op: OpState<Memory>, what: ProfileRuns.Op) {
    op.phases == PhasesOf(env, what) && op.start == Nothing && Whole(op)
  }

  /** All of the operation, its first phase, or nothing. */
  predicate IsPartOf(done: ProfileRuns.Op, what: ProfileRuns.Op) {
    done == what || done == FirstPhase(what) || done == SKIP
  }

  /** What the call did, by the accesses it has made. */
  ghost function Did(env: Env, op: OpState<Memory>, what: ProfileRuns.Op): ProfileRuns.Op {
    if op.performed == Flat(PhasesOf(env, what)) then what
    else if op.performed == PhasesOf(env, what)[0] then FirstPhase(what)
    else SKIP
  }

  lemma DidImplements(env: Env, op: OpState<Memory>, what: ProfileRuns.Op)
    requires Follows(env, op, what)
    ensures Implements(env, op, Did(env, op, what))
  {
    PhasesCut(env, op, what);
    forall store ensures Replay(store, op.start, op.performed).0
      == ProfileRuns.Perform(env, store, Did(env, op, what)) {
      if op.performed == Flat(PhasesOf(env, what)) {
        WholeIsOperation(env, what, store);
      } else if op.performed == PhasesOf(env, what)[0] {
        FirstPhaseIsOperation(env, what, store);
      } else {
        SkipDoesNothing(env, store);
      }
    }
  }

  /** The accesses of a call are those of all its phases, of the first, or none. */
  lemma PhasesCut(env: Env, op: OpState<Memory>, what: ProfileRuns.Op)
    requires Follows(env, op, what)
    ensures op.performed == Flat(op.phases) || op.performed == [] || op.performed == op.phases[0]
    ensures what.RestoreOp? && op.performed != [] ==> op.performed == Flat(op.phases)
  {
    var k :| 0 <= k <= |op.phases| && op.performed == Flat(op.phases[..k]);
    if k == |op.phases| {
      assert op.phases[..k] == op.phases;
    } else if k == 0 {
      assert op.phases[..0] == [];
      FlatOfOne([]);
    } else {
      assert op.phases[..1] == [op.phases[0]];
      FlatOfOne(op.phases[0]);
    }
  }

  /** Calls under way, each with the operation that it runs; all workers are done, and none died. */
  ghost predicate Settled(env: Env, store: Store, steps: seq<Step<Memory>>, whats: map<OpId, ProfileRuns.Op>) {
    && Run(store, steps).Some?
    && var s := Run(store, steps).value;
       forall id :: id in s.ops ==>
         && id in whats && s.ops[id].phases == PhasesOf(env, whats[id]) && s.ops[id].start == Nothing
         && s.ops[id].worker.NoWorker? && !s.ops[id].failed
  }

  /** What all calls did, in the order of their leases. */
  ghost function Done(env: Env, store: Store, steps: seq<Step<Memory>>, whats: map<OpId, ProfileRuns.Op>)
    : (run: seq<ProfileRuns.Op>)
    requires Settled(env, store, steps, whats)
  {
    var s := Run(store, steps).value;
    CallsFollow(env, store, steps, whats);
    seq(|s.order|, i requires 0 <= i < |s.order| => Did(env, s.ops[s.order[i]], whats[s.order[i]]))
  }

  /** The main result: let any number of callers run any of the six operations at once, on any profiles, with
      any failing writes, and be cancelled at any moment. When the workers are done, the store is the one that
      a run of operations leaves, one after the other in the order of their leases, in which each call took
      place, or its first phase did, or nothing. */
  lemma EveryInterleavingIsARun(env: Env, store: Store, steps: seq<Step<Memory>>, whats: map<OpId, ProfileRuns.Op>)
    requires Settled(env, store, steps, whats)
    ensures var s, run := Run(store, steps).value, Done(env, store, steps, whats);
            && s.store == ProfileRuns.Run(env, store, run) && |run| == |s.order|
            && forall i :: 0 <= i < |run| ==> s.order[i] in whats && IsPartOf(run[i], whats[s.order[i]])
  {
    var s, run := Run(store, steps).value, Done(env, store, steps, whats);
    CallsFollow(env, store, steps, whats);
    forall i | 0 <= i < |run| ensures Implements(env, s.ops[s.order[i]], run[i]) {
      DidImplements(env, s.ops[s.order[i]], whats[s.order[i]]);
    }
    InterleavingIsARun(env, store, s.order, s.ops, run);
  }

  lemma CallsFollow(env: Env, store: Store, steps: seq<Step<Memory>>, whats: map<OpId, ProfileRuns.Op>)
    requires Settled(env, store, steps, whats)
    ensures var s := Run(store, steps).value;
            && OrderMatches(s) && s.store == Serial(store, s.order, s.ops)
            && forall id :: id in s.ops ==> Follows(env, s.ops[id], whats[id])
  {
    InterleavingIsSerial(store, steps);
  }
}
