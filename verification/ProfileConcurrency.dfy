/** What the runs of profile operations keep, also when many callers run them at once. */
module ProfileConcurrency {
  import opened Text
  import opened ProfileStore
  import opened ProfileOps
  import opened ProfileRuns
  import opened ProfileBackups
  import opened ProfileAttempts
  import opened ProfileRestore
  import opened CatalogPointer
  import opened PointerRuns
  import opened ProfilePhases
  import Selection = SelectionConsistency
  import Lease = MutationLease

  /** What holds of the calls and of their parts holds of what they did. */
  lemma PartsHave(env: Env, store: Store, steps: seq<Lease.Step<Memory>>, whats: map<Lease.OpId, Op>, has: Op -> bool)
    requires Settled(env, store, steps, whats) && forall id :: id in whats ==> has(whats[id])
    requires forall what, done :: has(what) && IsPartOf(done, what) ==> has(done)
    ensures forall op :: op in Done(env, store, steps, whats) ==> has(op)
  {
    EveryInterleavingIsARun(env, store, steps, whats);
  }

  // ----- restoring -----

  /** Any number of callers, on any number of profiles, with cancellations and any failing writes: if what they
      did is a tidy run, a restore gives every profile its files of the beginning back, and the state belongs to
      a profile with a backup. */
  lemma ConcurrentRestoreBringsBack(env: Env, store: Store, steps: seq<Lease.Step<Memory>>, whats: map<Lease.OpId, Op>,
                                    p: Key)
    requires Settled(env, store, steps, whats) && LoadBackups(store) == map[] && LoadState(store).None?
    requires TidyRun(env, store, Done(env, store, steps, whats))
    ensures var t := Lease.Run(store, steps).value.store;
            StateBacked(t) && Original(Restore(t, p, {}).store, p) == Original(store, p)
  {
    EveryInterleavingIsARun(env, store, steps, whats);
    RestoreBringsBack(env, store, Done(env, store, steps, whats), p);
  }

  /** At most one write of a commit of models fails, its rollback included, and the sixth of a restore works;
      any writes of the other operations may fail. */
  predicate Harmless(op: Op) {
    && (op.ModelsOp? ==> |op.faults| <= 1)
    && (op.RestoreOp? ==> 5 !in op.faults)
  }

  lemma HarmlessIsTidy(env: Env, s: Store, op: Op)
    requires Harmless(op)
    ensures Tidy(env, s, op)
  {
    if op.ModelsOp? && ConfigOf(s, op.p).Some? {
      OneFaultIsHarmless(env, s, op.p, ConfigOf(s, op.p).value, op.faults);
    }
  }

  lemma OneFaultIsHarmless(env: Env, s: Store, p: Key, config: Config, faults: set<nat>)
    requires |faults| <= 1
    ensures !LosesBackup(env, s, p, config, faults) && !LeavesState(s, p, faults)
  {
    var c := MigrationWrites(s, p) + 3;
    NoTwoFail(faults, Fatal(c, faults), Fatal(c, faults) + 5);
    NoTwoFail(faults, c + 3, c + 5);
  }

  lemma NoTwoFail(faults: set<nat>, a: nat, b: nat)
    requires |faults| <= 1 && a != b
    ensures a !in faults || b !in faults
  {
    if a in faults {
      assert |faults - {a}| == 0;
    }
  }

  /** Harmless calls are a tidy run, whatever the store and the interleaving. */
  lemma HarmlessCallsAreTidy(env: Env, store: Store, steps: seq<Lease.Step<Memory>>, whats: map<Lease.OpId, Op>)
    requires Settled(env, store, steps, whats) && forall id :: id in whats ==> Harmless(whats[id])
    ensures TidyRun(env, store, Done(env, store, steps, whats))
  {
    PartsHave(env, store, steps, whats, op => Harmless(op));
    HarmlessRunIsTidy(env, store, Done(env, store, steps, whats));
  }

  lemma HarmlessRunIsTidy(env: Env, store: Store, run: seq<Op>)
    requires forall op :: op in run ==> Harmless(op)
    ensures TidyRun(env, store, run)
  {
    forall i | 0 <= i < |run| ensures Tidy(env, Run(env, store, run[..i]), run[i]) {
      assert run[i] in run;
      HarmlessIsTidy(env, Run(env, store, run[..i]), run[i]);
    }
  }

  // ----- the selection -----

  /** Callers whose writes all work: a persisted selection lists its catalog file, also when calls were
      cancelled between their phases. */
  lemma ConcurrentSelection(env: Env, store: Store, steps: seq<Lease.Step<Memory>>, whats: map<Lease.OpId, Op>)
    requires Settled(env, store, steps, whats) && Selection.Consistent(store)
    requires forall id :: id in whats ==> whats[id].faults == {}
    ensures Selection.Consistent(Lease.Run(store, steps).value.store)
  {
    EveryInterleavingIsARun(env, store, steps, whats);
    PartsHave(env, store, steps, whats, op => Selection.Undisturbed(op));
    Selection.RunConsistent(env, store, Done(env, store, steps, whats));
  }

  // ----- the pointer -----

  /** Callers on one profile, with cancellations and any failing writes: if what they did is a careful run, the
      profile's own pointer is carried. */
  lemma ConcurrentPointer(env: Env, store: Store, steps: seq<Lease.Step<Memory>>, whats: map<Lease.OpId, Op>, p: Key,
                          u: Option<string>)
    requires Settled(env, store, steps, whats) && LoadBackups(store) == map[] && LoadState(store).None?
    requires Foreign(env, p, u) && ConfigOf(store, p).Some? && ConfigOf(store, p).value.catalog == OptCatalog(u)
    requires CarefulRun(env, p, store, Done(env, store, steps, whats))
    ensures Carried(env, p, u, Lease.Run(store, steps).value.store)
  {
    EveryInterleavingIsARun(env, store, steps, whats);
    RunKeepsPointer(env, p, u, store, Done(env, store, steps, whats));
  }

  /** A call on the profile that applies no selected models, is harmless, and does not fail to write if it is a
      switch to a managing mode. */
  predicate HarmlessSwitch(op: Op, p: Key) {
    && OnProfile(op, p) && Harmless(op) && !op.ModelsOp?
    && (op.GatewayOp? || op.DirectAggregateOp? ==> op.faults == {})
  }

  /** Such calls are a careful run, whatever the store and the interleaving. */
  lemma HarmlessSwitchesAreCareful(env: Env, store: Store, steps: seq<Lease.Step<Memory>>, whats: map<Lease.OpId, Op>,
                                   p: Key)
    requires Settled(env, store, steps, whats) && forall id :: id in whats ==> HarmlessSwitch(whats[id], p)
    ensures CarefulRun(env, p, store, Done(env, store, steps, whats))
  {
    PartsHave(env, store, steps, whats, op => HarmlessSwitch(op, p));
    HarmlessRunIsCareful(env, store, Done(env, store, steps, whats), p);
  }

  lemma HarmlessRunIsCareful(env: Env, store: Store, run: seq<Op>, p: Key)
    requires forall op :: op in run ==> HarmlessSwitch(op, p)
    ensures CarefulRun(env, p, store, run)
  {
    forall i | 0 <= i < |run| ensures Careful(env, p, Run(env, store, run[..i]), run[i]) {
      assert run[i] in run;
      HarmlessIsTidy(env, Run(env, store, run[..i]), run[i]);
    }
  }
}
