/** Profile operations of many callers at once. Each takes the mutation lease, works in phases on disk
    workers, and may be cancelled by its caller at any moment; a worker that started keeps the lease. */
module MutationLease {
  import opened Text
  import opened ProfileStore
  import ProfileRuns

  type OpId = nat

  /** One step of a worker on the store; `L` is what an operation carries from phase to phase. */
  type Action<!L> = (Store, L) -> (Store, L)

  /** Who holds a counted reference to the guard of the lock. */
  datatype Ref = OfFuture | OfWorker

  datatype Future = Asking | Between(next: nat) | Awaiting(phase: nat) | Failing | Gone

  datatype Worker = NoWorker | Running(phase: nat, done: nat)

  /** `performed` lists the accesses the operation has made so far; `failed` says that a worker of it died. */
  datatype OpState<!L> = OpState(phases: seq<seq<Action<L>>>, start: L, local: L, future: Future, worker: Worker,
                                 performed: seq<Action<L>>, failed: bool)

  datatype State<!L> = State(store: Store, locked: bool, leases: map<OpId, set<Ref>>, ops: map<OpId, OpState<L>>,
                             order: seq<OpId>)

  function Init<L>(store: Store): State<L> {
    State(store, false, map[], map[], [])
  }

  datatype Step<!L> =
    | Ask(id: OpId, phases: seq<seq<Action<L>>>, start: L)
    | Grant(id: OpId)
    | StartPhase(id: OpId)
    | Act(id: OpId)
    | EndPhase(id: OpId)
    | WorkerDies(id: OpId)
    | Leave(id: OpId)

  /** The last reference that goes unlocks the mutex. */
  function DropRef<L>(s: State<L>, id: OpId, ref: Ref): State<L> {
    if id !in s.leases then s
    else if s.leases[id] - {ref} == {} then s.(leases := s.leases - {id}, locked := false)
    else s.(leases := s.leases[id := s.leases[id] - {ref}])
  }

  function With<L>(s: State<L>, id: OpId, op: OpState<L>): State<L> {
    s.(ops := s.ops[id := op])
  }

  /** `Leave` is the end of the future: a result, an error between two phases, or a cancellation. */
  predicate Enabled<L>(s: State<L>, step: Step<L>) {
    if step.Ask? then step.id !in s.ops
    else
      step.id in s.ops
      && var op := s.ops[step.id];
      match step
      case Ask(_, _, _) => true
      case Grant(_) => op.future.Asking? && !s.locked
      case StartPhase(id) => op.future.Between? && op.future.next < |op.phases| && id in s.leases
      case Act(_) => op.worker.Running? && op.worker.phase < |op.phases|
          && op.worker.done < |op.phases[op.worker.phase]|
      case EndPhase(_) => op.worker.Running? && op.worker.phase < |op.phases|
          && op.worker.done == |op.phases[op.worker.phase]|
      case WorkerDies(_) => op.worker.Running?
      case Leave(_) => !op.future.Gone?
  }

  /** The future, if its caller still wants it, goes on after its worker; a failed worker ends it. */
  function Resumed(future: Future, ok: bool): Future {
    if !future.Awaiting? then future else if ok then Between(future.phase + 1) else Failing
  }

  function Acted<L>(s: State<L>, id: OpId): State<L>
    requires Enabled(s, Act(id))
  {
    var op := s.ops[id];
    var action := op.phases[op.worker.phase][op.worker.done];
    var (store, local) := action(s.store, op.local);
    With(s.(store := store), id, op.(local := local, worker := Running(op.worker.phase, op.worker.done + 1),
                                     performed := op.performed + [action]))
  }

  function Next<L>(s: State<L>, step: Step<L>): State<L>
    requires Enabled(s, step)
  {
    match step
    case Ask(id, phases, start) => With(s, id, OpState(phases, start, start, Asking, NoWorker, [], false))
    case Grant(id) =>
      With(s, id, s.ops[id].(future := Between(0))).(locked := true, leases := s.leases[id := {OfFuture}],
                                                     order := s.order + [id])
    case StartPhase(id) =>
      var k := s.ops[id].future.next;
      With(s, id, s.ops[id].(future := Awaiting(k),
                             worker := Running(k, 0))).(leases := s.leases[id := s.leases[id] + {OfWorker}])
    case Act(id) => Acted(s, id)
    case EndPhase(id) =>
      With(DropRef(s, id, OfWorker), id, s.ops[id].(worker := NoWorker, future := Resumed(s.ops[id].future, true)))
    case WorkerDies(id) =>
      With(DropRef(s, id, OfWorker), id,
           s.ops[id].(worker := NoWorker, failed := true, future := Resumed(s.ops[id].future, false)))
    case Leave(id) =>
      With(DropRef(s, id, OfFuture), id, s.ops[id].(future := Gone))
  }

  function Run<L>(store: Store, steps: seq<Step<L>>): Option<State<L>> {
    if steps == [] then Some(Init(store))
    else
      var before, step := Run(store, steps[..|steps| - 1]), steps[|steps| - 1];
      if before.Some? && Enabled(before.value, step) then Some(Next(before.value, step)) else None
  }

  // ----- the lease -----

  predicate Held<L>(s: State<L>, id: OpId, ref: Ref) {
    id in s.leases && ref in s.leases[id]
  }

  predicate Refers<L>(op: OpState<L>, ref: Ref) {
    match ref
    case OfFuture => !op.future.Asking? && !op.future.Gone?
    case OfWorker => op.worker.Running?
  }

  predicate Holds<L>(s: State<L>, id: OpId, ref: Ref) {
    id in s.ops && Refers(s.ops[id], ref)
  }

  /** One operation at a time has the lease, from its grant until its future and its worker are done. */
  ghost predicate OneLease<L>(s: State<L>) {
    && (forall id :: id in s.leases ==> s.locked && id in s.ops && s.leases[id] != {})
    && (s.locked ==> exists id :: id in s.leases)
    && (forall a, b :: a in s.leases && b in s.leases ==> a == b)
    && (forall id, ref :: Held(s, id, ref) <==> Holds(s, id, ref))
  }

  /** A worker runs a phase of its operation; a future that is still there waits for it. */
  ghost predicate WorkersMatch<L>(s: State<L>) {
    forall id :: id in s.ops ==>
      var op := s.ops[id];
      && (op.worker.Running? ==> op.worker.phase < |op.phases| && op.worker.done <= |op.phases[op.worker.phase]|)
      && (op.worker.Running? ==> op.future.Gone? || op.future == Awaiting(op.worker.phase))
      && (op.future.Awaiting? ==> op.worker.Running?)
  }

  lemma LastReference<L>(s: State<L>, id: OpId, last: Ref)
    requires OneLease(s) && id in s.leases && s.leases[id] - {last} == {}
    ensures forall other, ref :: Holds(s, other, ref) ==> other == id && ref == last
  {
    forall other, ref | Holds(s, other, ref) ensures other == id && ref == last {
      assert Held(s, other, ref);
      assert ref in s.leases[id] - {last} || ref == last;
    }
  }

  lemma UpdateKeeps<L>(s: State<L>, store: Store, id: OpId, op: OpState<L>)
    requires OneLease(s)
    requires forall ref :: Refers(op, ref) <==> id in s.ops && Refers(s.ops[id], ref)
    ensures OneLease(With(s.(store := store), id, op))
  {
    var t := With(s.(store := store), id, op);
    forall other, ref ensures Held(t, other, ref) <==> Holds(t, other, ref) {
      assert Held(s, other, ref) <==> Holds(s, other, ref);
    }
  }

  lemma GrantKeeps<L>(s: State<L>, id: OpId, op: OpState<L>)
    requires OneLease(s) && !s.locked
    requires forall ref :: Refers(op, ref) <==> ref == OfFuture
    ensures OneLease(With(s, id, op).(locked := true, leases := s.leases[id := {OfFuture}], order := s.order + [id]))
  {
    var t := With(s, id, op).(locked := true, leases := s.leases[id := {OfFuture}], order := s.order + [id]);
    forall other, ref ensures Held(t, other, ref) <==> Holds(t, other, ref) {
      assert Held(s, other, ref) <==> Holds(s, other, ref);
    }
    assert id in t.leases;
  }

  lemma JoinKeeps<L>(s: State<L>, id: OpId, op: OpState<L>)
    requires OneLease(s) && id in s.leases && id in s.ops
    requires forall ref :: Refers(op, ref) <==> Refers(s.ops[id], ref) || ref == OfWorker
    ensures OneLease(With(s, id, op).(leases := s.leases[id := s.leases[id] + {OfWorker}]))
  {
    var t := With(s, id, op).(leases := s.leases[id := s.leases[id] + {OfWorker}]);
    forall other, ref ensures Held(t, other, ref) <==> Holds(t, other, ref) {
      assert Held(s, other, ref) <==> Holds(s, other, ref);
    }
    assert id in t.leases;
  }

  lemma DropKeeps<L>(s: State<L>, id: OpId, ref: Ref, op: OpState<L>)
    requires OneLease(s) && id in s.ops
    requires forall other :: Refers(op, other) <==> Refers(s.ops[id], other) && other != ref
    ensures OneLease(With(DropRef(s, id, ref), id, op))
  {
    var t := With(DropRef(s, id, ref), id, op);
    if id in s.leases && s.leases[id] - {ref} == {} {
      LastReference(s, id, ref);
      assert forall other :: other in s.leases ==> other == id;
    } else {
      assert s.leases.Keys == t.leases.Keys;
      assert s.locked ==> exists other :: other in s.leases.Keys;
    }
    forall other, r ensures Held(t, other, r) <==> Holds(t, other, r) {
      assert Held(s, other, r) <==> Holds(s, other, r);
    }
  }

  lemma StepKeepsLease<L>(s: State<L>, step: Step<L>)
    requires OneLease(s) && WorkersMatch(s) && Enabled(s, step)
    ensures OneLease(Next(s, step)) && WorkersMatch(Next(s, step))
  {
    StepKeepsWorkers(s, step);
    StepKeepsOneLease(s, step);
  }

  lemma StepKeepsWorkers<L>(s: State<L>, step: Step<L>)
    requires WorkersMatch(s) && Enabled(s, step)
    ensures WorkersMatch(Next(s, step))
  {
  }

  lemma StepKeepsOneLease<L>(s: State<L>, step: Step<L>)
    requires OneLease(s) && WorkersMatch(s) && Enabled(s, step)
    ensures OneLease(Next(s, step))
  {
    var t, id := Next(s, step), step.id;
    match step
    case Ask(_, _, _) => UpdateKeeps(s, t.store, id, t.ops[id]);
    case Grant(_) => GrantKeeps(s, id, t.ops[id]);
    case StartPhase(_) => JoinKeeps(s, id, t.ops[id]);
    case Act(_) => UpdateKeeps(s, t.store, id, t.ops[id]);
    case EndPhase(_) => DropKeeps(s, id, OfWorker, t.ops[id]);
    case WorkerDies(_) => DropKeeps(s, id, OfWorker, t.ops[id]);
    case Leave(_) => DropKeeps(s, id, OfFuture, t.ops[id]);
  }

  // ----- one operation at a time -----

  /** Only the operation that has the lease changes the store. */
  lemma OnlyHolderActs<L>(s: State<L>, step: Step<L>, id: OpId)
    requires OneLease(s) && Enabled(s, step) && id in s.leases && step != Act(id)
    ensures Next(s, step).store == s.store
  {
    assert step.Act? ==> Holds(s, step.id, OfWorker) && Held(s, step.id, OfWorker);
  }

  lemma {:induction false} RunsKeepLease<L>(store: Store, steps: seq<Step<L>>)
    requires Run(store, steps).Some?
    ensures OneLease(Run(store, steps).value) && WorkersMatch(Run(store, steps).value)
  {
    if steps != [] {
      RunsKeepLease(store, steps[..|steps| - 1]);
      StepKeepsLease(Run(store, steps[..|steps| - 1]).value, steps[|steps| - 1]);
    }
  }

  // ----- the interleaving equals a serial run -----

  function Replay<L>(store: Store, local: L, actions: seq<Action<L>>): (Store, L) {
    if actions == [] then (store, local)
    else
      var (s, l) := Replay(store, local, actions[..|actions| - 1]);
      (actions[|actions| - 1])(s, l)
  }

  /** The store after the operations ran one after the other, in the order in which they got the lease, each
      with the accesses it made. */
  function Serial<L>(store: Store, order: seq<OpId>, ops: map<OpId, OpState<L>>): Store
    requires forall i :: 0 <= i < |order| ==> order[i] in ops
  {
    if order == [] then store
    else
      var op := ops[order[|order| - 1]];
      Replay(Serial(store, order[..|order| - 1], ops), op.start, op.performed).0
  }

  /** Each granted operation is in the order once, and only those did anything. */
  ghost predicate OrderMatches<L>(s: State<L>) {
    && (forall i :: 0 <= i < |s.order| ==> s.order[i] in s.ops && !s.ops[s.order[i]].future.Asking?)
    && (forall i, j :: 0 <= i < j < |s.order| ==> s.order[i] != s.order[j])
    && (forall id :: id in s.leases ==> s.order != [] && s.order[|s.order| - 1] == id)
  }

  /** The store is that of the serial run; the operation at work has its own part of it in hand. */
  ghost predicate Serialized<L>(store: Store, s: State<L>)
    requires OrderMatches(s)
  {
    && s.store == Serial(store, s.order, s.ops)
    && (forall id :: id in s.leases && id in s.ops ==>
          s.ops[id].local
            == Replay(Serial(store, s.order[..|s.order| - 1], s.ops), s.ops[id].start, s.ops[id].performed).1)
    && (forall id :: id in s.ops && s.ops[id].future.Asking? ==>
        s.ops[id].performed == [] && s.ops[id].local == s.ops[id].start)
  }

  lemma {:induction false} SerialIgnoresOthers<L>(store: Store, order: seq<OpId>, ops: map<OpId, OpState<L>>,
                                                  changed: map<OpId, OpState<L>>)
    requires forall i :: 0 <= i < |order| ==> order[i] in ops && order[i] in changed
    requires forall i :: 0 <= i < |order| ==>
        changed[order[i]].start == ops[order[i]].start && changed[order[i]].performed == ops[order[i]].performed
    ensures Serial(store, order, changed) == Serial(store, order, ops)
  {
    if order != [] {
      SerialIgnoresOthers(store, order[..|order| - 1], ops, changed);
    }
  }

  /** Between the states no operation did or saw anything. */
  ghost predicate SameWork<L>(s: State<L>, t: State<L>) {
    && t.store == s.store && t.order == s.order
    && (forall id :: id in t.leases ==> id in s.leases)
    && (forall id :: id in s.ops ==>
          id in t.ops && t.ops[id].start == s.ops[id].start && t.ops[id].local == s.ops[id].local
          && t.ops[id].performed == s.ops[id].performed && (t.ops[id].future.Asking? ==> s.ops[id].future.Asking?))
    && (forall id :: id in t.ops && id !in s.ops ==> t.ops[id].performed == [] && t.ops[id].local == t.ops[id].start)
  }

  lemma QuietStep<L>(s: State<L>, step: Step<L>)
    requires Enabled(s, step) && !step.Act? && !step.Grant?
    ensures SameWork(s, Next(s, step))
  {
    match step
    case Ask(_, _, _) =>
    case StartPhase(_) =>
    case EndPhase(_) =>
    case WorkerDies(_) =>
    case Leave(_) =>
  }

  lemma QuietKeeps<L>(store: Store, s: State<L>, t: State<L>)
    requires OneLease(s) && OrderMatches(s) && Serialized(store, s) && SameWork(s, t)
    ensures OrderMatches(t) && Serialized(store, t)
  {
    SerialIgnoresOthers(store, s.order, s.ops, t.ops);
    if s.order != [] {
      SerialIgnoresOthers(store, s.order[..|s.order| - 1], s.ops, t.ops);
    }
  }

  lemma GrantKeepsSerialized<L>(store: Store, s: State<L>, id: OpId)
    requires OneLease(s) && OrderMatches(s) && Serialized(store, s) && Enabled(s, Grant(id))
    ensures OrderMatches(Next(s, Grant(id))) && Serialized(store, Next(s, Grant(id)))
  {
    var t, n := Next(s, Grant(id)), |s.order|;
    SerialIgnoresOthers(store, s.order, s.ops, t.ops);
    assert t.order[..n] == s.order && t.order[n] == id;
    assert Serial(store, t.order, t.ops) == s.store;
  }

  lemma ReplayExtends<L>(store: Store, local: L, actions: seq<Action<L>>, action: Action<L>)
    ensures var before := Replay(store, local, actions);
            Replay(store, local, actions + [action]) == action(before.0, before.1)
  {
    assert (actions + [action])[..|actions|] == actions;
  }

  lemma ActKeepsOrder<L>(s: State<L>, id: OpId)
    requires OneLease(s) && OrderMatches(s) && Enabled(s, Act(id))
    ensures OrderMatches(Acted(s, id)) && s.leases.Keys == {id} && s.order != [] && s.order[|s.order| - 1] == id
  {
    assert Holds(s, id, OfWorker);
    assert Held(s, id, OfWorker);
  }

  lemma ActKeepsSerialized<L>(store: Store, s: State<L>, id: OpId)
    requires OneLease(s) && OrderMatches(s) && Serialized(store, s) && Enabled(s, Act(id))
    ensures OrderMatches(Acted(s, id)) && Serialized(store, Acted(s, id))
  {
    ActKeepsOrder(s, id);
    var t, op, rest := Acted(s, id), s.ops[id], s.order[..|s.order| - 1];
    SerialIgnoresOthers(store, rest, s.ops, t.ops);
    ReplayExtends(Serial(store, rest, s.ops), op.start, op.performed, op.phases[op.worker.phase][op.worker.done]);
    assert Replay(Serial(store, rest, s.ops), op.start, op.performed) == (s.store, op.local);
  }

  lemma StepKeepsSerialized<L>(store: Store, s: State<L>, step: Step<L>)
    requires OneLease(s) && OrderMatches(s) && Serialized(store, s) && Enabled(s, step)
    ensures OrderMatches(Next(s, step)) && Serialized(store, Next(s, step))
  {
    match step
    case Act(id) => ActKeepsSerialized(store, s, id);
    case Grant(id) => GrantKeepsSerialized(store, s, id);
    case _ =>
      QuietStep(s, step);
      QuietKeeps(store, s, Next(s, step));
  }

  // ----- cancellation cuts an operation only between phases -----

  function Flat<L>(phases: seq<seq<Action<L>>>): seq<Action<L>> {
    if phases == [] then [] else Flat(phases[..|phases| - 1]) + phases[|phases| - 1]
  }

  ghost predicate Whole<L>(op: OpState<L>) {
    exists k :: 0 <= k <= |op.phases| && op.performed == Flat(op.phases[..k])
  }

  ghost predicate InPhase<L>(op: OpState<L>) {
    && (op.future.Asking? ==> op.performed == [] && !op.failed)
    && (op.future.Between? ==> op.future.next <= |op.phases| && op.performed == Flat(op.phases[..op.future.next]))
    && (op.worker.Running? ==>
          && op.worker.phase < |op.phases| && op.worker.done <= |op.phases[op.worker.phase]|
          && op.performed == Flat(op.phases[..op.worker.phase]) + op.phases[op.worker.phase][..op.worker.done])
    && (op.worker.NoWorker? && !op.failed ==> Whole(op))
  }

  ghost predicate AllInPhase<L>(s: State<L>) {
    forall id :: id in s.ops ==> InPhase(s.ops[id])
  }

  lemma OwnPhase<L>(s: State<L>, step: Step<L>)
    requires WorkersMatch(s) && Enabled(s, step) && !step.Ask? && InPhase(s.ops[step.id])
    ensures InPhase(Next(s, step).ops[step.id])
  {
    var id, op := step.id, Next(s, step).ops[step.id];
    match step
    case Grant(_) => assert op.performed == Flat(op.phases[..0]);
    case StartPhase(_) => assert op.phases[op.worker.phase][..0] == [];
    case Act(_) =>
      var k, i := op.worker.phase, op.worker.done - 1;
      assert op.phases[k][..i + 1] == op.phases[k][..i] + [op.phases[k][i]];
    case EndPhase(_) =>
      var k := s.ops[id].worker.phase;
      assert op.phases[..k + 1][..k] == op.phases[..k];
      assert op.phases[k][..|op.phases[k]|] == op.phases[k];
      assert op.performed == Flat(op.phases[..k + 1]);
    case WorkerDies(_) =>
    case Leave(_) =>
  }

  lemma StepKeepsPhases<L>(s: State<L>, step: Step<L>)
    requires WorkersMatch(s) && AllInPhase(s) && Enabled(s, step)
    ensures AllInPhase(Next(s, step))
  {
    var t, id := Next(s, step), step.id;
    forall other | other in t.ops ensures InPhase(t.ops[other]) {
      if other != id {
        assert InPhase(s.ops[other]);
      } else if step.Ask? {
        assert t.ops[id].performed == Flat(t.ops[id].phases[..0]);
      } else {
        OwnPhase(s, step);
      }
    }
  }

  // ----- the main results: every interleaving of callers, workers and cancellations -----

  lemma {:induction false} RunsAreSerialized<L>(store: Store, steps: seq<Step<L>>)
    requires Run(store, steps).Some?
    ensures OrderMatches(Run(store, steps).value) && Serialized(store, Run(store, steps).value)
    ensures AllInPhase(Run(store, steps).value)
  {
    if steps != [] {
      var before, step := Run(store, steps[..|steps| - 1]).value, steps[|steps| - 1];
      RunsAreSerialized(store, steps[..|steps| - 1]);
      RunsKeepLease(store, steps[..|steps| - 1]);
      StepKeepsSerialized(store, before, step);
      StepKeepsPhases(before, step);
    }
  }

  /** Whatever the interleaving, the store is what the operations leave that run one after the other in the
      order of their leases; each contributes a prefix of its accesses, whole phases unless a worker died or
      is still at work. */
  lemma InterleavingIsSerial<L>(store: Store, steps: seq<Step<L>>)
    requires Run(store, steps).Some?
    ensures var s := Run(store, steps).value;
            && OrderMatches(s) && s.store == Serial(store, s.order, s.ops)
            && forall id :: id in s.ops && s.ops[id].worker.NoWorker? && !s.ops[id].failed ==> Whole(s.ops[id])
  {
    RunsAreSerialized(store, steps);
    var s := Run(store, steps).value;
    assert forall id :: id in s.ops ==> InPhase(s.ops[id]);
  }

  /** While the worker of an operation runs, even one whose caller is gone, no other operation gets the lease
      and no other worker runs. */
  lemma WorkerKeepsLease<L>(store: Store, steps: seq<Step<L>>, id: OpId)
    requires Run(store, steps).Some? && id in Run(store, steps).value.ops
    requires Run(store, steps).value.ops[id].worker.Running?
    ensures var s := Run(store, steps).value;
            && s.locked && s.leases.Keys == {id}
            && (forall other :: other in s.ops ==> !Enabled(s, Grant(other)))
            && (forall other :: other in s.ops && s.ops[other].worker.Running? ==> other == id)
  {
    var s := Run(store, steps).value;
    RunsKeepLease(store, steps);
    assert Holds(s, id, OfWorker);
    assert Held(s, id, OfWorker);
    assert forall other :: Holds(s, other, OfWorker) <==> Held(s, other, OfWorker);
    forall other | other in s.ops && s.ops[other].worker.Running? ensures other == id {
      assert Holds(s, other, OfWorker);
    }
  }

  /** A cancelled or finished operation leaves the lock free: it is taken only while some future or worker
      of a granted operation is left. */
  lemma LockIsReleased<L>(store: Store, steps: seq<Step<L>>)
    requires Run(store, steps).Some?
    ensures var s := Run(store, steps).value;
            s.locked <==> exists id, ref :: Holds(s, id, ref)
  {
    var s := Run(store, steps).value;
    RunsKeepLease(store, steps);
    if s.locked {
      var id :| id in s.leases;
      var ref :| ref in s.leases[id];
      assert Held(s, id, ref);
      assert Holds(s, id, ref);
    }
    if id, ref :| Holds(s, id, ref) {
      assert Held(s, id, ref);
    }
  }

  lemma StepKeepsGranted<L>(s: State<L>, step: Step<L>, id: OpId)
    requires Enabled(s, step) && id in s.ops && !s.ops[id].future.Asking?
    ensures var t := Next(s, step);
            id in t.ops && !t.ops[id].future.Asking? && |s.ops[id].performed| <= |t.ops[id].performed|
  {
  }

  lemma {:induction false} GrantedForGood<L>(store: Store, steps: seq<Step<L>>, i: nat, id: OpId)
    requires i <= |steps| && Run(store, steps).Some? && Run(store, steps[..i]).Some?
    requires id in Run(store, steps[..i]).value.ops && !Run(store, steps[..i]).value.ops[id].future.Asking?
    ensures var s := Run(store, steps).value;
            && id in s.ops && !s.ops[id].future.Asking?
            && |Run(store, steps[..i]).value.ops[id].performed| <= |s.ops[id].performed|
  {
    if i == |steps| {
      assert steps[..i] == steps;
    } else {
      var shorter := steps[..|steps| - 1];
      assert shorter[..i] == steps[..i];
      GrantedForGood(store, shorter, i, id);
      StepKeepsGranted(Run(store, shorter).value, steps[|steps| - 1], id);
    }
  }

  lemma LeaseIsGranted<L>(s: State<L>, id: OpId)
    requires OneLease(s) && id in s.leases
    ensures id in s.ops && (s.ops[id].future.Asking? ==> s.ops[id].worker.Running?)
  {
    var ref :| ref in s.leases[id];
    assert Held(s, id, ref);
    assert Holds(s, id, ref);
  }

  lemma LeaseIsOlder<L>(s: State<L>, step: Step<L>, id: OpId)
    requires Enabled(s, step) && step != Grant(id) && id in Next(s, step).leases
    ensures id in s.leases
  {
  }

  /** No lost update: as long as an operation has the lease, the store changes only by its own accesses. So
      what its first phase read is still there, byte for byte, when its last phase writes. */
  lemma {:induction false} NoLostUpdate<L>(store: Store, steps: seq<Step<L>>, i: nat, id: OpId)
    requires i <= |steps| && Run(store, steps).Some? && Run(store, steps[..i]).Some?
    requires id in Run(store, steps[..i]).value.leases && id in Run(store, steps).value.leases
    requires id in Run(store, steps[..i]).value.ops && id in Run(store, steps).value.ops
    requires |Run(store, steps[..i]).value.ops[id].performed| == |Run(store, steps).value.ops[id].performed|
    ensures Run(store, steps).value.store == Run(store, steps[..i]).value.store
  {
    if i == |steps| {
      assert steps[..i] == steps;
    } else {
      var shorter, step := steps[..|steps| - 1], steps[|steps| - 1];
      var first, before := Run(store, steps[..i]).value, Run(store, shorter).value;
      assert shorter[..i] == steps[..i];
      RunsKeepLease(store, steps[..i]);
      RunsKeepLease(store, shorter);
      LeaseIsGranted(first, id);
      GrantedForGood(store, shorter, i, id);
      StepKeepsGranted(before, step, id);
      LeaseIsOlder(before, step, id);
      OnlyHolderActs(before, step, id);
      NoLostUpdate(store, shorter, i, id);
    }
  }

  /** The accesses of an operation amount to one of the profile operations, from any store. */
  ghost predicate Implements<L>(env: Env, op: OpState<L>, what: ProfileRuns.Op) {
    forall store :: Replay(store, op.start, op.performed).0 == ProfileRuns.Perform(env, store, what)
  }

  /** So the results about runs of profile operations are results about every interleaving of them. */
  lemma {:induction false} InterleavingIsARun<L>(env: Env, store: Store, order: seq<OpId>, ops: map<OpId, OpState<L>>,
                                                 run: seq<ProfileRuns.Op>)
    requires |run| == |order|
    requires forall i :: 0 <= i < |order| ==> order[i] in ops && Implements(env, ops[order[i]], run[i])
    ensures Serial(store, order, ops) == ProfileRuns.Run(env, store, run)
  {
    if order != [] {
      var n := |order| - 1;
      InterleavingIsARun(env, store, order[..n], ops, run[..n]);
      assert Implements(env, ops[order[n]], run[n]);
    }
  }
}
