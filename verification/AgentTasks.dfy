/** Task registration for agent identities: concurrent callers, one lock per account, a second look under
    the lock and a cool-down after failures. The steps of all callers interleave. */
module AgentTasks {
  import opened Text
  import opened FailureTable

  type TaskId = nat
  type Caller = nat

  /** `task` is `None` when no task, or a blank one, is stored. */
  datatype Identity = Identity(task: Option<TaskId>, material: Digest)

  /** Where a call stands; from `Holding` to `Leaving` it has the account's lock. */
  datatype Pc =
    | Waiting
    | Holding
    | Checking
    | Registering
    | Asking
    | Registered(id: TaskId)
    | Persisted(id: TaskId)
    | Succeeded(id: TaskId)
    | Failing
    | Leaving(result: Option<TaskId>)
    | Done(result: Option<TaskId>)
  {
    predicate HasLock() {
      !Waiting? && !Done?
    }

    /** The stored task cannot be used and has not been replaced yet. */
    predicate NeedsTask() {
      Checking? || Registering? || Asking? || Registered?
    }

    /** The cool-down was checked and found over. */
    predicate Admitted() {
      Registering? || Asking? || Registered? || Persisted? || Succeeded?
    }
  }

  /** `failed` is the task id that the caller saw rejected. */
  datatype Call = Call(account: Account, failed: Option<TaskId>, pc: Pc)

  datatype Event =
    | Called(account: Account, at: real)
    | Failed(account: Account, at: real)

  /** `history` holds, for each account, the task found at the start and then every task persisted, and
      `stale` the task ids that callers reported. */
  datatype State = State(now: real, identities: map<Account, Identity>, locks: set<Account>, calls: map<Caller, Call>,
                         table: Table, history: map<Account, seq<Option<TaskId>>>, stale: map<Account, set<TaskId>>,
                         log: seq<Event>)

  function Init(identities: map<Account, Identity>, table: Table, now: real): State {
    State(now, identities, {}, map[], table, map a | a in identities :: [identities[a].task],
          map a | a in identities :: {}, [])
  }

  /** `task_can_be_reused`. */
  predicate Reusable(task: Option<TaskId>, failed: Option<TaskId>) {
    task.Some? && (failed.Some? ==> task != failed)
  }

  /** `ok` and `id` are what signing, storage and the server answer. `Elsewhere` is other code at work on
      the failure table. */
  datatype Step =
    | Arrive(c: Caller, account: Account, failed: Option<TaskId>, ok: bool)
    | Lock(c: Caller)
    | Reread(c: Caller, ok: bool)
    | Check(c: Caller)
    | Register(c: Caller)
    | Answer(c: Caller, id: Option<TaskId>)
    | Persist(c: Caller, ok: bool)
    | Authorize(c: Caller, ok: bool)
    | Clear(c: Caller)
    | Remember(c: Caller)
    | Unlock(c: Caller)
    | Tick(seconds: real)
    | Elsewhere(table: Table)

  /** The server never hands out an id that is known already. */
  predicate Fresh(s: State, a: Account, id: TaskId)
    requires a in s.history && a in s.stale
  {
    Some(id) !in s.history[a] && id !in s.stale[a]
  }

  /** Other code leaves the entries of task registrations alone, except that it prunes expired ones. */
  ghost predicate OtherCode(s: State, table: Table) {
    forall a ::
      var key := Key(a, TaskRegistration);
      (key in table ==> key in s.table && table[key] == s.table[key])
      && (key in s.table && Live(s.table[key], s.now) ==> key in table)
  }

  predicate Known(s: State, a: Account) {
    a in s.identities && a in s.history && a in s.stale
  }

  /** The call is at the place where it takes such a step. */
  predicate Ready(s: State, call: Call, step: Step)
    requires Known(s, call.account)
  {
    match step
    case Lock(_) => call.pc.Waiting? && call.account !in s.locks
    case Reread(_, _) => call.pc.Holding?
    case Check(_) => call.pc.Checking?
    case Register(_) => call.pc.Registering?
    case Answer(_, id) => call.pc.Asking? && (id.Some? ==> Fresh(s, call.account, id.value))
    case Persist(_, _) => call.pc.Registered?
    case Authorize(_, _) => call.pc.Persisted?
    case Clear(_) => call.pc.Succeeded?
    case Remember(_) => call.pc.Failing?
    case Unlock(_) => call.pc.Leaving?
    case _ => false
  }

  ghost predicate Enabled(s: State, step: Step) {
    if step.Arrive? then step.c !in s.calls
    else if step.Tick? then step.seconds > 0.0
    else if step.Elsewhere? then OtherCode(s, step.table)
    else step.c in s.calls && Known(s, s.calls[step.c].account) && Ready(s, s.calls[step.c], step)
  }

  function At(s: State, c: Caller, pc: Pc): State
    requires c in s.calls
  {
    s.(calls := s.calls[c := s.calls[c].(pc := pc)])
  }

  function FailedNow(s: State, c: Caller): State
    requires c in s.calls
  {
    At(s, c, Failing).(log := s.log + [Failed(s.calls[c].account, s.now)])
  }

  /** The first look, without the lock. */
  function Arrived(s: State, c: Caller, a: Account, failed: Option<TaskId>, ok: bool): State {
    if !Known(s, a) then s.(calls := s.calls[c := Call(a, failed, Done(None))])
    else
      var task := s.identities[a].task;
      var pc := if Reusable(task, failed) then Done(if ok then task else None) else Waiting;
      s.(calls := s.calls[c := Call(a, failed, pc)],
         stale := s.stale[a := s.stale[a] + (if failed.Some? then {failed.value} else {})])
  }

  function Stored(s: State, c: Caller, a: Account, id: TaskId): State
    requires c in s.calls && Known(s, a)
  {
    At(s, c, Persisted(id)).(identities := s.identities[a := s.identities[a].(task := Some(id))],
                             history := s.history[a := s.history[a] + [Some(id)]])
  }

  function Moved(s: State, c: Caller, step: Step): State
    requires c in s.calls && Known(s, s.calls[c].account) && Ready(s, s.calls[c], step)
  {
    var pc, a, failed := s.calls[c].pc, s.calls[c].account, s.calls[c].failed;
    var identity, key := s.identities[a], Key(a, TaskRegistration);
    match step
    case Lock(_) => At(s, c, Holding).(locks := s.locks + {a})
    case Reread(_, ok) =>
      At(s, c, if Reusable(identity.task, failed) then Leaving(if ok then identity.task else None) else Checking)
    case Check(_) =>
      var table := Pruned(s.table, s.now);
      At(s, c, if CoolingDown(table, key, identity.material) then Leaving(None) else Registering).(table := table)
    case Register(_) => At(s, c, Asking).(log := s.log + [Called(a, s.now)])
    case Answer(_, id) => if id.Some? then At(s, c, Registered(id.value)) else FailedNow(s, c)
    case Persist(_, ok) => if ok then Stored(s, c, a, pc.id) else FailedNow(s, c)
    case Authorize(_, ok) => if ok then At(s, c, Succeeded(pc.id)) else FailedNow(s, c)
    case Clear(_) => At(s, c, Leaving(Some(pc.id))).(table := Cleared(s.table, key, identity.material))
    case Remember(_) => At(s, c, Leaving(None)).(table := s.table[key := Failure(s.now, identity.material)])
    case Unlock(_) => At(s, c, Done(pc.result)).(locks := s.locks - {a})
  }

  ghost function Next(s: State, step: Step): State
    requires Enabled(s, step)
  {
    if step.Arrive? then Arrived(s, step.c, step.account, step.failed, step.ok)
    else if step.Tick? then s.(now := s.now + step.seconds)
    else if step.Elsewhere? then s.(table := step.table)
    else Moved(s, step.c, step)
  }

  ghost function Run(s: State, steps: seq<Step>): Option<State> {
    if steps == [] then Some(s)
    else
      var before, step := Run(s, steps[..|steps| - 1]), steps[|steps| - 1];
      if before.Some? && Enabled(before.value, step) then Some(Next(before.value, step)) else None
  }

  // ----- one caller at a time registers for an account -----

  ghost predicate LocksMatch(s: State) {
    && (forall c :: c in s.calls && s.calls[c].pc.HasLock() ==> s.calls[c].account in s.locks)
    && (forall c, d :: c in s.calls && d in s.calls && s.calls[c].pc.HasLock() && s.calls[d].pc.HasLock() ==>
          s.calls[c].account == s.calls[d].account ==> c == d)
  }

  /** Every task but the last one stored was missing or reported before it was replaced. */
  ghost predicate HistoryOf(history: seq<Option<TaskId>>, stale: set<TaskId>, task: Option<TaskId>) {
    && history != [] && history[|history| - 1] == task
    && (forall i, j :: 0 <= i < j < |history| ==> history[i] != history[j])
    && (forall i :: 0 < i < |history| ==> history[i].Some?)
    && (forall i :: 0 <= i < |history| - 1 && history[i].Some? ==> history[i].value in stale)
  }

  ghost predicate HistoryMatches(s: State) {
    && s.history.Keys == s.identities.Keys && s.stale.Keys == s.identities.Keys
    && (forall a :: a in s.identities ==> HistoryOf(s.history[a], s.stale[a], s.identities[a].task))
  }

  /** What a call knows where it stands. */
  ghost predicate CallMatches(s: State, call: Call) {
    var a, failed := call.account, call.failed;
    (Known(s, a) ==>
       && (failed.Some? ==> failed.value in s.stale[a])
       && (call.pc.NeedsTask() ==> !Reusable(s.identities[a].task, failed))
       && (call.pc.Registered? ==> Some(call.pc.id) !in s.history[a] && Some(call.pc.id) != failed)
       && (call.pc.Persisted? || call.pc.Succeeded? ==> Some(call.pc.id) in s.history[a] && Some(call.pc.id) != failed)
       && ((call.pc.Leaving? || call.pc.Done?) && call.pc.result.Some? ==>
           call.pc.result in s.history[a] && call.pc.result != failed))
    && (!Known(s, a) ==> call.pc == Done(None))
  }

  ghost predicate CallsMatch(s: State) {
    forall c :: c in s.calls ==> CallMatches(s, s.calls[c])
  }

  lemma CallKeepsLocks(s: State, t: State, c: Caller)
    requires LocksMatch(s) && t.locks == s.locks && c in t.calls && t.calls == s.calls[c := t.calls[c]]
    requires t.calls[c].pc.HasLock() ==>
        c in s.calls && s.calls[c].pc.HasLock() && s.calls[c].account == t.calls[c].account
    ensures LocksMatch(t)
  {
  }

  lemma TakingKeepsLocks(s: State, t: State, c: Caller)
    requires LocksMatch(s) && c in t.calls && t.calls == s.calls[c := t.calls[c]]
    requires t.calls[c].account !in s.locks && t.locks == s.locks + {t.calls[c].account}
    ensures LocksMatch(t)
  {
  }

  lemma GivingKeepsLocks(s: State, t: State, c: Caller)
    requires LocksMatch(s) && c in s.calls && c in t.calls && t.calls == s.calls[c := t.calls[c]]
    requires s.calls[c].pc.HasLock() && !t.calls[c].pc.HasLock() && t.locks == s.locks - {s.calls[c].account}
    ensures LocksMatch(t)
  {
  }

  lemma StepKeepsLocks(s: State, step: Step)
    requires LocksMatch(s) && Enabled(s, step)
    ensures LocksMatch(Next(s, step))
  {
    var t := Next(s, step);
    if step.Lock? {
      TakingKeepsLocks(s, t, step.c);
    } else if step.Unlock? {
      GivingKeepsLocks(s, t, step.c);
    } else if !step.Tick? && !step.Elsewhere? {
      CallKeepsLocks(s, t, step.c);
    }
  }

  // ----- what happens to the stored tasks -----

  /** Ids are only added to what is known of the account, and its task stays. */
  ghost predicate Grows(s: State, t: State) {
    && t.identities == s.identities && t.history == s.history && t.stale.Keys == s.stale.Keys
    && (forall a :: a in s.stale ==> s.stale[a] <= t.stale[a])
  }

  lemma GrowingKeepsHistory(s: State, t: State)
    requires HistoryMatches(s) && Grows(s, t)
    ensures HistoryMatches(t)
  {
    forall a | a in t.identities ensures HistoryOf(t.history[a], t.stale[a], t.identities[a].task) {
      assert a in s.stale.Keys;
    }
  }

  lemma HistoryExtends(history: seq<Option<TaskId>>, stale: set<TaskId>, task: Option<TaskId>, id: TaskId)
    requires HistoryOf(history, stale, task) && Some(id) !in history && (task.Some? ==> task.value in stale)
    ensures HistoryOf(history + [Some(id)], stale, Some(id))
  {
  }

  lemma StoringKeepsHistory(s: State, c: Caller, a: Account, id: TaskId)
    requires HistoryMatches(s) && c in s.calls && Known(s, a) && Some(id) !in s.history[a]
    requires s.identities[a].task.Some? ==> s.identities[a].task.value in s.stale[a]
    ensures HistoryMatches(Stored(s, c, a, id))
  {
    HistoryExtends(s.history[a], s.stale[a], s.identities[a].task, id);
  }

  lemma StepGrows(s: State, step: Step)
    requires Enabled(s, step) && !(step.Persist? && step.ok)
    ensures Grows(s, Next(s, step))
  {
    if step.Arrive? && Known(s, step.account) {
      assert s.stale.Keys + {step.account} == s.stale.Keys;
    }
  }

  lemma StepKeepsHistory(s: State, step: Step)
    requires HistoryMatches(s) && CallsMatch(s) && Enabled(s, step)
    ensures HistoryMatches(Next(s, step))
  {
    if step.Persist? && step.ok {
      var call := s.calls[step.c];
      assert CallMatches(s, call);
      StoringKeepsHistory(s, step.c, call.account, call.pc.id);
    } else {
      StepGrows(s, step);
      GrowingKeepsHistory(s, Next(s, step));
    }
  }

  lemma GrowingKeepsCall(s: State, t: State, call: Call)
    requires CallMatches(s, call) && Grows(s, t)
    ensures CallMatches(t, call)
  {
  }

  /** Another call never waits to replace the task that this one stores: it would need the same lock. */
  lemma StoringKeepsCall(s: State, c: Caller, a: Account, id: TaskId, d: Caller)
    requires LocksMatch(s) && Known(s, a) && c in s.calls && s.calls[c].pc.Registered? && s.calls[c].account == a
    requires d in s.calls && d != c && CallMatches(s, s.calls[d])
    ensures CallMatches(Stored(s, c, a, id), s.calls[d])
  {
  }

  lemma ArrivalMatches(s: State, c: Caller, a: Account, failed: Option<TaskId>, ok: bool)
    requires HistoryMatches(s) && c !in s.calls
    ensures CallMatches(Arrived(s, c, a, failed, ok), Arrived(s, c, a, failed, ok).calls[c])
  {
    assert a in s.identities ==> HistoryOf(s.history[a], s.stale[a], s.identities[a].task);
  }

  predicate Persists(step: Step) {
    step.Answer? || step.Persist? || step.Authorize? || step.Clear?
  }

  lemma LookMatches(s: State, c: Caller, step: Step)
    requires HistoryMatches(s) && CallsMatch(s) && Enabled(s, step) && c in s.calls && Known(s, s.calls[c].account)
    requires Ready(s, s.calls[c], step) && !Persists(step)
    ensures CallMatches(Moved(s, c, step), Moved(s, c, step).calls[c])
  {
    var a := s.calls[c].account;
    assert CallMatches(s, s.calls[c]);
    assert HistoryOf(s.history[a], s.stale[a], s.identities[a].task);
  }

  lemma PersistMatches(s: State, c: Caller, step: Step)
    requires CallsMatch(s) && Enabled(s, step) && c in s.calls && Known(s, s.calls[c].account)
    requires Ready(s, s.calls[c], step) && Persists(step)
    ensures CallMatches(Moved(s, c, step), Moved(s, c, step).calls[c])
  {
    assert CallMatches(s, s.calls[c]);
  }

  lemma OwnCallMatches(s: State, step: Step)
    requires HistoryMatches(s) && CallsMatch(s) && Enabled(s, step) && !step.Tick? && !step.Elsewhere?
    ensures CallMatches(Next(s, step), Next(s, step).calls[step.c])
  {
    if step.Arrive? {
      ArrivalMatches(s, step.c, step.account, step.failed, step.ok);
    } else if Persists(step) {
      PersistMatches(s, step.c, step);
    } else {
      LookMatches(s, step.c, step);
    }
  }

  lemma StepKeepsCalls(s: State, step: Step)
    requires LocksMatch(s) && HistoryMatches(s) && CallsMatch(s) && Enabled(s, step)
    ensures CallsMatch(Next(s, step))
  {
    var t := Next(s, step);
    forall d | d in t.calls ensures CallMatches(t, t.calls[d]) {
      if !step.Tick? && !step.Elsewhere? && d == step.c {
        OwnCallMatches(s, step);
      } else if step.Persist? && step.ok {
        StoringKeepsCall(s, step.c, s.calls[step.c].account, s.calls[step.c].pc.id, d);
      } else {
        StepGrows(s, step);
        GrowingKeepsCall(s, t, s.calls[d]);
      }
    }
  }

  // ----- the main results about tasks: every interleaving of callers -----

  lemma {:induction false} RunsMatch(identities: map<Account, Identity>, table: Table, now: real, steps: seq<Step>)
    requires Run(Init(identities, table, now), steps).Some?
    ensures var s := Run(Init(identities, table, now), steps).value;
            && LocksMatch(s) && HistoryMatches(s) && CallsMatch(s)
            && s.identities.Keys == identities.Keys
            && forall a :: a in identities ==>
              s.history[a][0] == identities[a].task && s.identities[a].material == identities[a].material
  {
    var s0 := Init(identities, table, now);
    if steps != [] {
      var before, step := Run(s0, steps[..|steps| - 1]).value, steps[|steps| - 1];
      RunsMatch(identities, table, now, steps[..|steps| - 1]);
      StepKeepsLocks(before, step);
      StepKeepsHistory(before, step);
      StepKeepsCalls(before, step);
      StepKeepsFirst(before, step);
    }
  }

  lemma StepKeepsFirst(s: State, step: Step)
    requires HistoryMatches(s) && Enabled(s, step)
    ensures var t := Next(s, step);
            && t.identities.Keys == s.identities.Keys && t.history.Keys == s.history.Keys
            && forall a :: a in s.identities ==> a in s.history && s.history[a] != [] && t.history[a] != []
                                                 && t.history[a][0] == s.history[a][0]
                                                   && t.identities[a].material == s.identities[a].material
  {
    var t := Next(s, step);
    if step.Persist? && step.ok {
      var a := s.calls[step.c].account;
      assert t.identities.Keys == s.identities.Keys + {a} && t.history.Keys == s.history.Keys + {a};
    } else {
      StepGrows(s, step);
    }
    forall a | a in s.identities ensures a in s.history && s.history[a] != [] {
      assert HistoryOf(s.history[a], s.stale[a], s.identities[a].task);
    }
  }

  lemma {:induction false} DistinctCount(h: seq<Option<TaskId>>, ids: set<TaskId>)
    requires forall i :: 0 <= i < |h| ==> h[i].Some? && h[i].value in ids
    requires forall i, j :: 0 <= i < j < |h| ==> h[i] != h[j]
    ensures |h| <= |ids|
  {
    if h != [] {
      var n := |h| - 1;
      DistinctCount(h[..n], ids - {h[n].value});
    }
  }

  /** However callers interleave, the tasks persisted for an account are at most as many as the distinct
      stale task ids that were reported, and one more if none was stored at the start. */
  lemma RegistrationsAreBounded(identities: map<Account, Identity>, table: Table, now: real, steps: seq<Step>,
                                a: Account)
    requires Run(Init(identities, table, now), steps).Some? && a in identities
    ensures var s := Run(Init(identities, table, now), steps).value;
            && Known(s, a) && |s.history[a]| >= 1
            && |s.history[a]| - 1 <= |s.stale[a]| + (if identities[a].task.None? then 1 else 0)
  {
    RunsMatch(identities, table, now, steps);
    var s := Run(Init(identities, table, now), steps).value;
    var h := s.history[a];
    assert HistoryOf(h, s.stale[a], s.identities[a].task);
    var replaced := h[..|h| - 1];
    if replaced != [] && h[0].None? {
      DistinctCount(replaced[1..], s.stale[a]);
    } else {
      DistinctCount(replaced, s.stale[a]);
    }
  }

  /** A caller that succeeds gets a task that was persisted, or stored at the start, and never the one that
      it reported as failed. */
  lemma SuccessIsAnotherTask(identities: map<Account, Identity>, table: Table, now: real, steps: seq<Step>, c: Caller)
    requires Run(Init(identities, table, now), steps).Some?
    requires c in Run(Init(identities, table, now), steps).value.calls
    requires Run(Init(identities, table, now), steps).value.calls[c].pc.Done?
    requires Run(Init(identities, table, now), steps).value.calls[c].pc.result.Some?
    ensures var s := Run(Init(identities, table, now), steps).value;
            var call := s.calls[c];
            && call.account in s.history && call.pc.result in s.history[call.account] && call.pc.result != call.failed
  {
    RunsMatch(identities, table, now, steps);
    var s := Run(Init(identities, table, now), steps).value;
    assert CallMatches(s, s.calls[c]);
  }
}
