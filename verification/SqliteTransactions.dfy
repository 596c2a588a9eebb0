/** Transactions over one shared SQLite handle: threads that use clones of a `Connection`, and
    `Transaction` values that may be used from any thread. The steps of all threads interleave. */
module SqliteTransactions {
  import opened Text

  type Thread = nat
  type TxId = nat

  /** The counted references to a handle that a transaction shares. */
  datatype Ref = OfTransaction | OfSlot | OfCall(thread: Thread)

  /** What a call that cloned the shared handle is for: a call on the connection, or one on the
      transaction itself. */
  datatype Job = Query | TxQuery | Commit | Rollback | Release

  datatype Plan = Statement | Begin | GiveBack

  /** Where a thread stands between its atomic steps. */
  datatype Pc =
    | Outside
    | AwaitPool(plan: Plan)
    | Pooled(plan: Plan)
    | Begun(tx: TxId)
    | Cloned(tx: TxId, job: Job)
    | Locked(tx: TxId, job: Job)
    | Leaving(tx: TxId, job: Job, ok: bool)
    | Ended(tx: TxId)
    | Cleared(tx: TxId)

  datatype Active = Active(owner: Thread, tx: TxId)

  /** Who may use a `Transaction` value: the thread that still builds it, nobody at the moment, a thread
      inside one of its methods (at the end of which SQLite's transaction is over, the slot is cleared and the
      handle let go), or nobody any more. */
  datatype Stage =
    | Fresh(user: Thread)
    | Idle
    | Used(user: Thread)
    | Over(user: Thread)
    | Dismissed(user: Thread)
    | Releasing(user: Thread)
    | Closed
  {
    /** The `connection` field is still there. */
    predicate Connected() {
      !Releasing? && !Closed?
    }

    /** From its publication until its end the slot names the transaction. */
    predicate Published() {
      Idle? || Used? || Over?
    }

    /** Between BEGIN and the last COMMIT or ROLLBACK. */
    predicate InWindow() {
      Fresh? || Idle? || Used?
    }
  }

  datatype Transaction = Transaction(owner: Thread, stage: Stage)

  datatype Event =
    | Began(tx: TxId, owner: Thread)
    | Ran(thread: Thread, via: Option<TxId>, own: bool)
    | CommitTried(tx: TxId, ok: bool)
    | RollbackTried(tx: TxId, ok: bool)
    | Returned(tx: TxId)

  /** `permits` counts the handles in the pool; `raw` holds the threads that took one out; `refs` counts the
      references to handles that were put behind a mutex; `open` says whether SQLite is in a transaction. */
  datatype State = State(permits: nat, raw: set<Thread>, refs: map<TxId, set<Ref>>, locks: set<TxId>,
                         slot: Option<Active>, txs: map<TxId, Transaction>, pcs: map<Thread, Pc>,
                         log: seq<Event>, open: bool)

  const Init := State(1, {}, map[], {}, None, map[], map[], [], false)

  function PcOf(s: State, th: Thread): Pc {
    if th in s.pcs then s.pcs[th] else Outside
  }

  function At(s: State, th: Thread, pc: Pc): State {
    s.(pcs := s.pcs[th := pc])
  }

  predicate OwnsSlot(s: State, th: Thread) {
    s.slot.Some? && s.slot.value.owner == th
  }

  /** Dropping the last reference drops the pooled connection, which returns it. */
  function DropRef(s: State, tx: TxId, ref: Ref): State
    requires tx in s.refs
  {
    if s.refs[tx] - {ref} == {} then s.(refs := s.refs - {tx}, permits := s.permits + 1, log := s.log + [Returned(tx)])
    else s.(refs := s.refs[tx := s.refs[tx] - {ref}])
  }

  function AddRef(s: State, tx: TxId, ref: Ref): State
    requires tx in s.refs
  {
    s.(refs := s.refs[tx := s.refs[tx] + {ref}])
  }

  // ----- the steps -----

  /** `ok` and `open` are what SQLite answers and the transaction state that it is left in; an error may end
      SQLite's transaction by itself. */
  datatype Step =
    | CallConnection(th: Thread)
    | CallBegin(th: Thread)
    | CallTransaction(th: Thread, tx: TxId, job: Job)
    | Acquire(th: Thread)
    | RunOnPool(th: Thread, open: bool)
    | GiveBackHandle(th: Thread, again: bool)
    | BeginWorks(th: Thread, tx: TxId)
    | BeginFails(th: Thread)
    | Publish(th: Thread)
    | Lock(th: Thread)
    | RunLocked(th: Thread, open: bool)
    | TryCommit(th: Thread, ok: bool, open: bool)
    | TryRollback(th: Thread, ok: bool, open: bool)
    | Unlock(th: Thread)
    | Leave(th: Thread)
    | ClearSlot(th: Thread)
    | TakeConnection(th: Thread)

  /** The references that a step reads must still be alive. Rust's types give that; `NeverStuck` below shows
      that no step ever waits for it. */
  predicate Live(s: State, tx: TxId) {
    tx in s.refs && tx in s.txs
  }

  predicate SlotHolds(s: State, tx: TxId) {
    s.slot.Some? && s.slot.value.tx == tx
  }

  predicate Enabled(s: State, step: Step) {
    var pc := PcOf(s, step.th);
    match step
    case CallConnection(th) => pc.Outside? && (OwnsSlot(s, th) ==> Live(s, s.slot.value.tx))
    case CallBegin(th) => pc.Outside? && (OwnsSlot(s, th) ==> Live(s, s.slot.value.tx))
    case CallTransaction(_, tx, job) => pc.Outside? && Live(s, tx) && s.txs[tx].stage.Idle?
        && job in {TxQuery, Commit, Rollback}
    case Acquire(_) => pc.AwaitPool? && s.permits > 0
    case RunOnPool(_, open) => pc == Pooled(Statement) && (open ==> s.open)
    case GiveBackHandle(_, _) => pc == Pooled(GiveBack)
    case BeginWorks(_, tx) => pc == Pooled(Begin) && !s.open && tx !in s.txs && tx !in s.refs
    case BeginFails(_) => pc == Pooled(Begin)
    case Publish(_) => pc.Begun? && Live(s, pc.tx)
    case Lock(_) => pc.Cloned? && pc.tx !in s.locks
    case RunLocked(_, open) => pc.Locked? && pc.job in {Query, TxQuery} && (open ==> s.open)
    case TryCommit(_, ok, open) => pc.Locked? && pc.tx in s.txs && pc.job.Commit? && (open ==> s.open && !ok)
    case TryRollback(_, ok, open) => pc.Locked? && pc.tx in s.txs && pc.job.Rollback? && (open ==> s.open && !ok)
    case Unlock(_) => pc.Locked? && pc.job in {Query, TxQuery, Release}
    case Leave(_) => pc.Leaving? && Live(s, pc.tx)
    case ClearSlot(_) => pc.Ended? && Live(s, pc.tx)
    case TakeConnection(_) => pc.Cleared? && Live(s, pc.tx)
  }

  function Moved(s: State, tx: TxId, stage: Stage): State
    requires tx in s.txs
  {
    s.(txs := s.txs[tx := s.txs[tx].(stage := stage)])
  }

  function Logged(s: State, event: Event): State {
    s.(log := s.log + [event])
  }

  /** `release_connection`: the transaction's own reference moves into the future that drops it. */
  function TakenForRelease(s: State, th: Thread, tx: TxId): State
    requires Live(s, tx)
  {
    At(s, th, Cloned(tx, Release)).(refs := s.refs[tx := s.refs[tx] - {OfTransaction} + {OfCall(th)}],
                                    txs := s.txs[tx := s.txs[tx].(stage := Releasing(th))])
  }

  /** A call on a shared handle clones the reference first. */
  function Joined(s: State, th: Thread, tx: TxId, pc: Pc, stage: Stage): State
    requires Live(s, tx)
  {
    At(Moved(AddRef(s, tx, OfCall(th)), tx, stage), th, pc)
  }

  /** The handle that ran BEGIN goes behind a mutex that only the new transaction refers to. */
  function Started(s: State, th: Thread, tx: TxId): State {
    At(s, th, Begun(tx)).(raw := s.raw - {th}, refs := s.refs[tx := {OfTransaction}],
                          txs := s.txs[tx := Transaction(th, Fresh(th))])
  }

  function StageAfter(stage: Stage, job: Job): Stage {
    match job
    case TxQuery => Idle
    case Release => Closed
    case _ => stage
  }

  function PcAfter(tx: TxId, job: Job): Pc {
    if job in {Commit, Rollback} then Ended(tx) else Outside
  }

  /** A failed COMMIT is followed by a ROLLBACK, whatever that answers. */
  function AfterCall(s: State, th: Thread, pc: Pc): State
    requires pc.Leaving? && Live(s, pc.tx)
  {
    if pc.job.Commit? && !pc.ok then At(s, th, Cloned(pc.tx, Rollback))
    else At(Moved(DropRef(s, pc.tx, OfCall(th)), pc.tx, StageAfter(s.txs[pc.tx].stage, pc.job)), th,
            PcAfter(pc.tx, pc.job))
  }

  /** `clear_active_transaction`: only the transaction's own entry is removed. */
  function SlotCleared(s: State, tx: TxId): State
    requires Live(s, tx)
  {
    if SlotHolds(s, tx) && s.slot.value.owner == s.txs[tx].owner && s.txs[tx].stage.Connected()
    then DropRef(s, tx, OfSlot).(slot := None)
    else s
  }

  function Published(s: State, th: Thread, tx: TxId): State
    requires Live(s, tx)
  {
    if s.slot.Some? then TakenForRelease(s, th, tx)
    else Moved(At(AddRef(s, tx, OfSlot), th, Outside), tx, Idle).(slot := Some(Active(th, tx)))
  }

  function Next(s: State, step: Step): State
    requires Enabled(s, step)
  {
    var th, pc := step.th, PcOf(s, step.th);
    match step
    case CallConnection(_) =>
      if OwnsSlot(s, th)
        then Joined(s, th, s.slot.value.tx, Cloned(s.slot.value.tx, Query), s.txs[s.slot.value.tx].stage)
      else At(s, th, AwaitPool(Statement))
    case CallBegin(_) =>
      // The check clones the handle; the refusal drops that clone.
      if OwnsSlot(s, th)
        then Joined(s, th, s.slot.value.tx, Leaving(s.slot.value.tx, Query, false), s.txs[s.slot.value.tx].stage)
      else At(s, th, AwaitPool(Begin))
    case CallTransaction(_, tx, job) => Joined(s, th, tx, Cloned(tx, job), Used(th))
    case Acquire(_) => At(s, th, Pooled(pc.plan)).(permits := s.permits - 1, raw := s.raw + {th})
    case RunOnPool(_, open) => Logged(At(s, th, Pooled(GiveBack)), Ran(th, None, false)).(open := open)
    case GiveBackHandle(_, again) =>
      At(s, th, if again then AwaitPool(Statement) else Outside).(permits := s.permits + 1, raw := s.raw - {th})
    case BeginWorks(_, tx) => Logged(Started(s, th, tx), Began(tx, th)).(open := true)
    case BeginFails(_) => At(s, th, Pooled(GiveBack))
    case Publish(_) => Published(s, th, pc.tx)
    case Lock(_) => At(s, th, Locked(pc.tx, pc.job)).(locks := s.locks + {pc.tx})
    case RunLocked(_, open) => Logged(s, Ran(th, Some(pc.tx), pc.job.TxQuery?)).(open := open)
    case TryCommit(_, ok, open) => EndTried(s, th, pc, ok, ok, CommitTried(pc.tx, ok)).(open := open)
    case TryRollback(_, ok, open) => EndTried(s, th, pc, ok, true, RollbackTried(pc.tx, ok)).(open := open)
    case Unlock(_) => Unlocked(s, th, pc, true)
    case Leave(_) => AfterCall(s, th, pc)
    case ClearSlot(_) => At(Moved(SlotCleared(s, pc.tx), pc.tx, Dismissed(th)), th, Cleared(pc.tx))
    case TakeConnection(_) => TakenForRelease(s, th, pc.tx)
  }

  function Unlocked(s: State, th: Thread, pc: Pc, ok: bool): State
    requires pc.Locked?
  {
    At(s, th, Leaving(pc.tx, pc.job, ok)).(locks := s.locks - {pc.tx})
  }

  function EndTried(s: State, th: Thread, pc: Pc, ok: bool, over: bool, event: Event): State
    requires pc.Locked? && pc.tx in s.txs
  {
    Logged(Moved(Unlocked(s, th, pc, ok), pc.tx, if over then Over(th) else s.txs[pc.tx].stage), event)
  }

  /** Every interleaving is a sequence of steps that were enabled one after the other. */
  function Run(steps: seq<Step>): Option<State> {
    if steps == [] then Some(Init)
    else
      var before, step := Run(steps[..|steps| - 1]), steps[|steps| - 1];
      if before.Some? && Enabled(before.value, step) then Some(Next(before.value, step)) else None
  }

  // ----- what holds after every step -----

  /** The pool's one handle is in the pool, or with one thread, or behind one mutex. */
  ghost predicate OneHandle(s: State) {
    && s.permits <= 1
    && (s.permits == 1 ==> s.raw == {})
    && (forall tx :: tx in s.refs ==> s.permits == 0 && s.raw == {})
    && (forall a, b :: a in s.raw && b in s.raw ==> a == b)
    && (forall a, b :: a in s.refs && b in s.refs ==> a == b)
  }

  predicate InCall(pc: Pc, tx: TxId) {
    (pc.Cloned? || pc.Locked? || pc.Leaving?) && pc.tx == tx
  }

  predicate Held(s: State, tx: TxId, ref: Ref) {
    tx in s.refs && ref in s.refs[tx]
  }

  /** Who ought to hold a reference to the transaction's handle. */
  predicate Holds(s: State, tx: TxId, ref: Ref) {
    match ref
    case OfTransaction => tx in s.txs && s.txs[tx].stage.Connected()
    case OfSlot => SlotHolds(s, tx)
    case OfCall(th) => InCall(PcOf(s, th), tx)
  }

  /** Every reference has its holder, and every holder its reference. */
  ghost predicate RefsMatch(s: State) {
    && (forall tx :: tx in s.refs ==> tx in s.txs && s.refs[tx] != {})
    && (forall tx, ref :: Held(s, tx, ref) <==> Holds(s, tx, ref))
  }

  ghost predicate ThreadsMatch(s: State) {
    && (forall th :: th in s.raw <==> PcOf(s, th).Pooled?)
    && (forall th :: PcOf(s, th).Locked? ==> PcOf(s, th).tx in s.locks)
    && (forall a, b :: PcOf(s, a).Locked? && PcOf(s, b).Locked? && PcOf(s, a).tx == PcOf(s, b).tx ==> a == b)
    && (forall th :: OwnsSlot(s, th) ==> !PcOf(s, th).AwaitPool? && !PcOf(s, th).Pooled? && !PcOf(s, th).Begun?)
  }

  /** The stage of a transaction that a thread builds or works on. */
  function StageAt(pc: Pc, th: Thread): Option<Stage> {
    match pc
    case Begun(_) => Some(Fresh(th))
    case Ended(_) => Some(Over(th))
    case Cleared(_) => Some(Dismissed(th))
    case Cloned(_, job) => StageIn(job, th)
    case Locked(_, job) => StageIn(job, th)
    case Leaving(_, job, ok) => if job.Rollback? || (job.Commit? && ok) then Some(Over(th)) else StageIn(job, th)
    case _ => None
  }

  function StageIn(job: Job, th: Thread): Option<Stage> {
    match job
    case Query => None
    case Release => Some(Releasing(th))
    case _ => Some(Used(th))
  }

  /** A transaction is used by one thread at a time; besides, the thread that began it uses its handle. */
  ghost predicate StagesMatch(s: State) {
    && (forall th :: StageAt(PcOf(s, th), th).Some? ==>
          PcOf(s, th).tx in s.txs && s.txs[PcOf(s, th).tx].stage == StageAt(PcOf(s, th), th).value)
    && (forall th, tx :: InCall(PcOf(s, th), tx) && PcOf(s, th).job.Query? ==> tx in s.txs && s.txs[tx].owner == th)
  }

  ghost predicate SlotMatches(s: State) {
    && (forall tx :: tx in s.txs && s.txs[tx].stage.Published() ==> s.slot == Some(Active(s.txs[tx].owner, tx)))
    && (s.slot.Some? ==>
          && s.slot.value.tx in s.txs
          && s.txs[s.slot.value.tx] == Transaction(s.slot.value.owner, s.txs[s.slot.value.tx].stage)
          && s.txs[s.slot.value.tx].stage.Published())
    && (forall th :: PcOf(s, th).Begun? && PcOf(s, th).tx in s.txs ==> s.txs[PcOf(s, th).tx].owner == th)
  }

  ghost predicate Consistent(s: State) {
    OneHandle(s) && RefsMatch(s) && ThreadsMatch(s) && StagesMatch(s) && SlotMatches(s)
  }

  // Each lemma below takes one effect of the steps; in each only the stepping thread's place and the
  // entries of one transaction change.

  lemma PlaceKeeps(s: State, th: Thread, pc: Pc)
    requires Consistent(s)
    requires PcOf(s, th).Outside? || PcOf(s, th).Pooled?
    requires pc.Pooled? <==> PcOf(s, th).Pooled?
    requires pc.Outside? || pc.Pooled? || (pc.AwaitPool? && !OwnsSlot(s, th))
    ensures Consistent(At(s, th, pc))
  {
    var t := At(s, th, pc);
    forall other | other != th ensures PcOf(t, other) == PcOf(s, other) {}
    forall tx, ref ensures Held(t, tx, ref) <==> Holds(t, tx, ref) {
      assert Held(s, tx, ref) <==> Holds(s, tx, ref);
    }
  }

  lemma AcquireKeeps(s: State, th: Thread, plan: Plan)
    requires Consistent(s)
    requires PcOf(s, th).AwaitPool? && s.permits > 0
    ensures Consistent(At(s, th, Pooled(plan)).(permits := s.permits - 1, raw := s.raw + {th}))
  {
    var t := At(s, th, Pooled(plan)).(permits := s.permits - 1, raw := s.raw + {th});
    forall other | other != th ensures PcOf(t, other) == PcOf(s, other) {}
    forall tx, ref ensures Held(t, tx, ref) <==> Holds(t, tx, ref) {
      assert Held(s, tx, ref) <==> Holds(s, tx, ref);
    }
  }

  lemma GiveBackKeeps(s: State, th: Thread, pc: Pc)
    requires Consistent(s)
    requires PcOf(s, th).Pooled? && (pc.Outside? || pc.AwaitPool?)
    ensures Consistent(At(s, th, pc).(permits := s.permits + 1, raw := s.raw - {th}))
  {
    var t := At(s, th, pc).(permits := s.permits + 1, raw := s.raw - {th});
    forall other | other != th ensures PcOf(t, other) == PcOf(s, other) {}
    forall tx, ref ensures Held(t, tx, ref) <==> Holds(t, tx, ref) {
      assert Held(s, tx, ref) <==> Holds(s, tx, ref);
    }
  }

  lemma StartedKeeps(s: State, th: Thread, tx: TxId)
    requires Consistent(s)
    requires PcOf(s, th).Pooled? && tx !in s.txs && tx !in s.refs
    ensures Consistent(Started(s, th, tx))
  {
    var t := Started(s, th, tx);
    forall other | other != th ensures PcOf(t, other) == PcOf(s, other) {}
    forall tx, ref ensures Held(t, tx, ref) <==> Holds(t, tx, ref) {
      assert Held(s, tx, ref) <==> Holds(s, tx, ref);
    }
  }

  lemma JoinedRefs(s: State, th: Thread, tx: TxId, pc: Pc, stage: Stage)
    requires Consistent(s)
    requires PcOf(s, th).Outside? && Live(s, tx) && (pc.Cloned? || pc.Leaving?) && pc.tx == tx
    requires pc.job.Query? ==> s.txs[tx].owner == th && stage == s.txs[tx].stage
    requires !pc.job.Query? ==> s.txs[tx].stage.Idle? && stage == Used(th) && StageAt(pc, th) == Some(stage)
    ensures OneHandle(Joined(s, th, tx, pc, stage))
    ensures RefsMatch(Joined(s, th, tx, pc, stage))
  {
    var t := Joined(s, th, tx, pc, stage);
    forall other | other != th ensures PcOf(t, other) == PcOf(s, other) {}
    forall tx, ref ensures Held(t, tx, ref) <==> Holds(t, tx, ref) {
      assert Held(s, tx, ref) <==> Holds(s, tx, ref);
    }
  }

  lemma JoinedThreads(s: State, th: Thread, tx: TxId, pc: Pc, stage: Stage)
    requires Consistent(s)
    requires PcOf(s, th).Outside? && Live(s, tx) && (pc.Cloned? || pc.Leaving?) && pc.tx == tx
    requires pc.job.Query? ==> s.txs[tx].owner == th && stage == s.txs[tx].stage
    requires !pc.job.Query? ==> s.txs[tx].stage.Idle? && stage == Used(th) && StageAt(pc, th) == Some(stage)
    ensures ThreadsMatch(Joined(s, th, tx, pc, stage))
  {
    var t := Joined(s, th, tx, pc, stage);
    forall other | other != th ensures PcOf(t, other) == PcOf(s, other) {}
  }

  lemma JoinedStages(s: State, th: Thread, tx: TxId, pc: Pc, stage: Stage)
    requires Consistent(s)
    requires PcOf(s, th).Outside? && Live(s, tx) && (pc.Cloned? || pc.Leaving?) && pc.tx == tx
    requires pc.job.Query? ==> s.txs[tx].owner == th && stage == s.txs[tx].stage
    requires !pc.job.Query? ==> s.txs[tx].stage.Idle? && stage == Used(th) && StageAt(pc, th) == Some(stage)
    ensures StagesMatch(Joined(s, th, tx, pc, stage))
    ensures SlotMatches(Joined(s, th, tx, pc, stage))
  {
    var t := Joined(s, th, tx, pc, stage);
    forall other | other != th ensures PcOf(t, other) == PcOf(s, other) {}
  }

  lemma LockKeeps(s: State, th: Thread, tx: TxId, job: Job)
    requires Consistent(s)
    requires PcOf(s, th) == Cloned(tx, job) && tx !in s.locks
    ensures Consistent(At(s, th, Locked(tx, job)).(locks := s.locks + {tx}))
  {
    var t := At(s, th, Locked(tx, job)).(locks := s.locks + {tx});
    forall other | other != th ensures PcOf(t, other) == PcOf(s, other) {}
    forall tx, ref ensures Held(t, tx, ref) <==> Holds(t, tx, ref) {
      assert Held(s, tx, ref) <==> Holds(s, tx, ref);
    }
  }

  lemma UnlockKeeps(s: State, th: Thread, pc: Pc)
    requires Consistent(s)
    requires PcOf(s, th) == pc && pc.Locked? && pc.job in {Query, TxQuery, Release}
    ensures Consistent(Unlocked(s, th, pc, true))
  {
    var t := Unlocked(s, th, pc, true);
    forall other | other != th ensures PcOf(t, other) == PcOf(s, other) {}
    forall tx, ref ensures Held(t, tx, ref) <==> Holds(t, tx, ref) {
      assert Held(s, tx, ref) <==> Holds(s, tx, ref);
    }
  }

  lemma EndTriedRefs(s: State, th: Thread, pc: Pc, ok: bool, event: Event)
    requires Consistent(s)
    requires PcOf(s, th) == pc && pc.Locked? && pc.tx in s.txs && pc.job in {Commit, Rollback}
    ensures OneHandle(EndTried(s, th, pc, ok, ok || pc.job.Rollback?, event))
    ensures RefsMatch(EndTried(s, th, pc, ok, ok || pc.job.Rollback?, event))
  {
    var t := EndTried(s, th, pc, ok, ok || pc.job.Rollback?, event);
    forall other | other != th ensures PcOf(t, other) == PcOf(s, other) {}
    forall tx, ref ensures Held(t, tx, ref) <==> Holds(t, tx, ref) {
      assert Held(s, tx, ref) <==> Holds(s, tx, ref);
    }
  }

  lemma EndTriedThreads(s: State, th: Thread, pc: Pc, ok: bool, event: Event)
    requires Consistent(s)
    requires PcOf(s, th) == pc && pc.Locked? && pc.tx in s.txs && pc.job in {Commit, Rollback}
    ensures ThreadsMatch(EndTried(s, th, pc, ok, ok || pc.job.Rollback?, event))
  {
    var t := EndTried(s, th, pc, ok, ok || pc.job.Rollback?, event);
    forall other | other != th ensures PcOf(t, other) == PcOf(s, other) {}
  }

  lemma EndTriedStages(s: State, th: Thread, pc: Pc, ok: bool, event: Event)
    requires Consistent(s)
    requires PcOf(s, th) == pc && pc.Locked? && pc.tx in s.txs && pc.job in {Commit, Rollback}
    ensures StagesMatch(EndTried(s, th, pc, ok, ok || pc.job.Rollback?, event))
  {
    var t := EndTried(s, th, pc, ok, ok || pc.job.Rollback?, event);
    forall other | other != th ensures PcOf(t, other) == PcOf(s, other) {}
  }

  lemma EndTriedSlot(s: State, th: Thread, pc: Pc, ok: bool, event: Event)
    requires Consistent(s)
    requires PcOf(s, th) == pc && pc.Locked? && pc.tx in s.txs && pc.job in {Commit, Rollback}
    ensures SlotMatches(EndTried(s, th, pc, ok, ok || pc.job.Rollback?, event))
  {
    var t := EndTried(s, th, pc, ok, ok || pc.job.Rollback?, event);
    forall other | other != th ensures PcOf(t, other) == PcOf(s, other) {}
  }

  /** The second check in `unchecked_transaction`, "transaction already active", never fires: the thread
      that just began a transaction has the only handle, so no other one is published. */
  lemma SecondCheckNeverFires(s: State, th: Thread)
    requires Consistent(s) && PcOf(s, th).Begun?
    ensures s.slot == None && Live(s, PcOf(s, th).tx)
  {
    var tx := PcOf(s, th).tx;
    assert StageAt(PcOf(s, th), th) == Some(Fresh(th));
    assert Holds(s, tx, OfTransaction);
    if s.slot.Some? {
      assert Holds(s, s.slot.value.tx, OfSlot);
    }
  }

  lemma PublishedRefs(s: State, th: Thread, tx: TxId)
    requires Consistent(s)
    requires PcOf(s, th) == Begun(tx) && Live(s, tx)
    ensures OneHandle(Published(s, th, tx))
    ensures RefsMatch(Published(s, th, tx))
  {
    var t := Published(s, th, tx);
    forall other | other != th ensures PcOf(t, other) == PcOf(s, other) {}
    SecondCheckNeverFires(s, th);
    forall tx, ref ensures Held(t, tx, ref) <==> Holds(t, tx, ref) {
      assert Held(s, tx, ref) <==> Holds(s, tx, ref);
    }
  }

  lemma PublishedStages(s: State, th: Thread, tx: TxId)
    requires Consistent(s)
    requires PcOf(s, th) == Begun(tx) && Live(s, tx)
    ensures ThreadsMatch(Published(s, th, tx))
    ensures StagesMatch(Published(s, th, tx))
    ensures SlotMatches(Published(s, th, tx))
  {
    var t := Published(s, th, tx);
    forall other | other != th ensures PcOf(t, other) == PcOf(s, other) {}
    SecondCheckNeverFires(s, th);
  }

  /** A transaction that is over still has its reference, and the slot still names it. */
  lemma OverIsPublished(s: State, th: Thread)
    requires Consistent(s) && PcOf(s, th).Ended?
    ensures Live(s, PcOf(s, th).tx) && OfTransaction in s.refs[PcOf(s, th).tx] - {OfSlot}
    ensures s.slot == Some(Active(s.txs[PcOf(s, th).tx].owner, PcOf(s, th).tx))
  {
    var tx := PcOf(s, th).tx;
    assert StageAt(PcOf(s, th), th) == Some(Over(th));
    assert Holds(s, tx, OfTransaction);
    assert Held(s, tx, OfTransaction);
  }

  lemma ClearedKeeps(s: State, th: Thread, tx: TxId)
    requires Consistent(s)
    requires PcOf(s, th) == Ended(tx) && Live(s, tx) && SlotHolds(s, tx)
    ensures Consistent(At(Moved(s.(refs := s.refs[tx := s.refs[tx] - {OfSlot}], slot := None), tx, Dismissed(th)), th,
                          Cleared(tx)))
  {
    var t := At(Moved(s.(refs := s.refs[tx := s.refs[tx] - {OfSlot}], slot := None), tx, Dismissed(th)), th,
                Cleared(tx));
    forall other | other != th ensures PcOf(t, other) == PcOf(s, other) {}
    OverIsPublished(s, th);
    forall tx, ref ensures Held(t, tx, ref) <==> Holds(t, tx, ref) {
      assert Held(s, tx, ref) <==> Holds(s, tx, ref);
    }
  }

  lemma TakenRefs(s: State, th: Thread, tx: TxId)
    requires Consistent(s)
    requires PcOf(s, th) == Cleared(tx) && Live(s, tx)
    ensures OneHandle(TakenForRelease(s, th, tx))
    ensures RefsMatch(TakenForRelease(s, th, tx))
  {
    var t := TakenForRelease(s, th, tx);
    forall other | other != th ensures PcOf(t, other) == PcOf(s, other) {}
    forall tx, ref ensures Held(t, tx, ref) <==> Holds(t, tx, ref) {
      assert Held(s, tx, ref) <==> Holds(s, tx, ref);
    }
  }

  lemma TakenStages(s: State, th: Thread, tx: TxId)
    requires Consistent(s)
    requires PcOf(s, th) == Cleared(tx) && Live(s, tx)
    ensures ThreadsMatch(TakenForRelease(s, th, tx))
    ensures StagesMatch(TakenForRelease(s, th, tx))
    ensures SlotMatches(TakenForRelease(s, th, tx))
  {
    var t := TakenForRelease(s, th, tx);
    forall other | other != th ensures PcOf(t, other) == PcOf(s, other) {}
  }

  lemma RetryKeeps(s: State, th: Thread, tx: TxId)
    requires Consistent(s)
    requires PcOf(s, th) == Leaving(tx, Commit, false)
    ensures Consistent(At(s, th, Cloned(tx, Rollback)))
  {
    var t := At(s, th, Cloned(tx, Rollback));
    forall other | other != th ensures PcOf(t, other) == PcOf(s, other) {}
    forall tx, ref ensures Held(t, tx, ref) <==> Holds(t, tx, ref) {
      assert Held(s, tx, ref) <==> Holds(s, tx, ref);
    }
  }

  /** Where a thread may go once it dropped its reference: outside, or on to the end of its transaction. */
  ghost predicate MayLeave(s: State, th: Thread, tx: TxId, stage: Stage, pc: Pc) {
    && tx in s.txs && PcOf(s, th).Leaving? && PcOf(s, th).tx == tx
    && (pc == Outside || (pc == Ended(tx) && stage == Over(th)))
    && stage.Connected() == s.txs[tx].stage.Connected() && stage.Published() == s.txs[tx].stage.Published()
    && (stage == s.txs[tx].stage || StageAt(PcOf(s, th), th).Some?)
  }

  lemma LastReference(s: State, tx: TxId, last: Ref)
    requires RefsMatch(s) && tx in s.refs && s.refs[tx] - {last} == {}
    ensures forall ref :: Holds(s, tx, ref) ==> ref == last
  {
    forall ref | Holds(s, tx, ref) ensures ref == last {
      assert Held(s, tx, ref);
      assert ref in s.refs[tx] - {last} || ref == last;
    }
  }

  lemma DroppedRefs(s: State, th: Thread, tx: TxId, stage: Stage, pc: Pc)
    requires Consistent(s)
    requires MayLeave(s, th, tx, stage, pc) && Live(s, tx)
    ensures OneHandle(At(Moved(DropRef(s, tx, OfCall(th)), tx, stage), th, pc))
    ensures RefsMatch(At(Moved(DropRef(s, tx, OfCall(th)), tx, stage), th, pc))
  {
    var t := At(Moved(DropRef(s, tx, OfCall(th)), tx, stage), th, pc);
    forall other | other != th ensures PcOf(t, other) == PcOf(s, other) {}
    if s.refs[tx] - {OfCall(th)} == {} {
      LastReference(s, tx, OfCall(th));
    }
    forall tx, ref ensures Held(t, tx, ref) <==> Holds(t, tx, ref) {
      assert Held(s, tx, ref) <==> Holds(s, tx, ref);
    }
  }

  lemma DroppedThreads(s: State, d: State, th: Thread, tx: TxId, stage: Stage, pc: Pc)
    requires Consistent(s)
    requires MayLeave(s, th, tx, stage, pc)
    requires d.raw == s.raw && d.locks == s.locks && d.slot == s.slot && d.txs == s.txs && d.pcs == s.pcs
    ensures ThreadsMatch(At(Moved(d, tx, stage), th, pc))
  {
    var t := At(Moved(d, tx, stage), th, pc);
    forall other | other != th ensures PcOf(t, other) == PcOf(s, other) {}
  }

  lemma DroppedStages(s: State, d: State, th: Thread, tx: TxId, stage: Stage, pc: Pc)
    requires Consistent(s)
    requires MayLeave(s, th, tx, stage, pc)
    requires d.raw == s.raw && d.locks == s.locks && d.slot == s.slot && d.txs == s.txs && d.pcs == s.pcs
    ensures StagesMatch(At(Moved(d, tx, stage), th, pc))
  {
    var t := At(Moved(d, tx, stage), th, pc);
    forall other | other != th ensures PcOf(t, other) == PcOf(s, other) {}
  }

  lemma DroppedSlot(s: State, d: State, th: Thread, tx: TxId, stage: Stage, pc: Pc)
    requires Consistent(s)
    requires MayLeave(s, th, tx, stage, pc)
    requires d.raw == s.raw && d.locks == s.locks && d.slot == s.slot && d.txs == s.txs && d.pcs == s.pcs
    ensures SlotMatches(At(Moved(d, tx, stage), th, pc))
  {
    var t := At(Moved(d, tx, stage), th, pc);
    forall other | other != th ensures PcOf(t, other) == PcOf(s, other) {}
  }

  lemma LeaveKeeps(s: State, th: Thread, pc: Pc)
    requires Consistent(s) && PcOf(s, th) == pc && pc.Leaving? && Live(s, pc.tx)
    ensures Consistent(AfterCall(s, th, pc))
  {
    if pc.job.Commit? && !pc.ok {
      RetryKeeps(s, th, pc.tx);
    } else {
      var tx, d := pc.tx, DropRef(s, pc.tx, OfCall(th));
      var stage, after := StageAfter(s.txs[tx].stage, pc.job), PcAfter(tx, pc.job);
      assert StageAt(pc, th).Some? ==> s.txs[tx].stage == StageAt(pc, th).value;
      DroppedRefs(s, th, tx, stage, after);
      DroppedThreads(s, d, th, tx, stage, after);
      DroppedStages(s, d, th, tx, stage, after);
      DroppedSlot(s, d, th, tx, stage, after);
    }
  }

  lemma LogIsNotState(s: State, log: seq<Event>, open: bool)
    requires Consistent(s)
    ensures Consistent(s.(log := log, open := open))
  {
    var t := s.(log := log, open := open);
    forall th ensures PcOf(t, th) == PcOf(s, th) {}
    forall tx, ref ensures Held(t, tx, ref) <==> Holds(t, tx, ref) {
      assert Held(s, tx, ref) <==> Holds(s, tx, ref);
    }
  }

  predicate OnPool(step: Step) {
    step.Acquire? || step.RunOnPool? || step.GiveBackHandle? || step.BeginWorks? || step.BeginFails? || step.Publish?
  }

  lemma CallKeeps(s: State, step: Step)
    requires Consistent(s) && Enabled(s, step) && (step.CallConnection? || step.CallBegin? || step.CallTransaction?)
    ensures Consistent(Next(s, step))
  {
    var th, slot := step.th, s.slot;
    var tx, pc := if step.CallTransaction? then step.tx else if slot.Some? then slot.value.tx
        else 0, PcOf(Next(s, step), th);
    if pc.AwaitPool? {
      PlaceKeeps(s, th, pc);
    } else {
      var stage := if step.CallTransaction? then Used(th) else s.txs[tx].stage;
      JoinedRefs(s, th, tx, pc, stage);
      JoinedThreads(s, th, tx, pc, stage);
      JoinedStages(s, th, tx, pc, stage);
    }
  }

  lemma PoolStepKeeps(s: State, step: Step)
    requires Consistent(s) && Enabled(s, step) && OnPool(step)
    ensures Consistent(Next(s, step))
  {
    var th, pc, t := step.th, PcOf(s, step.th), Next(s, step);
    match step
    case Acquire(_) => AcquireKeeps(s, th, pc.plan);
    case RunOnPool(_, _) =>
      PlaceKeeps(s, th, Pooled(GiveBack));
      LogIsNotState(At(s, th, Pooled(GiveBack)), t.log, t.open);
    case GiveBackHandle(_, again) => GiveBackKeeps(s, th, if again then AwaitPool(Statement) else Outside);
    case BeginWorks(_, tx) =>
      StartedKeeps(s, th, tx);
      LogIsNotState(Started(s, th, tx), t.log, t.open);
    case BeginFails(_) => PlaceKeeps(s, th, Pooled(GiveBack));
    case Publish(_) =>
      PublishedRefs(s, th, pc.tx);
      PublishedStages(s, th, pc.tx);
  }

  lemma EndTriedKeeps(s: State, th: Thread, pc: Pc, ok: bool, event: Event, open: bool)
    requires Consistent(s) && PcOf(s, th) == pc && pc.Locked? && pc.tx in s.txs && pc.job in {Commit, Rollback}
    ensures Consistent(EndTried(s, th, pc, ok, ok || pc.job.Rollback?, event).(open := open))
  {
    EndTriedRefs(s, th, pc, ok, event);
    EndTriedThreads(s, th, pc, ok, event);
    EndTriedStages(s, th, pc, ok, event);
    EndTriedSlot(s, th, pc, ok, event);
    var t := EndTried(s, th, pc, ok, ok || pc.job.Rollback?, event);
    LogIsNotState(t, t.log, open);
  }

  lemma SharedStepKeeps(s: State, step: Step)
    requires Consistent(s) && Enabled(s, step)
    requires !OnPool(step) && !(step.CallConnection? || step.CallBegin? || step.CallTransaction?)
    ensures Consistent(Next(s, step))
  {
    var th, pc, t := step.th, PcOf(s, step.th), Next(s, step);
    match step
    case Lock(_) => LockKeeps(s, th, pc.tx, pc.job);
    case RunLocked(_, _) => LogIsNotState(s, t.log, t.open);
    case TryCommit(_, ok, open) => EndTriedKeeps(s, th, pc, ok, CommitTried(pc.tx, ok), open);
    case TryRollback(_, ok, open) => EndTriedKeeps(s, th, pc, ok, RollbackTried(pc.tx, ok), open);
    case Unlock(_) => UnlockKeeps(s, th, pc);
    case Leave(_) => LeaveKeeps(s, th, pc);
    case ClearSlot(_) =>
      OverIsPublished(s, th);
      ClearedKeeps(s, th, pc.tx);
    case TakeConnection(_) =>
      TakenRefs(s, th, pc.tx);
      TakenStages(s, th, pc.tx);
  }

  /** What every step of every thread keeps. */
  lemma StepKeepsConsistent(s: State, step: Step)
    requires Consistent(s) && Enabled(s, step)
    ensures Consistent(Next(s, step))
  {
    if OnPool(step) {
      PoolStepKeeps(s, step);
    } else if step.CallConnection? || step.CallBegin? || step.CallTransaction? {
      CallKeeps(s, step);
    } else {
      SharedStepKeeps(s, step);
    }
  }
}
