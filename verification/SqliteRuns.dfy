/** What the statement log of every interleaving over one shared handle says. */
module SqliteRuns {
  import opened Text
  import opened SqliteTransactions

  // ----- what the log of a run says -----

  /** The event ends the window of the transaction. */
  predicate Ends(event: Event, tx: TxId) {
    event == CommitTried(tx, true) || (event.RollbackTried? && event.tx == tx)
  }

  /** Which transaction SQLite's handle is in: one between its BEGIN and its last COMMIT or ROLLBACK, or
      none; after a ROLLBACK that failed, nobody knows. */
  datatype Status = Settled | Running(owner: Thread, tx: TxId) | Unsure

  function Observe(st: Status, event: Event): Status {
    match event
    case Began(tx, owner) => Running(owner, tx)
    case CommitTried(_, ok) => if ok then Settled else st
    case RollbackTried(_, ok) => if ok then Settled else Unsure
    case _ => st
  }

  function StatusOf(log: seq<Event>): Status {
    if log == [] then Settled else Observe(StatusOf(log[..|log| - 1]), log[|log| - 1])
  }

  /** Inside a transaction only its own statements and those of the thread that began it may follow, and the
      handle is neither returned nor begun on. */
  predicate Allowed(st: Status, event: Event) {
    match event
    case Began(_, _) => !st.Running?
    case Ran(thread, via, own) => st.Running? ==> via == Some(st.tx) && (own || thread == st.owner)
    case CommitTried(tx, _) => st.Running? && st.tx == tx
    case RollbackTried(tx, _) => st.Running? && st.tx == tx
    case Returned(tx) => !st.Running?
  }

  ghost predicate Orderly(log: seq<Event>) {
    forall i :: 0 <= i < |log| ==> Allowed(StatusOf(log[..i]), log[i])
  }

  function Returns(log: seq<Event>, tx: TxId): nat {
    if log == [] then 0
    else Returns(log[..|log| - 1], tx) + (if log[|log| - 1] == Returned(tx) then 1 else 0)
  }

  /** The log tells which transaction is in its window, and how often each handle was returned. */
  ghost predicate LogMatches(s: State) {
    && Orderly(s.log)
    && (forall tx :: tx in s.txs && s.txs[tx].stage.InWindow() ==> StatusOf(s.log) == Running(s.txs[tx].owner, tx))
    && (StatusOf(s.log).Running? ==> StatusOf(s.log).tx in s.txs && s.txs[StatusOf(s.log).tx].stage.InWindow())
    && (s.open ==> !StatusOf(s.log).Settled?)
    && (forall tx :: Returns(s.log, tx) == if tx in s.txs && tx !in s.refs then 1 else 0)
  }

  lemma Appended(log: seq<Event>, event: Event)
    requires Orderly(log) && Allowed(StatusOf(log), event)
    ensures Orderly(log + [event])
    ensures StatusOf(log + [event]) == Observe(StatusOf(log), event)
    ensures forall tx :: Returns(log + [event], tx) == Returns(log, tx) + (if event == Returned(tx) then 1 else 0)
  {
    var longer := log + [event];
    assert longer[..|log|] == log;
    forall i | 0 <= i < |longer| ensures Allowed(StatusOf(longer[..i]), longer[i]) {
      assert longer[..i] == log[..i];
    }
  }

  /** A thread with the only handle, or with a reference to it, tells which transaction may be running. */
  lemma RunningHasHandle(s: State)
    requires Consistent(s) && LogMatches(s) && StatusOf(s.log).Running?
    ensures Live(s, StatusOf(s.log).tx) && s.raw == {}
    ensures forall tx :: tx in s.refs ==> tx == StatusOf(s.log).tx
  {
    assert Holds(s, StatusOf(s.log).tx, OfTransaction);
  }

  /** The same transactions exist and are in their windows. */
  ghost predicate SameWindows(s: State, t: State) {
    && (forall tx :: tx in t.txs <==> tx in s.txs)
    && (forall tx :: tx in s.txs ==>
        t.txs[tx].owner == s.txs[tx].owner && t.txs[tx].stage.InWindow() == s.txs[tx].stage.InWindow())
  }

  /** Steps that log nothing and move no transaction into or out of its window. */
  lemma QuietKeepsLog(s: State, t: State)
    requires LogMatches(s) && t.log == s.log && t.open == s.open && SameWindows(s, t)
    requires t.refs.Keys == s.refs.Keys
    ensures LogMatches(t)
  {
    assert forall tx :: tx in t.refs <==> tx in s.refs.Keys;
  }

  lemma ReturnKeepsLog(s: State, t: State, tx: TxId)
    requires LogMatches(s) && tx in s.refs && tx in s.txs && !StatusOf(s.log).Running?
    requires t.log == s.log + [Returned(tx)] && t.open == s.open && SameWindows(s, t)
    requires t.refs == s.refs - {tx}
    ensures LogMatches(t)
  {
    Appended(s.log, Returned(tx));
  }

  lemma DroppedKeepsLog(s: State, th: Thread, tx: TxId, stage: Stage, pc: Pc)
    requires Consistent(s) && LogMatches(s) && MayLeave(s, th, tx, stage, pc) && Live(s, tx)
    requires stage.InWindow() == s.txs[tx].stage.InWindow()
    ensures LogMatches(At(Moved(DropRef(s, tx, OfCall(th)), tx, stage), th, pc))
  {
    var t := At(Moved(DropRef(s, tx, OfCall(th)), tx, stage), th, pc);
    if s.refs[tx] - {OfCall(th)} == {} {
      NoneRunning(s, tx, OfCall(th));
      ReturnKeepsLog(s, t, tx);
    } else {
      QuietKeepsLog(s, t);
    }
  }

  lemma NoneRunning(s: State, tx: TxId, last: Ref)
    requires Consistent(s) && LogMatches(s) && tx in s.refs && s.refs[tx] - {last} == {} && last.OfCall?
    ensures !StatusOf(s.log).Running?
  {
    LastReference(s, tx, last);
    assert !Holds(s, tx, OfTransaction);
    if StatusOf(s.log).Running? {
      RunningHasHandle(s);
    }
  }

  /** The stages of the stepping thread's own transaction. */
  lemma OwnStage(s: State, th: Thread)
    requires Consistent(s) && StageAt(PcOf(s, th), th).Some?
    ensures PcOf(s, th).tx in s.txs && s.txs[PcOf(s, th).tx].stage == StageAt(PcOf(s, th), th).value
  {
  }

  lemma LeaveKeepsLog(s: State, th: Thread, pc: Pc)
    requires Consistent(s) && LogMatches(s) && PcOf(s, th) == pc && pc.Leaving? && Live(s, pc.tx)
    ensures LogMatches(AfterCall(s, th, pc))
  {
    if !(pc.job.Commit? && !pc.ok) {
      var stage := StageAfter(s.txs[pc.tx].stage, pc.job);
      if StageAt(pc, th).Some? {
        OwnStage(s, th);
      }
      DroppedKeepsLog(s, th, pc.tx, stage, PcAfter(pc.tx, pc.job));
    }
  }

  lemma RanKeepsLog(s: State, t: State, event: Event)
    requires LogMatches(s) && event.Ran? && Allowed(StatusOf(s.log), event)
    requires t.log == s.log + [event] && (t.open ==> s.open) && t.txs == s.txs && t.refs == s.refs
    ensures LogMatches(t)
  {
    Appended(s.log, event);
  }

  /** A statement on a handle from the pool never meets a running transaction. */
  lemma PooledRunsAlone(s: State, th: Thread)
    requires Consistent(s) && LogMatches(s) && PcOf(s, th).Pooled?
    ensures !StatusOf(s.log).Running?
  {
    if StatusOf(s.log).Running? {
      RunningHasHandle(s);
    }
  }

  /** A statement on a shared handle belongs to the transaction or to the thread that began it. */
  lemma SharedRunsOwn(s: State, th: Thread)
    requires Consistent(s) && LogMatches(s) && PcOf(s, th).Locked? && PcOf(s, th).job in {Query, TxQuery}
    ensures Allowed(StatusOf(s.log), Ran(th, Some(PcOf(s, th).tx), PcOf(s, th).job.TxQuery?))
  {
    var pc := PcOf(s, th);
    assert Holds(s, pc.tx, OfCall(th));
    assert Held(s, pc.tx, OfCall(th));
    assert pc.job.Query? ==> InCall(pc, pc.tx) && s.txs[pc.tx].owner == th;
    if StatusOf(s.log).Running? {
      RunningHasHandle(s);
    }
  }

  lemma BeganKeepsLog(s: State, t: State, th: Thread, tx: TxId)
    requires LogMatches(s) && tx !in s.txs && tx !in s.refs && !StatusOf(s.log).Running?
    requires t.log == s.log + [Began(tx, th)] && t.open
    requires t.refs == s.refs[tx := {OfTransaction}] && t.txs == s.txs[tx := Transaction(th, Fresh(th))]
    ensures LogMatches(t)
  {
    Appended(s.log, Began(tx, th));
  }

  lemma EndKeepsLog(s: State, t: State, tx: TxId, event: Event, ok: bool)
    requires LogMatches(s) && tx in s.txs && s.txs[tx].stage.InWindow()
    requires event in {CommitTried(tx, ok), RollbackTried(tx, ok)}
    requires t.log == s.log + [event] && t.refs == s.refs && (t.open ==> s.open && !ok)
    requires exists stage: Stage ::
               stage.InWindow() == !Ends(event, tx) && t.txs == s.txs[tx := s.txs[tx].(stage := stage)]
    ensures LogMatches(t)
  {
    Appended(s.log, event);
  }

  lemma EndStepKeepsLog(s: State, step: Step)
    requires Consistent(s) && LogMatches(s) && Enabled(s, step) && (step.TryCommit? || step.TryRollback?)
    ensures LogMatches(Next(s, step))
  {
    var th, pc, t, ok := step.th, PcOf(s, step.th), Next(s, step), step.ok;
    var event := if step.TryCommit? then CommitTried(pc.tx, ok) else RollbackTried(pc.tx, ok);
    OwnStage(s, th);
    var stage := if Ends(event, pc.tx) then Over(th) else s.txs[pc.tx].stage;
    assert stage.InWindow() == !Ends(event, pc.tx) && t.txs == s.txs[pc.tx := s.txs[pc.tx].(stage := stage)];
    EndKeepsLog(s, t, pc.tx, event, ok);
  }

  lemma RunStepKeepsLog(s: State, step: Step)
    requires Consistent(s) && LogMatches(s) && Enabled(s, step)
    requires (step.RunOnPool? || step.RunLocked? || step.BeginWorks?)
    ensures LogMatches(Next(s, step))
  {
    var th, pc, t := step.th, PcOf(s, step.th), Next(s, step);
    if step.RunLocked? {
      SharedRunsOwn(s, th);
      RanKeepsLog(s, t, Ran(th, Some(pc.tx), pc.job.TxQuery?));
    } else {
      PooledRunsAlone(s, th);
      if step.RunOnPool? {
        RanKeepsLog(s, t, Ran(th, None, false));
      } else {
        BeganKeepsLog(s, t, th, step.tx);
      }
    }
  }

  predicate Logs(step: Step) {
    step.RunOnPool? || step.RunLocked? || step.BeginWorks? || step.TryCommit? || step.TryRollback? || step.Leave?
  }

  /** Nothing is logged and no transaction enters or leaves its window. */
  ghost predicate Quiet(s: State, t: State) {
    t.log == s.log && t.open == s.open && SameWindows(s, t) && t.refs.Keys == s.refs.Keys
  }

  lemma QuietStep(s: State, step: Step)
    requires Consistent(s) && Enabled(s, step) && !Logs(step)
    ensures Quiet(s, Next(s, step))
  {
    if step.Publish? || step.ClearSlot? || step.TakeConnection? {
      QuietOwnStep(s, step);
    }
  }

  lemma QuietOwnStep(s: State, step: Step)
    requires Consistent(s) && Enabled(s, step) && (step.Publish? || step.ClearSlot? || step.TakeConnection?)
    ensures Quiet(s, Next(s, step))
  {
    OwnStage(s, step.th);
    if step.Publish? {
      SecondCheckNeverFires(s, step.th);
    } else if step.ClearSlot? {
      OverIsPublished(s, step.th);
    }
  }

  lemma StepKeepsLog(s: State, step: Step)
    requires Consistent(s) && LogMatches(s) && Enabled(s, step)
    ensures LogMatches(Next(s, step))
  {
    if step.RunOnPool? || step.RunLocked? || step.BeginWorks? {
      RunStepKeepsLog(s, step);
    } else if step.TryCommit? || step.TryRollback? {
      EndStepKeepsLog(s, step);
    } else if step.Leave? {
      LeaveKeepsLog(s, step.th, PcOf(s, step.th));
    } else {
      QuietStep(s, step);
      QuietKeepsLog(s, Next(s, step));
    }
  }

  // ----- the main results: every interleaving -----

  lemma {:induction false} RunsAreConsistent(steps: seq<Step>)
    requires Run(steps).Some?
    ensures Consistent(Run(steps).value) && LogMatches(Run(steps).value)
  {
    if steps == [] {
      assert forall tx :: Returns(Init.log, tx) == 0;
    } else {
      var before, step := Run(steps[..|steps| - 1]).value, steps[|steps| - 1];
      RunsAreConsistent(steps[..|steps| - 1]);
      StepKeepsConsistent(before, step);
      StepKeepsLog(before, step);
    }
  }

  lemma {:induction false} WindowStaysOpen(log: seq<Event>, i: nat, j: nat, tx: TxId, owner: Thread)
    requires Orderly(log) && i < j <= |log| && log[i] == Began(tx, owner)
    requires forall k :: i < k < j ==> !Ends(log[k], tx)
    ensures StatusOf(log[..j]) == Running(owner, tx)
  {
    assert log[..j][..j - 1] == log[..j - 1];
    if i < j - 1 {
      WindowStaysOpen(log, i, j - 1, tx, owner);
      assert Allowed(StatusOf(log[..j - 1]), log[j - 1]);
      assert !Ends(log[j - 1], tx);
    }
  }

  /** Between a transaction's BEGIN and its COMMIT or ROLLBACK, every statement is its own or comes from a
      `Connection` call of the thread that began it; no other BEGIN runs and the handle is not returned. */
  lemma NoForeignStatement(steps: seq<Step>, i: nat, j: nat, tx: TxId, owner: Thread)
    requires Run(steps).Some? && i < j < |Run(steps).value.log|
    requires Run(steps).value.log[i] == Began(tx, owner)
    requires forall k :: i < k < j ==> !Ends(Run(steps).value.log[k], tx)
    ensures match Run(steps).value.log[j]
            case Ran(thread, via, own) => via == Some(tx) && (own || thread == owner)
            case CommitTried(ended, _) => ended == tx
            case RollbackTried(ended, _) => ended == tx
            case _ => false
  {
    RunsAreConsistent(steps);
    var log := Run(steps).value.log;
    WindowStaysOpen(log, i, j, tx, owner);
    assert Allowed(StatusOf(log[..j]), log[j]);
  }

  /** While the slot names a transaction, that transaction has the only handle: none is in the pool, no
      thread has one of its own, and no other transaction refers to one. */
  lemma PublishedHasOnlyHandle(steps: seq<Step>)
    requires Run(steps).Some? && Run(steps).value.slot.Some?
    ensures var s := Run(steps).value;
            s.permits == 0 && s.raw == {} && s.refs.Keys == {s.slot.value.tx}
  {
    RunsAreConsistent(steps);
    var s := Run(steps).value;
    assert Holds(s, s.slot.value.tx, OfSlot);
    assert Held(s, s.slot.value.tx, OfSlot);
  }

  /** The thread that owns the active transaction always gets the held handle, and no thread ever waits for
      the pool, or holds a handle from it, while it owns one. */
  lemma OwnerUsesHeldHandle(steps: seq<Step>, th: Thread)
    requires Run(steps).Some? && OwnsSlot(Run(steps).value, th)
    ensures var s := Run(steps).value;
            && !PcOf(s, th).AwaitPool? && !PcOf(s, th).Pooled?
            && (PcOf(s, th).Outside? ==> Enabled(s, CallConnection(th))
                                         && PcOf(Next(s, CallConnection(th)), th) == Cloned(s.slot.value.tx, Query))
  {
    RunsAreConsistent(steps);
    var s := Run(steps).value;
    assert Holds(s, s.slot.value.tx, OfSlot);
    assert Held(s, s.slot.value.tx, OfSlot);
  }

  /** A BEGIN on the thread that owns the active transaction is refused: the call runs nothing, does nothing but
      leave, and answers with an error. */
  lemma NestedBeginIsRefused(steps: seq<Step>, th: Thread)
    requires Run(steps).Some? && OwnsSlot(Run(steps).value, th) && PcOf(Run(steps).value, th).Outside?
    ensures Enabled(Run(steps).value, CallBegin(th))
    ensures var s, t := Run(steps).value, Next(Run(steps).value, CallBegin(th));
            && t.log == s.log && t.open == s.open && Refuses(t, th)
            && PcOf(Next(t, Leave(th)), th) == Outside && Endless(Next(t, Leave(th)).log, s.log)
  {
    RunsAreConsistent(steps);
    var s := Run(steps).value;
    assert Holds(s, s.slot.value.tx, OfSlot) && Held(s, s.slot.value.tx, OfSlot);
    BeginRefused(s, th);
    RefusalLeaves(Next(s, CallBegin(th)), th);
  }

  /** The call is over but for leaving, with an error. */
  ghost predicate Refuses(t: State, th: Thread) {
    && PcOf(t, th).Leaving? && PcOf(t, th).job.Query? && !PcOf(t, th).ok && Enabled(t, Leave(th))
    && forall step: Step :: step.th == th && Enabled(t, step) ==> step == Leave(th)
  }

  lemma BeginRefused(s: State, th: Thread)
    requires OwnsSlot(s, th) && PcOf(s, th).Outside? && Live(s, s.slot.value.tx)
    ensures var t := Next(s, CallBegin(th)); t.log == s.log && t.open == s.open && Refuses(t, th)
  {
  }

  lemma RefusalLeaves(t: State, th: Thread)
    requires Refuses(t, th)
    ensures PcOf(Next(t, Leave(th)), th) == Outside && Endless(Next(t, Leave(th)).log, t.log)
  {
  }

  /** Nothing but returned handles has been added. */
  predicate Endless(longer: seq<Event>, log: seq<Event>) {
    log <= longer && forall i :: |log| <= i < |longer| ==> longer[i].Returned?
  }

  /** A transaction's handle goes back at most once, and it has gone back exactly when no reference is left. */
  lemma HandleReturnedOnce(steps: seq<Step>, tx: TxId)
    requires Run(steps).Some? && tx in Run(steps).value.txs
    ensures var s := Run(steps).value;
            Returns(s.log, tx) == if tx in s.refs then 0 else 1
  {
    RunsAreConsistent(steps);
  }

  /** When the handle goes back, the slot is clear and the transaction is over. */
  lemma HandleReturnedCleared(steps: seq<Step>, step: Step, tx: TxId)
    requires Run(steps).Some? && Enabled(Run(steps).value, step)
    requires Returns(Next(Run(steps).value, step).log, tx) > Returns(Run(steps).value.log, tx)
    ensures var t := Next(Run(steps).value, step);
            t.slot == None && t.permits == 1 && tx in t.txs && !t.txs[tx].stage.Connected()
  {
    RunsAreConsistent(steps);
    ReturnClears(Run(steps).value, step, tx);
  }

  lemma ReturnClears(s: State, step: Step, tx: TxId)
    requires Consistent(s) && LogMatches(s) && Enabled(s, step)
    requires Returns(Next(s, step).log, tx) > Returns(s.log, tx)
    ensures var t := Next(s, step);
            t.slot == None && t.permits == 1 && tx in t.txs && !t.txs[tx].stage.Connected()
  {
    StepKeepsConsistent(s, step);
    StepKeepsLog(s, step);
    if tx !in s.txs && tx in Next(s, step).txs {
      NewIsHeld(s, step, tx);
    }
    ReturnedIsGone(s, Next(s, step), tx);
    OnlyHandleGone(s, step, tx);
  }

  lemma NewIsHeld(s: State, step: Step, tx: TxId)
    requires Enabled(s, step) && tx !in s.txs && tx in Next(s, step).txs
    ensures tx in Next(s, step).refs
  {
  }

  lemma ReturnedIsGone(s: State, t: State, tx: TxId)
    requires LogMatches(s) && LogMatches(t) && Consistent(t) && Returns(t.log, tx) > Returns(s.log, tx)
    requires tx !in s.txs && tx in t.txs ==> tx in t.refs
    ensures tx in s.refs && tx in t.txs && tx !in t.refs && !t.txs[tx].stage.Connected()
  {
    assert !Held(t, tx, OfTransaction);
    assert !Holds(t, tx, OfTransaction);
  }

  lemma OnlyHandleGone(s: State, step: Step, tx: TxId)
    requires Consistent(s) && Enabled(s, step) && tx in s.refs && tx !in Next(s, step).refs
    ensures s.slot == None && Next(s, step).slot == None && Next(s, step).permits == 1
  {
    var pc := PcOf(s, step.th);
    assert s.slot.Some? ==> Holds(s, s.slot.value.tx, OfSlot) && Held(s, s.slot.value.tx, OfSlot);
    if step.Leave? {
      LastReference(s, pc.tx, OfCall(step.th));
    } else if step.ClearSlot? {
      OverIsPublished(s, step.th);
    }
  }

  /** SQLite is left in a transaction, with no transaction of the shim running, only when a ROLLBACK failed. */
  lemma OnlyFailedRollbackLeavesOpen(steps: seq<Step>)
    requires Run(steps).Some? && Run(steps).value.open && Run(steps).value.permits == 1
    ensures StatusOf(Run(steps).value.log) == Unsure
  {
    RunsAreConsistent(steps);
    if StatusOf(Run(steps).value.log).Running? {
      RunningHasHandle(Run(steps).value);
    }
  }
}
