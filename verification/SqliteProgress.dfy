/** No thread is ever stuck for good: whenever a call is under way, some call can take a step, or a
    transaction is open that its user has yet to finish. */
module SqliteProgress {
  import opened Text
  import opened SqliteTransactions
  import opened SqliteRuns

  ghost predicate HandleSomewhere(s: State) {
    s.permits == 0 && s.raw == {} ==> s.refs.Keys != {}
  }

  predicate HasUser(stage: Stage) {
    stage.Fresh? || stage.Used? || stage.Over? || stage.Dismissed?
  }

  predicate Serves(s: State, tx: TxId)
    requires tx in s.txs && HasUser(s.txs[tx].stage)
  {
    var pc := PcOf(s, s.txs[tx].stage.user);
    StageAt(pc, s.txs[tx].stage.user) == Some(s.txs[tx].stage) && pc.tx == tx
  }

  /** The thread that uses a transaction is at work on it. */
  ghost predicate UsersWork(s: State) {
    forall tx :: tx in s.txs && HasUser(s.txs[tx].stage) ==> Serves(s, tx)
  }

  predicate HoldsLock(s: State, th: Thread, tx: TxId) {
    PcOf(s, th).Locked? && PcOf(s, th).tx == tx
  }

  ghost predicate LocksHeld(s: State) {
    forall tx :: tx in s.locks ==> exists th :: HoldsLock(s, th, tx)
  }

  lemma StepKeepsHandle(s: State, step: Step)
    requires Consistent(s) && HandleSomewhere(s) && Enabled(s, step)
    ensures HandleSomewhere(Next(s, step))
  {
    var th, pc, t := step.th, PcOf(s, step.th), Next(s, step);
    if step.ClearSlot? {
      OverIsPublished(s, th);
    }
    if step.Publish? {
      SecondCheckNeverFires(s, th);
    }
    assert step.Acquire? ==> th in t.raw;
    assert s.refs.Keys != {} ==> exists tx :: tx in s.refs.Keys;
  }

  lemma StepKeepsLocks(s: State, step: Step)
    requires Consistent(s) && LocksHeld(s) && Enabled(s, step)
    ensures LocksHeld(Next(s, step))
  {
    var th, pc, t := step.th, PcOf(s, step.th), Next(s, step);
    forall tx | tx in t.locks ensures exists th :: HoldsLock(t, th, tx) {
      if tx in s.locks {
        var holder :| HoldsLock(s, holder, tx);
        assert holder != th || step.RunLocked? ==> HoldsLock(t, holder, tx);
      } else {
        assert HoldsLock(t, th, tx);
      }
    }
  }

  lemma PoolStepKeepsUsers(s: State, step: Step)
    requires Consistent(s) && UsersWork(s) && Enabled(s, step) && OnPool(step)
    ensures UsersWork(Next(s, step))
  {
    var t := Next(s, step);
    if step.Publish? {
      SecondCheckNeverFires(s, step.th);
    }
    forall tx | tx in t.txs && HasUser(t.txs[tx].stage) ensures Serves(t, tx) {
      if tx in s.txs && HasUser(s.txs[tx].stage) {
        assert Serves(s, tx);
      }
    }
  }

  predicate ByCall(step: Step) {
    step.CallConnection? || step.CallBegin? || step.CallTransaction?
  }

  lemma CallKeepsUsers(s: State, step: Step)
    requires Consistent(s) && UsersWork(s) && Enabled(s, step) && ByCall(step)
    ensures UsersWork(Next(s, step))
  {
    var t := Next(s, step);
    forall tx | tx in t.txs && HasUser(t.txs[tx].stage) ensures Serves(t, tx) {
      if tx in s.txs && HasUser(s.txs[tx].stage) {
        assert Serves(s, tx);
      }
    }
  }

  lemma LeaveKeepsUsers(s: State, step: Step)
    requires Consistent(s) && UsersWork(s) && Enabled(s, step) && step.Leave?
    ensures UsersWork(Next(s, step))
  {
    var t := Next(s, step);
    forall tx | tx in t.txs && HasUser(t.txs[tx].stage) ensures Serves(t, tx) {
      if tx in s.txs && HasUser(s.txs[tx].stage) {
        assert Serves(s, tx);
      }
    }
  }

  lemma SharedStepKeepsUsers(s: State, step: Step)
    requires Consistent(s) && UsersWork(s) && Enabled(s, step) && !OnPool(step) && !ByCall(step) && !step.Leave?
    ensures UsersWork(Next(s, step))
  {
    var t := Next(s, step);
    if step.ClearSlot? {
      OverIsPublished(s, step.th);
    }
    forall tx | tx in t.txs && HasUser(t.txs[tx].stage) ensures Serves(t, tx) {
      if tx in s.txs && HasUser(s.txs[tx].stage) {
        assert Serves(s, tx);
      }
    }
  }

  lemma {:induction false} RunsAreAttended(steps: seq<Step>)
    requires Run(steps).Some?
    ensures HandleSomewhere(Run(steps).value) && UsersWork(Run(steps).value) && LocksHeld(Run(steps).value)
  {
    if steps != [] {
      var before, step := Run(steps[..|steps| - 1]).value, steps[|steps| - 1];
      RunsAreAttended(steps[..|steps| - 1]);
      RunsAreConsistent(steps[..|steps| - 1]);
      StepKeepsHandle(before, step);
      StepKeepsLocks(before, step);
      if OnPool(step) {
        PoolStepKeepsUsers(before, step);
      } else if ByCall(step) {
        CallKeepsUsers(before, step);
      } else if step.Leave? {
        LeaveKeepsUsers(before, step);
      } else {
        SharedStepKeepsUsers(before, step);
      }
    }
  }

  /** The step with which a call that is under way goes on, whatever SQLite answers. */
  function NextStep(pc: Pc, th: Thread): Step
    requires !pc.Outside?
  {
    match pc
    case AwaitPool(_) => Acquire(th)
    case Pooled(Statement) => RunOnPool(th, false)
    case Pooled(Begin) => BeginFails(th)
    case Pooled(GiveBack) => GiveBackHandle(th, false)
    case Begun(_) => Publish(th)
    case Cloned(_, _) => Lock(th)
    case Locked(_, Commit) => TryCommit(th, false, false)
    case Locked(_, Rollback) => TryRollback(th, false, false)
    case Locked(_, _) => Unlock(th)
    case Leaving(_, _, _) => Leave(th)
    case Ended(_) => ClearSlot(th)
    case Cleared(_) => TakeConnection(th)
  }

  predicate Moves(s: State, th: Thread) {
    !PcOf(s, th).Outside? && Enabled(s, NextStep(PcOf(s, th), th))
  }

  lemma NonWaiterMoves(s: State, th: Thread)
    requires Consistent(s) && !PcOf(s, th).Outside? && !PcOf(s, th).AwaitPool? && !PcOf(s, th).Cloned?
    ensures Moves(s, th)
  {
    var pc := PcOf(s, th);
    if pc.Leaving? {
      assert Holds(s, pc.tx, OfCall(th));
      assert Held(s, pc.tx, OfCall(th));
    } else if StageAt(pc, th).Some? {
      assert s.txs[pc.tx].stage == StageAt(pc, th).value;
      if !pc.Locked? {
        assert Holds(s, pc.tx, OfTransaction);
        assert Held(s, pc.tx, OfTransaction);
      }
    }
  }

  lemma SomeoneMoves(s: State, th: Thread)
    requires Consistent(s) && LocksHeld(s) && !PcOf(s, th).Outside? && !PcOf(s, th).AwaitPool?
    ensures exists mover :: Moves(s, mover)
  {
    var pc := PcOf(s, th);
    if pc.Cloned? && pc.tx in s.locks {
      var holder :| HoldsLock(s, holder, pc.tx);
      NonWaiterMoves(s, holder);
    } else if pc.Cloned? {
      assert Moves(s, th);
    } else {
      NonWaiterMoves(s, th);
    }
  }

  /** A call that waits for the pool waits for a call that moves, or for an open transaction. */
  lemma SharedHandleMoves(s: State, tx: TxId)
    requires Consistent(s) && UsersWork(s) && LocksHeld(s) && tx in s.refs
    requires !s.txs[tx].stage.Idle?
    ensures exists mover :: Moves(s, mover)
  {
    var ref :| ref in s.refs[tx];
    assert Held(s, tx, ref);
    assert Holds(s, tx, ref);
    match ref
    case OfCall(th) => SomeoneMoves(s, th);
    case _ =>
      assert HasUser(s.txs[tx].stage);
      assert Serves(s, tx);
      SomeoneMoves(s, s.txs[tx].stage.user);
  }

  /** In every interleaving: while any call is under way, some call under way can take its next step, or a
      transaction is open and nobody is using it. */
  lemma NeverStuck(steps: seq<Step>, th: Thread)
    requires Run(steps).Some? && !PcOf(Run(steps).value, th).Outside?
    ensures var s := Run(steps).value;
            (exists mover :: Moves(s, mover)) || exists tx :: tx in s.txs && s.txs[tx].stage.Idle?
  {
    var s := Run(steps).value;
    RunsAreConsistent(steps);
    RunsAreAttended(steps);
    if !PcOf(s, th).AwaitPool? {
      SomeoneMoves(s, th);
    } else if s.permits > 0 {
      assert Moves(s, th);
    } else if s.raw != {} {
      var other :| other in s.raw;
      NonWaiterMoves(s, other);
    } else {
      var tx :| tx in s.refs.Keys;
      if !s.txs[tx].stage.Idle? {
        SharedHandleMoves(s, tx);
      }
    }
  }

  /** When every call has come back and every transaction was finished, the handle is in the pool, the slot
      is clear, and each transaction's handle was returned exactly once. */
  lemma AllFinishedMeansReturned(steps: seq<Step>)
    requires Run(steps).Some?
    requires forall th :: PcOf(Run(steps).value, th).Outside?
    requires forall tx :: tx in Run(steps).value.txs ==> !Run(steps).value.txs[tx].stage.Idle?
    ensures var s := Run(steps).value;
            && s.permits == 1 && s.slot == None && s.refs == map[]
            && forall tx :: tx in s.txs ==> Returns(s.log, tx) == 1
  {
    var s := Run(steps).value;
    RunsAreConsistent(steps);
    RunsAreAttended(steps);
    assert forall mover :: !Moves(s, mover);
    forall tx ensures tx !in s.refs {
      if tx in s.refs {
        SharedHandleMoves(s, tx);
      }
    }
    assert s.refs == map[];
    assert s.slot.Some? ==> Holds(s, s.slot.value.tx, OfSlot);
    assert s.slot.Some? ==> Held(s, s.slot.value.tx, OfSlot);
    assert s.raw == {};
  }
}
