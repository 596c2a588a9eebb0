/** How transactions end: what a call asked for is what SQLite is told. */
module SqliteEndings {
  import opened Text
  import opened SqliteTransactions
  import opened SqliteRuns

  /** What the run asked of the transaction: `commit()`, or a rollback, which dropping it asks for. */
  function Asked(steps: seq<Step>, tx: TxId): Option<Job> {
    if steps == [] then None
    else AskedBy(steps[|steps| - 1], tx, Asked(steps[..|steps| - 1], tx))
  }

  function AskedBy(step: Step, tx: TxId, before: Option<Job>): Option<Job> {
    if step.CallTransaction? && step.tx == tx && step.job in {Commit, Rollback} then Some(step.job) else before
  }

  predicate OfEnd(event: Event, tx: TxId) {
    (event.CommitTried? || event.RollbackTried?) && event.tx == tx
  }

  /** The COMMITs and ROLLBACKs of the transaction, in their order. */
  function Endings(log: seq<Event>, tx: TxId): seq<Event> {
    if log == [] then []
    else
      var last := log[|log| - 1];
      Endings(log[..|log| - 1], tx) + (if OfEnd(last, tx) then [last] else [])
  }

  lemma EndingsExtend(log: seq<Event>, event: Event, tx: TxId)
    ensures Endings(log + [event], tx) == Endings(log, tx) + (if OfEnd(event, tx) then [event] else [])
  {
    assert (log + [event])[..|log|] == log;
  }

  lemma {:induction false} EndingsMembers(log: seq<Event>, tx: TxId)
    ensures forall e :: e in Endings(log, tx) <==> e in log && OfEnd(e, tx)
  {
    if log != [] {
      var n := |log| - 1;
      EndingsMembers(log[..n], tx);
      assert log == log[..n] + [log[n]];
    }
  }

  /** A commit that worked; or one that failed and was rolled back; or a rollback, if that was asked for. */
  predicate Complete(tx: TxId, asked: Option<Job>, ends: seq<Event>) {
    match asked
    case Some(Commit) => ends == [CommitTried(tx, true)] || RolledBack(tx, [CommitTried(tx, false)], ends)
    case Some(Rollback) => RolledBack(tx, [], ends)
    case _ => false
  }

  predicate RolledBack(tx: TxId, before: seq<Event>, ends: seq<Event>) {
    ends == before + [RollbackTried(tx, true)] || ends == before + [RollbackTried(tx, false)]
  }

  /** How far a call of the transaction's own methods has got. */
  predicate WorksOn(tx: TxId, pc: Pc, asked: Option<Job>, ends: seq<Event>)
    requires InCall(pc, tx)
  {
    match pc.job
    case TxQuery => asked == None && ends == []
    case Commit =>
      asked == Some(Commit) && (if pc.Leaving? then !pc.ok && ends == [CommitTried(tx, false)] else ends == [])
    case Rollback =>
      && !pc.Leaving?
      && ((asked == Some(Rollback) && ends == []) || (asked == Some(Commit) && ends == [CommitTried(tx, false)]))
    case _ => false
  }

  ghost predicate EndMatches(s: State, tx: TxId, asked: Option<Job>, ends: seq<Event>) {
    && (tx !in s.txs ==> asked == None && ends == [])
    && (tx in s.txs ==>
          match s.txs[tx].stage
          case Fresh(_) => asked == None && ends == []
          case Idle => asked == None && ends == []
          case Used(th) => InCall(PcOf(s, th), tx) && WorksOn(tx, PcOf(s, th), asked, ends)
          case _ => Complete(tx, asked, ends))
  }

  /** What `commit()` is about to answer is what COMMIT answered. */
  ghost predicate AnswerMatches(s: State, tx: TxId, ends: seq<Event>) {
    forall th, ok :: PcOf(s, th) == Leaving(tx, Commit, ok) ==> ends == [CommitTried(tx, ok)]
  }

  ghost predicate Matches(s: State, tx: TxId, asked: Option<Job>, ends: seq<Event>) {
    EndMatches(s, tx, asked, ends) && AnswerMatches(s, tx, ends)
  }

  // ----- one step -----

  /** Only the stepping thread's place may change, and the stages of no transaction. */
  ghost predicate MovesOnly(s: State, t: State, th: Thread) {
    t.txs == s.txs && forall other :: other != th ==> PcOf(t, other) == PcOf(s, other)
  }

  /** The thread works in none of the transaction's own methods, and does not come to, or goes on in one. */
  lemma MoveKeepsEnd(s: State, t: State, th: Thread, tx: TxId, asked: Option<Job>, ends: seq<Event>)
    requires Consistent(s) && Matches(s, tx, asked, ends) && MovesOnly(s, t, th)
    requires tx in s.txs && s.txs[tx].stage == Used(th) ==>
               InCall(PcOf(s, th), tx) ==> InCall(PcOf(t, th), tx) && WorksOn(tx, PcOf(t, th), asked, ends)
    requires PcOf(t, th).Leaving? && PcOf(t, th).job.Commit? ==> PcOf(t, th) == PcOf(s, th)
    ensures Matches(t, tx, asked, ends)
  {
  }

  lemma PlainStepKeepsEnd(s: State, step: Step, tx: TxId, asked: Option<Job>, ends: seq<Event>)
    requires Consistent(s) && Enabled(s, step) && Matches(s, tx, asked, ends)
    requires step.CallConnection? || step.CallBegin? || step.Acquire? || step.RunOnPool? || step.GiveBackHandle?
      || step.BeginFails? || step.Lock? || step.RunLocked? || step.Unlock?
    ensures Matches(Next(s, step), tx, asked, ends)
  {
    var t := Next(s, step);
    forall other | other != step.th ensures PcOf(t, other) == PcOf(s, other) {}
    assert t.txs == s.txs;
    MoveKeepsEnd(s, t, step.th, tx, asked, ends);
  }

  /** Steps that move the stage of a transaction on before its first use. */
  lemma FirstStepKeepsEnd(s: State, step: Step, tx: TxId, asked: Option<Job>, ends: seq<Event>)
    requires Consistent(s) && Enabled(s, step) && Matches(s, tx, asked, ends) && (step.BeginWorks? || step.Publish?)
    ensures Matches(Next(s, step), tx, asked, ends)
  {
    var t := Next(s, step);
    forall other | other != step.th ensures PcOf(t, other) == PcOf(s, other) {}
    if step.Publish? {
      SecondCheckNeverFires(s, step.th);
      OwnStage(s, step.th);
    }
  }

  /** Steps that move it on after its end. */
  lemma LastStepKeepsEnd(s: State, step: Step, tx: TxId, asked: Option<Job>, ends: seq<Event>)
    requires Consistent(s) && Enabled(s, step) && Matches(s, tx, asked, ends)
    requires step.ClearSlot? || step.TakeConnection?
    ensures Matches(Next(s, step), tx, asked, ends)
  {
    var t := Next(s, step);
    forall other | other != step.th ensures PcOf(t, other) == PcOf(s, other) {}
    OwnStage(s, step.th);
  }

  lemma CallKeepsEnd(s: State, step: Step, tx: TxId, asked: Option<Job>, ends: seq<Event>)
    requires Consistent(s) && Enabled(s, step) && step.CallTransaction? && Matches(s, tx, asked, ends)
    ensures Matches(Next(s, step), tx, AskedBy(step, tx, asked), ends)
  {
    var t := Next(s, step);
    forall other | other != step.th ensures PcOf(t, other) == PcOf(s, other) {}
  }

  lemma EndStepKeepsEnd(s: State, step: Step, tx: TxId, asked: Option<Job>, ends: seq<Event>)
    requires Consistent(s) && Enabled(s, step) && (step.TryCommit? || step.TryRollback?) && Matches(s, tx, asked, ends)
    ensures var event := Next(s, step).log[|s.log|];
            Matches(Next(s, step), tx, asked, ends + if OfEnd(event, tx) then [event] else [])
  {
    var th, t := step.th, Next(s, step);
    forall other | other != th ensures PcOf(t, other) == PcOf(s, other) {}
    OwnStage(s, th);
    EndedKeepsEnd(s, t, th, step.ok, t.log[|s.log|], tx, asked, ends);
  }

  lemma EndedKeepsEnd(s: State, t: State, th: Thread, ok: bool, event: Event, tx: TxId, asked: Option<Job>,
                      ends: seq<Event>)
    requires Consistent(s) && Matches(s, tx, asked, ends)
    requires PcOf(s, th).Locked? && PcOf(s, th).tx in s.txs && s.txs[PcOf(s, th).tx].stage == Used(th)
    requires forall other :: other != th ==> PcOf(t, other) == PcOf(s, other)
    requires PcOf(t, th) == Leaving(PcOf(s, th).tx, PcOf(s, th).job, ok)
    requires var own, over := PcOf(s, th).tx, ok || PcOf(s, th).job.Rollback?;
             && event == (if PcOf(s, th).job.Rollback? then RollbackTried(own, ok) else CommitTried(own, ok))
             && t.txs == s.txs[own := s.txs[own].(stage := if over then Over(th) else Used(th))]
    requires PcOf(s, th).job in {Commit, Rollback}
    ensures Matches(t, tx, asked, ends + if OfEnd(event, tx) then [event] else [])
  {
  }

  lemma LeaveKeepsEnd(s: State, step: Step, tx: TxId, asked: Option<Job>, ends: seq<Event>)
    requires Consistent(s) && Enabled(s, step) && step.Leave? && Matches(s, tx, asked, ends)
    ensures Matches(Next(s, step), tx, asked, ends)
  {
    var th, pc, t := step.th, PcOf(s, step.th), Next(s, step);
    forall other | other != th ensures PcOf(t, other) == PcOf(s, other) {}
    if pc.job.Commit? && !pc.ok {
      MoveKeepsEnd(s, t, th, tx, asked, ends);
    } else {
      if StageAt(pc, th).Some? {
        OwnStage(s, th);
      }
      LeftKeepsEnd(s, t, th, tx, asked, ends);
    }
  }

  lemma LeftKeepsEnd(s: State, t: State, th: Thread, tx: TxId, asked: Option<Job>, ends: seq<Event>)
    requires Matches(s, tx, asked, ends) && PcOf(s, th).Leaving? && PcOf(s, th).tx in s.txs
    requires forall other :: other != th ==> PcOf(t, other) == PcOf(s, other)
    requires var own := PcOf(s, th).tx;
             t.txs == s.txs[own := s.txs[own].(stage := StageAfter(s.txs[own].stage, PcOf(s, th).job))]
    requires StageAt(PcOf(s, th), th).Some? ==> s.txs[PcOf(s, th).tx].stage == StageAt(PcOf(s, th), th).value
    requires PcOf(s, th).job.Commit? ==> PcOf(s, th).ok
    requires !PcOf(t, th).Leaving?
    ensures Matches(t, tx, asked, ends)
  {
  }

  lemma StepGrowsLog(s: State, step: Step)
    requires Enabled(s, step)
    ensures var t := Next(s, step);
            t.log == s.log || (t.log == s.log + [t.log[|s.log|]]
                               && ((t.log[|s.log|].CommitTried? || t.log[|s.log|].RollbackTried?)
                                   ==> step.TryCommit? || step.TryRollback?))
    ensures step.TryCommit? || step.TryRollback? ==> Next(s, step).log != s.log
  {
  }

  /** Only two steps log an ending. */
  lemma StepLogs(s: State, step: Step, tx: TxId)
    requires Enabled(s, step)
    ensures step.TryCommit? || step.TryRollback? ==> Next(s, step).log == s.log + [Next(s, step).log[|s.log|]]
    ensures !step.TryCommit? && !step.TryRollback? ==> Endings(Next(s, step).log, tx) == Endings(s.log, tx)
  {
    var log := Next(s, step).log;
    StepGrowsLog(s, step);
    if log != s.log {
      EndingsExtend(s.log, log[|s.log|], tx);
    }
  }

  lemma StepKeepsEnd(s: State, step: Step, tx: TxId, asked: Option<Job>)
    requires Consistent(s) && Enabled(s, step) && Matches(s, tx, asked, Endings(s.log, tx))
    ensures Matches(Next(s, step), tx, AskedBy(step, tx, asked), Endings(Next(s, step).log, tx))
  {
    var ends := Endings(s.log, tx);
    StepLogs(s, step, tx);
    if step.TryCommit? || step.TryRollback? {
      EndStepKeepsEnd(s, step, tx, asked, ends);
      EndingsExtend(s.log, Next(s, step).log[|s.log|], tx);
    } else if step.CallTransaction? {
      CallKeepsEnd(s, step, tx, asked, ends);
    } else if step.Leave? {
      LeaveKeepsEnd(s, step, tx, asked, ends);
    } else if step.BeginWorks? || step.Publish? {
      FirstStepKeepsEnd(s, step, tx, asked, ends);
    } else if step.ClearSlot? || step.TakeConnection? {
      LastStepKeepsEnd(s, step, tx, asked, ends);
    } else {
      PlainStepKeepsEnd(s, step, tx, asked, ends);
    }
  }

  lemma {:induction false} RunsMatch(steps: seq<Step>, tx: TxId)
    requires Run(steps).Some?
    ensures Matches(Run(steps).value, tx, Asked(steps, tx), Endings(Run(steps).value.log, tx))
  {
    if steps != [] {
      var before, step := Run(steps[..|steps| - 1]).value, steps[|steps| - 1];
      RunsMatch(steps[..|steps| - 1], tx);
      RunsAreConsistent(steps[..|steps| - 1]);
      StepKeepsEnd(before, step, tx, Asked(steps[..|steps| - 1], tx));
    }
  }

  // ----- the main results: every interleaving -----

  /** In every run, a transaction that is over was ended as it was asked: after `commit()` there is one COMMIT
      that worked and nothing else, or one that failed and then a ROLLBACK; after a drop or `rollback()` there
      is one ROLLBACK and no COMMIT. One that is not over has no COMMIT that worked and no ROLLBACK. */
  lemma EndedAsAsked(steps: seq<Step>, tx: TxId)
    requires Run(steps).Some? && tx in Run(steps).value.txs
    ensures var s, ends := Run(steps).value, Endings(Run(steps).value.log, tx);
            if s.txs[tx].stage.InWindow() then ends == [] || ends == [CommitTried(tx, false)]
            else Complete(tx, Asked(steps, tx), ends)
  {
    RunsMatch(steps, tx);
  }

  /** A call of `commit()` leaves with what the one COMMIT of the transaction answered. */
  lemma CommitAnswers(steps: seq<Step>, th: Thread, tx: TxId, ok: bool)
    requires Run(steps).Some? && PcOf(Run(steps).value, th) == Leaving(tx, Commit, ok)
    ensures Asked(steps, tx) == Some(Commit) && Endings(Run(steps).value.log, tx) == [CommitTried(tx, ok)]
  {
    RunsMatch(steps, tx);
    RunsAreConsistent(steps);
    AnswerWasAsked(Run(steps).value, th, tx, ok, Asked(steps, tx), Endings(Run(steps).value.log, tx));
  }

  lemma AnswerWasAsked(s: State, th: Thread, tx: TxId, ok: bool, asked: Option<Job>, ends: seq<Event>)
    requires Consistent(s) && Matches(s, tx, asked, ends) && PcOf(s, th) == Leaving(tx, Commit, ok)
    ensures asked == Some(Commit) && ends == [CommitTried(tx, ok)]
  {
    OwnStage(s, th);
    assert ends == [CommitTried(tx, ok)];
    assert !RolledBack(tx, [], ends) by {
      assert ends[0].CommitTried?;
    }
  }

  /** So one that leaves with success has committed, and no later state of the run has a ROLLBACK of the
      transaction. */
  lemma CommitIsFinal(steps: seq<Step>, more: seq<Step>, th: Thread, tx: TxId, answer: bool)
    requires Run(steps).Some? && Run(steps + more).Some? && PcOf(Run(steps).value, th) == Leaving(tx, Commit, true)
    ensures CommitTried(tx, true) in Run(steps + more).value.log
    ensures RollbackTried(tx, answer) !in Run(steps + more).value.log
  {
    CommitAnswers(steps, th, tx, true);
    EndingsMembers(Run(steps).value.log, tx);
    assert CommitTried(tx, true) in Endings(Run(steps).value.log, tx);
    LogGrows(steps, more);
    CommittedStays(steps + more, tx);
  }

  /** A COMMIT that worked was asked for, and excludes a ROLLBACK, before and after it. */
  lemma CommittedStays(steps: seq<Step>, tx: TxId)
    requires Run(steps).Some? && CommitTried(tx, true) in Run(steps).value.log
    ensures Asked(steps, tx) == Some(Commit) && Endings(Run(steps).value.log, tx) == [CommitTried(tx, true)]
    ensures forall answer :: RollbackTried(tx, answer) !in Run(steps).value.log
  {
    var s := Run(steps).value;
    var ends := Endings(s.log, tx);
    RunsMatch(steps, tx);
    EndingsMembers(s.log, tx);
    assert CommitTried(tx, true) in ends;
    OnlyCommitted(s, tx, Asked(steps, tx), ends);
    forall answer ensures RollbackTried(tx, answer) !in s.log {
      assert RollbackTried(tx, answer) !in ends;
    }
  }

  lemma OnlyCommitted(s: State, tx: TxId, asked: Option<Job>, ends: seq<Event>)
    requires EndMatches(s, tx, asked, ends) && CommitTried(tx, true) in ends
    ensures asked == Some(Commit) && ends == [CommitTried(tx, true)]
  {
  }

  lemma {:induction false} LogGrows(steps: seq<Step>, more: seq<Step>)
    requires Run(steps + more).Some?
    ensures Run(steps).Some? && Run(steps).value.log <= Run(steps + more).value.log
  {
    var all := steps + more;
    if more == [] {
      assert all == steps;
    } else {
      var n := |more| - 1;
      assert all[..|all| - 1] == steps + more[..n] && all[|all| - 1] == more[n];
      LogGrows(steps, more[..n]);
      StepGrowsLog(Run(steps + more[..n]).value, more[n]);
    }
  }
}
