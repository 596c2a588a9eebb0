/** Why a call ends without a task, and when it registers one. */
module AgentOutcomes {
  import opened Text
  import opened FailureTable
  import opened AgentTasks

  /** A step of the call in which signing, storage or the server said no. */
  predicate SaysNo(step: Step, c: Caller) {
    || (step.Arrive? && step.c == c && !step.ok)
    || step in {Reread(c, false), Answer(c, None), Persist(c, false), Authorize(c, false)}
  }

  /** A check of the call that found a failure of its account and material younger than the time to live. */
  ghost predicate FindsFailure(s: State, step: Step, c: Caller) {
    && step == Check(c) && c in s.calls && Known(s, s.calls[c].account)
    && var key := Key(s.calls[c].account, TaskRegistration);
       key in s.table && s.now - s.table[key].failedAt < 300.0
         && s.table[key].material == s.identities[s.calls[c].account].material
  }

  ghost predicate Reason(s: State, step: Step, c: Caller) {
    SaysNo(step, c) || FindsFailure(s, step, c)
  }

  ghost predicate HadReason(s0: State, steps: seq<Step>, c: Caller) {
    exists i :: 0 <= i < |steps| && Run(s0, steps[..i]).Some? && Reason(Run(s0, steps[..i]).value, steps[i], c)
  }

  predicate HasFailed(pc: Pc) {
    pc.Failing? || pc == Leaving(None) || pc == Done(None)
  }

  predicate EndsWithout(s: State, c: Caller) {
    c in s.calls && Known(s, s.calls[c].account) && HasFailed(s.calls[c].pc)
  }

  lemma FailureIsCaused(s: State, step: Step, c: Caller)
    requires HistoryMatches(s) && Enabled(s, step) && EndsWithout(Next(s, step), c)
    ensures EndsWithout(s, c) || Reason(s, step, c)
  {
    KnownStays(s, step);
    if step.Arrive? {
      ArrivalIsCaused(s, step, c);
    } else if !step.Tick? && !step.Elsewhere? && step.c == c {
      MoveIsCaused(s, c, step);
    }
  }

  lemma ArrivalIsCaused(s: State, step: Step, c: Caller)
    requires Enabled(s, step) && step.Arrive?
    requires c in Next(s, step).calls && Known(s, Next(s, step).calls[c].account)
    requires HasFailed(Next(s, step).calls[c].pc)
    ensures EndsWithout(s, c) || SaysNo(step, c)
  {
  }

  lemma MoveIsCaused(s: State, c: Caller, step: Step)
    requires c in s.calls && Known(s, s.calls[c].account) && Ready(s, s.calls[c], step) && step.c == c
    requires !step.Arrive? && !step.Tick? && !step.Elsewhere? && HasFailed(Moved(s, c, step).calls[c].pc)
    ensures HasFailed(s.calls[c].pc) || Reason(s, step, c)
  {
  }

  lemma KnownStays(s: State, step: Step)
    requires HistoryMatches(s) && Enabled(s, step)
    ensures forall a :: Known(Next(s, step), a) <==> Known(s, a)
  {
    StepKeepsFirst(s, step);
    forall a ensures Known(Next(s, step), a) <==> Known(s, a) {
      assert a in Next(s, step).identities <==> a in Next(s, step).identities.Keys;
      assert a in s.identities <==> a in s.identities.Keys;
      assert a in s.history <==> a in s.history.Keys;
      assert a in s.stale <==> a in s.stale.Keys;
      assert a in Next(s, step).history <==> a in Next(s, step).history.Keys;
    }
  }

  lemma ReasonStays(s0: State, steps: seq<Step>, c: Caller)
    requires steps != [] && HadReason(s0, steps[..|steps| - 1], c)
    ensures HadReason(s0, steps, c)
  {
    var before := steps[..|steps| - 1];
    var i :| 0 <= i < |before| && Run(s0, before[..i]).Some? && Reason(Run(s0, before[..i]).value, before[i], c);
    assert before[..i] == steps[..i];
  }

  /** In every interleaving, a call for a known account that ends without a task had a reason: signing, storage
      or the server refused it something, or a failure was cooling down. So a usable task is always served. */
  lemma {:induction false} FailureHasReason(identities: map<Account, Identity>, table: Table, now: real,
                                            steps: seq<Step>, c: Caller)
    requires Run(Init(identities, table, now), steps).Some?
    requires EndsWithout(Run(Init(identities, table, now), steps).value, c)
    ensures HadReason(Init(identities, table, now), steps, c)
  {
    var s0 := Init(identities, table, now);
    if steps != [] {
      var n := |steps| - 1;
      var before := Run(s0, steps[..n]).value;
      RunsMatch(identities, table, now, steps[..n]);
      FailureIsCaused(before, steps[n], c);
      if EndsWithout(before, c) {
        FailureHasReason(identities, table, now, steps[..n], c);
        ReasonStays(s0, steps, c);
      }
    }
  }

  /** A registration is sent only for a call that found no task under the lock, or the one that it reported. */
  lemma RegistersOnlyWhenNeeded(identities: map<Account, Identity>, table: Table, now: real, steps: seq<Step>,
                                c: Caller)
    requires Run(Init(identities, table, now), steps).Some?
    requires Enabled(Run(Init(identities, table, now), steps).value, Register(c))
    ensures var s := Run(Init(identities, table, now), steps).value;
            var task := s.identities[s.calls[c].account].task;
            task.None? || task == s.calls[c].failed
  {
    RunsMatch(identities, table, now, steps);
    var s := Run(Init(identities, table, now), steps).value;
    assert CallMatches(s, s.calls[c]);
  }

  // ----- a success ends the cool-down -----

  /** A failure in the table that holds registrations of the account back while it is live. */
  ghost predicate HoldsBack(s: State, a: Account) {
    var key := Key(a, TaskRegistration);
    a in s.identities && key in s.table && s.table[key].material == s.identities[a].material
  }

  ghost predicate Remembers(s: State, step: Step, a: Account) {
    step.Remember? && step.c in s.calls && s.calls[step.c].account == a
  }

  ghost predicate RememberedSince(s0: State, steps: seq<Step>, i: nat, a: Account) {
    exists k :: i < k < |steps| && Run(s0, steps[..k]).Some? && Remembers(Run(s0, steps[..k]).value, steps[k], a)
  }

  lemma OnlyFailuresHoldBack(s: State, step: Step, a: Account)
    requires HistoryMatches(s) && Enabled(s, step) && HoldsBack(Next(s, step), a)
    ensures HoldsBack(s, a) || Remembers(s, step, a)
  {
    StepKeepsFirst(s, step);
    assert a in s.identities <==> a in s.identities.Keys;
    assert a in Next(s, step).identities <==> a in Next(s, step).identities.Keys;
  }

  /** A call for the account clears its failures with step `i`. */
  ghost predicate ClearsAt(s0: State, steps: seq<Step>, i: nat, a: Account)
    requires i < |steps|
  {
    && steps[i].Clear? && Run(s0, steps[..i]).Some?
    && var s := Run(s0, steps[..i]).value;
       steps[i].c in s.calls && s.calls[steps[i].c].account == a
  }

  /** After a success nothing holds registrations of the account back, until a later failure is entered. */
  lemma {:induction false} SuccessClears(identities: map<Account, Identity>, table: Table, now: real, steps: seq<Step>,
                                         i: nat, a: Account)
    requires Run(Init(identities, table, now), steps).Some? && i < |steps|
    requires ClearsAt(Init(identities, table, now), steps, i, a)
    requires HoldsBack(Run(Init(identities, table, now), steps).value, a)
    ensures RememberedSince(Init(identities, table, now), steps, i, a)
  {
    var s0, n := Init(identities, table, now), |steps| - 1;
    var before := Run(s0, steps[..n]).value;
    if i < n {
      RunsMatch(identities, table, now, steps[..n]);
      OnlyFailuresHoldBack(before, steps[n], a);
      if HoldsBack(before, a) {
        assert steps[..n][..i] == steps[..i];
        SuccessClears(identities, table, now, steps[..n], i, a);
        RememberedBefore(s0, steps, i, a);
      }
    }
  }

  lemma RememberedBefore(s0: State, steps: seq<Step>, i: nat, a: Account)
    requires steps != [] && RememberedSince(s0, steps[..|steps| - 1], i, a)
    ensures RememberedSince(s0, steps, i, a)
  {
    var init := steps[..|steps| - 1];
    var k :| i < k < |init| && Run(s0, init[..k]).Some? && Remembers(Run(s0, init[..k]).value, init[k], a);
    assert init[..k] == steps[..k];
  }
}
