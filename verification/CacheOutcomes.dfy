/** What callers of the catalog cache get: a fresh snapshot if there is one, and an error only for a reason. */
module CacheOutcomes {
  import opened Text
  import opened CatalogCache

  // ----- a fresh snapshot is served -----

  /** The look of the step finds a fresh snapshot; `at` is the time that it is measured at. */
  predicate FindsFresh(s: State, step: Step, at: int, snapshot: Snapshot) {
    && (step.Look? || step.LookAgain?) && Enabled(s, step) && step.readable
    && at == (if step.Look? then s.calls[step.c].pc.since else s.now)
    && FileOf(s.files, s.calls[step.c].key) == Valid(snapshot) && snapshot.version == s.calls[step.c].version
    && snapshot.stamp.Some? && at - snapshot.stamp.value <= 300
  }

  lemma DoneStays(s: State, step: Step, c: Caller)
    requires Enabled(s, step) && c in s.calls && s.calls[c].pc.Done? && s.calls[c].worker.NoWorker?
    ensures c in Next(s, step).calls && Next(s, step).calls[c] == s.calls[c]
  {
  }

  /** A call whose first or second look finds a fresh snapshot is answered with it at once, for good. */
  lemma {:induction false} FreshIsServed(now: int, files: map<CacheKey, File>, steps: seq<Step>, step: Step,
                                         more: seq<Step>, at: int, snapshot: Snapshot)
    requires Run(Init(now, files), steps).Some? && FindsFresh(Run(Init(now, files), steps).value, step, at, snapshot)
    requires Run(Init(now, files), steps + [step] + more).Some?
    ensures var t := Run(Init(now, files), steps + [step] + more).value;
            step.c in t.calls && t.calls[step.c].pc == Done(Cached(snapshot, at)) && t.calls[step.c].worker.NoWorker?
  {
    var all := steps + [step] + more;
    if more == [] {
      assert all == steps + [step] && all[..|steps|] == steps;
      RunsMatch(now, files, steps);
    } else {
      var n := |more| - 1;
      assert all[..|all| - 1] == steps + [step] + more[..n] && all[|all| - 1] == more[n];
      FreshIsServed(now, files, steps, step, more[..n], at, snapshot);
      DoneStays(Run(Init(now, files), steps + [step] + more[..n]).value, more[n], step.c);
    }
  }

  // ----- an error has a reason -----

  /** The answer is invalid or cannot be written; or it did not come, and the second look had found nothing. */
  predicate Fails(s: State, step: Step, c: Caller) {
    || step == Build(c, false) || step == Write(c, false)
    || (step == Fetch(c, None) && c in s.calls && s.calls[c].pc.Fetching? && s.calls[c].pc.cached.None?)
  }

  predicate HasError(s: State, c: Caller) {
    c in s.calls && (s.calls[c].pc == Done(Error) || s.calls[c].worker == Finished(Error))
  }

  ghost predicate HadFailure(s0: State, steps: seq<Step>, c: Caller) {
    exists i :: 0 <= i < |steps| && Run(s0, steps[..i]).Some? && Fails(Run(s0, steps[..i]).value, steps[i], c)
  }

  lemma ErrorIsCaused(s: State, step: Step, c: Caller)
    requires Enabled(s, step) && HasError(Next(s, step), c)
    ensures HasError(s, c) || Fails(s, step, c)
  {
  }

  /** In every interleaving, a call gets an error only if its answer was invalid or could not be written, or its
      fetch failed and there was no snapshot of its version: with one, a failed fetch serves that. */
  lemma {:induction false} ErrorHasReason(now: int, files: map<CacheKey, File>, steps: seq<Step>, c: Caller)
    requires Run(Init(now, files), steps).Some? && HasError(Run(Init(now, files), steps).value, c)
    ensures HadFailure(Init(now, files), steps, c)
  {
    if steps != [] {
      var n := |steps| - 1;
      var before := Run(Init(now, files), steps[..n]).value;
      ErrorIsCaused(before, steps[n], c);
      if HasError(before, c) {
        ErrorHasReason(now, files, steps[..n], c);
        var i :| 0 <= i < n && Run(Init(now, files), steps[..n][..i]).Some?
          && Fails(Run(Init(now, files), steps[..n][..i]).value, steps[..n][i], c);
        assert steps[..n][..i] == steps[..i];
      }
    }
  }

  // ----- what a call fetches for -----

  /** The second look of the call: nothing fresh, and `found` if there is a snapshot of its version. */
  predicate LooksInVain(s: State, step: Step, c: Caller, found: Option<Snapshot>) {
    && step.LookAgain? && step.c == c && Enabled(s, step) && !Fresh(found, s.now)
    && found == (if step.readable then Compatible(FileOf(s.files, s.calls[c].key), s.calls[c].version) else None)
  }

  ghost predicate LookedInVain(s0: State, steps: seq<Step>, c: Caller, found: Option<Snapshot>) {
    exists i :: 0 <= i < |steps| && Run(s0, steps[..i]).Some?
      && LooksInVain(Run(s0, steps[..i]).value, steps[i], c, found)
  }

  lemma FetchIsCaused(s: State, step: Step, c: Caller)
    requires Enabled(s, step) && c in Next(s, step).calls && Next(s, step).calls[c].pc.Fetching?
    ensures (c in s.calls && s.calls[c].pc == Next(s, step).calls[c].pc)
         || LooksInVain(s, step, c, Next(s, step).calls[c].pc.cached)
  {
  }

  /** A call fetches only after a second look without a fresh snapshot, and keeps what that look found. */
  lemma {:induction false} FetchesAfterLook(now: int, files: map<CacheKey, File>, steps: seq<Step>, c: Caller)
    requires Run(Init(now, files), steps).Some?
    requires c in Run(Init(now, files), steps).value.calls && Run(Init(now, files), steps).value.calls[c].pc.Fetching?
    ensures LookedInVain(Init(now, files), steps, c, Run(Init(now, files), steps).value.calls[c].pc.cached)
  {
    if steps != [] {
      var n := |steps| - 1;
      var before, cached := Run(Init(now, files), steps[..n]).value,
                            Run(Init(now, files), steps).value.calls[c].pc.cached;
      FetchIsCaused(before, steps[n], c);
      if !LooksInVain(before, steps[n], c, cached) {
        FetchesAfterLook(now, files, steps[..n], c);
        var i :| 0 <= i < n && Run(Init(now, files), steps[..n][..i]).Some?
          && LooksInVain(Run(Init(now, files), steps[..n][..i]).value, steps[..n][i], c, cached);
        assert steps[..n][..i] == steps[..i];
      }
    }
  }

  // ----- what is committed -----

  ghost predicate Answered(steps: seq<Step>, c: Caller, body: nat) {
    Fetch(c, Some(body)) in steps
  }

  /** The worker of the call built the snapshot from an answer that the call had got, and at that time. */
  ghost predicate Built(s0: State, steps: seq<Step>, c: Caller, snapshot: Snapshot) {
    && Answered(steps, c, snapshot.body)
    && exists i :: 0 <= i < |steps| && BuiltAt(s0, steps, c, snapshot, i)
  }

  ghost predicate BuiltAt(s0: State, steps: seq<Step>, c: Caller, snapshot: Snapshot, i: nat)
    requires i < |steps|
  {
    && steps[i] == Build(c, true) && Run(s0, steps[..i]).Some?
    && snapshot.stamp == Some(Run(s0, steps[..i]).value.now)
  }

  ghost predicate Honest(s0: State, steps: seq<Step>, s: State, c: Caller)
    requires c in s.calls
  {
    var call := s.calls[c];
    && (call.pc.Handing? ==> Answered(steps, c, call.pc.body))
    && (call.worker.Building? ==> Answered(steps, c, call.worker.body))
    && (call.worker.Writing? ==> Built(s0, steps, c, call.worker.snapshot))
  }

  ghost predicate AllHonest(s0: State, steps: seq<Step>, s: State) {
    && (forall c :: c in s.calls ==> Honest(s0, steps, s, c))
    && (forall e :: e in s.log && e.Committed? ==> Built(s0, steps, e.caller, e.snapshot))
  }

  lemma BuiltStays(s0: State, steps: seq<Step>, step: Step, c: Caller, snapshot: Snapshot)
    requires Built(s0, steps, c, snapshot)
    ensures Built(s0, steps + [step], c, snapshot)
  {
    var i :| 0 <= i < |steps| && BuiltAt(s0, steps, c, snapshot, i);
    assert (steps + [step])[..i] == steps[..i] && (steps + [step])[i] == steps[i];
    assert BuiltAt(s0, steps + [step], c, snapshot, i);
  }

  lemma OthersStayHonest(s0: State, steps: seq<Step>, s: State, step: Step, c: Caller)
    requires c in s.calls && Honest(s0, steps, s, c)
    ensures Honest(s0, steps + [step], s, c)
  {
    if s.calls[c].worker.Writing? {
      BuiltStays(s0, steps, step, c, s.calls[c].worker.snapshot);
    }
  }

  lemma OwnStaysHonest(s0: State, steps: seq<Step>, s: State, step: Step)
    requires Run(s0, steps) == Some(s) && Enabled(s, step) && !step.Tick?
    requires step.Arrive? || Honest(s0, steps + [step], s, step.c)
    ensures Honest(s0, steps + [step], Next(s, step), step.c)
  {
    if step.Fetch? && step.body.Some? {
      assert (steps + [step])[|steps|] == step;
    } else if step.Build? && step.ok {
      assert (steps + [step])[|steps|] == step && (steps + [step])[..|steps|] == steps;
      assert BuiltAt(s0, steps + [step], step.c, Next(s, step).calls[step.c].worker.snapshot, |steps|);
    }
  }

  lemma CommitIsBuilt(s0: State, steps: seq<Step>, s: State, step: Step)
    requires Enabled(s, step) && AllHonest(s0, steps, s)
    ensures forall e :: e in Next(s, step).log && e.Committed? ==> Built(s0, steps, e.caller, e.snapshot)
  {
    var t := Next(s, step);
    if step.Write? && step.ok {
      assert Honest(s0, steps, s, step.c);
      forall e | e in t.log && e.Committed? ensures Built(s0, steps, e.caller, e.snapshot) {
        assert e in s.log || e == t.log[|s.log|];
      }
    } else if step.Fetch? && step.body.None? {
      forall e | e in t.log && e.Committed? ensures Built(s0, steps, e.caller, e.snapshot) {
        assert e in s.log;
      }
    }
  }

  lemma StepKeepsHonest(s0: State, steps: seq<Step>, s: State, step: Step)
    requires Run(s0, steps) == Some(s) && Enabled(s, step) && AllHonest(s0, steps, s)
    ensures AllHonest(s0, steps + [step], Next(s, step))
  {
    var t := Next(s, step);
    forall c | c in s.calls ensures Honest(s0, steps + [step], s, c) {
      OthersStayHonest(s0, steps, s, step, c);
    }
    if !step.Tick? {
      OwnStaysHonest(s0, steps, s, step);
    }
    forall c | c in t.calls ensures Honest(s0, steps + [step], t, c) {
      assert step.Tick? || c != step.c ==> c in s.calls && t.calls[c] == s.calls[c];
    }
    CommitIsBuilt(s0, steps, s, step);
    forall e | e in t.log && e.Committed? ensures Built(s0, steps + [step], e.caller, e.snapshot) {
      BuiltStays(s0, steps, step, e.caller, e.snapshot);
    }
  }

  /** In every interleaving, what a call commits is what the server had answered it, with the time at which its
      worker took it over. */
  lemma {:induction false} CommitsAreAnswers(now: int, files: map<CacheKey, File>, steps: seq<Step>)
    requires Run(Init(now, files), steps).Some?
    ensures AllHonest(Init(now, files), steps, Run(Init(now, files), steps).value)
  {
    if steps != [] {
      var n := |steps| - 1;
      CommitsAreAnswers(now, files, steps[..n]);
      StepKeepsHonest(Init(now, files), steps[..n], Run(Init(now, files), steps[..n]).value, steps[n]);
      assert steps[..n] + [steps[n]] == steps;
    }
  }
}
