/** After a failed task registration nobody registers for the account again until the cool-down is over. */
module AgentCooldown {
  import opened Text
  import opened FailureTable
  import opened AgentTasks

  predicate Expired(s: State, at: real) {
    s.now - at >= TTL
  }

  /** A call failed and has yet to enter that in the table. */
  ghost predicate Pending(s: State, a: Account) {
    exists c :: c in s.calls && s.calls[c].account == a && s.calls[c].pc.Failing?
  }

  ghost predicate Entered(s: State, a: Account, at: real) {
    var key := Key(a, TaskRegistration);
    key in s.table && s.table[key].failedAt >= at
      && (a in s.identities ==> s.table[key].material == s.identities[a].material)
  }

  ghost predicate Kept(s: State, a: Account, at: real) {
    at <= s.now && (Expired(s, at) || Pending(s, a) || Entered(s, a, at))
  }

  /** Every failure is over, or about to be entered, or in the table. */
  ghost predicate FailuresKept(s: State) {
    forall a, at :: Failed(a, at) in s.log ==> Kept(s, a, at)
  }

  ghost predicate Late(s: State, call: Call) {
    call.pc.Admitted() ==> forall at :: Failed(call.account, at) in s.log ==> Expired(s, at)
  }

  ghost predicate AdmittedLate(s: State) {
    forall c :: c in s.calls ==> Late(s, s.calls[c])
  }

  ghost predicate Spaced(log: seq<Event>) {
    forall i, j :: 0 <= i < j < |log| && log[i].Failed? && log[j] == Called(log[i].account, log[j].at) ==>
      log[j].at - log[i].at >= TTL
  }

  ghost predicate CoolsDown(s: State) {
    FailuresKept(s) && AdmittedLate(s) && Spaced(s.log)
  }

  lemma PendingStays(s: State, t: State, c: Caller)
    requires c in t.calls && t.calls == s.calls[c := t.calls[c]] && (c in s.calls ==> !s.calls[c].pc.Failing?)
    ensures forall a :: Pending(s, a) ==> Pending(t, a)
  {
    forall a | Pending(s, a) ensures Pending(t, a) {
      var d :| d in s.calls && s.calls[d].account == a && s.calls[d].pc.Failing?;
      assert d in t.calls && t.calls[d] == s.calls[d];
    }
  }

  lemma PlainKeeps(s: State, t: State, c: Caller)
    requires CoolsDown(s) && t.log == s.log && t.now == s.now && t.table == s.table
    requires forall a :: a in t.identities ==> a in s.identities && t.identities[a].material == s.identities[a].material
    requires c in t.calls && t.calls == s.calls[c := t.calls[c]] && (c in s.calls ==> !s.calls[c].pc.Failing?)
    requires t.calls[c].pc.Admitted() ==>
        c in s.calls && s.calls[c].pc.Admitted() && s.calls[c].account == t.calls[c].account
    ensures CoolsDown(t)
  {
    PendingStays(s, t, c);
    forall a, at | Failed(a, at) in t.log ensures Kept(t, a, at) {
      assert Kept(s, a, at);
      assert Entered(s, a, at) ==> Entered(t, a, at);
    }
    forall d | d in t.calls ensures Late(t, t.calls[d]) {
      assert d in s.calls ==> Late(s, s.calls[d]);
    }
  }

  lemma TickKeeps(s: State, seconds: real)
    requires CoolsDown(s) && seconds > 0.0
    ensures CoolsDown(s.(now := s.now + seconds))
  {
    var t := s.(now := s.now + seconds);
    forall a, at | Failed(a, at) in t.log ensures Kept(t, a, at) {
      assert Kept(s, a, at);
      assert Entered(s, a, at) ==> Entered(t, a, at);
    }
    forall d | d in t.calls ensures Late(t, t.calls[d]) {
      assert Late(s, s.calls[d]);
    }
  }

  lemma ElsewhereKeeps(s: State, table: Table)
    requires CoolsDown(s) && OtherCode(s, table)
    ensures CoolsDown(s.(table := table))
  {
    var t := s.(table := table);
    forall a, at | Failed(a, at) in t.log ensures Kept(t, a, at) {
      assert Kept(s, a, at);
      if Entered(s, a, at) && !Expired(s, at) {
        assert Live(s.table[Key(a, TaskRegistration)], s.now);
        assert Entered(t, a, at);
      }
    }
    forall d | d in t.calls ensures Late(t, t.calls[d]) {
      assert Late(s, s.calls[d]);
    }
  }

  /** Whoever passes the check finds every earlier failure of its account over. */
  lemma CheckKeeps(s: State, c: Caller)
    requires CoolsDown(s) && LocksMatch(s) && c in s.calls && Known(s, s.calls[c].account) && s.calls[c].pc.Checking?
    ensures CoolsDown(Moved(s, c, Check(c)))
  {
    var t, a := Moved(s, c, Check(c)), s.calls[c].account;
    var pruned := s.(table := Pruned(s.table, s.now));
    ElsewhereKeeps(s, pruned.table);
    PendingStays(pruned, t, c);
    assert !Pending(pruned, a);
    forall b, at | Failed(b, at) in t.log ensures Kept(t, b, at) {
      assert Kept(pruned, b, at);
      assert Entered(pruned, b, at) ==> Entered(t, b, at);
    }
    forall d | d in t.calls ensures Late(t, t.calls[d]) {
      if d == c {
        forall at | t.calls[c].pc.Registering? && Failed(a, at) in t.log ensures Expired(t, at) {
          assert Kept(pruned, a, at);
        }
      } else {
        assert Late(pruned, pruned.calls[d]);
      }
    }
  }

  lemma RegisterKeeps(s: State, c: Caller)
    requires CoolsDown(s) && c in s.calls && Known(s, s.calls[c].account) && s.calls[c].pc.Registering?
    ensures CoolsDown(Moved(s, c, Register(c)))
  {
    var t, a := Moved(s, c, Register(c)), s.calls[c].account;
    PendingStays(s, t, c);
    assert Late(s, s.calls[c]);
    forall i | 0 <= i < |s.log| && s.log[i].Failed? && s.log[i].account == a ensures s.now - s.log[i].at >= TTL {
      assert Failed(a, s.log[i].at) in s.log;
    }
    forall b, at | Failed(b, at) in t.log ensures Kept(t, b, at) {
      assert Kept(s, b, at);
      assert Entered(s, b, at) ==> Entered(t, b, at);
    }
    forall d | d in t.calls ensures Late(t, t.calls[d]) {
      assert Late(s, s.calls[d]);
    }
  }

  lemma FailKeeps(s: State, c: Caller)
    requires CoolsDown(s) && LocksMatch(s) && c in s.calls && s.calls[c].pc.Admitted()
    ensures CoolsDown(FailedNow(s, c))
  {
    var t, a := FailedNow(s, c), s.calls[c].account;
    PendingStays(s, t, c);
    assert Pending(t, a) by {
      assert t.calls[c].account == a && t.calls[c].pc.Failing?;
    }
    forall b, at | Failed(b, at) in t.log ensures Kept(t, b, at) {
      assert Failed(b, at) in s.log ==> Kept(s, b, at);
      assert Entered(s, b, at) ==> Entered(t, b, at);
    }
    forall d | d in t.calls ensures Late(t, t.calls[d]) {
      assert Late(s, s.calls[d]);
      assert d != c && s.calls[d].pc.Admitted() ==> s.calls[d].account != a;
    }
  }

  lemma ClearKeeps(s: State, c: Caller)
    requires CoolsDown(s) && c in s.calls && Known(s, s.calls[c].account) && s.calls[c].pc.Succeeded?
    ensures CoolsDown(Moved(s, c, Clear(c)))
  {
    var t, a := Moved(s, c, Clear(c)), s.calls[c].account;
    PendingStays(s, t, c);
    assert Late(s, s.calls[c]);
    forall b, at | Failed(b, at) in t.log ensures Kept(t, b, at) {
      assert Kept(s, b, at);
      assert b != a && Entered(s, b, at) ==> Entered(t, b, at);
    }
    forall d | d in t.calls ensures Late(t, t.calls[d]) {
      assert Late(s, s.calls[d]);
    }
  }

  lemma RememberKeeps(s: State, c: Caller)
    requires CoolsDown(s) && c in s.calls && Known(s, s.calls[c].account) && s.calls[c].pc.Failing?
    ensures CoolsDown(Moved(s, c, Remember(c)))
  {
    var t, a := Moved(s, c, Remember(c)), s.calls[c].account;
    forall b, at | Failed(b, at) in t.log ensures Kept(t, b, at) {
      assert Kept(s, b, at);
      if b == a {
        assert Entered(t, a, at);
      } else {
        assert Entered(s, b, at) ==> Entered(t, b, at);
        if Pending(s, b) {
          var d :| d in s.calls && s.calls[d].account == b && s.calls[d].pc.Failing?;
          assert d in t.calls && t.calls[d] == s.calls[d];
        }
      }
    }
    forall d | d in t.calls ensures Late(t, t.calls[d]) {
      assert Late(s, s.calls[d]);
    }
  }

  lemma MoveKeeps(s: State, c: Caller, step: Step)
    requires CoolsDown(s) && LocksMatch(s) && c in s.calls && Known(s, s.calls[c].account) && Ready(s, s.calls[c], step)
    ensures CoolsDown(Moved(s, c, step))
  {
    var t := Moved(s, c, step);
    if step.Check? {
      CheckKeeps(s, c);
    } else if step.Register? {
      RegisterKeeps(s, c);
    } else if t.calls[c].pc.Failing? {
      FailKeeps(s, c);
    } else if step.Clear? {
      ClearKeeps(s, c);
    } else if step.Remember? {
      RememberKeeps(s, c);
    } else {
      PlainKeeps(s, t, c);
    }
  }

  lemma StepKeeps(s: State, step: Step)
    requires CoolsDown(s) && LocksMatch(s) && Enabled(s, step)
    ensures CoolsDown(Next(s, step))
  {
    if step.Tick? {
      TickKeeps(s, step.seconds);
    } else if step.Elsewhere? {
      ElsewhereKeeps(s, step.table);
    } else if step.Arrive? {
      PlainKeeps(s, Next(s, step), step.c);
    } else {
      MoveKeeps(s, step.c, step);
    }
  }

  lemma {:induction false} RunsCoolDown(identities: map<Account, Identity>, table: Table, now: real, steps: seq<Step>)
    requires Run(Init(identities, table, now), steps).Some?
    ensures CoolsDown(Run(Init(identities, table, now), steps).value)
  {
    var s0 := Init(identities, table, now);
    if steps != [] {
      RunsCoolDown(identities, table, now, steps[..|steps| - 1]);
      RunsMatch(identities, table, now, steps[..|steps| - 1]);
      StepKeeps(Run(s0, steps[..|steps| - 1]).value, steps[|steps| - 1]);
    }
  }

  /** Every call to the server comes at least the whole cool-down after every earlier failure of its account,
      whatever other callers and other users of the table do. */
  lemma NoRegistrationWhileCoolingDown(identities: map<Account, Identity>, table: Table, now: real, steps: seq<Step>,
                                       i: nat, j: nat)
    requires Run(Init(identities, table, now), steps).Some?
    requires i < j < |Run(Init(identities, table, now), steps).value.log|
    requires var log := Run(Init(identities, table, now), steps).value.log;
             log[i].Failed? && log[j].Called? && log[i].account == log[j].account
    ensures var log := Run(Init(identities, table, now), steps).value.log;
            log[j].at - log[i].at >= 300.0
  {
    RunsCoolDown(identities, table, now, steps);
  }
}
