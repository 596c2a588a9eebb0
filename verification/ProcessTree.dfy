/** Which processes a reload signals: matching ones, without the manager's own ancestors, and of each tree
    of them only the root. */
module ProcessTree {
  import opened Text

  type Pid = nat

  /** The parents that the system reports; they may form a cycle when ids were reused. */
  type Parents = map<Pid, Pid>

  function ParentOf(parents: Parents, pid: Pid): Option<Pid> {
    if pid in parents then Some(parents[pid]) else None
  }

  /** The process that is `n` steps up, if there is one. */
  function Up(parents: Parents, pid: Pid, n: nat): Option<Pid> {
    if n == 0 then Some(pid)
    else
      match Up(parents, pid, n - 1)
      case Some(p) => ParentOf(parents, p)
      case None => None
  }

  /** A transitive parent. */
  ghost predicate IsAncestor(parents: Parents, start: Pid, pid: Pid) {
    exists n :: n > 0 && Up(parents, start, n) == Some(pid)
  }

  /** Everything one to `n` steps up. */
  ghost predicate Visited(parents: Parents, start: Pid, n: nat, seen: set<Pid>) {
    && (forall k :: 0 < k <= n ==> Up(parents, start, k).Some? && Up(parents, start, k).value in seen)
    && (forall pid :: pid in seen ==> exists k :: 0 < k <= n && Up(parents, start, k) == Some(pid))
  }

  lemma VisitNext(parents: Parents, start: Pid, n: nat, seen: set<Pid>, parent: Pid)
    requires Visited(parents, start, n, seen) && Up(parents, start, n + 1) == Some(parent)
    ensures Visited(parents, start, n + 1, seen + {parent})
  {
    forall pid | pid in seen + {parent} ensures exists k :: 0 < k <= n + 1 && Up(parents, start, k) == Some(pid) {
      if pid in seen {
        var k :| 0 < k <= n && Up(parents, start, k) == Some(pid);
        assert 0 < k <= n + 1;
      }
    }
  }

  /** When the next parent is known already, no step ever leaves the set. */
  lemma {:induction false} StaysInside(parents: Parents, start: Pid, n: nat, seen: set<Pid>, k: nat)
    requires Visited(parents, start, n, seen) && Up(parents, start, n + 1).Some?
    requires Up(parents, start, n + 1).value in seen
    requires k > 0 && Up(parents, start, k).Some?
    ensures Up(parents, start, k).value in seen
  {
    if k > n {
      if k > 1 {
        StaysInside(parents, start, n, seen, k - 1);
        var below := Up(parents, start, k - 1).value;
        var j :| 0 < j <= n && Up(parents, start, j) == Some(below);
        assert Up(parents, start, j + 1) == Up(parents, start, k);
      }
    }
  }

  lemma {:induction false} NothingAbove(parents: Parents, start: Pid, n: nat, k: nat)
    requires Up(parents, start, n).None? && n <= k
    ensures Up(parents, start, k).None?
  {
    if k > n {
      NothingAbove(parents, start, n, k - 1);
    }
  }

  /** `collect_ancestor_pids`: exactly the transitive parents, even if the parents form a cycle. */
  method CollectAncestors(start: Pid, parents: Parents) returns (ancestors: set<Pid>)
    ensures forall pid :: pid in ancestors <==> IsAncestor(parents, start, pid)
  {
    ancestors := {};
    var current := start;
    ghost var n: nat := 0;
    var parent := ParentOf(parents, current);
    while parent.Some?
      invariant Up(parents, start, n) == Some(current) && parent == ParentOf(parents, current)
      invariant Visited(parents, start, n, ancestors) && ancestors <= parents.Values
      decreases parents.Values - ancestors
    {
      assert Up(parents, start, n + 1) == parent;
      if parent.value in ancestors {
        forall pid ensures pid in ancestors <==> IsAncestor(parents, start, pid) {
          if k :| k > 0 && Up(parents, start, k) == Some(pid) {
            StaysInside(parents, start, n, ancestors, k);
          }
        }
        return;
      }
      VisitNext(parents, start, n, ancestors, parent.value);
      ancestors := ancestors + {parent.value};
      current := parent.value;
      parent := ParentOf(parents, current);
      n := n + 1;
    }
    assert Up(parents, start, n + 1) == None;
    forall pid ensures pid in ancestors <==> IsAncestor(parents, start, pid) {
      if k :| k > 0 && Up(parents, start, k) == Some(pid) {
        if k > n {
          NothingAbove(parents, start, n + 1, k);
        }
      }
    }
  }

  // ----- which processes are signalled -----

  function Roots(parents: Parents, candidates: set<Pid>): set<Pid> {
    set pid | pid in candidates && (pid in parents ==> parents[pid] !in candidates)
  }

  ghost predicate AreCandidates(parents: Parents, manager: Pid, matched: set<Pid>, candidates: set<Pid>) {
    forall pid :: pid in candidates <==> pid in matched && !IsAncestor(parents, manager, pid)
  }

  /** The selection and the signals of `reload_codex_app_servers`; `accepts` holds the processes that take a
      signal. */
  method Reload(parents: Parents, manager: Pid, matched: set<Pid>, accepts: set<Pid>)
    returns (candidates: set<Pid>, signalled: set<Pid>, warnings: nat)
    ensures AreCandidates(parents, manager, matched, candidates)
    ensures signalled == Roots(parents, candidates) * accepts
    ensures |signalled| + warnings == |Roots(parents, candidates)|
  {
    var ancestors := CollectAncestors(manager, parents);
    candidates := matched - ancestors;
    var roots := Roots(parents, candidates);
    signalled, warnings := {}, 0;
    var rest := roots;
    while rest != {}
      invariant rest <= roots && signalled == (roots - rest) * accepts
      invariant |signalled| + warnings + |rest| == |roots|
      decreases rest
    {
      var pid :| pid in rest;
      rest := rest - {pid};
      if pid in accepts {
        signalled := signalled + {pid};
      } else {
        warnings := warnings + 1;
      }
    }
  }

  /** No signal goes to an ancestor of the manager, or to a process whose parent is a candidate too. */
  lemma SignalsAreSafe(parents: Parents, manager: Pid, matched: set<Pid>, candidates: set<Pid>, pid: Pid)
    requires AreCandidates(parents, manager, matched, candidates) && pid in Roots(parents, candidates)
    ensures pid in matched && !IsAncestor(parents, manager, pid)
    ensures pid in parents ==> parents[pid] !in matched || IsAncestor(parents, manager, parents[pid])
  {
  }

  // ----- every candidate is reached -----

  /** `n` steps up there is a root, and everything on the way is a candidate. */
  ghost predicate ReachesRoot(parents: Parents, candidates: set<Pid>, pid: Pid, n: nat) {
    && (forall k :: 0 <= k <= n ==> Up(parents, pid, k).Some? && Up(parents, pid, k).value in candidates)
    && Up(parents, pid, n).Some? && Up(parents, pid, n).value in Roots(parents, candidates)
  }

  ghost predicate Acyclic(parents: Parents) {
    forall pid :: !IsAncestor(parents, pid, pid)
  }

  lemma {:induction false} UpShifts(parents: Parents, pid: Pid, n: nat)
    requires pid in parents
    ensures Up(parents, pid, n + 1) == Up(parents, parents[pid], n)
  {
    if n > 0 {
      UpShifts(parents, pid, n - 1);
    }
  }

  /** Climbing through candidates ends at a root, because a process that was left is never met again. */
  lemma {:induction false} Climb(parents: Parents, candidates: set<Pid>, pid: Pid, rest: set<Pid>) returns (n: nat)
    requires Acyclic(parents) && pid in rest && rest <= candidates
    requires forall k :: Up(parents, pid, k).Some? && Up(parents, pid, k).value in candidates ==>
        Up(parents, pid, k).value in rest
    ensures ReachesRoot(parents, candidates, pid, n)
    decreases rest
  {
    assert Up(parents, pid, 0) == Some(pid);
    if pid in Roots(parents, candidates) {
      return 0;
    }
    var parent := parents[pid];
    forall k: nat | Up(parents, parent, k).Some? && Up(parents, parent, k).value in candidates
      ensures Up(parents, parent, k).value in rest - {pid}
    {
      UpShifts(parents, pid, k);
      assert Up(parents, pid, k + 1) == Up(parents, parent, k);
      assert !IsAncestor(parents, pid, pid);
    }
    assert Up(parents, parent, 0) == Some(parent);
    var m := Climb(parents, candidates, parent, rest - {pid});
    n := m + 1;
    forall k | 0 <= k <= n ensures Up(parents, pid, k).Some? && Up(parents, pid, k).value in candidates {
      if k > 0 {
        UpShifts(parents, pid, k - 1);
      }
    }
    UpShifts(parents, pid, m);
  }

  /** Without cycles every candidate is a root or is below one, with only candidates in between. */
  lemma EveryCandidateIsReached(parents: Parents, candidates: set<Pid>, pid: Pid)
    requires Acyclic(parents) && pid in candidates
    ensures exists n :: ReachesRoot(parents, candidates, pid, n)
  {
    var n := Climb(parents, candidates, pid, candidates);
  }

  /** With cycles: a candidate is reached exactly when climbing from it leaves the candidates at some point. */
  lemma ReachedUnlessCaught(parents: Parents, candidates: set<Pid>, pid: Pid)
    requires pid in candidates
    ensures (exists n :: ReachesRoot(parents, candidates, pid, n))
       <==> exists n: nat :: Up(parents, pid, n).None? || Up(parents, pid, n).value !in candidates
  {
    if n: nat :| ReachesRoot(parents, candidates, pid, n) {
      var root := Up(parents, pid, n).value;
      assert Up(parents, pid, n + 1) == ParentOf(parents, root);
      assert Up(parents, pid, n + 1).None? || Up(parents, pid, n + 1).value !in candidates;
    }
    if n: nat :| Up(parents, pid, n).None? || Up(parents, pid, n).value !in candidates {
      var m := FirstOutside(parents, candidates, pid, n);
    }
  }

  lemma {:induction false} FirstOutside(parents: Parents, candidates: set<Pid>, pid: Pid, n: nat) returns (m: nat)
    requires pid in candidates && (Up(parents, pid, n).None? || Up(parents, pid, n).value !in candidates)
    ensures ReachesRoot(parents, candidates, pid, m)
  {
    assert Up(parents, pid, 0) == Some(pid);
    if k: nat :| 0 <= k < n && (Up(parents, pid, k).None? || Up(parents, pid, k).value !in candidates) {
      m := FirstOutside(parents, candidates, pid, k);
    } else {
      m := n - 1;
    }
  }
}
