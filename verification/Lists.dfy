/** Order-preserving list passes that several parts of the service share. */
module Lists {
  import opened Text

  function OptSeq<T>(o: Option<T>): seq<T> {
    match o
    case Some(x) => [x]
    case None => []
  }

  /** `filter_map`. */
  function FilterMap<A, B>(xs: seq<A>, f: A -> Option<B>): seq<B> {
    if xs == [] then []
    else FilterMap(xs[..|xs| - 1], f) + OptSeq(f(xs[|xs| - 1]))
  }

  lemma FilterMapExtends<A, B>(xs: seq<A>, i: nat, f: A -> Option<B>)
    requires i < |xs|
    ensures FilterMap(xs[..i + 1], f) == FilterMap(xs[..i], f) + OptSeq(f(xs[i]))
  {
    assert xs[..i + 1][..i] == xs[..i];
  }

  lemma {:induction false} FilterMapConcat<A, B>(xs: seq<A>, ys: seq<A>, f: A -> Option<B>)
    ensures FilterMap(xs + ys, f) == FilterMap(xs, f) + FilterMap(ys, f)
  {
    if ys == [] {
      assert xs + ys == xs;
    } else {
      var n := |ys| - 1;
      assert (xs + ys)[..|xs + ys| - 1] == xs + ys[..n];
      FilterMapConcat(xs, ys[..n], f);
    }
  }

  lemma {:induction false} FilterMapAgrees<A, B>(xs: seq<A>, f: A -> Option<B>, g: A -> Option<B>)
    requires forall x :: x in xs ==> f(x) == g(x)
    ensures FilterMap(xs, f) == FilterMap(xs, g)
  {
    if xs != [] {
      FilterMapAgrees(xs[..|xs| - 1], f, g);
    }
  }

  /** Two passes are one pass with the composed function. */
  lemma {:induction false} FilterMapCompose<A, B, C>(xs: seq<A>, f: A -> Option<B>, g: B -> Option<C>,
                                                     h: A -> Option<C>)
    requires forall x :: h(x) == (if f(x).Some? then g(f(x).value) else None)
    ensures FilterMap(FilterMap(xs, f), g) == FilterMap(xs, h)
  {
    if xs != [] {
      var init, last := xs[..|xs| - 1], xs[|xs| - 1];
      FilterMapCompose(init, f, g, h);
      FilterMapConcat(FilterMap(init, f), OptSeq(f(last)), g);
      if f(last).Some? {
        var y := f(last).value;
        assert [y][..0] == [];
        assert FilterMap([y], g) == FilterMap([], g) + OptSeq(g(y));
      }
    }
  }

  lemma {:induction false} FilterMapIdentity<A>(xs: seq<A>, f: A -> Option<A>)
    requires forall x :: x in xs ==> f(x) == Some(x)
    ensures FilterMap(xs, f) == xs
  {
    if xs != [] {
      FilterMapIdentity(xs[..|xs| - 1], f);
    }
  }

  lemma {:induction false} FilterMapNone<A, B>(xs: seq<A>, f: A -> Option<B>)
    requires forall x :: x in xs ==> f(x) == None
    ensures FilterMap(xs, f) == []
  {
    if xs != [] {
      FilterMapNone(xs[..|xs| - 1], f);
    }
  }

  lemma {:induction false} FilterMapMembers<A(!new), B(!new)>(xs: seq<A>, f: A -> Option<B>)
    ensures forall y :: y in FilterMap(xs, f) <==> exists x :: x in xs && f(x) == Some(y)
  {
    if xs != [] {
      var n := |xs| - 1;
      FilterMapMembers(xs[..n], f);
      assert xs == xs[..n] + [xs[n]];
      forall y | exists x :: x in xs && f(x) == Some(y) ensures y in FilterMap(xs, f) {
        var x :| x in xs && f(x) == Some(y);
        assert x in xs[..n] || x == xs[n];
      }
    }
  }

  /** `ys` are exactly the entries of `xs` that `wanted` holds of, in their order; `at` tells where they stand. */
  ghost predicate Picks<T(!new)>(xs: seq<T>, wanted: T -> bool, ys: seq<T>, at: seq<nat>) {
    && |at| == |ys|
    && (forall i :: 0 <= i < |at| ==> at[i] < |xs| && ys[i] == xs[at[i]] && wanted(ys[i]))
    && (forall i, j :: 0 <= i < j < |at| ==> at[i] < at[j])
    && (forall k :: 0 <= k < |xs| && wanted(xs[k]) ==> k in at)
  }

  lemma PicksNone<T(!new)>(xs: seq<T>, wanted: T -> bool, ys: seq<T>, at: seq<nat>, x: T)
    requires Picks(xs, wanted, ys, at) && !wanted(x)
    ensures Picks(xs + [x], wanted, ys, at)
  {
  }

  lemma PicksNext<T(!new)>(xs: seq<T>, wanted: T -> bool, ys: seq<T>, at: seq<nat>, x: T)
    requires Picks(xs, wanted, ys, at) && wanted(x)
    ensures Picks(xs + [x], wanted, ys + [x], at + [|xs|])
  {
    forall k | 0 <= k < |xs + [x]| && wanted((xs + [x])[k]) ensures k in at + [|xs|] {
      if k < |xs| {
        assert k in at;
      }
    }
  }

  /** A pass that keeps the wanted entries as they are. */
  lemma {:induction false} FilterPicks<T(!new)>(xs: seq<T>, f: T -> Option<T>, wanted: T -> bool) returns (at: seq<nat>)
    requires forall x :: x in xs ==> f(x) == if wanted(x) then Some(x) else None
    ensures Picks(xs, wanted, FilterMap(xs, f), at)
  {
    at := [];
    if xs != [] {
      var n := |xs| - 1;
      at := FilterPicks(xs[..n], f, wanted);
      assert xs == xs[..n] + [xs[n]];
      if wanted(xs[n]) {
        PicksNext(xs[..n], wanted, FilterMap(xs[..n], f), at, xs[n]);
        at := at + [n];
      } else {
        PicksNone(xs[..n], wanted, FilterMap(xs[..n], f), at, xs[n]);
      }
    }
  }

  /** The key at `i` is not blank and no earlier entry has it. */
  predicate Survives<T>(xs: seq<T>, key: T -> string, i: nat)
    requires i < |xs|
  {
    key(xs[i]) != "" && forall j :: 0 <= j < i ==> key(xs[j]) != key(xs[i])
  }

  /** The first entry of every non-blank key, in order. */
  function KeepFirst<T>(xs: seq<T>, key: T -> string): seq<T> {
    if xs == [] then []
    else
      var n := |xs| - 1;
      KeepFirst(xs[..n], key) + (if Survives(xs, key, n) then [xs[n]] else [])
  }

  /** No two entries have the same key, and none is blank. */
  ghost predicate DistinctKeys<T>(xs: seq<T>, key: T -> string) {
    && (forall i :: 0 <= i < |xs| ==> key(xs[i]) != "")
    && (forall i, j :: 0 <= i < j < |xs| ==> key(xs[i]) != key(xs[j]))
  }

  /** The `HashSet` of keys that a deduplicating loop carries. */
  ghost predicate SeenKeys<T(!new)>(xs: seq<T>, key: T -> string, seen: set<string>) {
    && (forall x :: x in xs && key(x) != "" ==> key(x) in seen)
    && (forall k :: k in seen ==> k != "" && exists j :: 0 <= j < |xs| && key(xs[j]) == k)
  }

  /** One round of `seen.insert(key)`: the entry is kept exactly when its key was not in the set. */
  lemma KeepFirstStep<T(!new)>(xs: seq<T>, key: T -> string, i: nat, seen: set<string>)
    requires i < |xs| && SeenKeys(xs[..i], key, seen)
    ensures Survives(xs, key, i) <==> key(xs[i]) != "" && key(xs[i]) !in seen
    ensures KeepFirst(xs[..i + 1], key) == KeepFirst(xs[..i], key) + (if Survives(xs, key, i) then [xs[i]] else [])
    ensures SeenKeys(xs[..i + 1], key, if Survives(xs, key, i) then seen + {key(xs[i])} else seen)
  {
    var head, longer := xs[..i], xs[..i + 1];
    assert longer[..i] == head;
    assert Survives(longer, key, i) == Survives(xs, key, i);
    if key(xs[i]) in seen {
      var j :| 0 <= j < |head| && key(head[j]) == key(xs[i]);
      assert xs[j] == head[j];
    } else if key(xs[i]) != "" {
      forall j | 0 <= j < i ensures key(xs[j]) != key(xs[i]) {
        assert head[j] in head;
      }
    }
    var next := if Survives(xs, key, i) then seen + {key(xs[i])} else seen;
    forall k | k in next ensures k != "" && exists j :: 0 <= j < |longer| && key(longer[j]) == k {
      if k in seen {
        var j :| 0 <= j < |head| && key(head[j]) == k;
        assert longer[j] == head[j];
      } else {
        assert longer[i] == xs[i];
      }
    }
    forall x | x in longer && key(x) != "" ensures key(x) in next {
      if x !in head {
        assert x == xs[i];
      }
    }
  }

  /** A loop with a `seen` set: keeps the first entry of every key. */
  method RetainFirst<T(!new)>(xs: seq<T>, key: T -> string) returns (kept: seq<T>, seen: set<string>)
    ensures kept == KeepFirst(xs, key)
    ensures SeenKeys(xs, key, seen)
  {
    kept, seen := [], {};
    for i := 0 to |xs|
      invariant kept == KeepFirst(xs[..i], key)
      invariant SeenKeys(xs[..i], key, seen)
    {
      KeepFirstStep(xs, key, i, seen);
      var k := key(xs[i]);
      if k != "" && k !in seen {
        seen := seen + {k};
        kept := kept + [xs[i]];
      }
    }
    assert xs[..|xs|] == xs;
  }

  /** What is kept comes from the list, and every non-blank key is still there. */
  lemma {:induction false} KeepFirstCovers<T>(xs: seq<T>, key: T -> string)
    ensures forall x :: x in KeepFirst(xs, key) ==> x in xs
    ensures forall i :: 0 <= i < |xs| && key(xs[i]) != "" ==>
                          exists x :: x in KeepFirst(xs, key) && key(x) == key(xs[i])
  {
    if xs != [] {
      var n := |xs| - 1;
      KeepFirstCovers(xs[..n], key);
      forall i | 0 <= i < |xs| && key(xs[i]) != ""
        ensures exists x :: x in KeepFirst(xs, key) && key(x) == key(xs[i])
      {
        if i == n && Survives(xs, key, n) {
          assert xs[n] in KeepFirst(xs, key);
        } else {
          var j: nat := if i == n then (var j :| 0 <= j < n && key(xs[j]) == key(xs[n]); j) else i;
          var x :| x in KeepFirst(xs[..n], key) && key(x) == key(xs[..n][j]);
        }
      }
    }
  }

  /** A key is kept exactly when some entry maps to it. */
  lemma KeptKeys<A(!new), B(!new)>(xs: seq<A>, f: A -> Option<B>, key: B -> string, k: string)
    requires k != ""
    ensures (exists y :: y in KeepFirst(FilterMap(xs, f), key) && key(y) == k)
       <==> (exists x :: x in xs && f(x).Some? && key(f(x).value) == k)
  {
    var mapped := FilterMap(xs, f);
    KeepFirstCovers(mapped, key);
    FilterMapMembers(xs, f);
    if x :| x in xs && f(x).Some? && key(f(x).value) == k {
      assert f(x) == Some(f(x).value);
      var i :| 0 <= i < |mapped| && mapped[i] == f(x).value;
    }
    if y :| y in KeepFirst(mapped, key) && key(y) == k {
      var x :| x in xs && f(x) == Some(y);
    }
  }

  lemma {:induction false} KeepFirstIsDistinct<T>(xs: seq<T>, key: T -> string)
    ensures DistinctKeys(KeepFirst(xs, key), key)
  {
    if xs != [] {
      var n := |xs| - 1;
      KeepFirstIsDistinct(xs[..n], key);
      KeepFirstCovers(xs[..n], key);
      var head := KeepFirst(xs[..n], key);
      if Survives(xs, key, n) {
        forall i | 0 <= i < |head| ensures key(head[i]) != key(xs[n]) {
          assert head[i] in xs[..n];
        }
      }
    }
  }

  lemma {:induction false} KeepFirstFixesDistinct<T>(xs: seq<T>, key: T -> string)
    requires DistinctKeys(xs, key)
    ensures KeepFirst(xs, key) == xs
  {
    if xs != [] {
      KeepFirstFixesDistinct(xs[..|xs| - 1], key);
    }
  }
}
