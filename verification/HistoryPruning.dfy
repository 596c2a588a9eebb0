/** Pruning history backups: which directories stay, whatever order they are listed in. */
module HistoryPruning {

  /** A backup directory; `modified` counts from the Unix epoch. */
  datatype Entry = Entry(path: nat, modified: nat, bytes: nat)

  /** Always kept, and kept at most. */
  const MIN_BACKUPS := 1
  const MAX_BACKUPS := 3

  /** The sort order of the source: the later modification first, then the greater path. */
  predicate Newer(a: Entry, b: Entry) {
    a.modified > b.modified || (a.modified == b.modified && a.path > b.path)
  }

  /** Paths are unique within a directory. */
  ghost predicate Directory(entries: set<Entry>) {
    forall a, b :: a in entries && b in entries && a.path == b.path ==> a == b
  }

  /** How many entries are newer. */
  ghost function Rank(entries: set<Entry>, e: Entry): nat {
    |set x | x in entries && Newer(x, e)|
  }

  ghost predicate Stays(entries: set<Entry>, cutoff: nat, e: Entry) {
    Rank(entries, e) < MIN_BACKUPS || (Rank(entries, e) < MAX_BACKUPS && e.modified >= cutoff)
  }

  /** What the policy keeps. */
  ghost function Kept(entries: set<Entry>, cutoff: nat): set<Entry> {
    set e | e in entries && Stays(entries, cutoff, e)
  }

  // ----- sorting -----

  ghost predicate Sorted(s: seq<Entry>) {
    forall i, j :: 0 <= i < j < |s| ==> Newer(s[i], s[j])
  }

  function Elements(s: seq<Entry>): set<Entry> {
    set e | e in s
  }

  method Insert(s: seq<Entry>, e: Entry) returns (r: seq<Entry>)
    requires Sorted(s) && forall x :: x in s ==> x.path != e.path
    ensures Sorted(r) && Elements(r) == Elements(s) + {e} && |r| == |s| + 1
  {
    var i := 0;
    while i < |s| && Newer(s[i], e)
      invariant 0 <= i <= |s|
      invariant forall k :: 0 <= k < i ==> Newer(s[k], e)
    {
      i := i + 1;
    }
    r := s[..i] + [e] + s[i..];
    assert s == s[..i] + s[i..];
    forall k | i <= k < |s| ensures Newer(e, s[k]) {
      assert s[i] in s;
      assert k > i ==> Newer(s[i], s[k]);
    }
  }

  /** `sort_by` on a listing without duplicates. */
  method Sort(listing: seq<Entry>) returns (r: seq<Entry>)
    requires forall i, j :: 0 <= i < j < |listing| ==> listing[i].path != listing[j].path
    ensures Sorted(r) && Elements(r) == Elements(listing) && |r| == |listing|
  {
    r := [];
    for i := 0 to |listing|
      invariant Sorted(r) && Elements(r) == Elements(listing[..i]) && |r| == i
    {
      forall x | x in r ensures x.path != listing[i].path {
        assert x in Elements(r);
      }
      r := Insert(r, listing[i]);
      assert listing[..i + 1] == listing[..i] + [listing[i]];
    }
    assert listing[..|listing|] == listing;
  }

  /** In a sorted listing the rank is the index. */
  lemma RankIsIndex(s: seq<Entry>, i: nat)
    requires Sorted(s) && i < |s|
    ensures Rank(Elements(s), s[i]) == i
  {
    var newer := set x | x in Elements(s) && Newer(x, s[i]);
    forall x ensures x in newer <==> x in Elements(s[..i]) {
      if x in newer {
        var k :| 0 <= k < |s| && s[k] == x;
        assert k < i;
        assert s[..i][k] == x;
      }
    }
    assert newer == Elements(s[..i]);
    Count(s[..i]);
  }

  lemma {:induction false} Count(s: seq<Entry>)
    requires Sorted(s)
    ensures |Elements(s)| == |s|
  {
    if s != [] {
      var n := |s| - 1;
      Count(s[..n]);
      assert s == s[..n] + [s[n]];
      assert s[n] !in s[..n];
      assert Elements(s) == Elements(s[..n]) + {s[n]};
    }
  }

  /** Not looked at yet, or to stay, or impossible to remove. */
  ghost predicate IsLeft(all: set<Entry>, e: Entry, rest: seq<Entry>, cutoff: nat, stuck: set<nat>) {
    e in all && (e in rest || Stays(all, cutoff, e) || e.path in stuck)
  }

  lemma NextOne(s: seq<Entry>, i: nat)
    requires Sorted(s) && i < |s|
    ensures s[i] !in s[i + 1..]
    ensures forall e :: e in s[i..] <==> e == s[i] || e in s[i + 1..]
  {
    assert s[i..] == [s[i]] + s[i + 1..];
  }

  // ----- the operation -----

  datatype Pruned = Pruned(before: nat, after: nat, removed: nat, warnings: nat)

  class BackupRoot {
    var entries: set<Entry>

    constructor (entries: set<Entry>)
      ensures this.entries == entries
    {
      this.entries := entries;
    }

    /** `prune_history_backups_for_profile`, with the cutoff that the clock gives. `stuck` names the
        directories that cannot be removed. */
    method Prune(listing: seq<Entry>, cutoff: nat, stuck: set<nat>) returns (r: Pruned)
      requires Elements(listing) == entries
      requires forall i, j :: 0 <= i < j < |listing| ==> listing[i].path != listing[j].path
      modifies this
      ensures entries == Kept(old(entries), cutoff) + (set e | e in old(entries) && e.path in stuck)
      ensures r.before == |old(entries)| && r.after == |entries| && r.removed + r.after == r.before
      ensures r.warnings == 0 ==> entries == Kept(old(entries), cutoff)
    {
      var before := |entries|;
      var sorted := Sort(listing);
      var warnings := 0;
      for i := 0 to |sorted|
        invariant forall e :: e in entries <==> IsLeft(old(entries), e, sorted[i..], cutoff, stuck)
        invariant warnings == 0 ==> forall e :: e in entries ==> e in sorted[i..] || Stays(old(entries), cutoff, e)
      {
        RankIsIndex(sorted, i);
        var entry := sorted[i];
        NextOne(sorted, i);
        if !(i < MIN_BACKUPS || (i < MAX_BACKUPS && entry.modified >= cutoff)) {
          if entry.path in stuck {
            warnings := warnings + 1;
          } else {
            entries := entries - {entry};
          }
        }
      }
      assert entries == Kept(old(entries), cutoff) + (set e | e in old(entries) && e.path in stuck);
      assert warnings == 0 ==> entries == Kept(old(entries), cutoff);
      Smaller(entries, old(entries));
      r := Pruned(before, |entries|, if before > |entries| then before - |entries| else 0, warnings);
    }
  }

  lemma {:induction false} Smaller<T>(a: set<T>, b: set<T>)
    requires a <= b
    ensures |a| <= |b|
  {
    if x :| x in a {
      Smaller(a - {x}, b - {x});
    }
  }

  // ----- what stays -----

  lemma NewerRanksLower(entries: set<Entry>, x: Entry, e: Entry)
    requires x in entries && Newer(x, e)
    ensures Rank(entries, x) < Rank(entries, e)
  {
    var above, more := set y | y in entries && Newer(y, x), set y | y in entries && Newer(y, e);
    assert above <= more - {x};
    Smaller(above, more - {x});
  }

  /** What stays is a newest-first prefix: with a directory every newer one stays, and of the same age every one
      with a greater path. */
  lemma KeptIsPrefix(entries: set<Entry>, cutoff: nat, e: Entry, newer: Entry)
    requires e in Kept(entries, cutoff) && newer in entries
    requires newer.modified > e.modified || (newer.modified == e.modified && newer.path > e.path)
    ensures newer in Kept(entries, cutoff)
  {
    NewerRanksLower(entries, newer, e);
  }

  /** At most three directories stay, because their ranks differ. */
  lemma KeptIsSmall(entries: set<Entry>, cutoff: nat)
    requires Directory(entries)
    ensures |Kept(entries, cutoff)| <= 3
  {
    var ranks := {0, 1, 2};
    forall e | e in Kept(entries, cutoff) ensures Rank(entries, e) in ranks {}
    RanksAreInjective(entries, Kept(entries, cutoff), ranks);
  }

  lemma {:induction false} RanksAreInjective(entries: set<Entry>, some: set<Entry>, ranks: set<nat>)
    requires Directory(entries) && some <= entries && forall e :: e in some ==> Rank(entries, e) in ranks
    ensures |some| <= |ranks|
    decreases some
  {
    if e :| e in some {
      forall x | x in some - {e} ensures Rank(entries, x) in ranks - {Rank(entries, e)} {
        if Newer(x, e) {
          NewerRanksLower(entries, x, e);
        } else {
          assert Newer(e, x);
          NewerRanksLower(entries, e, x);
        }
      }
      RanksAreInjective(entries, some - {e}, ranks - {Rank(entries, e)});
    }
  }

  /** The newest directory always stays; every other one that stays is no older than the cutoff. */
  lemma NewestStays(entries: set<Entry>, cutoff: nat, e: Entry)
    requires e in entries
    ensures (forall x :: x in entries ==> !Newer(x, e)) ==> e in Kept(entries, cutoff)
    ensures e in Kept(entries, cutoff) && (exists x :: x in entries && Newer(x, e)) ==> e.modified >= cutoff
  {
    if forall x :: x in entries ==> !Newer(x, e) {
      assert (set x | x in entries && Newer(x, e)) == {};
    }
    if x :| x in entries && Newer(x, e) {
      NewerRanksLower(entries, x, e);
    }
  }

  /** A second prune with the same cutoff removes nothing. */
  lemma PruneAgain(entries: set<Entry>, cutoff: nat)
    ensures Kept(Kept(entries, cutoff), cutoff) == Kept(entries, cutoff)
  {
    var kept := Kept(entries, cutoff);
    forall e | e in kept ensures Rank(kept, e) == Rank(entries, e) {
      forall x | x in entries && Newer(x, e) ensures x in kept {
        KeptIsPrefix(entries, cutoff, e, x);
      }
      assert (set x | x in kept && Newer(x, e)) == (set x | x in entries && Newer(x, e));
    }
  }
}
