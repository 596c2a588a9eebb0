/** Pushing renames and removals of catalog models through the persisted model selection. */
module SelectionChanges {
  import opened Lists
  import opened Text

  datatype Change = Change(fromSlug: string, toSlug: Option<string>)

  /** The replacement a change offers; a blank target counts as a removal. */
  function Replacement(c: Change): Option<string> {
    if c.toSlug.Some? && Trim(c.toSlug.value) != "" then Some(Trim(c.toSlug.value)) else None
  }

  /** What one change makes of one slug. */
  function PushOne(slug: string, c: Change): Option<string> {
    if Trim(c.fromSlug) == "" || !EqIgnoreCase(slug, Trim(c.fromSlug)) then Some(slug)
    else Replacement(c)
  }

  /** What the whole list of changes makes of one slug, on its own. */
  function Push(slug: string, changes: seq<Change>): Option<string> {
    if changes == [] then Some(slug)
    else
      var before := Push(slug, changes[..|changes| - 1]);
      if before.Some? then PushOne(before.value, changes[|changes| - 1]) else None
  }

  /** Every slug pushed through all changes independently of the others, in order. */
  function PushEach(slugs: seq<string>, changes: seq<Change>): seq<string> {
    FilterMap(slugs, slug => Push(slug, changes))
  }

  /** The key by which two selections of one model are recognised. */
  function Key(slug: string): string {
    Lower(Trim(slug))
  }

  /** The specification: each slug through all the changes, then blanks and repetitions dropped. */
  function Selected(slugs: seq<string>, changes: seq<Change>): seq<string> {
    KeepFirst(PushEach(slugs, changes), Key)
  }

  /** The source's nested loops: change by change, draining and refilling the list in place. */
  method ApplyManagedModelSelectionChanges(slugs: seq<string>, changes: seq<Change>)
    returns (result: seq<string>, changed: bool)
    ensures result == Selected(slugs, changes)
    ensures changed <==> result != slugs
  {
    var current := slugs;
    PushEachNothing(slugs);
    assert changes[..0] == [];
    for c := 0 to |changes|
      invariant current == PushEach(slugs, changes[..c])
    {
      PushEachCompose(slugs, changes[..c], changes[c]);
      assert changes[..c] + [changes[c]] == changes[..c + 1];
      current := DrainOnce(current, changes[c]);
    }
    assert changes[..|changes|] == changes;
    var seen;
    result, seen := RetainFirst(current, Key);
    changed := result != slugs;
  }

  /** The body of the outer loop: one change drained through the whole list. */
  method DrainOnce(slugs: seq<string>, c: Change) returns (next: seq<string>)
    ensures next == FilterMap(slugs, slug => PushOne(slug, c))
  {
    ghost var step := slug => PushOne(slug, c);
    var from := Trim(c.fromSlug);
    if from == "" {
      FilterMapIdentity(slugs, step);
      return slugs;
    }
    var replacement := Replacement(c);
    next := [];
    for i := 0 to |slugs|
      invariant next == FilterMap(slugs[..i], step)
    {
      FilterMapExtends(slugs, i, step);
      if EqIgnoreCase(slugs[i], from) {
        if replacement.Some? {
          next := next + [replacement.value];
        }
      } else {
        next := next + [slugs[i]];
      }
    }
    assert slugs[..|slugs|] == slugs;
  }

  lemma PushEachNothing(slugs: seq<string>)
    ensures PushEach(slugs, []) == slugs
  {
    FilterMapIdentity(slugs, slug => Push(slug, []));
  }

  /** One more pass over the already changed list equals one more change for every slug. */
  lemma PushEachCompose(slugs: seq<string>, changes: seq<Change>, c: Change)
    ensures FilterMap(PushEach(slugs, changes), slug => PushOne(slug, c)) == PushEach(slugs, changes + [c])
  {
    assert (changes + [c])[..|changes|] == changes;
    FilterMapCompose(slugs, slug => Push(slug, changes), slug => PushOne(slug, c), slug => Push(slug, changes + [c]));
  }

  /** The selection has no blank and no case-insensitive repetition, and a following call
      without changes finds nothing to do. */
  lemma SelectionIsStable(slugs: seq<string>, changes: seq<Change>)
    ensures DistinctKeys(Selected(slugs, changes), Key)
    ensures Selected(Selected(slugs, changes), []) == Selected(slugs, changes)
  {
    KeepFirstIsDistinct(PushEach(slugs, changes), Key);
    PushEachNothing(Selected(slugs, changes));
    KeepFirstFixesDistinct(Selected(slugs, changes), Key);
  }

  /** A model stays selected exactly when some selected slug is pushed to it. */
  lemma SelectionMembership(slugs: seq<string>, changes: seq<Change>, key: string)
    requires key != ""
    ensures (exists s :: s in Selected(slugs, changes) && Key(s) == key)
       <==> (exists s :: s in slugs && Push(s, changes).Some? && Key(Push(s, changes).value) == key)
  {
    var push := slug => Push(slug, changes);
    KeptKeys(slugs, push, Key, key);
    assert forall s :: push(s) == Push(s, changes);
  }

  predicate Selects(slugs: seq<string>, key: string) {
    exists s :: s in slugs && Key(s) == key
  }

  /** The slug is one that a change of `from` is about. */
  predicate NamedBy(slug: string, from: string) {
    Trim(from) != "" && EqIgnoreCase(slug, Trim(from))
  }

  lemma PushSingle(slug: string, c: Change)
    ensures Push(slug, [c]) == PushOne(slug, c)
  {
    assert [c][..0] == [];
  }

  /** A rename: the new name is selected exactly when it or the old one was, and the old one no more unless it is
      the new one; everything else is as it was. */
  lemma RenameMoves(slugs: seq<string>, from: string, to: string, key: string)
    requires key != "" && Trim(to) != ""
    ensures Selects(Selected(slugs, [Change(from, Some(to))]), key) <==>
              (exists s :: s in slugs && if NamedBy(s, from) then Key(Trim(to)) == key else Key(s) == key)
  {
    var c := Change(from, Some(to));
    SelectionMembership(slugs, [c], key);
    if s :| s in slugs && Push(s, [c]).Some? && Key(Push(s, [c]).value) == key {
      RenamePushes(s, from, to);
    }
    if s :| s in slugs && if NamedBy(s, from) then Key(Trim(to)) == key else Key(s) == key {
      RenamePushes(s, from, to);
    }
  }

  lemma RenamePushes(slug: string, from: string, to: string)
    requires Trim(to) != ""
    ensures Push(slug, [Change(from, Some(to))]) == Some(if NamedBy(slug, from) then Trim(to) else slug)
  {
    PushSingle(slug, Change(from, Some(to)));
  }

  /** A removal, which a rename to nothing is too: what it is about is selected no more, and everything else is. */
  lemma RemovalDrops(slugs: seq<string>, c: Change, key: string)
    requires key != "" && (c.toSlug.None? || Trim(c.toSlug.value) == "")
    ensures Selects(Selected(slugs, [c]), key) <==> exists s :: s in slugs && !NamedBy(s, c.fromSlug) && Key(s) == key
  {
    SelectionMembership(slugs, [c], key);
    if s :| s in slugs && Push(s, [c]).Some? && Key(Push(s, [c]).value) == key {
      RemovalPushes(s, c);
    }
    if s :| s in slugs && !NamedBy(s, c.fromSlug) && Key(s) == key {
      RemovalPushes(s, c);
    }
  }

  lemma RemovalPushes(slug: string, c: Change)
    requires c.toSlug.None? || Trim(c.toSlug.value) == ""
    ensures Push(slug, [c]) == if NamedBy(slug, c.fromSlug) then None else Some(slug)
  {
    PushSingle(slug, c);
  }

  /** Changes take effect one after the other. */
  lemma ChangesCompose(slug: string, first: seq<Change>, c: Change)
    ensures Push(slug, first + [c])
         == if Push(slug, first).Some? then Push(Push(slug, first).value, [c]) else None
  {
    assert (first + [c])[..|first|] == first;
    if Push(slug, first).Some? {
      PushSingle(Push(slug, first).value, c);
    }
  }

  /** An empty selection stays empty, whatever changes are pushed through it. */
  lemma EmptySelectionStays(changes: seq<Change>)
    ensures Selected([], changes) == []
  {
    assert PushEach([], changes) == [];
  }
}
