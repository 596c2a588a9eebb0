/** Choosing catalog entries for a list of requested model slugs. */
module CatalogSelection {
  import opened Lists
  import opened Text

  /** The key under which a requested slug is looked up. */
  function Key(slug: string): string {
    Lower(Trim(slug))
  }

  /** The keys that a list of requests names; blank requests name nothing. */
  function RequestedKeys(requested: seq<string>): set<string> {
    set q | q in requested && Key(q) != "" :: Key(q)
  }

  /** The catalog slugs, in catalog order, whose key was requested. */
  function Matching(managed: seq<string>, keys: set<string>): seq<string> {
    FilterMap(managed, slug => if Lower(slug) in keys then Some(slug) else None)
  }

  predicate AllKnown(managed: seq<string>, keys: set<string>) {
    forall k :: k in keys ==> exists s :: s in managed && Lower(s) == k
  }

  /** An explicit selection: refused when it is empty or names an unknown model. */
  function Select(managed: seq<string>, requested: seq<string>): (r: Option<seq<string>>)
  {
    var keys := RequestedKeys(requested);
    if keys != {} && AllKnown(managed, keys) then Some(Matching(managed, keys)) else None
  }

  /** A persisted selection met with a changed catalog: models that are gone are dropped. */
  function Reconcile(managed: seq<string>, requested: seq<string>): Option<seq<string>> {
    var selected := Matching(managed, RequestedKeys(requested));
    if selected == [] then None else Some(selected)
  }

  /** The first part of the source's selection: the deduplicated requests, by a loop over a set. */
  method DeduplicateRequests(slugs: seq<string>) returns (requested: seq<string>, keys: set<string>)
    ensures requested == FilterMap(KeepFirst(slugs, Key), slug => Some(Trim(slug)))
    ensures keys == RequestedKeys(slugs)
  {
    var kept;
    kept, keys := RetainFirst(slugs, Key);
    requested := [];
    for i := 0 to |kept|
      invariant requested == FilterMap(kept[..i], slug => Some(Trim(slug)))
    {
      FilterMapExtends(kept, i, slug => Some(Trim(slug)));
      requested := requested + [Trim(kept[i])];
    }
    assert kept[..|kept|] == kept;
    SeenKeysAreRequested(slugs, keys);
  }

  lemma SeenKeysAreRequested(slugs: seq<string>, keys: set<string>)
    requires SeenKeys(slugs, Key, keys)
    ensures keys == RequestedKeys(slugs)
  {
    forall k | k in keys ensures k in RequestedKeys(slugs) {
      var j :| 0 <= j < |slugs| && Key(slugs[j]) == k;
      assert slugs[j] in slugs;
    }
  }

  /** A slug is chosen exactly when the catalog has it and its key was requested. */
  lemma MatchingMembers(managed: seq<string>, keys: set<string>)
    ensures forall s :: s in Matching(managed, keys) <==> s in managed && Lower(s) in keys
  {
    var pick := (slug: string) => if Lower(slug) in keys then Some(slug) else None;
    FilterMapMembers(managed, pick);
    forall s | s in managed && Lower(s) in keys ensures s in Matching(managed, keys) {
      assert pick(s) == Some(s);
    }
  }

  /** Some request, trimmed, is not blank and names the slug up to case. */
  ghost predicate IsRequested(requested: seq<string>, slug: string) {
    exists q :: q in requested && Trim(q) != "" && EqIgnoreCase(Trim(q), slug)
  }

  ghost function Requests(requested: seq<string>): string -> bool {
    s => IsRequested(requested, s)
  }

  lemma RequestedByKey(requested: seq<string>, slug: string)
    ensures Lower(slug) in RequestedKeys(requested) <==> IsRequested(requested, slug)
  {
    if IsRequested(requested, slug) {
      var q :| q in requested && Trim(q) != "" && EqIgnoreCase(Trim(q), slug);
      assert Key(q) == Lower(slug);
    }
  }

  /** The answer lists the requested models of the catalog, all of them and no others, in catalog order. */
  ghost predicate ListsRequested(managed: seq<string>, requested: seq<string>, answer: seq<string>) {
    exists at :: Picks(managed, Requests(requested), answer, at)
  }

  lemma MatchingLists(managed: seq<string>, requested: seq<string>)
    ensures ListsRequested(managed, requested, Matching(managed, RequestedKeys(requested)))
  {
    var keys := RequestedKeys(requested);
    forall s | s in managed ensures Lower(s) in keys <==> Requests(requested)(s) {
      RequestedByKey(requested, s);
    }
    var at := FilterPicks(managed, slug => if Lower(slug) in keys then Some(slug) else None, Requests(requested));
  }

  /** Some request is not blank. */
  predicate AsksForAny(requested: seq<string>) {
    exists q :: q in requested && Trim(q) != ""
  }

  predicate Offers(managed: seq<string>, slug: string) {
    exists s :: s in managed && EqIgnoreCase(s, slug)
  }

  predicate AllOffered(managed: seq<string>, requested: seq<string>) {
    forall q :: q in requested && Trim(q) != "" ==> Offers(managed, Trim(q))
  }

  lemma KeysAreOffered(managed: seq<string>, requested: seq<string>)
    ensures RequestedKeys(requested) != {} <==> AsksForAny(requested)
    ensures AllKnown(managed, RequestedKeys(requested)) <==> AllOffered(managed, requested)
  {
    var keys := RequestedKeys(requested);
    forall q | q in requested && Trim(q) != "" ensures Key(q) in keys {}
    forall k | k in keys ensures exists q :: q in requested && Trim(q) != "" && Key(q) == k {}
  }

  /** An explicit selection is refused exactly when no request is left, or one names no model of the catalog. */
  lemma SelectAnswers(managed: seq<string>, requested: seq<string>)
    ensures Select(managed, requested).Some? <==> AsksForAny(requested) && AllOffered(managed, requested)
    ensures Select(managed, requested).Some? ==> ListsRequested(managed, requested, Select(managed, requested).value)
  {
    MatchingLists(managed, requested);
    KeysAreOffered(managed, requested);
  }

  /** A reconciled selection is none exactly when no model of the catalog is requested. */
  lemma ReconcileAnswers(managed: seq<string>, requested: seq<string>)
    ensures Reconcile(managed, requested).None? <==> forall s :: s in managed ==> !IsRequested(requested, s)
    ensures Reconcile(managed, requested).Some? ==>
              ListsRequested(managed, requested, Reconcile(managed, requested).value)
  {
    var chosen := Matching(managed, RequestedKeys(requested));
    MatchingLists(managed, requested);
    MatchingMembers(managed, RequestedKeys(requested));
    forall s | s in managed ensures s in chosen <==> IsRequested(requested, s) {
      RequestedByKey(requested, s);
    }
    if chosen != [] {
      assert chosen[0] in chosen;
    }
  }

  /** A selection that is accepted is never empty and loses no request. */
  lemma SelectionIsComplete(managed: seq<string>, requested: seq<string>)
    requires Select(managed, requested).Some?
    ensures Select(managed, requested).value != []
    ensures forall k :: k in RequestedKeys(requested) ==>
              exists s :: s in Select(managed, requested).value && Lower(s) == k
  {
    var keys := RequestedKeys(requested);
    MatchingMembers(managed, keys);
    forall k | k in keys ensures exists s :: s in Matching(managed, keys) && Lower(s) == k {
      var s :| s in managed && Lower(s) == k;
    }
    var k :| k in keys;
  }

  /** Reconciling a selection with the catalog that produced it gives it back, in the same order. */
  lemma ReconcileIsStable(managed: seq<string>, requested: seq<string>)
    requires forall s :: s in managed ==> Trim(s) == s
    requires Reconcile(managed, requested).Some?
    ensures Reconcile(managed, Reconcile(managed, requested).value) == Reconcile(managed, requested)
  {
    var keys := RequestedKeys(requested);
    var chosen := Matching(managed, keys);
    MatchingMembers(managed, keys);
    assert "" !in keys;
    forall s | s in managed ensures Lower(s) in keys <==> Lower(s) in RequestedKeys(chosen) {
      if Lower(s) in keys {
        assert s in chosen && Key(s) == Lower(s);
      }
      if Lower(s) in RequestedKeys(chosen) {
        var q :| q in chosen && Key(q) == Lower(s);
      }
    }
    FilterMapAgrees(managed, (slug: string) => if Lower(slug) in keys then Some(slug) else None,
      (slug: string) => if Lower(slug) in RequestedKeys(chosen) then Some(slug) else None);
  }
}
