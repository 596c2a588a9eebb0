/** The table of recent registration failures, by account and operation, that makes registrations wait. */
module FailureTable {

  type Account = nat
  type Digest = nat

  datatype Operation = IdentityRegistration | TaskRegistration

  datatype Key = Key(account: Account, operation: Operation)

  datatype Failure = Failure(failedAt: real, material: Digest)

  type Table = map<Key, Failure>

  /** Seconds that a failure holds a registration back. */
  const TTL: real := 300.0

  predicate Live(failure: Failure, now: real) {
    now - failure.failedAt < TTL
  }

  function Pruned(t: Table, now: real): (r: Table)
    ensures forall k :: k in r <==> k in t && Live(t[k], now)
    ensures forall k :: k in r ==> r[k] == t[k]
  {
    map k | k in t && Live(t[k], now) :: t[k]
  }

  predicate CoolingDown(t: Table, key: Key, material: Digest) {
    key in t && t[key].material == material
  }

  /** A success removes only the failure of the same material. */
  function Cleared(t: Table, key: Key, material: Digest): (r: Table)
    ensures forall k :: k in r <==> k in t && !(k == key && t[k].material == material)
    ensures forall k :: k in r ==> r[k] == t[k]
  {
    if CoolingDown(t, key, material) then t - {key} else t
  }

  /** The process-wide table, behind its mutex. */
  class BootstrapFailures {
    var failures: Table

    constructor ()
      ensures failures == map[]
    {
      failures := map[];
    }

    method IsActive(key: Key, material: Digest, now: real) returns (active: bool)
      modifies this
      ensures failures == Pruned(old(failures), now)
      ensures active
          <==> key in old(failures) && Live(old(failures)[key], now) && old(failures)[key].material == material
    {
      var kept: Table := map[];
      var rest := failures.Keys;
      while rest != {}
        invariant rest <= failures.Keys && failures == old(failures)
        invariant forall k :: k in kept <==> k in failures && k !in rest && Live(failures[k], now)
        invariant forall k :: k in kept ==> kept[k] == failures[k]
        decreases rest
      {
        var k :| k in rest;
        rest := rest - {k};
        if Live(failures[k], now) {
          kept := kept[k := failures[k]];
        }
      }
      assert kept == Pruned(failures, now);
      failures := kept;
      active := key in failures && failures[key].material == material;
    }

    method Remember(key: Key, material: Digest, now: real)
      modifies this
      ensures failures == old(failures)[key := Failure(now, material)]
    {
      failures := failures[key := Failure(now, material)];
    }

    method Clear(key: Key, material: Digest)
      modifies this
      ensures failures == Cleared(old(failures), key, material)
    {
      if key in failures && failures[key].material == material {
        failures := failures - {key};
      }
    }
  }
}
