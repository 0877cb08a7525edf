/**
 * The in-flight record: the set of dedup keys whose task is currently
 * running. `Add` is an atomic test-and-set and `Del` an unconditional remove;
 * the key "none" is the sentinel for "no dedup" and is never stored. The
 * source guards the map with a mutex; here each method is one atomic step.
 */
module Record {

  /** The sentinel key: an item registered without a key. */
  const NONE: string := "none"

  /** Whether `key` counts as running: never for the sentinel. */
  predicate InFlight(keys: set<string>, key: string) {
    key != NONE && key in keys
  }

  /** The record after a test-and-set of `key`. */
  function Inserted(keys: set<string>, key: string): set<string> {
    if key == NONE then keys else keys + {key}
  }

  /** The record after removing `key`. */
  function Removed(keys: set<string>, key: string): set<string> {
    if key == NONE then keys else keys - {key}
  }

  class ItemRecord {
    var keys: set<string>

    ghost predicate Valid()
      reads this
    {
      NONE !in keys
    }

    constructor ()
      ensures Valid() && keys == {}
    {
      keys := {};
    }

    /**
     * Test-and-set: reports whether `key` was already running and marks it
     * running. The sentinel is never recorded and never reported.
     */
    method Add(key: string) returns (has: bool)
      requires Valid()
      modifies this
      ensures Valid()
      ensures has == InFlight(old(keys), key)
      ensures keys == Inserted(old(keys), key)
    {
      if key == NONE {
        return false;
      }
      if key !in keys {
        has := false;
        keys := keys + {key};
      } else {
        has := true;
      }
    }

    /** Clears `key`; a no-op for the sentinel and for a key that is not running. */
    method Del(key: string)
      requires Valid()
      modifies this
      ensures Valid()
      ensures keys == Removed(old(keys), key)
    {
      if key == NONE {
        return;
      }
      keys := keys - {key};
    }
  }

  /** A test-and-set of the sentinel reports "not running" and records nothing. */
  lemma AddSentinel(keys: set<string>)
    ensures !InFlight(keys, NONE) && Inserted(keys, NONE) == keys
  {
  }

  /**
   * For any other key, a test-and-set that finds the key absent inserts it,
   * and one that finds it present changes nothing.
   */
  lemma AddOther(keys: set<string>, key: string)
    requires key != NONE
    ensures !InFlight(keys, key) ==> Inserted(keys, key) == keys + {key} && key !in keys
    ensures InFlight(keys, key) ==> Inserted(keys, key) == keys
    ensures InFlight(Inserted(keys, key), key)
  {
  }

  /** Removing takes out exactly that key, and nothing for the sentinel. */
  lemma DelExactly(keys: set<string>, key: string)
    ensures forall k :: k in Removed(keys, key) <==> k in keys && (k != key || key == NONE)
    ensures !InFlight(Removed(keys, key), key)
  {
  }

  /** Round trip: for a key that is not running, a test-and-set followed by a remove restores the record. */
  lemma AddThenDel(keys: set<string>, key: string)
    requires NONE !in keys
    requires !InFlight(keys, key)
    ensures Removed(Inserted(keys, key), key) == keys
  {
  }

  /** A second test-and-set of a non-sentinel key always finds it running. */
  lemma AddTwice(keys: set<string>, key: string)
    requires key != NONE
    ensures InFlight(Inserted(keys, key), key)
    ensures Inserted(Inserted(keys, key), key) == Inserted(keys, key)
  {
  }
}
