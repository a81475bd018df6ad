/** The memo table behind each cached lookup: a map from the call's raw
    arguments to its result, never holding more than its capacity. A cached
    `None` is an entry like any other. */
module Memo {
  import opened Wrappers

  /** DEFAULT_CACHE_SIZE, the capacity of every lookup's table. */
  const DefaultCacheSize: nat := 1024

  /** Going from `before` to `after`, at most one key was dropped. */
  ghost predicate DropsAtMostOne<K, V>(before: map<K, V>, after: map<K, V>)
  {
    forall a, b :: a in before && a !in after && b in before && b !in after ==> a == b
  }

  class MemoTable<K(==), V> {
    var entries: map<K, V>
    const capacity: nat
    /** The function being memoised: what the wrapped lookup returns for
        each argument. */
    ghost const answer: K -> V
    /** How many times the wrapped lookup has been run to fill the table. */
    ghost var calls: nat

    /** Within capacity, and every stored result is the lookup's answer. */
    ghost predicate Valid()
      reads this
    {
      && |entries| <= capacity
      && forall k :: k in entries ==> entries[k] == answer(k)
    }

    constructor (capacity: nat, ghost answer: K -> V)
      ensures Valid()
      ensures this.capacity == capacity && this.answer == answer
      ensures entries == map[] && calls == 0
    {
      this.capacity := capacity;
      this.answer := answer;
      entries := map[];
      calls := 0;
    }

    /** A hit yields the stored result, wrapped once more so that a stored
        `None` is told apart from a miss. */
    method Lookup(key: K) returns (r: Option<V>)
      requires Valid()
      ensures r.Some? <==> key in entries
      ensures r.Some? ==> r.value == entries[key] == answer(key)
    {
      if key in entries {
        r := Some(entries[key]);
      } else {
        r := None;
      }
    }

    /** Stores the result of one run of the wrapped lookup. A full table first gives up one other
        entry (which one is left open); a table of capacity 0 stores
        nothing. */
    method Insert(key: K, value: V)
      requires Valid() && value == answer(key)
      modifies this
      ensures Valid()
      ensures capacity > 0 ==> key in entries
      ensures capacity == 0 ==> entries == old(entries)
      ensures entries.Keys <= old(entries.Keys) + {key}
      ensures |old(entries)| < capacity ==> entries == old(entries)[key := value]
      ensures DropsAtMostOne(old(entries), entries)
      ensures calls == old(calls) + 1
    {
      calls := calls + 1;
      if capacity == 0 {
        return;
      }
      if key in entries || |entries| < capacity {
        entries := entries[key := value];
        assert old(entries.Keys) - entries.Keys == {};
      } else {
        var victim :| victim in entries;
        var kept := map k | k in entries && k != victim :: entries[k];
        assert kept.Keys == entries.Keys - {victim};
        assert |kept.Keys| == |entries.Keys| - 1;
        entries := kept[key := value];
        assert old(entries.Keys) - entries.Keys <= {victim};
      }
    }
  }
}
