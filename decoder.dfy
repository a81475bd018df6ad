/** SnmpMibDecoder: every public lookup behind its own memo table, keyed by
    the raw argument (before the leading dot is stripped). The store is
    fixed at construction and never changes, so a cached answer is always
    the answer the lookup would compute again. */
module Decoder {
  import opened Wrappers
  import opened OidText
  import opened MibStore
  import opened Resolver
  import opened TrapCatalog
  import opened Memo

  // The lookups as function values, one per memo table.

  ghost function NameLookup(store: Store): string -> Option<string>
  {
    k => NameByNumOid(store, k)
  }

  ghost function DescLookup(store: Store): string -> Option<string>
  {
    k => DescByNumOid(store, k)
  }

  ghost function UnitsLookup(store: Store): string -> Option<string>
  {
    k => UnitsByNumOid(store, k)
  }

  ghost function StrOidLookup(store: Store): string -> Option<string>
  {
    k => StrOidByNumOid(store, k)
  }

  ghost function TypeLookup(store: Store): string -> Option<string>
  {
    k => TypeByNumOid(store, k)
  }

  ghost function TrapsLookup(store: Store): string -> Option<seq<string>>
  {
    k => TrapNumOidsByMib(store, k)
  }

  ghost function VarsLookup(store: Store): string -> Option<seq<string>>
  {
    k => VarNumOidsByTrap(store, k)
  }

  ghost function TrapBySymbolsLookup(store: Store): ((string, string)) -> Option<string>
  {
    (k: (string, string)) => TrapNumOidBySymbols(store, k.0, k.1)
  }

  class SnmpMibDecoder {
    const store: Store
    const nameCache: MemoTable<string, Option<string>>
    const descCache: MemoTable<string, Option<string>>
    const unitsCache: MemoTable<string, Option<string>>
    const strOidCache: MemoTable<string, Option<string>>
    const typeCache: MemoTable<string, Option<string>>
    const trapsCache: MemoTable<string, Option<seq<string>>>
    const varsCache: MemoTable<string, Option<seq<string>>>
    const trapBySymbolsCache: MemoTable<(string, string), Option<string>>

    /** Each table memoises its own lookup over this decoder's store, with
        capacity DEFAULT_CACHE_SIZE. */
    ghost predicate Wired()
    {
      && nameCache.capacity == DefaultCacheSize && nameCache.answer == NameLookup(store)
      && descCache.capacity == DefaultCacheSize && descCache.answer == DescLookup(store)
      && unitsCache.capacity == DefaultCacheSize && unitsCache.answer == UnitsLookup(store)
      && strOidCache.capacity == DefaultCacheSize && strOidCache.answer == StrOidLookup(store)
      && typeCache.capacity == DefaultCacheSize && typeCache.answer == TypeLookup(store)
      && trapsCache.capacity == DefaultCacheSize && trapsCache.answer == TrapsLookup(store)
      && varsCache.capacity == DefaultCacheSize && varsCache.answer == VarsLookup(store)
      && trapBySymbolsCache.capacity == DefaultCacheSize && trapBySymbolsCache.answer == TrapBySymbolsLookup(store)
    }

    /** The eight tables are eight different objects. */
    ghost predicate Distinct()
    {
      && nameCache as object != descCache as object
      && nameCache as object != unitsCache as object
      && nameCache as object != strOidCache as object
      && nameCache as object != typeCache as object
      && nameCache as object != trapsCache as object
      && nameCache as object != varsCache as object
      && nameCache as object != trapBySymbolsCache as object
      && descCache as object != unitsCache as object
      && descCache as object != strOidCache as object
      && descCache as object != typeCache as object
      && descCache as object != trapsCache as object
      && descCache as object != varsCache as object
      && descCache as object != trapBySymbolsCache as object
      && unitsCache as object != strOidCache as object
      && unitsCache as object != typeCache as object
      && unitsCache as object != trapsCache as object
      && unitsCache as object != varsCache as object
      && unitsCache as object != trapBySymbolsCache as object
      && strOidCache as object != typeCache as object
      && strOidCache as object != trapsCache as object
      && strOidCache as object != varsCache as object
      && strOidCache as object != trapBySymbolsCache as object
      && typeCache as object != trapsCache as object
      && typeCache as object != varsCache as object
      && typeCache as object != trapBySymbolsCache as object
      && trapsCache as object != varsCache as object
      && trapsCache as object != trapBySymbolsCache as object
      && varsCache as object != trapBySymbolsCache as object
    }

    /** Every table within its capacity and holding only its lookup's
        answers. */
    ghost predicate Valid()
      reads nameCache, descCache, unitsCache, strOidCache, typeCache,
            trapsCache, varsCache, trapBySymbolsCache
    {
      && Distinct()
      && Wired()
      && nameCache.Valid()
      && descCache.Valid()
      && unitsCache.Valid()
      && strOidCache.Valid()
      && typeCache.Valid()
      && trapsCache.Valid()
      && varsCache.Valid()
      && trapBySymbolsCache.Valid()
    }

    /** The decoder over an already loaded MIB set, with empty tables. */
    constructor (store: Store)
      ensures Valid() && this.store == store
      ensures fresh(nameCache) && fresh(descCache) && fresh(unitsCache) && fresh(strOidCache)
      ensures fresh(typeCache) && fresh(trapsCache) && fresh(varsCache) && fresh(trapBySymbolsCache)
      ensures nameCache.entries == descCache.entries == unitsCache.entries == map[]
      ensures strOidCache.entries == typeCache.entries == map[]
      ensures trapsCache.entries == varsCache.entries == map[] && trapBySymbolsCache.entries == map[]
      ensures nameCache.calls == descCache.calls == unitsCache.calls == strOidCache.calls == 0
      ensures typeCache.calls == trapsCache.calls == varsCache.calls == trapBySymbolsCache.calls == 0
    {
      this.store := store;
      nameCache := new MemoTable(DefaultCacheSize, NameLookup(store));
      descCache := new MemoTable(DefaultCacheSize, DescLookup(store));
      unitsCache := new MemoTable(DefaultCacheSize, UnitsLookup(store));
      strOidCache := new MemoTable(DefaultCacheSize, StrOidLookup(store));
      typeCache := new MemoTable(DefaultCacheSize, TypeLookup(store));
      trapsCache := new MemoTable(DefaultCacheSize, TrapsLookup(store));
      varsCache := new MemoTable(DefaultCacheSize, VarsLookup(store));
      trapBySymbolsCache := new MemoTable(DefaultCacheSize, TrapBySymbolsLookup(store));
    }

    /** getStrOidByNumOid, cached. */
    method GetStrOidByNumOid(numOid: string) returns (r: Option<string>)
      requires Valid()
      modifies strOidCache
      ensures Valid()
      ensures r == StrOidByNumOid(store, numOid)
      ensures numOid in strOidCache.entries
      ensures |old(strOidCache.entries)| < strOidCache.capacity ==> old(strOidCache.entries.Keys) <= strOidCache.entries.Keys
      ensures strOidCache.entries.Keys <= old(strOidCache.entries.Keys) + {numOid}
      ensures numOid in old(strOidCache.entries) ==> unchanged(strOidCache)
      ensures numOid !in old(strOidCache.entries) ==> strOidCache.calls == old(strOidCache.calls) + 1
      ensures DropsAtMostOne(old(strOidCache.entries), strOidCache.entries)
    {
      var cached := strOidCache.Lookup(numOid);
      if cached.Some? {
        return cached.value;
      }
      r := StrOidByNumOid(store, numOid);
      strOidCache.Insert(numOid, r);
    }

    /** getNameByNumOid, cached; a miss goes through the cached
        getStrOidByNumOid with the same raw argument. */
    method GetNameByNumOid(numOid: string) returns (r: Option<string>)
      requires Valid()
      modifies nameCache, strOidCache
      ensures Valid()
      ensures r == NameByNumOid(store, numOid)
      ensures numOid in nameCache.entries
      ensures |old(nameCache.entries)| < nameCache.capacity ==> old(nameCache.entries.Keys) <= nameCache.entries.Keys
      ensures nameCache.entries.Keys <= old(nameCache.entries.Keys) + {numOid}
      ensures numOid in old(nameCache.entries) ==> unchanged(nameCache, strOidCache)
      ensures numOid !in old(nameCache.entries) ==> nameCache.calls == old(nameCache.calls) + 1
      ensures DropsAtMostOne(old(nameCache.entries), nameCache.entries)
      ensures numOid !in old(nameCache.entries) ==>
        numOid in strOidCache.entries && strOidCache.entries.Keys <= old(strOidCache.entries.Keys) + {numOid}
      ensures numOid !in old(nameCache.entries) && numOid in old(strOidCache.entries) ==> unchanged(strOidCache)
      ensures numOid !in old(nameCache.entries) && numOid !in old(strOidCache.entries) ==>
        strOidCache.calls == old(strOidCache.calls) + 1
      ensures |old(strOidCache.entries)| < strOidCache.capacity ==> old(strOidCache.entries.Keys) <= strOidCache.entries.Keys
      ensures DropsAtMostOne(old(strOidCache.entries), strOidCache.entries)
    {
      var cached := nameCache.Lookup(numOid);
      if cached.Some? {
        return cached.value;
      }
      var strOid := GetStrOidByNumOid(numOid);
      r := LeafName(strOid);
      nameCache.Insert(numOid, r);
    }

    /** getDescByNumOid, cached. */
    method GetDescByNumOid(numOid: string) returns (r: Option<string>)
      requires Valid()
      modifies descCache
      ensures Valid()
      ensures r == DescByNumOid(store, numOid)
      ensures numOid in descCache.entries
      ensures |old(descCache.entries)| < descCache.capacity ==> old(descCache.entries.Keys) <= descCache.entries.Keys
      ensures descCache.entries.Keys <= old(descCache.entries.Keys) + {numOid}
      ensures numOid in old(descCache.entries) ==> unchanged(descCache)
      ensures numOid !in old(descCache.entries) ==> descCache.calls == old(descCache.calls) + 1
      ensures DropsAtMostOne(old(descCache.entries), descCache.entries)
    {
      var cached := descCache.Lookup(numOid);
      if cached.Some? {
        return cached.value;
      }
      r := DescByNumOid(store, numOid);
      descCache.Insert(numOid, r);
    }

    /** getUnitsByNumOid, cached. */
    method GetUnitsByNumOid(numOid: string) returns (r: Option<string>)
      requires Valid()
      modifies unitsCache
      ensures Valid()
      ensures r == UnitsByNumOid(store, numOid)
      ensures numOid in unitsCache.entries
      ensures |old(unitsCache.entries)| < unitsCache.capacity ==> old(unitsCache.entries.Keys) <= unitsCache.entries.Keys
      ensures unitsCache.entries.Keys <= old(unitsCache.entries.Keys) + {numOid}
      ensures numOid in old(unitsCache.entries) ==> unchanged(unitsCache)
      ensures numOid !in old(unitsCache.entries) ==> unitsCache.calls == old(unitsCache.calls) + 1
      ensures DropsAtMostOne(old(unitsCache.entries), unitsCache.entries)
    {
      var cached := unitsCache.Lookup(numOid);
      if cached.Some? {
        return cached.value;
      }
      r := UnitsByNumOid(store, numOid);
      unitsCache.Insert(numOid, r);
    }

    /** getTypeByNumOid, cached. */
    method GetTypeByNumOid(numOid: string) returns (r: Option<string>)
      requires Valid()
      modifies typeCache
      ensures Valid()
      ensures r == TypeByNumOid(store, numOid)
      ensures numOid in typeCache.entries
      ensures |old(typeCache.entries)| < typeCache.capacity ==> old(typeCache.entries.Keys) <= typeCache.entries.Keys
      ensures typeCache.entries.Keys <= old(typeCache.entries.Keys) + {numOid}
      ensures numOid in old(typeCache.entries) ==> unchanged(typeCache)
      ensures numOid !in old(typeCache.entries) ==> typeCache.calls == old(typeCache.calls) + 1
      ensures DropsAtMostOne(old(typeCache.entries), typeCache.entries)
    {
      var cached := typeCache.Lookup(numOid);
      if cached.Some? {
        return cached.value;
      }
      r := TypeByNumOid(store, numOid);
      typeCache.Insert(numOid, r);
    }

    /** getTrapNumOidsByMib, cached; a miss runs the collecting loop. */
    method GetTrapNumOidsByMib(mibName: string) returns (r: Option<seq<string>>)
      requires Valid()
      modifies trapsCache
      ensures Valid()
      ensures r == TrapNumOidsByMib(store, mibName)
      ensures mibName in trapsCache.entries
      ensures |old(trapsCache.entries)| < trapsCache.capacity ==> old(trapsCache.entries.Keys) <= trapsCache.entries.Keys
      ensures trapsCache.entries.Keys <= old(trapsCache.entries.Keys) + {mibName}
      ensures mibName in old(trapsCache.entries) ==> unchanged(trapsCache)
      ensures mibName !in old(trapsCache.entries) ==> trapsCache.calls == old(trapsCache.calls) + 1
      ensures DropsAtMostOne(old(trapsCache.entries), trapsCache.entries)
    {
      var cached := trapsCache.Lookup(mibName);
      if cached.Some? {
        return cached.value;
      }
      r := CollectTrapNumOids(store, mibName);
      trapsCache.Insert(mibName, r);
    }

    /** getVarNumOidsByTrap, cached; a miss runs the collecting loop. */
    method GetVarNumOidsByTrap(numOid: string) returns (r: Option<seq<string>>)
      requires Valid()
      modifies varsCache
      ensures Valid()
      ensures r == VarNumOidsByTrap(store, numOid)
      ensures numOid in varsCache.entries
      ensures |old(varsCache.entries)| < varsCache.capacity ==> old(varsCache.entries.Keys) <= varsCache.entries.Keys
      ensures varsCache.entries.Keys <= old(varsCache.entries.Keys) + {numOid}
      ensures numOid in old(varsCache.entries) ==> unchanged(varsCache)
      ensures numOid !in old(varsCache.entries) ==> varsCache.calls == old(varsCache.calls) + 1
      ensures DropsAtMostOne(old(varsCache.entries), varsCache.entries)
    {
      var cached := varsCache.Lookup(numOid);
      if cached.Some? {
        return cached.value;
      }
      r := CollectVarNumOids(store, numOid);
      varsCache.Insert(numOid, r);
    }

    /** getTrapNumOidBySymbols, cached under the (module, trap) pair. */
    method GetTrapNumOidBySymbols(mibName: string, trapName: string) returns (r: Option<string>)
      requires Valid()
      modifies trapBySymbolsCache
      ensures Valid()
      ensures r == TrapNumOidBySymbols(store, mibName, trapName)
      ensures (mibName, trapName) in trapBySymbolsCache.entries
      ensures |old(trapBySymbolsCache.entries)| < trapBySymbolsCache.capacity ==> old(trapBySymbolsCache.entries.Keys) <= trapBySymbolsCache.entries.Keys
      ensures trapBySymbolsCache.entries.Keys <= old(trapBySymbolsCache.entries.Keys) + {(mibName, trapName)}
      ensures (mibName, trapName) in old(trapBySymbolsCache.entries) ==> unchanged(trapBySymbolsCache)
      ensures (mibName, trapName) !in old(trapBySymbolsCache.entries) ==> trapBySymbolsCache.calls == old(trapBySymbolsCache.calls) + 1
      ensures DropsAtMostOne(old(trapBySymbolsCache.entries), trapBySymbolsCache.entries)
    {
      var cached := trapBySymbolsCache.Lookup((mibName, trapName));
      if cached.Some? {
        return cached.value;
      }
      r := TrapNumOidBySymbols(store, mibName, trapName);
      trapBySymbolsCache.Insert((mibName, trapName), r);
    }
  }

  /** On a fresh decoder, asking twice for the same OID runs the lookup once
      and answers the same both times. */
  method RepeatedKeyHitsCache(store: Store, s: string)
    returns (first: Option<string>, again: Option<string>, ghost runs: nat)
    ensures first == again == StrOidByNumOid(store, s)
    ensures runs == 1
  {
    var d := new SnmpMibDecoder(store);
    first := d.GetStrOidByNumOid(s);
    again := d.GetStrOidByNumOid(s);
    runs := d.strOidCache.calls;
  }

  /** Keys are raw: on a decoder that has not yet seen an OID in either
      spelling, the OID and the same OID written with a leading dot are two
      keys, each running the lookup once, for the same answer. */
  method LeadingDotIsSeparateKey(d: SnmpMibDecoder, s: string) returns (plain: Option<string>, withDot: Option<string>)
    requires d.Valid() && |s| > 0 && s[0] != Dot
    requires s !in d.strOidCache.entries && [Dot] + s !in d.strOidCache.entries
    modifies d.strOidCache
    ensures d.Valid() && withDot == plain
    ensures [Dot] + s in d.strOidCache.entries
    ensures d.strOidCache.calls == old(d.strOidCache.calls) + 2
  {
    plain := d.GetStrOidByNumOid(s);
    assert [Dot] + s != s;
    withDot := d.GetStrOidByNumOid([Dot] + s);
    assert withDot == plain by {
      LeadingDotInvariance(d.store, s);
    }
  }
}
