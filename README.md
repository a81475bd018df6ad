# SNMP MIB decoder: OID resolution and its caches

This project models the lookup core of `SnmpMibDecoder`, the class that turns
numeric SNMP OIDs into symbolic names and node metadata over a loaded set of
MIB modules. It also proves properties of that model.

The model covers:

- `cleanNumOid`, which strips one leading dot.
- Splitting dotted text into integer segments with `int()`, and joining a
  name tuple back with `'.'.join(str(i) ...)`.
- The symbolic-name lookup and its segment-count acceptance rule, which lets
  an OID have one more segment than its label (the `.0` of a scalar).
- The leaf-name lookup.
- The description and units lookups, where an empty text means absent.
- The type lookup.
- The notification catalogue of a module and the variable bindings of a
  trap. Both are append loops.
- The OID of a symbol looked up by module and name.
- The per-method `lru_cache` of 1024 entries. It is modelled as a bounded memo
  table, one per lookup, keyed by the raw argument.

Every failure the source catches (`except Exception: return None`) is
`None` here. This includes indexing the first character of an empty OID, an
`int()` that rejects a segment, an unknown location, module or symbol, and a
node without the asked-for attribute.

The MIB library is modelled as a read-only `Store` value (`MibStore`):

- the module symbol dictionaries, in iteration order;
- the results of `getNodeLocation`;
- the labels that `ObjectIdentity(text).resolveWithMib` yields.

Module layout:

- `OidText`: cleaning, split and join, `int()` and `str()`.
- `MibStore`: the store and its lookups.
- `Resolver`: the per-OID lookups as pure functions.
- `TrapCatalog`: the two loops, as methods proved against reference functions.
- `Memo`: the memo table class.
- `Decoder`: the decoder class, whose cached methods return exactly the pure
  lookups' answers.

Three choices follow the code rather than a tidier design:

- The tables are keyed by the raw argument, before the leading dot is
  stripped. They are not keyed by the normalised OID.
  `Decoder.LeadingDotIsSeparateKey` shows that `"1.3"` and `".1.3"` are two
  entries with the same answer.
- A malformed or empty OID gives `None`, like any other failure. There is no
  distinct malformed-OID error.
- There is one table per operation, not one shared table. Eight of the
  eleven decorated methods are modelled, each with its own table.

## Model

| member | source | states |
|---|---|---|
| OidText.CleanNumOid | src/snmptrap_gen/snmp_mib_decoder.py:42-47 | the empty text has no cleaned form; otherwise the result is the text without its one leading '.', or the text itself when it does not start with '.' |
| OidText.CleanIgnoresLeadingDot | src/snmptrap_gen/snmp_mib_decoder.py:42-47 | a text and the same text with one leading '.' clean to the same OID |
| OidText.CleanStripsOnlyOneDot | src/snmptrap_gen/snmp_mib_decoder.py:44-45 | only the first of two leading dots is stripped |
| OidText.Join | src/snmptrap_gen/snmp_mib_decoder.py:96 | `'.'.join` of one or more segments is as long as the segments together plus one '.' between each two; JoinSplit and SplitJoin show it is the inverse of `split('.')` |
| OidText.Split | src/snmptrap_gen/snmp_mib_decoder.py:60 | `split('.')` always yields at least one piece, and no piece holds a '.' |
| OidText.JoinSplit | src/snmptrap_gen/snmp_mib_decoder.py:92-98 | joining the pieces of a split with '.' rebuilds the text |
| OidText.SplitJoin | src/snmptrap_gen/snmp_mib_decoder.py:96-98 | splitting the '.'-join of one or more dot-free segments gives those segments back, so the piece count of a joined label is its segment count |
| OidText.LastPieceIsSuffix | src/snmptrap_gen/snmp_mib_decoder.py:54 | `split('.')[-1]` is the text after the last '.', or the whole text when it has none |
| OidText.ParseInt | src/snmptrap_gen/snmp_mib_decoder.py:60 | `int()` of an empty segment fails (other rejected segments are covered by NonNumericCharRejected, and accepted ones by ParseIntNatToString) |
| OidText.NatToString | src/snmptrap_gen/snmp_mib_decoder.py:136 | `str(i)` of a non-negative integer is one or more decimal digits |
| OidText.ParseIntNatToString | src/snmptrap_gen/snmp_mib_decoder.py:136 | `int(str(n)) == n` for every non-negative n |
| OidText.ParseSegments | src/snmptrap_gen/snmp_mib_decoder.py:60 | the integer tuple has one entry per segment, each being `int()` of that segment, and the conversion fails exactly when some segment is rejected |
| OidText.ParseNumOid | src/snmptrap_gen/snmp_mib_decoder.py:58-60 | the tuple of a cleaned OID has one integer per dotted piece (at least one), and exists exactly when `int()` accepts every piece |
| OidText.NonNumericCharRejected | src/snmptrap_gen/snmp_mib_decoder.py:60 | `int()` rejects a segment holding a character that is not a digit, whitespace, a sign or '_' (a letter, a '/', ...) |
| OidText.NonNumericSegmentRejected | src/snmptrap_gen/snmp_mib_decoder.py:60 | a dotted piece holding such a character makes the whole tuple conversion fail |
| OidText.EmptySegmentRejected | src/snmptrap_gen/snmp_mib_decoder.py:60 | an empty piece (from an empty text, a doubled '.' or a trailing '.') makes the conversion fail |
| OidText.RenderNums | src/snmptrap_gen/snmp_mib_decoder.py:136 | one decimal text per number of the name tuple, in order |
| OidText.RenderedJoinRoundTrip | src/snmptrap_gen/snmp_mib_decoder.py:136 | parsing the '.'-join of the decimal texts of a non-empty name tuple gives the tuple back |
| OidText.FormatNumOid | src/snmptrap_gen/snmp_mib_decoder.py:136 | the dotted text of a name tuple (`'.'.join(str(i) for i in name)`) parses back to that tuple when the tuple is non-empty |
| OidText.FormatSegmentCount | src/snmptrap_gen/snmp_mib_decoder.py:136 | the dotted text of a non-empty tuple has one piece per number |
| MibStore.ModuleSymbols | src/snmptrap_gen/snmp_mib_decoder.py:129 | `mibSymbols[mib]` succeeds exactly for a loaded module |
| MibStore.FindSymbol | src/snmptrap_gen/snmp_mib_decoder.py:154 | a symbol is found exactly when the module lists its key, and the result is the node stored under that key |
| MibStore.FindListedSymbol | src/snmptrap_gen/snmp_mib_decoder.py:154 | in a symbol list with distinct keys, as a dictionary has, looking up a listed symbol's key finds that symbol's node |
| MibStore.ImportSymbol | src/snmptrap_gen/snmp_mib_decoder.py:194-196 | no symbol can be imported from a module that is not loaded |
| MibStore.LocateNode | src/snmptrap_gen/snmp_mib_decoder.py:190-192 | `getNodeLocation` succeeds exactly for the OIDs the store locates |
| MibStore.ResolveLabel | src/snmptrap_gen/snmp_mib_decoder.py:94-96 | label resolution succeeds exactly for the texts the store resolves |
| Resolver.ResolveNode | src/snmptrap_gen/snmp_mib_decoder.py:58-62 | a node is found only for a non-empty OID whose cleaned form `int()` accepts piece by piece |
| Resolver.StrOidByNumOid | src/snmptrap_gen/snmp_mib_decoder.py:88-109 | `None` for an empty OID or an unresolved label; a result is the '.'-join of the label, and its piece count equals the OID's or is one less |
| Resolver.SegmentCountAcceptance | src/snmptrap_gen/snmp_mib_decoder.py:98-105 | for a label of dot-free segments, a name is returned exactly when the OID has as many segments as the label or one more, and the name splits back into the label |
| Resolver.SegmentCountMismatchRejected | src/snmptrap_gen/snmp_mib_decoder.py:102-105 | an OID two or more segments longer than its label, or shorter than it, gets no name |
| Resolver.LeafName | src/snmptrap_gen/snmp_mib_decoder.py:52-54 | absent exactly when the dotted name is; otherwise the dot-free text after the name's last '.' |
| Resolver.NameByNumOid | src/snmptrap_gen/snmp_mib_decoder.py:49-54 | the leaf name exists exactly when the dotted name does, and holds no '.' |
| Resolver.NameIsLastLabelSegment | src/snmptrap_gen/snmp_mib_decoder.py:49-54 | with a label of dot-free segments, the leaf name is the label's last segment |
| Resolver.NonEmpty | src/snmptrap_gen/snmp_mib_decoder.py:64-66 | an empty text becomes `None`; a non-empty one is returned unchanged |
| Resolver.DescByNumOid | src/snmptrap_gen/snmp_mib_decoder.py:56-70 | a description is returned exactly when the OID designates a node whose description is present and non-empty, and it is that description |
| Resolver.UnitsByNumOid | src/snmptrap_gen/snmp_mib_decoder.py:72-86 | units are returned exactly when the OID designates a node whose units are present and non-empty, and they are those units |
| Resolver.TypeByNumOid | src/snmptrap_gen/snmp_mib_decoder.py:111-124 | for a resolved node the result is its syntax type tag, empty or not; otherwise `None` |
| Resolver.TrapNumOidBySymbols | src/snmptrap_gen/snmp_mib_decoder.py:163-172 | a result exists exactly when the symbol can be imported, and for a non-empty name tuple parsing it gives that tuple back |
| Resolver.LeadingDotInvariance | src/snmptrap_gen/snmp_mib_decoder.py:42-47 | an OID with one leading '.' and the same OID without it get the same node, name, leaf name, description, units and type |
| TrapCatalog.TrapOidsOf | src/snmptrap_gen/snmp_mib_decoder.py:131-138 | the catalogue has no more entries than the module has symbols |
| TrapCatalog.TrapOidsOfSnoc | src/snmptrap_gen/snmp_mib_decoder.py:132-137 | one more symbol adds its dotted OID to the end of the catalogue when it is a notification, and nothing otherwise |
| TrapCatalog.TrapOidsSound | src/snmptrap_gen/snmp_mib_decoder.py:134-137 | every catalogue entry is the dotted OID of some notification of the module |
| TrapCatalog.TrapOidsComplete | src/snmptrap_gen/snmp_mib_decoder.py:134-137 | the dotted OID of every notification of the module is in the catalogue |
| TrapCatalog.NoNotificationsNoTraps | src/snmptrap_gen/snmp_mib_decoder.py:131-138 | a module without notifications has an empty catalogue |
| TrapCatalog.TrapNumOidsByMib | src/snmptrap_gen/snmp_mib_decoder.py:126-142 | `None` exactly for a module that is not loaded; otherwise the notification catalogue of its symbols |
| TrapCatalog.CollectTrapNumOids | src/snmptrap_gen/snmp_mib_decoder.py:128-138 | the skip-and-append loop returns the module's catalogue |
| TrapCatalog.VarOidsOf | src/snmptrap_gen/snmp_mib_decoder.py:152-157 | bindings exist exactly when every referenced object is in the store; then there is one per object, in order, each the object's dotted OID |
| TrapCatalog.VarNumOidsByTrap | src/snmptrap_gen/snmp_mib_decoder.py:144-161 | bindings exist only for an OID that designates a node with an object list, and there is one per listed object |
| TrapCatalog.CollectObjectOids | src/snmptrap_gen/snmp_mib_decoder.py:152-157 | the append loop over the object list returns the reference bindings, stopping with `None` at the first object that is not in the store |
| TrapCatalog.CollectVarNumOids | src/snmptrap_gen/snmp_mib_decoder.py:146-157 | resolving the trap and running the loop returns the trap's bindings |
| TrapCatalog.NoObjectsNoBindings | src/snmptrap_gen/snmp_mib_decoder.py:152-157 | a trap with an empty object list has an empty binding list, not an absent one |
| TrapCatalog.BindingsFollowDeclarationOrder | src/snmptrap_gen/snmp_mib_decoder.py:153-156 | the k-th binding is the dotted OID of the k-th declared object, and parsing it gives that object's name back |
| TrapCatalog.VarsLeadingDotInvariance | src/snmptrap_gen/snmp_mib_decoder.py:147 | a leading '.' on the trap OID does not change the bindings |
| Memo.MemoTable.constructor | src/snmptrap_gen/snmp_mib_decoder.py:20 | a new table is empty, with the given capacity and lookup |
| Memo.MemoTable.Lookup | src/snmptrap_gen/snmp_mib_decoder.py:49 | a hit happens exactly for a stored key, and yields the lookup's answer for it (a stored `None` included) |
| Memo.MemoTable.Insert | src/snmptrap_gen/snmp_mib_decoder.py:49 | the table never exceeds its capacity and holds only the lookup's answers; the new key is stored; below capacity nothing else changes, and a full table drops at most one other entry |
| Decoder.SnmpMibDecoder.constructor | src/snmptrap_gen/snmp_mib_decoder.py:26-40 | a decoder over a loaded store starts with eight empty tables of capacity 1024, each memoising its own lookup |
| Decoder.SnmpMibDecoder.GetStrOidByNumOid | src/snmptrap_gen/snmp_mib_decoder.py:88-89 | the cached symbolic-name lookup returns what the uncached one computes; a hit changes nothing, and a miss runs the lookup once and stores the result under the raw argument, dropping at most one other entry |
| Decoder.SnmpMibDecoder.GetNameByNumOid | src/snmptrap_gen/snmp_mib_decoder.py:49-54 | the cached leaf-name lookup returns what the uncached one computes; a hit changes neither table; a miss runs the leaf-name lookup once and goes through the cached symbolic-name lookup, which then holds the raw key, changed only if it did not hold it before (one more run of its lookup); each of the two tables drops at most one entry, and the symbolic-name table keeps all its keys while below capacity |
| Decoder.SnmpMibDecoder.GetDescByNumOid | src/snmptrap_gen/snmp_mib_decoder.py:56-57 | the cached description lookup returns what the uncached one computes, with the same hit and miss behaviour |
| Decoder.SnmpMibDecoder.GetUnitsByNumOid | src/snmptrap_gen/snmp_mib_decoder.py:72-73 | the cached units lookup returns what the uncached one computes, with the same hit and miss behaviour |
| Decoder.SnmpMibDecoder.GetTypeByNumOid | src/snmptrap_gen/snmp_mib_decoder.py:111-112 | the cached type lookup returns what the uncached one computes, with the same hit and miss behaviour |
| Decoder.SnmpMibDecoder.GetTrapNumOidsByMib | src/snmptrap_gen/snmp_mib_decoder.py:126-127 | the cached catalogue returns what the loop computes, keyed by module name |
| Decoder.SnmpMibDecoder.GetVarNumOidsByTrap | src/snmptrap_gen/snmp_mib_decoder.py:144-145 | the cached bindings return what the loop computes, keyed by the raw trap OID |
| Decoder.SnmpMibDecoder.GetTrapNumOidBySymbols | src/snmptrap_gen/snmp_mib_decoder.py:163-164 | the cached symbol lookup returns what the uncached one computes, keyed by the (module, symbol) pair |
| Decoder.RepeatedKeyHitsCache | src/snmptrap_gen/snmp_mib_decoder.py:88-89 | asking a fresh decoder twice for the same OID gives the uncached answer both times, and the lookup runs once (returned as a ghost count) |
| Decoder.LeadingDotIsSeparateKey | src/snmptrap_gen/snmp_mib_decoder.py:88-91 | the same OID with and without a leading '.' takes two table entries and two lookup runs, for the same answer |

## Left out

- MIB store construction is not modelled: the search paths, compiling and loading modules, and fetching definitions over HTTP (lines 10-18 and 34-40). The decoder takes an already loaded `Store` value.
- The `debug` and `load_texts` options of the constructor are not modelled. They configure logging and the library.
- The MIB library's resolvers (`getNodeLocation`, `ObjectIdentity.resolveWithMib`, `importSymbols`) are not part of this model. They are maps in `Store`. The label map is keyed by the cleaned OID text, the value the source hands to `ObjectIdentity`.
- `castValueByNumOidType` (lines 174-188) is not modelled: it calls a node's syntax class on an arbitrary Python value.
- The caches on `_getNodeLocation` and `_importSymbols` (lines 190-196) are not modelled: the store is read-only, so they cannot change any answer.
- `main()` (lines 199-247) is not modelled. It is demonstration code that prints.
- The printing of caught exceptions is not modelled: output only.
- Thread safety of the caches is not modelled: the model is sequential.
- Memo.MemoTable.Insert: a full table drops one arbitrary other entry, not the least recently used one. Lookup does not refresh recency. What is proved (bounded size, only correct answers, the new key stored, at most one entry dropped) holds for any eviction order.
- Decoder.SnmpMibDecoder.constructor: one decoder instance is modelled. Python's `lru_cache` on a method is shared by all instances, with `self` as part of the key. Each decoder here has its own tables, which gives the same answers.
- Decoder.LeadingDotIsSeparateKey: it does not state that the undotted key is still stored after the second call, because a full table may evict it.
- TrapCatalog.CollectTrapNumOids and TrapCatalog.CollectVarNumOids, and the cached Decoder.SnmpMibDecoder.GetTrapNumOidsByMib and Decoder.SnmpMibDecoder.GetVarNumOidsByTrap: the source's cache returns the same mutable list object on every hit. A caller that changes that list changes every later answer for that key. The model's lists are values, so it does not capture this aliasing. It promises the same answer on every call, which the source gives only to callers that leave the list alone.
- MibStore.Store: a module's symbol list may repeat a key, which a Python dictionary cannot. FindListedSymbol states the lookup for lists with distinct keys. The other lemmas do not assume it.
- OidText.ParseInt: only ASCII digits and ASCII whitespace are modelled. Python's `int()` also accepts other Unicode decimal digits and spaces.
- Resolver.TypeByNumOid: the class-name text `str(type(...))[8:-2]` is modelled as an opaque type tag on the node (`syntaxType`). The string slicing is not modelled.
- TrapCatalog.TrapOidsOf: the class-name test `str(type(node))[8:-2] != 'NotificationType'` is modelled as the node kind `Notification`.
- Nodes whose `getName()` is missing are not modelled. Every symbol carries a name tuple, so `getName()` cannot raise here.
- OidText.CleanNumOid: "." cleans to the empty text, as in the source. Only "" itself fails at cleaning. The lookups that parse the cleaned text (node, description, units, type, bindings) then fail in `int()`. The symbolic-name lookup does not parse it: it hands "" to the label resolver, so its answer for "." is whatever the store's label map gives for "".
- OidText.NatToString and OidText.ParseInt: integers are unbounded. CPython 3.11 and later refuse `int()` and `str()` conversions of more than 4300 digits by default, which would make such a lookup `None`. OID arcs never come near that length.
