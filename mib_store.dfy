/** The loaded MIB set, as the decoder sees it: read-only results of the MIB
    library's lookups. Building it (compiling and loading modules) happens
    outside the decoder. */
module MibStore {
  import opened Wrappers

  /** What kind of definition a symbol is; stands for the class name the
      source reads off each node. */
  datatype NodeKind = Scalar | TableEntry | Notification | Other

  /** One entry of a notification's object list: (module name, symbol name). */
  datatype ObjectRef = ObjectRef(mib: string, symbol: string)

  /** A symbol's node. Attributes that some node classes do not have are
      optional: asking a node for one it lacks raises in the source. */
  datatype MibNode = MibNode(
    kind: NodeKind,
    name: seq<nat>,                     // getName(): the node's OID tuple
    syntaxType: Option<string>,         // type tag of getSyntax()
    description: Option<string>,        // getDescription()
    units: Option<string>,              // getUnits()
    objects: Option<seq<ObjectRef>>)    // getObjects(), in declaration order

  /** One key/value pair of a module's symbol dictionary. */
  datatype Symbol = Symbol(key: string, node: MibNode)

  /** The result of getNodeLocation: owning module, symbol, instance suffix. */
  datatype NodeLocation = NodeLocation(mib: string, symbol: string, suffix: seq<int>)

  datatype Store = Store(
    modules: map<string, seq<Symbol>>,            // mibSymbols, in iteration order
    locations: map<seq<int>, NodeLocation>,       // getNodeLocation, where it succeeds
    labels: map<string, seq<string>>)             // ObjectIdentity(text) resolved: getLabel()

  /** `mibSymbols[mib]`. */
  function ModuleSymbols(store: Store, mib: string): (r: Option<seq<Symbol>>)
    ensures r.Some? <==> mib in store.modules
  {
    if mib in store.modules then Some(store.modules[mib]) else None
  }

  /** Dictionary lookup by key in a module's symbol list. */
  function FindSymbol(symbols: seq<Symbol>, key: string): (r: Option<MibNode>)
    ensures r.Some? <==> exists k :: 0 <= k < |symbols| && symbols[k].key == key
    ensures r.Some? ==> exists k :: 0 <= k < |symbols| && symbols[k].key == key && symbols[k].node == r.value
  {
    if |symbols| == 0 then None
    else if symbols[0].key == key then Some(symbols[0].node)
    else
      var r := FindSymbol(symbols[1..], key);
      assert forall k :: 1 <= k < |symbols| ==> symbols[k] == symbols[1..][k - 1];
      assert r.Some? ==> symbols[1..][0].key == key || exists k :: 1 <= k < |symbols[1..]| && symbols[1..][k].key == key;
      r
  }

  /** No two entries of a module share a key, as in the dictionary the
      symbol list stands for. */
  predicate DistinctKeys(symbols: seq<Symbol>)
  {
    forall i, j :: 0 <= i < j < |symbols| ==> symbols[i].key != symbols[j].key
  }

  /** With distinct keys, looking a symbol's key up finds that very symbol. */
  lemma {:induction false} FindListedSymbol(symbols: seq<Symbol>, k: nat)
    requires DistinctKeys(symbols) && k < |symbols|
    ensures FindSymbol(symbols, symbols[k].key) == Some(symbols[k].node)
  {
    if k > 0 {
      assert symbols[0].key != symbols[k].key;
      assert symbols[1..][k - 1] == symbols[k];
      assert DistinctKeys(symbols[1..]) by {
        forall i, j | 0 <= i < j < |symbols[1..]|
          ensures symbols[1..][i].key != symbols[1..][j].key
        {
          assert symbols[1..][i] == symbols[i + 1] && symbols[1..][j] == symbols[j + 1];
        }
      }
      FindListedSymbol(symbols[1..], k - 1);
    }
  }

  /** `importSymbols(mib, symbol)` and `mibSymbols[mib][symbol]`: the
      node, or `None` when the module or the symbol is unknown. */
  function ImportSymbol(store: Store, mib: string, symbol: string): (r: Option<MibNode>)
    ensures mib !in store.modules ==> r.None?
  {
    if mib in store.modules then FindSymbol(store.modules[mib], symbol) else None
  }

  /** `getNodeLocation(oid)`. */
  function LocateNode(store: Store, oid: seq<int>): (r: Option<NodeLocation>)
    ensures r.Some? <==> oid in store.locations
  {
    if oid in store.locations then Some(store.locations[oid]) else None
  }

  /** `ObjectIdentity(text).resolveWithMib(view)` followed by `getLabel()`. */
  function ResolveLabel(store: Store, text: string): (r: Option<seq<string>>)
    ensures r.Some? <==> text in store.labels
  {
    if text in store.labels then Some(store.labels[text]) else None
  }
}
