/** The notification catalogue of a module and the variable bindings of a
    trap: the two lookups that build their answer by appending in a loop. */
module TrapCatalog {
  import opened Wrappers
  import opened OidText
  import opened MibStore
  import opened Resolver

  // ---------------------------------------------------------------------
  // getTrapNumOidsByMib

  predicate IsNotification(s: Symbol)
  {
    s.node.kind == Notification
  }

  /** Reference definition: the dotted OIDs of the notification symbols, in
      the order the module lists its symbols. */
  function TrapOidsOf(symbols: seq<Symbol>): (oids: seq<string>)
    ensures |oids| <= |symbols|
  {
    if |symbols| == 0 then []
    else
      (if IsNotification(symbols[0]) then [FormatNumOid(symbols[0].node.name)] else [])
      + TrapOidsOf(symbols[1..])
  }

  /** Appending a symbol to the list appends at most its OID to the result. */
  lemma {:induction false} TrapOidsOfSnoc(symbols: seq<Symbol>, s: Symbol)
    ensures TrapOidsOf(symbols + [s])
      == TrapOidsOf(symbols) + (if IsNotification(s) then [FormatNumOid(s.node.name)] else [])
  {
    if |symbols| > 0 {
      assert (symbols + [s])[1..] == symbols[1..] + [s];
      TrapOidsOfSnoc(symbols[1..], s);
    } else {
      assert (symbols + [s])[1..] == [];
    }
  }

  /** Every OID in the catalogue belongs to a notification of the module. */
  lemma {:induction false} TrapOidsSound(symbols: seq<Symbol>, j: nat)
    requires j < |TrapOidsOf(symbols)|
    ensures exists k ::
      (0 <= k < |symbols| && IsNotification(symbols[k])
       && TrapOidsOf(symbols)[j] == FormatNumOid(symbols[k].node.name))
  {
    var head := if IsNotification(symbols[0]) then [FormatNumOid(symbols[0].node.name)] else [];
    if j >= |head| {
      TrapOidsSound(symbols[1..], j - |head|);
      var k :| 0 <= k < |symbols[1..]| && IsNotification(symbols[1..][k])
        && TrapOidsOf(symbols[1..])[j - |head|] == FormatNumOid(symbols[1..][k].node.name);
      assert symbols[1..][k] == symbols[k + 1];
    }
  }

  /** Every notification of the module has its OID in the catalogue. */
  lemma {:induction false} TrapOidsComplete(symbols: seq<Symbol>, k: nat)
    requires k < |symbols| && IsNotification(symbols[k])
    ensures FormatNumOid(symbols[k].node.name) in TrapOidsOf(symbols)
  {
    if k > 0 {
      TrapOidsComplete(symbols[1..], k - 1);
      assert symbols[1..][k - 1] == symbols[k];
    }
  }

  /** A module without notifications has an empty catalogue. */
  lemma {:induction false} NoNotificationsNoTraps(symbols: seq<Symbol>)
    requires forall k :: 0 <= k < |symbols| ==> !IsNotification(symbols[k])
    ensures TrapOidsOf(symbols) == []
  {
    if |symbols| > 0 {
      assert forall k :: 0 <= k < |symbols[1..]| ==> symbols[1..][k] == symbols[k + 1];
      NoNotificationsNoTraps(symbols[1..]);
    }
  }

  /** The catalogue of a module: `None` for an unknown module, otherwise the
      notification OIDs (possibly none). */
  function TrapNumOidsByMib(store: Store, mib: string): (r: Option<seq<string>>)
    ensures r.None? <==> mib !in store.modules
    ensures r.Some? ==> r.value == TrapOidsOf(store.modules[mib])
  {
    match ModuleSymbols(store, mib)
    case None => None
    case Some(symbols) => Some(TrapOidsOf(symbols))
  }

  /** getTrapNumOidsByMib: look the module up, then skip every symbol that
      is not a notification and append the dotted OID of every one that is. */
  method CollectTrapNumOids(store: Store, mib: string) returns (r: Option<seq<string>>)
    ensures r == TrapNumOidsByMib(store, mib)
  {
    var found := ModuleSymbols(store, mib);
    if found.None? {
      return None;
    }
    var symbols := found.value;
    var oids := [];
    for i := 0 to |symbols|
      invariant oids == TrapOidsOf(symbols[..i])
    {
      var node := symbols[i].node;
      TrapOidsOfSnoc(symbols[..i], symbols[i]);
      assert symbols[..i + 1] == symbols[..i] + [symbols[i]];
      if node.kind == Notification {
        oids := oids + [FormatNumOid(node.name)];
      }
    }
    assert symbols[..|symbols|] == symbols;
    r := Some(oids);
  }

  // ---------------------------------------------------------------------
  // getVarNumOidsByTrap

  /** Reference definition: the dotted OID of each referenced object, in
      declaration order; `None` when any of them is not in the store. */
  function VarOidsOf(store: Store, refs: seq<ObjectRef>): (r: Option<seq<string>>)
    ensures r.Some? <==> forall k :: 0 <= k < |refs| ==> ImportSymbol(store, refs[k].mib, refs[k].symbol).Some?
    ensures r.Some? ==> |r.value| == |refs|
    ensures r.Some? ==> forall k :: 0 <= k < |refs| ==>
      r.value[k] == FormatNumOid(ImportSymbol(store, refs[k].mib, refs[k].symbol).value.name)
  {
    if |refs| == 0 then Some([])
    else
      var head := ImportSymbol(store, refs[0].mib, refs[0].symbol);
      if head.None? then None
      else
        var tail := VarOidsOf(store, refs[1..]);
        assert forall k :: 1 <= k < |refs| ==> refs[k] == refs[1..][k - 1];
        if tail.None? then None
        else
          var oids := [FormatNumOid(head.value.name)] + tail.value;
          assert oids[1..] == tail.value;
          Some(oids)
  }

  /** The variable-binding OIDs of the trap a raw OID designates: `None` when
      the OID does not resolve, the node has no object list, or an object is
      missing; otherwise one OID per declared object, in order. */
  function VarNumOidsByTrap(store: Store, raw: string): (r: Option<seq<string>>)
    ensures r.Some? ==> ResolveNode(store, raw).Some? && ResolveNode(store, raw).value.objects.Some?
    ensures r.Some? ==> |r.value| == |ResolveNode(store, raw).value.objects.value|
  {
    match ResolveNode(store, raw)
    case None => None
    case Some(node) =>
      match node.objects
      case None => None
      case Some(refs) => VarOidsOf(store, refs)
  }

  /** A list with one OID per object, each the dotted OID of that object's
      node, is the one `VarOidsOf` gives. */
  lemma VarOidsOfPointwise(store: Store, refs: seq<ObjectRef>, oids: seq<string>)
    requires |oids| == |refs|
    requires forall k :: 0 <= k < |refs| ==> ImportSymbol(store, refs[k].mib, refs[k].symbol).Some?
    requires forall k :: 0 <= k < |refs| ==>
      oids[k] == FormatNumOid(ImportSymbol(store, refs[k].mib, refs[k].symbol).value.name)
    ensures VarOidsOf(store, refs) == Some(oids)
  {
    var spec := VarOidsOf(store, refs);
    assert spec.Some?;
    assert |spec.value| == |oids|;
    forall k | 0 <= k < |oids|
      ensures spec.value[k] == oids[k]
    {
      var name := ImportSymbol(store, refs[k].mib, refs[k].symbol).value.name;
      assert oids[k] == FormatNumOid(name);
    }
    assert spec.value == oids;
  }

  /** One object that is not found makes the whole list `None`. */
  lemma VarOidsOfMissing(store: Store, refs: seq<ObjectRef>, i: nat)
    requires i < |refs|
    requires ImportSymbol(store, refs[i].mib, refs[i].symbol).None?
    ensures VarOidsOf(store, refs) == None
  {
  }

  /** The loop of getVarNumOidsByTrap: look each object of the list up and
      append that object's dotted OID; the first lookup that fails ends the
      call with `None`. */
  method CollectObjectOids(store: Store, refs: seq<ObjectRef>) returns (r: Option<seq<string>>)
    ensures r == VarOidsOf(store, refs)
  {
    var oids: seq<string> := [];
    for i := 0 to |refs|
      invariant |oids| == i
      invariant forall k :: 0 <= k < i ==>
        ImportSymbol(store, refs[k].mib, refs[k].symbol).Some? &&
        oids[k] == FormatNumOid(ImportSymbol(store, refs[k].mib, refs[k].symbol).value.name)
    {
      var subNode := ImportSymbol(store, refs[i].mib, refs[i].symbol);
      if subNode.None? {
        VarOidsOfMissing(store, refs, i);
        return None;
      }
      oids := oids + [FormatNumOid(subNode.value.name)];
    }
    VarOidsOfPointwise(store, refs, oids);
    r := Some(oids);
  }

  /** getVarNumOidsByTrap: resolve the trap node, then collect the OIDs of
      the objects it declares. */
  method CollectVarNumOids(store: Store, numOid: string) returns (r: Option<seq<string>>)
    ensures r == VarNumOidsByTrap(store, numOid)
  {
    var node := ResolveNode(store, numOid);
    if node.None? || node.value.objects.None? {
      return None;
    }
    r := CollectObjectOids(store, node.value.objects.value);
  }

  /** A trap that declares no objects has an empty binding list, not an
      absent one. */
  lemma NoObjectsNoBindings(store: Store, raw: string)
    requires ResolveNode(store, raw).Some? && ResolveNode(store, raw).value.objects == Some([])
    ensures VarNumOidsByTrap(store, raw) == Some([])
  {
  }

  /** The k-th binding is the dotted OID of the k-th declared object, and
      parsing it gives that object's name back. */
  lemma BindingsFollowDeclarationOrder(store: Store, raw: string, k: nat)
    requires VarNumOidsByTrap(store, raw).Some?
    requires k < |VarNumOidsByTrap(store, raw).value|
    ensures var refs := ResolveNode(store, raw).value.objects.value;
      var obj := ImportSymbol(store, refs[k].mib, refs[k].symbol);
      && obj.Some?
      && VarNumOidsByTrap(store, raw).value[k] == FormatNumOid(obj.value.name)
      && (|obj.value.name| >= 1 ==> ParseNumOid(VarNumOidsByTrap(store, raw).value[k]) == Some(obj.value.name))
  {
  }

  /** A leading dot on the trap OID makes no difference. */
  lemma VarsLeadingDotInvariance(store: Store, s: string)
    requires |s| > 0 && s[0] != Dot
    ensures VarNumOidsByTrap(store, [Dot] + s) == VarNumOidsByTrap(store, s)
  {
    LeadingDotInvariance(store, s);
  }
}
