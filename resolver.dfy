/** The per-OID lookups of the decoder, as pure functions of the store and the
    raw argument: symbolic name, leaf name, description, units, type tag, and
    the OID of a symbol known by name. Every failure yields `None`. */
module Resolver {
  import opened Wrappers
  import opened OidText
  import opened MibStore

  // ---------------------------------------------------------------------
  // Shared plumbing: cleanNumOid, int-tuple, getNodeLocation, importSymbols

  /** The node a raw numeric OID designates; `None` as soon as one step
      fails (empty text, a segment `int()` rejects, no node location, an
      unknown module or symbol). */
  function ResolveNode(store: Store, raw: string): (r: Option<MibNode>)
    ensures r.Some? ==> |raw| > 0 && ParseNumOid(CleanNumOid(raw).value).Some?
  {
    match CleanNumOid(raw)
    case None => None
    case Some(text) =>
      match ParseNumOid(text)
      case None => None
      case Some(nums) =>
        match LocateNode(store, nums)
        case None => None
        case Some(loc) => ImportSymbol(store, loc.mib, loc.symbol)
  }

  // ---------------------------------------------------------------------
  // getStrOidByNumOid

  /** The acceptance rule: as many numeric segments as label segments, or
      one more (the unnamed `.0` of a scalar instance). */
  predicate SegmentCountsAgree(numSegments: nat, strSegments: nat)
  {
    numSegments == strSegments || numSegments == strSegments + 1
  }

  /** The dotted symbolic label of a raw numeric OID, when the label's
      segment count is compatible with the OID's. */
  function StrOidByNumOid(store: Store, raw: string): (r: Option<string>)
    ensures CleanNumOid(raw).None? ==> r.None?
    ensures CleanNumOid(raw).Some? && ResolveLabel(store, CleanNumOid(raw).value).None? ==> r.None?
    ensures r.Some? ==>
      var text := CleanNumOid(raw).value;
      && ResolveLabel(store, text).Some?
      && r.value == Join(ResolveLabel(store, text).value)
      && SegmentCountsAgree(|Split(text)|, |Split(r.value)|)
  {
    match CleanNumOid(raw)
    case None => None
    case Some(text) =>
      var numSegmentCount := |Split(text)|;
      match ResolveLabel(store, text)
      case None => None
      case Some(segments) =>
        var strOid := Join(segments);
        var strSegmentCount := |Split(strOid)|;
        if SegmentCountsAgree(numSegmentCount, strSegmentCount) then Some(strOid) else None
  }

  /** A label of named segments, none of which holds a dot. */
  predicate WellFormedLabel(segments: seq<string>)
  {
    |segments| >= 1 && DotFree(segments)
  }

  /** For a well-formed label, the name is returned exactly when the OID has
      as many segments as the label or one more, and it splits back into the
      label's segments. */
  lemma SegmentCountAcceptance(store: Store, raw: string)
    requires CleanNumOid(raw).Some?
    requires ResolveLabel(store, CleanNumOid(raw).value).Some?
    requires WellFormedLabel(ResolveLabel(store, CleanNumOid(raw).value).value)
    ensures var text := CleanNumOid(raw).value;
      var lbl := ResolveLabel(store, text).value;
      && (StrOidByNumOid(store, raw).Some? <==> |Split(text)| == |lbl| || |Split(text)| == |lbl| + 1)
      && (StrOidByNumOid(store, raw).Some? ==> Split(StrOidByNumOid(store, raw).value) == lbl)
  {
    SplitJoin(ResolveLabel(store, CleanNumOid(raw).value).value);
  }

  /** An OID two or more segments longer than its label (a table instance
      with a multi-part index, say) is not given a name, and neither is one
      shorter than its label. */
  lemma SegmentCountMismatchRejected(store: Store, raw: string)
    requires CleanNumOid(raw).Some?
    requires ResolveLabel(store, CleanNumOid(raw).value).Some?
    requires WellFormedLabel(ResolveLabel(store, CleanNumOid(raw).value).value)
    requires var n := |Split(CleanNumOid(raw).value)|;
      var m := |ResolveLabel(store, CleanNumOid(raw).value).value|;
      n < m || n > m + 1
    ensures StrOidByNumOid(store, raw).None?
  {
    SegmentCountAcceptance(store, raw);
  }

  // ---------------------------------------------------------------------
  // getNameByNumOid

  /** `str_oid.split('.')[-1]`: the text after the last dot. */
  function LeafName(strOid: Option<string>): (r: Option<string>)
    ensures r.None? <==> strOid.None?
    ensures r.Some? ==>
      var s := strOid.value;
      && Dot !in r.value
      && |r.value| <= |s|
      && s[|s| - |r.value|..] == r.value
      && (|r.value| == |s| || s[|s| - |r.value| - 1] == Dot)
  {
    match strOid
    case None => None
    case Some(s) =>
      LastPieceIsSuffix(s);
      var parts := Split(s);
      Some(parts[|parts| - 1])
  }

  /** The leaf name of a raw numeric OID; absent exactly when the symbolic
      name is. */
  function NameByNumOid(store: Store, raw: string): (r: Option<string>)
    ensures r.None? <==> StrOidByNumOid(store, raw).None?
    ensures r.Some? ==> Dot !in r.value
  {
    LeafName(StrOidByNumOid(store, raw))
  }

  /** With a well-formed label, the leaf name is the label's last segment. */
  lemma NameIsLastLabelSegment(store: Store, raw: string)
    requires StrOidByNumOid(store, raw).Some?
    requires WellFormedLabel(ResolveLabel(store, CleanNumOid(raw).value).value)
    ensures var lbl := ResolveLabel(store, CleanNumOid(raw).value).value;
      NameByNumOid(store, raw) == Some(lbl[|lbl| - 1])
  {
    SegmentCountAcceptance(store, raw);
  }

  // ---------------------------------------------------------------------
  // getDescByNumOid, getUnitsByNumOid, getTypeByNumOid

  /** An empty text counts as absent; a non-empty one is kept as it is. */
  function NonEmpty(s: Option<string>): (r: Option<string>)
    ensures r.Some? ==> r == s && r.value != ""
    ensures r.None? ==> s.None? || s.value == ""
  {
    if s.Some? && |s.value| > 0 then s else None
  }

  /** The description of the node a raw OID designates, unless it is empty
      or cannot be had. */
  function DescByNumOid(store: Store, raw: string): (r: Option<string>)
    ensures var node := ResolveNode(store, raw);
      r.Some? ==> (r.value != "" && node.Some? && node.value.description == r)
    ensures var node := ResolveNode(store, raw);
      (node.Some? && node.value.description.Some? && node.value.description.value != "") ==> r.Some?
  {
    match ResolveNode(store, raw)
    case None => None
    case Some(node) => NonEmpty(node.description)
  }

  /** The units of the node a raw OID designates, unless they are empty or
      cannot be had. */
  function UnitsByNumOid(store: Store, raw: string): (r: Option<string>)
    ensures var node := ResolveNode(store, raw);
      r.Some? ==> (r.value != "" && node.Some? && node.value.units == r)
    ensures var node := ResolveNode(store, raw);
      (node.Some? && node.value.units.Some? && node.value.units.value != "") ==> r.Some?
  {
    match ResolveNode(store, raw)
    case None => None
    case Some(node) => NonEmpty(node.units)
  }

  /** The type tag of the syntax of the node a raw OID designates; unlike
      the description, an empty tag is not turned into `None`. */
  function TypeByNumOid(store: Store, raw: string): (r: Option<string>)
    ensures r.Some? ==> ResolveNode(store, raw).Some? && ResolveNode(store, raw).value.syntaxType == r
    ensures ResolveNode(store, raw).Some? ==> r == ResolveNode(store, raw).value.syntaxType
  {
    match ResolveNode(store, raw)
    case None => None
    case Some(node) => node.syntaxType
  }

  // ---------------------------------------------------------------------
  // getTrapNumOidBySymbols

  /** The dotted OID of a symbol given by module and name; the symbol need
      not be a notification. Parsing the text gives the node's name back. */
  function TrapNumOidBySymbols(store: Store, mib: string, trap: string): (r: Option<string>)
    ensures r.Some? <==> ImportSymbol(store, mib, trap).Some?
    ensures r.Some? && |ImportSymbol(store, mib, trap).value.name| >= 1 ==>
      ParseNumOid(r.value) == Some(ImportSymbol(store, mib, trap).value.name)
  {
    match ImportSymbol(store, mib, trap)
    case None => None
    case Some(node) =>
      Some(FormatNumOid(node.name))
  }

  // ---------------------------------------------------------------------
  // Normalisation

  /** A raw OID with one leading dot and the same OID without it get the
      same answers from every per-OID lookup. */
  lemma LeadingDotInvariance(store: Store, s: string)
    requires |s| > 0 && s[0] != Dot
    ensures StrOidByNumOid(store, [Dot] + s) == StrOidByNumOid(store, s)
    ensures NameByNumOid(store, [Dot] + s) == NameByNumOid(store, s)
    ensures ResolveNode(store, [Dot] + s) == ResolveNode(store, s)
    ensures DescByNumOid(store, [Dot] + s) == DescByNumOid(store, s)
    ensures UnitsByNumOid(store, [Dot] + s) == UnitsByNumOid(store, s)
    ensures TypeByNumOid(store, [Dot] + s) == TypeByNumOid(store, s)
  {
    CleanIgnoresLeadingDot(s);
  }
}
