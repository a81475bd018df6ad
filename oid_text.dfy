/** Text handling of numeric OIDs: stripping a leading dot, splitting on and
    joining with '.', and converting segments to and from integers the way
    Python's `int()` and `str()` do. */
module OidText {
  import opened Wrappers

  /** The segment separator of dotted OIDs and dotted labels. */
  const Dot: char := '.'

  // ---------------------------------------------------------------------
  // cleanNumOid

  /** Drops one leading '.'. Indexing the first character of the empty
      string raises in the source, so "" has no cleaned form. */
  function CleanNumOid(s: string): (r: Option<string>)
    ensures r.Some? <==> |s| > 0
    ensures r.Some? ==> s == [Dot] + r.value || (s == r.value && s[0] != Dot)
  {
    if |s| == 0 then None
    else if s[0] == Dot then Some(s[1..])
    else Some(s)
  }

  /** A leading dot makes no difference to the cleaned form of a text that
      does not itself start with a dot. */
  lemma CleanIgnoresLeadingDot(s: string)
    requires |s| > 0 && s[0] != Dot
    ensures CleanNumOid([Dot] + s) == CleanNumOid(s) == Some(s)
  {
    assert ([Dot] + s)[1..] == s;
  }

  /** Only one dot is stripped: a second leading dot survives cleaning. */
  lemma CleanStripsOnlyOneDot(s: string)
    ensures CleanNumOid([Dot, Dot] + s) == Some([Dot] + s)
  {
    assert ([Dot, Dot] + s)[1..] == [Dot] + s;
  }

  // ---------------------------------------------------------------------
  // str.split('.') and str.join('.', ...)

  /** Position of the first '.' of a text that has one. */
  function FirstDot(s: string): (i: nat)
    requires Dot in s
    ensures i < |s| && s[i] == Dot && Dot !in s[..i]
  {
    if s[0] == Dot then 0
    else
      var j := FirstDot(s[1..]);
      assert s[..j + 1] == [s[0]] + s[1..][..j];
      j + 1
  }

  /** `s.split('.')`: always at least one piece, and no piece holds a dot. */
  function Split(s: string): (parts: seq<string>)
    ensures |parts| >= 1
    ensures forall k :: 0 <= k < |parts| ==> Dot !in parts[k]
    decreases |s|
  {
    if Dot !in s then [s]
    else
      var i := FirstDot(s);
      [s[..i]] + Split(s[i + 1..])
  }

  /** Total length of a list of texts. */
  function TotalLength(parts: seq<string>): nat
  {
    if |parts| == 0 then 0 else |parts[0]| + TotalLength(parts[1..])
  }

  /** `'.'.join(parts)`: the segments with one '.' between each two. */
  function Join(parts: seq<string>): (r: string)
    ensures |parts| >= 1 ==> |r| == TotalLength(parts) + |parts| - 1
  {
    if |parts| == 0 then ""
    else if |parts| == 1 then parts[0]
    else parts[0] + [Dot] + Join(parts[1..])
  }

  /** Segments that can be joined and split apart again. */
  predicate DotFree(parts: seq<string>)
  {
    forall k :: 0 <= k < |parts| ==> Dot !in parts[k]
  }

  /** Joining text and splitting it again gives back the text. */
  lemma {:induction false} JoinSplit(s: string)
    ensures Join(Split(s)) == s
    decreases |s|
  {
    if Dot in s {
      var i := FirstDot(s);
      var rest := s[i + 1..];
      var parts := Split(s);
      assert parts[0] == s[..i] && parts[1..] == Split(rest) by {
        assert parts == [s[..i]] + Split(rest);
      }
      JoinSplit(rest);
      assert Join(parts) == parts[0] + [Dot] + Join(parts[1..]);
      assert s == s[..i] + [Dot] + rest;
    }
  }

  /** Splitting a join of dot-free segments gives back the segments: the
      piece count of a joined label is its segment count. */
  lemma {:induction false} SplitJoin(parts: seq<string>)
    requires |parts| >= 1 && DotFree(parts)
    ensures Split(Join(parts)) == parts
  {
    if |parts| > 1 {
      var s := Join(parts);
      var p := parts[0];
      var rest := Join(parts[1..]);
      assert s == p + [Dot] + rest;
      assert s[|p|] == Dot;
      assert Dot in s;
      var i := FirstDot(s);
      assert i == |p|;
      assert s[..i] == p;
      assert s[i + 1..] == rest;
      SplitJoin(parts[1..]);
    } else {
      assert Join(parts) == parts[0];
    }
  }

  /** `last` ends `s` and is preceded there by a '.', unless it is all of `s`. */
  predicate EndsPiece(s: string, last: string)
  {
    |last| <= |s| && s[|s| - |last|..] == last
    && (|last| == |s| || s[|s| - |last| - 1] == Dot)
  }

  /** A piece that ends the text after a '.' at position `i` ends the whole
      text too. */
  lemma EndsPieceOfRest(s: string, i: nat, last: string)
    requires i < |s| && s[i] == Dot && EndsPiece(s[i + 1..], last)
    ensures EndsPiece(s, last)
  {
    var rest := s[i + 1..];
    assert s[|s| - |last|..] == rest[|rest| - |last|..];
    if |last| < |rest| {
      assert s[|s| - |last| - 1] == rest[|rest| - |last| - 1];
    }
  }

  /** The last piece of a split is the text after its last '.', or the whole
      text when it has no '.'. */
  lemma {:induction false} LastPieceIsSuffix(s: string)
    ensures EndsPiece(s, Split(s)[|Split(s)| - 1])
    decreases |s|
  {
    if Dot in s {
      var i := FirstDot(s);
      var rest := s[i + 1..];
      var tail := Split(rest);
      assert Split(s)[|Split(s)| - 1] == tail[|tail| - 1] by {
        assert Split(s) == [s[..i]] + tail;
      }
      LastPieceIsSuffix(rest);
      EndsPieceOfRest(s, i, tail[|tail| - 1]);
    } else {
      assert Split(s)[|Split(s)| - 1] == s == s[0..];
    }
  }

  // ---------------------------------------------------------------------
  // int(segment) and str(n)

  predicate IsDigit(c: char)
  {
    '0' <= c <= '9'
  }

  /** The ASCII whitespace `int()` skips around its digits (space, tab,
      line feed, vertical tab, form feed, carriage return). */
  predicate IsSpace(c: char)
  {
    c == ' ' || '\t' <= c <= '\r'
  }

  function DigitValue(c: char): nat
    requires IsDigit(c)
  {
    c as int - '0' as int
  }

  function TrimLeft(s: string): string
  {
    if |s| > 0 && IsSpace(s[0]) then TrimLeft(s[1..]) else s
  }

  function TrimRight(s: string): string
  {
    if |s| > 0 && IsSpace(s[|s| - 1]) then TrimRight(s[..|s| - 1]) else s
  }

  /** Digits, where a single '_' may stand between two digits. */
  predicate IsDigitRun(s: string)
  {
    && |s| > 0
    && IsDigit(s[0])
    && forall k :: 0 <= k < |s| ==> DigitOrJoiner(s, k)
  }

  /** Position `k` of `s` holds a digit, or a '_' followed by a digit. */
  predicate DigitOrJoiner(s: string, k: nat)
    requires k < |s|
  {
    IsDigit(s[k]) || (s[k] == '_' && k + 1 < |s| && IsDigit(s[k + 1]))
  }

  /** The number a digit run denotes; underscores carry no value. */
  function DigitsValue(s: string): nat
  {
    if |s| == 0 then 0
    else
      var init := DigitsValue(s[..|s| - 1]);
      var c := s[|s| - 1];
      if IsDigit(c) then init * 10 + DigitValue(c) else init
  }

  /** `int(seg)` on a string: optional surrounding whitespace, an optional
      sign, then a digit run; anything else raises (here: `None`). */
  function ParseInt(seg: string): (r: Option<int>)
    ensures seg == "" ==> r.None?
  {
    var t := TrimRight(TrimLeft(seg));
    if |t| > 0 && (t[0] == '+' || t[0] == '-') then
      if IsDigitRun(t[1..]) then
        Some(if t[0] == '-' then -(DigitsValue(t[1..]) as int) else DigitsValue(t[1..]))
      else None
    else if IsDigitRun(t) then Some(DigitsValue(t))
    else None
  }

  /** A character that can appear nowhere in text `int()` accepts: not a
      digit, not whitespace, not a sign and not '_'. */
  predicate OutsideIntSyntax(c: char)
  {
    !IsDigit(c) && !IsSpace(c) && c != '+' && c != '-' && c != '_'
  }

  /** Stripping leading whitespace keeps every other character. */
  lemma {:induction false} TrimLeftKeeps(s: string, j: nat)
    requires j < |s| && !IsSpace(s[j])
    ensures s[j] in TrimLeft(s)
    decreases |s|
  {
    if IsSpace(s[0]) {
      assert s[1..][j - 1] == s[j];
      TrimLeftKeeps(s[1..], j - 1);
    } else {
      assert TrimLeft(s)[j] == s[j];
    }
  }

  /** Stripping trailing whitespace keeps every other character. */
  lemma {:induction false} TrimRightKeeps(s: string, j: nat)
    requires j < |s| && !IsSpace(s[j])
    ensures s[j] in TrimRight(s)
    decreases |s|
  {
    if IsSpace(s[|s| - 1]) {
      assert s[..|s| - 1][j] == s[j];
      TrimRightKeeps(s[..|s| - 1], j);
    } else {
      assert TrimRight(s)[j] == s[j];
    }
  }

  /** A character that is neither a digit nor '_' breaks a digit run. */
  lemma NotDigitRun(s: string, m: nat)
    requires m < |s| && !IsDigit(s[m]) && s[m] != '_'
    ensures !IsDigitRun(s)
  {
    assert !DigitOrJoiner(s, m);
  }

  /** `int()` rejects a segment holding a character outside its syntax. */
  lemma NonNumericCharRejected(seg: string, j: nat)
    requires j < |seg| && OutsideIntSyntax(seg[j])
    ensures ParseInt(seg).None?
  {
    var c := seg[j];
    TrimLeftKeeps(seg, j);
    var i :| 0 <= i < |TrimLeft(seg)| && TrimLeft(seg)[i] == c;
    TrimRightKeeps(TrimLeft(seg), i);
    var t := TrimRight(TrimLeft(seg));
    var m :| 0 <= m < |t| && t[m] == c;
    if t[0] == '+' || t[0] == '-' {
      var digits := t[1..];
      assert digits[m - 1] == c;
      NotDigitRun(digits, m - 1);
    } else {
      NotDigitRun(t, m);
    }
  }

  function DigitChar(d: nat): (c: char)
    requires d < 10
    ensures IsDigit(c) && DigitValue(c) == d
  {
    ('0' as int + d) as char
  }

  /** `str(n)` for a non-negative integer: its decimal digits. */
  function NatToString(n: nat): (s: string)
    ensures |s| >= 1
    ensures forall k :: 0 <= k < |s| ==> IsDigit(s[k])
  {
    if n < 10 then [DigitChar(n)]
    else NatToString(n / 10) + [DigitChar(n % 10)]
  }

  lemma {:induction false} DigitsValueOfNatToString(n: nat)
    ensures DigitsValue(NatToString(n)) == n
  {
    var s := NatToString(n);
    if n >= 10 {
      DigitsValueOfNatToString(n / 10);
      assert s[..|s| - 1] == NatToString(n / 10);
    } else {
      assert s[..0] == "";
    }
  }

  /** `int(str(n)) == n`. */
  lemma ParseIntNatToString(n: nat)
    ensures ParseInt(NatToString(n)) == Some(n)
  {
    var s := NatToString(n);
    assert TrimLeft(s) == s;
    assert TrimRight(s) == s;
    DigitsValueOfNatToString(n);
  }

  // ---------------------------------------------------------------------
  // tuple([int(i) for i in num_oid.split('.')]) and '.'.join([str(i) ...])

  /** Converts every segment; one segment that `int()` rejects fails the
      whole conversion, as the exception leaves the comprehension. */
  function ParseSegments(segs: seq<string>): (r: Option<seq<int>>)
    ensures r.Some? ==> |r.value| == |segs|
    ensures r.Some? ==> forall k :: 0 <= k < |segs| ==> ParseInt(segs[k]) == Some(r.value[k])
    ensures r.None? <==> exists k :: 0 <= k < |segs| && ParseInt(segs[k]).None?
  {
    if |segs| == 0 then Some([])
    else
      var head := ParseInt(segs[0]);
      if head.None? then None
      else
        var tail := ParseSegments(segs[1..]);
        if tail.None? then None
        else
          assert forall k :: 1 <= k < |segs| ==> segs[k] == segs[1..][k - 1];
          Some([head.value] + tail.value)
  }

  /** The numeric tuple of a cleaned OID text: one integer per segment. */
  function ParseNumOid(text: string): (r: Option<seq<int>>)
    ensures r.Some? ==> |r.value| == |Split(text)| >= 1
    ensures r.Some? <==> forall k :: 0 <= k < |Split(text)| ==> ParseInt(Split(text)[k]).Some?
  {
    var r := ParseSegments(Split(text));
    assert r.None? ==> exists k :: 0 <= k < |Split(text)| && ParseInt(Split(text)[k]).None?;
    r
  }

  /** An empty segment (an empty text, a doubled or a trailing '.') makes
      the conversion fail. */
  lemma EmptySegmentRejected(text: string, k: nat)
    requires k < |Split(text)| && Split(text)[k] == ""
    ensures ParseNumOid(text).None?
  {
  }

  /** A piece holding a character outside `int()` syntax (a letter, a '/',
      ...) makes the conversion fail. */
  lemma NonNumericSegmentRejected(text: string, k: nat, j: nat)
    requires k < |Split(text)| && j < |Split(text)[k]|
    requires OutsideIntSyntax(Split(text)[k][j])
    ensures ParseNumOid(text).None?
  {
    NonNumericCharRejected(Split(text)[k], j);
  }

  /** `[str(i) for i in name]`. */
  function RenderNums(ns: seq<nat>): (parts: seq<string>)
    ensures |parts| == |ns|
    ensures forall k :: 0 <= k < |ns| ==> parts[k] == NatToString(ns[k])
  {
    seq(|ns|, k requires 0 <= k < |ns| => NatToString(ns[k]))
  }

  /** Parsing the '.'-join of the decimal texts of a non-empty tuple gives
      the tuple back. */
  lemma RenderedJoinRoundTrip(ns: seq<nat>)
    requires |ns| >= 1
    ensures ParseNumOid(Join(RenderNums(ns))) == Some(ns)
  {
    var parts := RenderNums(ns);
    forall k | 0 <= k < |parts| ensures Dot !in parts[k] {
      assert forall j :: 0 <= j < |parts[k]| ==> IsDigit(parts[k][j]);
    }
    SplitJoin(parts);
    forall k | 0 <= k < |parts| ensures ParseInt(parts[k]) == Some(ns[k] as int) {
      ParseIntNatToString(ns[k]);
    }
    var r := ParseSegments(parts);
    assert r.Some?;
    assert r.value == ns;
  }

  /** A name tuple as dotted text, `'.'.join([str(i) for i in name])`;
      parsing the text of a non-empty tuple gives the tuple back. */
  function FormatNumOid(ns: seq<nat>): (r: string)
    ensures |ns| >= 1 ==> ParseNumOid(r) == Some(ns)
  {
    if |ns| == 0 then ""
    else
      RenderedJoinRoundTrip(ns);
      Join(RenderNums(ns))
  }

  /** The formatted text of a non-empty tuple has one segment per number. */
  lemma FormatSegmentCount(ns: seq<nat>)
    requires |ns| >= 1
    ensures |Split(FormatNumOid(ns))| == |ns|
  {
  }
}
