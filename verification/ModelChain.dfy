/** The comma-separated model list of a role. */
module ModelChain {
  import opened Options
  import opened Text

  /** White space as the trimming of the source sees it. */
  predicate IsSpace(c: char) {
    var n := c as int;
    || 9 <= n <= 13 || n == 32 || n == 0x85 || n == 0xA0 || n == 0x1680 || 0x2000 <= n <= 0x200A
    || n == 0x2028 || n == 0x2029 || n == 0x202F || n == 0x205F || n == 0x3000
  }

  function TrimLeft(s: string): string {
    if s != "" && IsSpace(s[0]) then TrimLeft(s[1..]) else s
  }

  function TrimRight(s: string): string {
    if s != "" && IsSpace(s[|s| - 1]) then TrimRight(s[..|s| - 1]) else s
  }

  function Trim(s: string): string {
    TrimRight(TrimLeft(s))
  }

  predicate Trimmed(t: string) {
    t != "" ==> !IsSpace(t[0]) && !IsSpace(t[|t| - 1])
  }

  predicate AllSpace(s: string) {
    forall i :: 0 <= i < |s| ==> IsSpace(s[i])
  }

  /** Only white space is taken off the front. */
  lemma {:induction false} TrimLeftLeaves(s: string)
    ensures var t := TrimLeft(s);
      && (t != "" ==> !IsSpace(t[0])) && (forall c :: c in t ==> c in s)
      && |t| <= |s| && s[|s| - |t|..] == t && AllSpace(s[..|s| - |t|])
  {
    if s != "" && IsSpace(s[0]) {
      TrimLeftLeaves(s[1..]);
      var t := TrimLeft(s);
      assert s[..|s| - |t|] == [s[0]] + s[1..][..|s| - 1 - |t|];
    }
  }

  /** And off the end. */
  lemma {:induction false} TrimRightLeaves(s: string)
    ensures var t := TrimRight(s); t <= s && (t != "" ==> !IsSpace(t[|t| - 1])) && AllSpace(s[|t|..])
  {
    if s != "" && IsSpace(s[|s| - 1]) {
      TrimRightLeaves(s[..|s| - 1]);
      var t := TrimRight(s);
      assert s[|t|..] == s[..|s| - 1][|t|..] + [s[|s| - 1]];
    }
  }

  lemma TrimLeaves(s: string)
    ensures Trimmed(Trim(s)) && forall c :: c in Trim(s) ==> c in s
  {
    TrimLeftLeaves(s);
    TrimRightLeaves(TrimLeft(s));
  }

  /** A text is its trimmed part between white space. */
  lemma TrimTakesOnlySpace(s: string) returns (left: string, right: string)
    ensures s == left + Trim(s) + right && Trimmed(Trim(s))
    ensures (forall c :: c in left ==> IsSpace(c)) && (forall c :: c in right ==> IsSpace(c))
  {
    var rest := TrimLeft(s);
    TrimLeaves(s);
    TrimLeftLeaves(s);
    TrimRightLeaves(rest);
    left, right := s[..|s| - |rest|], rest[|Trim(s)|..];
    assert s == left + rest && rest == Trim(s) + right;
  }

  function TrimAll(parts: seq<string>): (ts: seq<string>)
    ensures |ts| == |parts|
    ensures forall i :: 0 <= i < |parts| ==> ts[i] == Trim(parts[i])
  {
    seq(|parts|, i requires 0 <= i < |parts| => Trim(parts[i]))
  }

  lemma TrimAllOfOneMore(parts: seq<string>, p: string)
    ensures TrimAll(parts + [p]) == TrimAll(parts) + [Trim(p)]
  {
  }

  /** The non-empty entries, each where it is first seen. */
  function FirstSeen(ts: seq<string>): seq<string> {
    if ts == [] then []
    else
      var before, t := FirstSeen(ts[..|ts| - 1]), ts[|ts| - 1];
      if t == "" || t in before then before else before + [t]
  }

  function Chain(raw: string): seq<string> { FirstSeen(TrimAll(Split(raw, ','))) }

  predicate Distinct(xs: seq<string>) {
    forall i, j :: 0 <= i < j < |xs| ==> xs[i] != xs[j]
  }

  method ParseModelChain(raw: string) returns (chain: Option<seq<string>>)
    ensures chain == if Chain(raw) == [] then None else Some(Chain(raw))
  {
    var parts := Split(raw, ',');
    ghost var trimmed := TrimAll(parts);
    var seen: map<string, bool> := map[];
    var out: seq<string> := [];
    for i := 0 to |parts|
      invariant out == FirstSeen(trimmed[..i])
      invariant forall s :: s in out <==> s in seen
    {
      assert trimmed[..i + 1][..i] == trimmed[..i];
      var p := Trim(parts[i]);
      if p == "" || p in seen { continue; }
      seen := seen[p := true];
      out := out + [p];
    }
    assert trimmed[..|parts|] == trimmed;
    if |out| == 0 { return None; }
    chain := Some(out);
  }

  /** Exactly the non-empty entries, no entry twice. */
  lemma {:induction false} ChainMembers(ts: seq<string>)
    ensures Distinct(FirstSeen(ts))
    ensures forall s :: s in FirstSeen(ts) <==> s != "" && s in ts
  {
    if ts != [] {
      var before, last := ts[..|ts| - 1], ts[|ts| - 1];
      ChainMembers(before);
      assert ts == before + [last];
    }
  }

  predicate FirstAt(ts: seq<string>, i: int, s: string) {
    0 <= i < |ts| && ts[i] == s && forall j :: 0 <= j < i ==> ts[j] != s
  }

  /** Where an entry of the prefix's chain is first seen does not change when the list grows. */
  lemma FirstInPrefix(ts: seq<string>, n: nat, s: string, i: int)
    requires n <= |ts| && s in ts[..n] && FirstAt(ts, i, s)
    ensures FirstAt(ts[..n], i, s)
  {
    var k :| 0 <= k < n && ts[..n][k] == s;
    assert ts[k] == s;
  }

  /** The chain has the order in which its entries are first seen. */
  lemma {:induction false} ChainOrder(ts: seq<string>, a: nat, b: nat, i: int, j: int)
    requires a < b < |FirstSeen(ts)|
    requires FirstAt(ts, i, FirstSeen(ts)[a]) && FirstAt(ts, j, FirstSeen(ts)[b])
    ensures i < j
  {
    var n := |ts| - 1;
    var before := FirstSeen(ts[..n]);
    ChainMembers(ts[..n]);
    assert FirstSeen(ts)[a] == before[a] && before[a] in before;
    FirstInPrefix(ts, n, before[a], i);
    if b < |before| {
      assert before[b] in before;
      FirstInPrefix(ts, n, before[b], j);
      ChainOrder(ts[..n], a, b, i, j);
    } else {
      var s := FirstSeen(ts)[b];
      assert s == ts[n] && s !in before && s !in ts[..n];
      assert forall k :: 0 <= k < n ==> ts[k] == ts[..n][k] && ts[..n][k] in ts[..n];
    }
  }

  // ----- joining and parsing again -----------------------------------------------------------

  function Join(chain: seq<string>): string {
    if chain == [] then ""
    else if |chain| == 1 then chain[0]
    else Join(chain[..|chain| - 1]) + ", " + chain[|chain| - 1]
  }

  predicate IsEntry(s: string) {
    s != "" && Trimmed(s) && ',' !in s
  }

  /** What parsing can return. */
  predicate IsChain(chain: seq<string>) {
    chain != [] && Distinct(chain) && forall i :: 0 <= i < |chain| ==> IsEntry(chain[i])
  }

  lemma {:induction false} SplitPiecesHaveNoSeparator(s: string, sep: char)
    ensures forall i :: 0 <= i < |Split(s, sep)| ==> sep !in Split(s, sep)[i]
  {
    if s != "" { SplitPiecesHaveNoSeparator(s[..|s| - 1], sep); }
  }

  lemma ParsedIsChain(raw: string)
    requires Chain(raw) != []
    ensures IsChain(Chain(raw))
  {
    var parts := Split(raw, ',');
    ChainMembers(TrimAll(parts));
    SplitPiecesHaveNoSeparator(raw, ',');
    forall i | 0 <= i < |Chain(raw)| ensures IsEntry(Chain(raw)[i]) {
      assert Chain(raw)[i] in Chain(raw);
      var k :| 0 <= k < |parts| && TrimAll(parts)[k] == Chain(raw)[i];
      assert ',' !in parts[k];
      TrimLeaves(parts[k]);
    }
  }

  lemma TrimmedStays(s: string)
    requires Trimmed(s)
    ensures Trim(s) == s && Trim(" " + s) == s
  {
    assert (" " + s)[1..] == s;
  }

  /** The pieces of a joined chain: its entries, all but the first after a space. */
  function Spaced(chain: seq<string>): seq<string> {
    if chain == [] then []
    else if |chain| == 1 then chain
    else Spaced(chain[..|chain| - 1]) + [" " + chain[|chain| - 1]]
  }

  lemma PrefixIsChain(chain: seq<string>)
    requires IsChain(chain) && |chain| > 1
    ensures IsChain(chain[..|chain| - 1]) && IsEntry(chain[|chain| - 1])
  {
  }

  lemma SplitAfterComma(a: string, entry: string)
    requires ',' !in entry
    ensures Split(a + ", " + entry, ',') == Split(a, ',') + [" " + entry]
  {
    SplitAtSeparator(a, ',', " " + entry);
    SplitWithoutSeparator(" " + entry, ',');
    assert a + ", " + entry == a + [','] + (" " + entry);
  }

  lemma {:induction false} SplitOfJoin(chain: seq<string>)
    requires IsChain(chain)
    ensures Split(Join(chain), ',') == Spaced(chain)
  {
    var last := chain[|chain| - 1];
    assert IsEntry(last);
    if |chain| == 1 {
      SplitWithoutSeparator(last, ',');
      assert chain == [last];
    } else {
      var before := chain[..|chain| - 1];
      PrefixIsChain(chain);
      SplitOfJoin(before);
      SplitAfterComma(Join(before), last);
    }
  }

  lemma {:induction false} SpacedTrims(chain: seq<string>)
    requires IsChain(chain)
    ensures TrimAll(Spaced(chain)) == chain
  {
    var last := chain[|chain| - 1];
    assert IsEntry(last);
    TrimmedStays(last);
    if |chain| > 1 {
      var before := chain[..|chain| - 1];
      PrefixIsChain(chain);
      SpacedTrims(before);
      TrimAllOfOneMore(Spaced(before), " " + last);
      assert chain == before + [last];
    }
  }

  lemma {:induction false} DistinctIsFirstSeen(chain: seq<string>)
    requires Distinct(chain) && "" !in chain
    ensures FirstSeen(chain) == chain
  {
    if chain != [] {
      var before, last := chain[..|chain| - 1], chain[|chain| - 1];
      assert chain == before + [last];
      DistinctIsFirstSeen(before);
    }
  }

  /** The runner joins a parsed chain with ", " and hands it on to be parsed again: nothing changes. */
  lemma JoinParsesBack(chain: seq<string>)
    requires IsChain(chain)
    ensures Chain(Join(chain)) == chain
  {
    SplitOfJoin(chain);
    SpacedTrims(chain);
    DistinctIsFirstSeen(chain);
  }

  lemma ParsingTwiceIsParsingOnce(raw: string)
    requires Chain(raw) != []
    ensures Chain(Join(Chain(raw))) == Chain(raw)
  {
    ParsedIsChain(raw);
    JoinParsesBack(Chain(raw));
  }
}
