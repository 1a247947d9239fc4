/** What is fed to the hash of a worktree: the status text, the diff text, and one frame per untracked
    file. The hash itself is not modelled; everything here is about the bytes before it. */
module Fingerprint {
  import opened Options
  import opened Decimal
  import opened Text

  const NUL: char := 0 as char

  // ----- the list of untracked paths ---------------------------------------------------------

  function NonEmpty(parts: seq<string>): seq<string> {
    if parts == [] then []
    else
      var before, p := NonEmpty(parts[..|parts| - 1]), parts[|parts| - 1];
      if p == "" then before else before + [p]
  }

  function Paths(listing: string): seq<string> { NonEmpty(Split(listing, NUL)) }

  method ParseNULList(listing: string) returns (paths: seq<string>)
    ensures paths == Paths(listing)
  {
    if listing == "" {
      NonEmptyOfNothing();
      return [];
    }
    var parts := Split(listing, NUL);
    paths := [];
    for i := 0 to |parts|
      invariant paths == NonEmpty(parts[..i])
    {
      assert parts[..i + 1][..i] == parts[..i];
      if |parts[i]| == 0 { continue; }
      paths := paths + [parts[i]];
    }
    assert parts[..|parts|] == parts;
  }

  lemma NonEmptyOfOne(p: string)
    ensures NonEmpty([p]) == if p == "" then [] else [p]
  {
    assert [p][..0] == [];
  }

  lemma NonEmptyOfNothing()
    ensures Paths("") == []
  {
    NonEmptyOfOne("");
  }

  /** How git prints a list of paths: each followed by a NUL. */
  function Listing(paths: seq<string>): string {
    if paths == [] then "" else Listing(paths[..|paths| - 1]) + paths[|paths| - 1] + [NUL]
  }

  predicate IsPath(p: string) { p != "" && NUL !in p }

  lemma {:induction false} NonEmptyOfConcat(a: seq<string>, b: seq<string>)
    ensures NonEmpty(a + b) == NonEmpty(a) + NonEmpty(b)
  {
    if b == [] {
      assert a + b == a;
    } else {
      NonEmptyOfConcat(a, b[..|b| - 1]);
      assert (a + b)[..|a + b| - 1] == a + b[..|b| - 1];
    }
  }

  lemma {:induction false} SplitLast(l: string, p: string)
    requires NUL !in p && Split(l, NUL)[|Split(l, NUL)| - 1] == ""
    ensures var pieces := Split(l, NUL); Split(l + p, NUL) == pieces[..|pieces| - 1] + [p]
  {
    var pieces := Split(l, NUL);
    if p == "" {
      assert l + p == l && pieces == pieces[..|pieces| - 1] + [p];
    } else {
      var init, c := p[..|p| - 1], p[|p| - 1];
      SplitLast(l, init);
      LastGrows(l + init, c, pieces[..|pieces| - 1], init);
      assert p == init + [c];
      Associates(l, init, [c]);
    }
  }

  lemma LastGrows(s: string, c: char, pieces: seq<string>, last: string)
    requires c != NUL && Split(s, NUL) == pieces + [last]
    ensures Split(s + [c], NUL) == pieces + [last + [c]]
  {
    SplitOneMore(s, c, NUL);
    assert (pieces + [last])[..|pieces|] == pieces;
  }

  /** One more path: its text, then the NUL that ends it. */
  lemma SplitOnePath(l: string, p: string)
    requires NUL !in p && Split(l, NUL)[|Split(l, NUL)| - 1] == ""
    ensures var pieces := Split(l, NUL); Split(l + p + [NUL], NUL) == pieces[..|pieces| - 1] + [p] + [""]
  {
    SplitLast(l, p);
    SplitOneMore(l + p, NUL, NUL);
  }

  lemma NonEmptyUpToTheLast(pieces: seq<string>, p: string)
    requires pieces != [] && pieces[|pieces| - 1] == "" && p != ""
    ensures NonEmpty(pieces[..|pieces| - 1] + [p] + [""]) == NonEmpty(pieces) + [p]
  {
    var init := pieces[..|pieces| - 1];
    assert pieces == init + [""];
    NonEmptyOfConcat(init, [""]);
    NonEmptyOfConcat(init, [p]);
    NonEmptyOfConcat(init + [p], [""]);
    NonEmptyOfOne("");
    NonEmptyOfOne(p);
  }

  /** Parsing gives back every list of paths git can print. */
  lemma {:induction false} PathsOfListing(paths: seq<string>)
    requires forall p :: p in paths ==> IsPath(p)
    ensures Paths(Listing(paths)) == paths
    ensures var pieces := Split(Listing(paths), NUL); pieces[|pieces| - 1] == ""
  {
    if paths == [] {
      NonEmptyOfNothing();
    } else {
      var before, p := paths[..|paths| - 1], paths[|paths| - 1];
      PathsOfListing(before);
      assert IsPath(p);
      SplitOnePath(Listing(before), p);
      NonEmptyUpToTheLast(Split(Listing(before), NUL), p);
      assert paths == before + [p];
    }
  }

  // ----- sorting -----------------------------------------------------------------------------

  /** The byte order of strings. */
  predicate AtMost(a: string, b: string) {
    a == "" || (b != "" && (a[0] < b[0] || (a[0] == b[0] && AtMost(a[1..], b[1..]))))
  }

  lemma {:induction false} AtMostIsTotal(a: string, b: string)
    ensures AtMost(a, b) || AtMost(b, a)
    ensures AtMost(a, b) && AtMost(b, a) ==> a == b
  {
    if a != "" && b != "" {
      AtMostIsTotal(a[1..], b[1..]);
      assert a == [a[0]] + a[1..] && b == [b[0]] + b[1..];
    }
  }

  lemma {:induction false} AtMostIsTransitive(a: string, b: string, c: string)
    requires AtMost(a, b) && AtMost(b, c)
    ensures AtMost(a, c)
  {
    if a != "" && a[0] == b[0] == c[0] { AtMostIsTransitive(a[1..], b[1..], c[1..]); }
  }

  function Insert(x: string, xs: seq<string>): seq<string> {
    if xs == [] then [x]
    else if AtMost(x, xs[0]) then [x] + xs
    else [xs[0]] + Insert(x, xs[1..])
  }

  function Sorted(xs: seq<string>): seq<string> {
    if xs == [] then [] else Insert(xs[0], Sorted(xs[1..]))
  }

  lemma {:induction false} InsertCommutes(x: string, y: string, xs: seq<string>)
    ensures Insert(x, Insert(y, xs)) == Insert(y, Insert(x, xs))
  {
    AtMostIsTotal(x, y);
    if xs != [] {
      if AtMost(x, y) && AtMost(y, xs[0]) { AtMostIsTransitive(x, y, xs[0]); }
      if AtMost(y, x) && AtMost(x, xs[0]) { AtMostIsTransitive(y, x, xs[0]); }
      InsertCommutes(x, y, xs[1..]);
    }
  }

  lemma {:induction false} SortedPicksAny(xs: seq<string>, i: nat)
    requires i < |xs|
    ensures Sorted(xs) == Insert(xs[i], Sorted(xs[..i] + xs[i + 1..]))
  {
    if i == 0 {
      assert xs[..0] + xs[1..] == xs[1..];
    } else {
      SortedPicksAny(xs[1..], i - 1);
      var without := xs[..i] + xs[i + 1..];
      assert without[1..] == xs[1..][..i - 1] + xs[1..][i..];
      InsertCommutes(xs[0], xs[i], Sorted(without[1..]));
    }
  }

  lemma WithoutOne(xs: seq<string>, i: nat)
    requires i < |xs|
    ensures multiset(xs[..i] + xs[i + 1..]) == multiset(xs) - multiset{xs[i]}
  {
    assert xs == xs[..i] + [xs[i]] + xs[i + 1..];
  }

  /** The order in which git lists the paths does not matter. */
  lemma {:induction false} SortedIgnoresOrder(xs: seq<string>, ys: seq<string>)
    requires multiset(xs) == multiset(ys)
    ensures Sorted(xs) == Sorted(ys)
  {
    if xs == [] {
      assert |multiset(ys)| == 0;
      assert |ys| == 0;
    } else {
      assert xs[0] in multiset(ys);
      var i :| 0 <= i < |ys| && ys[i] == xs[0];
      var rest := ys[..i] + ys[i + 1..];
      WithoutOne(xs, 0);
      WithoutOne(ys, i);
      assert xs[..0] + xs[1..] == xs[1..];
      SortedIgnoresOrder(xs[1..], rest);
      SortedPicksAny(ys, i);
    }
  }

  lemma {:induction false} InsertAdds(x: string, xs: seq<string>)
    ensures multiset(Insert(x, xs)) == multiset(xs) + multiset{x}
  {
    if xs != [] {
      assert xs == [xs[0]] + xs[1..];
      if !AtMost(x, xs[0]) { InsertAdds(x, xs[1..]); }
    }
  }

  lemma {:induction false} SortedKeepsElements(xs: seq<string>)
    ensures multiset(Sorted(xs)) == multiset(xs)
  {
    if xs != [] {
      SortedKeepsElements(xs[1..]);
      InsertAdds(xs[0], Sorted(xs[1..]));
      assert xs == [xs[0]] + xs[1..];
    }
  }

  predicate InOrder(xs: seq<string>) {
    |xs| <= 1 || (AtMost(xs[0], xs[1]) && InOrder(xs[1..]))
  }

  lemma {:induction false} InsertKeepsOrder(x: string, xs: seq<string>)
    requires InOrder(xs)
    ensures InOrder(Insert(x, xs))
  {
    if xs != [] {
      if AtMost(x, xs[0]) {
        assert ([x] + xs)[1..] == xs;
      } else {
        AtMostIsTotal(x, xs[0]);
        InsertKeepsOrder(x, xs[1..]);
        assert ([xs[0]] + Insert(x, xs[1..]))[1..] == Insert(x, xs[1..]);
      }
    }
  }

  lemma {:induction false} SortedIsInOrder(xs: seq<string>)
    ensures InOrder(Sorted(xs))
  {
    if xs != [] {
      SortedIsInOrder(xs[1..]);
      InsertKeepsOrder(xs[0], Sorted(xs[1..]));
    }
  }

  // ----- frames ------------------------------------------------------------------------------

  datatype File = File(path: string, data: string)

  function Frame(f: File): string {
    Dec(|f.path|) + ":" + f.path + (Dec(|f.data|) + ":" + f.data)
  }

  function Frames(fs: seq<File>): string {
    if fs == [] then "" else Frame(fs[0]) + Frames(fs[1..])
  }

  predicate Digits(s: string) {
    forall i :: 0 <= i < |s| ==> '0' <= s[i] <= '9'
  }

  lemma ColonIsNotBefore(a: string, x: string, b: string, y: string)
    requires Digits(b) && a + ":" + x == b + ":" + y
    ensures |b| <= |a|
  {
    assert (a + ":" + x)[|a|] == ':';
    assert forall i :: 0 <= i < |b| ==> (b + ":" + y)[i] == b[i];
  }

  lemma LengthPrefixSplits(a: string, x: string, b: string, y: string)
    requires Digits(a) && Digits(b) && a + ":" + x == b + ":" + y
    ensures a == b && x == y
  {
    ColonIsNotBefore(a, x, b, y);
    ColonIsNotBefore(b, y, a, x);
    var s, t := a + ":" + x, b + ":" + y;
    assert s[..|a|] == a && t[..|b|] == b;
    assert s[|a| + 1..] == x && t[|b| + 1..] == y;
  }

  /** One length-prefixed field can be read off the front. */
  lemma FieldSplits(p: string, x: string, q: string, y: string)
    requires Dec(|p|) + ":" + (p + x) == Dec(|q|) + ":" + (q + y)
    ensures p == q && x == y
  {
    LengthPrefixSplits(Dec(|p|), p + x, Dec(|q|), q + y);
    DecIsInjective(|p|, |q|);
    assert (p + x)[..|p|] == p && (q + y)[..|q|] == q;
    assert (p + x)[|p|..] == x && (q + y)[|q|..] == y;
  }

  lemma FrameSplits(f: File, x: string, g: File, y: string)
    requires Frame(f) + x == Frame(g) + y
    ensures f == g && x == y
  {
    var fd, gd := Dec(|f.data|) + ":" + (f.data + x), Dec(|g.data|) + ":" + (g.data + y);
    assert Frame(f) + x == Dec(|f.path|) + ":" + (f.path + fd);
    assert Frame(g) + y == Dec(|g.path|) + ":" + (g.path + gd);
    FieldSplits(f.path, fd, g.path, gd);
    FieldSplits(f.data, x, g.data, y);
  }

  lemma NoFrames(fs: seq<File>)
    ensures Frames(fs) == "" <==> fs == []
  {
    if fs != [] { assert |Frame(fs[0])| > 0; }
  }

  /** The framing is injective on lists of files. */
  lemma {:induction false} FramesAreInjective(fs: seq<File>, gs: seq<File>)
    requires Frames(fs) == Frames(gs)
    ensures fs == gs
  {
    if fs == [] || gs == [] {
      NoFrames(fs);
      NoFrames(gs);
    } else {
      FrameSplits(fs[0], Frames(fs[1..]), gs[0], Frames(gs[1..]));
      FramesAreInjective(fs[1..], gs[1..]);
      assert fs == [fs[0]] + fs[1..] && gs == [gs[0]] + gs[1..];
    }
  }

  // ----- the bytes that are hashed -----------------------------------------------------------

  /** What is read for a path; only asked of paths that can be read. */
  function DataOf(contents: map<string, string>, p: string): string {
    if p in contents then contents[p] else ""
  }

  function Files(paths: seq<string>, contents: map<string, string>): (fs: seq<File>)
    ensures |fs| == |paths|
    ensures forall i :: 0 <= i < |paths| ==> fs[i] == File(paths[i], DataOf(contents, paths[i]))
  {
    if paths == [] then [] else [File(paths[0], DataOf(contents, paths[0]))] + Files(paths[1..], contents)
  }

  lemma FramesOfCons(f: File, fs: seq<File>)
    ensures Frames([f] + fs) == Frame(f) + Frames(fs)
  {
    assert ([f] + fs)[1..] == fs;
  }

  lemma {:induction false} FramesOfConcat(fs: seq<File>, gs: seq<File>)
    ensures Frames(fs + gs) == Frames(fs) + Frames(gs)
  {
    if fs == [] {
      assert fs + gs == gs;
    } else {
      FramesOfConcat(fs[1..], gs);
      FramesOfCons(fs[0], fs[1..] + gs);
      assert fs + gs == [fs[0]] + (fs[1..] + gs);
      Associates(Frame(fs[0]), Frames(fs[1..]), Frames(gs));
    }
  }

  lemma FramesOfOneMore(paths: seq<string>, i: nat, contents: map<string, string>)
    requires i < |paths|
    ensures Frames(Files(paths[..i + 1], contents))
      == Frames(Files(paths[..i], contents)) + Frame(File(paths[i], DataOf(contents, paths[i])))
  {
    var f := File(paths[i], DataOf(contents, paths[i]));
    FilesOfOneMore(paths, i, contents);
    FramesOfConcat(Files(paths[..i], contents), [f]);
    FramesOfOne(f);
  }

  lemma FilesOfOneMore(paths: seq<string>, i: nat, contents: map<string, string>)
    requires i < |paths|
    ensures Files(paths[..i + 1], contents)
      == Files(paths[..i], contents) + [File(paths[i], DataOf(contents, paths[i]))]
  {
    var f := File(paths[i], DataOf(contents, paths[i]));
    var more, before := Files(paths[..i + 1], contents), Files(paths[..i], contents);
    forall j | 0 <= j < i + 1 ensures more[j] == (before + [f])[j] {
      assert paths[..i + 1][j] == paths[j];
      if j < i { assert paths[..i][j] == paths[j]; }
    }
  }

  lemma FramesOfOne(f: File)
    ensures Frames([f]) == Frame(f)
  {
    FramesOfCons(f, []);
    assert [f] + [] == [f];
  }

  function PreHash(status: string, diff: string, paths: seq<string>, contents: map<string, string>): string {
    status + diff + Frames(Files(Sorted(paths), contents))
  }

  lemma SameMembers(xs: seq<string>)
    ensures forall p :: p in Sorted(xs) <==> p in xs
  {
    SortedKeepsElements(xs);
    assert forall p :: p in xs <==> p in multiset(xs);
    assert forall p :: p in Sorted(xs) <==> p in multiset(Sorted(xs));
  }

  /** The answers of the three git commands, and a map from the paths that can be read to what is read. */
  method Compute(status: Option<string>, diff: Option<string>, listing: Option<string>, contents: map<string, string>)
    returns (hashed: Option<string>)
    ensures hashed.Some? <==>
      status.Some? && diff.Some? && listing.Some? && forall p :: p in Paths(listing.value) ==> p in contents
    ensures hashed.Some? ==> hashed.value == PreHash(status.value, diff.value, Paths(listing.value), contents)
  {
    if status.None? || diff.None? || listing.None? { return None; }
    var h := status.value + diff.value;
    var paths := ParseNULList(listing.value);
    SameMembers(paths);
    NoEmptyPaths(Split(listing.value, NUL));
    paths := Sorted(paths);
    for i := 0 to |paths|
      invariant forall j :: 0 <= j < i ==> paths[j] in contents
      invariant h == status.value + diff.value + Frames(Files(paths[..i], contents))
    {
      if paths[i] == "" { continue; }
      if paths[i] !in contents { return None; }
      var data := contents[paths[i]];
      FramesOfOneMore(paths, i, contents);
      h := AppendFrame(h, status.value + diff.value, Frames(Files(paths[..i], contents)), File(paths[i], data));
    }
    assert paths[..|paths|] == paths;
    hashed := Some(h);
  }

  /** The two writes of one file: its header, then its data. */
  method AppendFrame(h: string, ghost texts: string, ghost before: string, f: File) returns (more: string)
    requires h == texts + before
    ensures more == texts + (before + Frame(f))
  {
    more := h + (Dec(|f.path|) + ":" + f.path + (Dec(|f.data|) + ":"));
    more := more + f.data;
  }

  lemma {:induction false} NoEmptyPaths(parts: seq<string>)
    ensures "" !in NonEmpty(parts)
  {
    if parts != [] { NoEmptyPaths(parts[..|parts| - 1]); }
  }

  /** `paths` lists the untracked files of a tree, each once. */
  ghost predicate Lists(paths: seq<string>, tree: map<string, string>) {
    multiset(paths) == multiset(tree.Keys)
  }

  lemma ListsKeys(paths: seq<string>, tree: map<string, string>)
    requires Lists(paths, tree)
    ensures forall p :: p in paths <==> p in tree
  {
    assert forall p :: p in paths <==> p in multiset(paths);
  }

  /** With the same status and diff texts, the hashed bytes of two trees are equal exactly when the trees
      have the same untracked files with the same contents, in whatever order they were listed. */
  lemma UntrackedFilesDetermineTheBytes(status: string, diff: string,
      paths1: seq<string>, tree1: map<string, string>, paths2: seq<string>, tree2: map<string, string>)
    requires Lists(paths1, tree1) && Lists(paths2, tree2)
    ensures PreHash(status, diff, paths1, tree1) == PreHash(status, diff, paths2, tree2) <==> tree1 == tree2
  {
    if tree1 == tree2 {
      SortedIgnoresOrder(paths1, paths2);
    }
    if PreHash(status, diff, paths1, tree1) == PreHash(status, diff, paths2, tree2) {
      SameMembers(paths1);
      SameMembers(paths2);
      ListsKeys(paths1, tree1);
      ListsKeys(paths2, tree2);
      var s1, s2 := Sorted(paths1), Sorted(paths2);
      SameSuffix(status + diff, Frames(Files(s1, tree1)), Frames(Files(s2, tree2)));
      FramesAreInjective(Files(s1, tree1), Files(s2, tree2));
      SameFilesSameTree(s1, tree1, s2, tree2);
    }
  }

  lemma SameSuffix(a: string, x: string, y: string)
    requires a + x == a + y
    ensures x == y
  {
    assert (a + x)[|a|..] == x && (a + y)[|a|..] == y;
  }

  lemma SameFilesSameTree(s1: seq<string>, tree1: map<string, string>, s2: seq<string>, tree2: map<string, string>)
    requires (forall p :: p in s1 <==> p in tree1) && (forall p :: p in s2 <==> p in tree2)
    requires Files(s1, tree1) == Files(s2, tree2)
    ensures tree1 == tree2
  {
    forall p | p in tree1 ensures p in tree2 && tree1[p] == tree2[p] {
      var i :| 0 <= i < |s1| && s1[i] == p;
      assert Files(s1, tree1)[i] == Files(s2, tree2)[i];
      assert s2[i] in s2;
    }
    forall p | p in tree2 ensures p in tree1 {
      var i :| 0 <= i < |s2| && s2[i] == p;
      assert Files(s1, tree1)[i] == Files(s2, tree2)[i];
      assert s1[i] in s1;
    }
  }

  /** Status and diff are not framed against each other or against what follows. When the bytes are equal,
      all three parts are equal exactly when the two texts have the same lengths. */
  lemma PartsAgreeIffLengthsAgree(s1: string, d1: string, u1: seq<File>, s2: string, d2: string, u2: seq<File>)
    requires s1 + d1 + Frames(u1) == s2 + d2 + Frames(u2)
    ensures (s1 == s2 && d1 == d2 && u1 == u2) <==> (|s1| == |s2| && |d1| == |d2|)
  {
    if |s1| == |s2| && |d1| == |d2| {
      var b1, b2 := s1 + d1 + Frames(u1), s2 + d2 + Frames(u2);
      assert b1[..|s1|] == s1 && b2[..|s2|] == s2;
      assert b1[|s1|..|s1| + |d1|] == d1 && b2[|s2|..|s2| + |d2|] == d2;
      assert b1[|s1| + |d1|..] == Frames(u1) && b2[|s2| + |d2|..] == Frames(u2);
      FramesAreInjective(u1, u2);
    }
  }

  // ----- texts as git prints them ------------------------------------------------------------

  /** Every line of `s` ends in a newline and starts with an `ok` character. */
  predicate LinesStart(s: string, ok: char -> bool) {
    && (s != "" ==> s[|s| - 1] == '\n')
    && forall i :: 0 <= i < |s| && LineAt(s, i) ==> ok(s[i])
  }

  predicate LineAt(s: string, i: nat)
    requires i < |s|
  {
    i == 0 || s[i - 1] == '\n'
  }

  predicate Starts(s: string, ok: char -> bool) {
    s != "" && ok(s[0])
  }

  predicate IsStatusCode(c: char) { c in " MTADRCU?!" }

  predicate IsNoDigit(c: char) { !('0' <= c <= '9') }

  /** Each line starts with the first of its two status codes. */
  predicate StatusText(s: string) {
    LinesStart(s, IsStatusCode)
  }

  /** Empty, or starting with a header such as `diff --git`; no line starts with a digit, as those of a
      hunk start with a blank, a sign or a backslash, and those of a binary patch with a letter. */
  predicate DiffText(d: string) {
    LinesStart(d, IsNoDigit) && !Starts(d, IsStatusCode)
  }

  /** Where the lines that start with an `ok` character stop can be read off the text. */
  lemma LinesSplit(a: string, x: string, b: string, y: string, ok: char -> bool)
    requires LinesStart(a, ok) && LinesStart(b, ok) && !Starts(x, ok) && !Starts(y, ok)
    requires a + x == b + y
    ensures a == b && x == y
  {
    if |a| < |b| {
      NextLineStarts(a, x, b, y, ok);
    } else if |b| < |a| {
      NextLineStarts(b, y, a, x, ok);
    }
    assert (a + x)[..|a|] == a && (b + y)[..|b|] == b;
    SuffixOfConcat(a, x);
    SuffixOfConcat(b, y);
  }

  lemma NextLineStarts(a: string, x: string, b: string, y: string, ok: char -> bool)
    requires LinesStart(a, ok) && LinesStart(b, ok) && a + x == b + y && |a| < |b|
    ensures Starts(x, ok)
  {
    var i := |a|;
    assert (a + x)[i] == x[0] && (b + y)[i] == b[i];
    if a != "" {
      assert (a + x)[i - 1] == a[i - 1] && (b + y)[i - 1] == b[i - 1];
    }
    assert LineAt(b, i);
  }

  lemma FramesStartWithADigit(fs: seq<File>)
    ensures !Starts(Frames(fs), IsNoDigit) && !Starts(Frames(fs), IsStatusCode)
  {
    if fs != [] {
      var n := Dec(|fs[0].path|);
      var field := n + ":" + fs[0].path;
      assert (n + ":")[0] == n[0] && field[0] == (n + ":")[0];
      assert Frame(fs[0]) == field + (Dec(|fs[0].data|) + ":" + fs[0].data);
      assert Frames(fs) == Frame(fs[0]) + Frames(fs[1..]);
    }
  }

  /** On texts as git prints them the hashed bytes determine status, diff and untracked files: they are
      equal for two trees exactly when all three are, in whatever order the files were listed. */
  lemma WorktreeDeterminesTheBytes(s1: string, d1: string, paths1: seq<string>, tree1: map<string, string>,
      s2: string, d2: string, paths2: seq<string>, tree2: map<string, string>)
    requires Lists(paths1, tree1) && Lists(paths2, tree2)
    requires StatusText(s1) && StatusText(s2) && DiffText(d1) && DiffText(d2)
    ensures PreHash(s1, d1, paths1, tree1) == PreHash(s2, d2, paths2, tree2)
      <==> s1 == s2 && d1 == d2 && tree1 == tree2
  {
    UntrackedFilesDetermineTheBytes(s1, d1, paths1, tree1, paths2, tree2);
    if PreHash(s1, d1, paths1, tree1) == PreHash(s2, d2, paths2, tree2) {
      TextsSplit(s1, d1, Files(Sorted(paths1), tree1), s2, d2, Files(Sorted(paths2), tree2));
    }
  }

  lemma TextsSplit(s1: string, d1: string, fs1: seq<File>, s2: string, d2: string, fs2: seq<File>)
    requires StatusText(s1) && StatusText(s2) && DiffText(d1) && DiffText(d2)
    requires s1 + d1 + Frames(fs1) == s2 + d2 + Frames(fs2)
    ensures s1 == s2 && d1 == d2 && fs1 == fs2
  {
    FramesStartWithADigit(fs1);
    FramesStartWithADigit(fs2);
    Associates(s1, d1, Frames(fs1));
    Associates(s2, d2, Frames(fs2));
    StartOfConcat(d1, Frames(fs1));
    StartOfConcat(d2, Frames(fs2));
    LinesSplit(s1, d1 + Frames(fs1), s2, d2 + Frames(fs2), IsStatusCode);
    LinesSplit(d1, Frames(fs1), d2, Frames(fs2), IsNoDigit);
    FramesAreInjective(fs1, fs2);
  }

  lemma StartOfConcat(a: string, b: string)
    requires !Starts(a, IsStatusCode) && !Starts(b, IsStatusCode)
    ensures !Starts(a + b, IsStatusCode)
  {
  }
}
