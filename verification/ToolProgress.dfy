/** The reader that watches the growing activity file for tool executions: it keeps an offset, reads only
    complete new lines, and counts completions and tools in flight. */
module ToolProgress {
  import opened Options
  import opened Text
  import opened LineFilter

  /** The scanner gives up at a line that does not fit its buffer with its newline. */
  const SCANNER_CAP: nat := 1048576

  datatype Tally = Tally(completed: nat, inFlight: nat)

  /** An end without a start is a completion, but takes nothing out of flight. */
  function Apply(t: Tally, ty: LineType): Tally {
    match ty
    case ToolStart => t.(inFlight := t.inFlight + 1)
    case ToolEnd => Tally(t.completed + 1, if t.inFlight > 0 then t.inFlight - 1 else 0)
    case _ => t
  }

  function TypeOfLine(c: Codec, line: string): LineType { c.typeOf(TrimNewlines(line)) }

  predicate IsToolLine(c: Codec, line: string) {
    TypeOfLine(c, line).ToolStart? || TypeOfLine(c, line).ToolEnd?
  }

  function Fold(c: Codec, lines: seq<string>, t: Tally): Tally {
    if lines == [] then t else Apply(Fold(c, lines[..|lines| - 1], t), TypeOfLine(c, lines[|lines| - 1]))
  }

  lemma FoldOneMore(c: Codec, lines: seq<string>, l: string, t: Tally)
    ensures Fold(c, lines + [l], t) == Apply(Fold(c, lines, t), TypeOfLine(c, l))
  {
    assert (lines + [l])[..|lines|] == lines;
  }

  lemma {:induction false} FoldOfConcat(c: Codec, a: seq<string>, b: seq<string>, t: Tally)
    ensures Fold(c, a + b, t) == Fold(c, b, Fold(c, a, t))
  {
    if b == [] {
      assert a + b == a;
    } else {
      FoldOfConcat(c, a, b[..|b| - 1], t);
      assert (a + b)[..|a + b| - 1] == a + b[..|b| - 1];
    }
  }

  function Ends(c: Codec, lines: seq<string>): nat {
    if lines == [] then 0
    else Ends(c, lines[..|lines| - 1]) + if TypeOfLine(c, lines[|lines| - 1]).ToolEnd? then 1 else 0
  }

  /** How many more tools start than end. */
  function Surplus(c: Codec, lines: seq<string>): int {
    if lines == [] then 0
    else
      var ty := TypeOfLine(c, lines[|lines| - 1]);
      Surplus(c, lines[..|lines| - 1]) + if ty.ToolStart? then 1 else if ty.ToolEnd? then -1 else 0
  }

  /** `n` is the surplus of all lines on top of `before`, or of the lines from some point on. */
  ghost predicate IsSurplus(c: Codec, lines: seq<string>, before: nat, n: nat) {
    n == before + Surplus(c, lines) || exists k :: 0 <= k <= |lines| && n == Surplus(c, lines[k..])
  }

  /** Every end counts as a completion. In flight is the largest surplus of starts over ends, either of
      all lines on top of what was in flight before, or of the lines from some point on: an end that finds
      no tool in flight takes nothing away from later starts. */
  lemma {:induction false} TallyMeans(c: Codec, lines: seq<string>, t: Tally)
    ensures var r := Fold(c, lines, t);
      && r.completed == t.completed + Ends(c, lines)
      && t.inFlight + Surplus(c, lines) <= r.inFlight
      && (forall k :: 0 <= k <= |lines| ==> Surplus(c, lines[k..]) <= r.inFlight)
      && IsSurplus(c, lines, t.inFlight, r.inFlight)
  {
    if lines == [] {
      assert lines[0..] == [];
    } else {
      var before, p := lines[..|lines| - 1], Fold(c, lines[..|lines| - 1], t);
      TallyMeans(c, before, t);
      assert lines[|lines|..] == [];
      forall k | 0 <= k < |lines|
        ensures Surplus(c, lines[k..]) == Surplus(c, before[k..]) + Surplus(c, lines) - Surplus(c, before)
      {
        assert lines[k..][..|lines[k..]| - 1] == before[k..];
      }
      if p.inFlight != t.inFlight + Surplus(c, before) {
        var k :| 0 <= k <= |before| && p.inFlight == Surplus(c, before[k..]);
        assert Surplus(c, lines[k..]) == p.inFlight + Surplus(c, lines) - Surplus(c, before);
      }
    }
  }

  predicate Fits(line: string) { |line| <= SCANNER_CAP }

  /** The lines before the first that does not fit. */
  function Readable(lines: seq<string>): seq<string> {
    if lines == [] || !Fits(lines[0]) then [] else [lines[0]] + Readable(lines[1..])
  }

  lemma {:induction false} ReadableStopsAtTheFirst(lines: seq<string>)
    ensures Readable(lines) <= lines
    ensures forall i :: 0 <= i < |Readable(lines)| ==> Fits(Readable(lines)[i])
    ensures |Readable(lines)| < |lines| ==> !Fits(lines[|Readable(lines)|])
  {
    if lines != [] { ReadableStopsAtTheFirst(lines[1..]); }
  }

  // ----- one reading -------------------------------------------------------------------------

  datatype Progress = Progress(offset: nat, tally: Tally)

  function NewData(file: string, offset: nat): string {
    if offset <= |file| then file[offset..] else ""
  }

  /** What one reading of a file does. */
  function Poll(c: Codec, file: string, p: Progress): Progress {
    var data := NewData(file, p.offset);
    Progress(p.offset + |data| - |Rest(data)|, Fold(c, Readable(Lines(data)), p.tally))
  }

  method LastNewline(data: string) returns (i: Option<nat>)
    ensures i.Some? ==> i.value < |data| && data[i.value] == '\n' && '\n' !in data[i.value + 1..]
    ensures i.None? ==> '\n' !in data
  {
    var k := |data|;
    while k > 0
      invariant 0 <= k <= |data| && '\n' !in data[k..]
    {
      k := k - 1;
      if data[k] == '\n' { return Some(k); }
      assert data[k..] == [data[k]] + data[k + 1..];
    }
    i := None;
  }

  lemma UpToTheLastNewline(data: string, i: nat)
    requires i < |data| && data[i] == '\n' && '\n' !in data[i + 1..]
    ensures Lines(data[..i + 1]) == Lines(data) && |Rest(data)| == |data| - (i + 1)
  {
    var head, tail := data[..i + 1], data[i + 1..];
    FinishedThen(head, tail);
    NoNewlineNoLines(tail);
    assert data == head + tail;
  }

  class ToolProgressState {
    var offset: nat
    var inFlight: nat
    /** All completions that readings have reported. */
    ghost var reported: nat

    ghost function Total(): Progress
      reads this
    {
      Progress(offset, Tally(reported, inFlight))
    }

    constructor ()
      ensures Total() == Progress(0, Tally(0, 0))
    {
      offset, inFlight, reported := 0, 0, 0;
    }

    method ApplyToolEvent(ty: LineType) returns (completed: nat)
      modifies `inFlight
      ensures Tally(completed, inFlight) == Apply(Tally(0, old(inFlight)), ty)
    {
      match ty {
        case ToolStart =>
          inFlight := inFlight + 1;
        case ToolEnd =>
          if inFlight > 0 { inFlight := inFlight - 1; }
          return 1;
        case _ =>
      }
      completed := 0;
    }

    /** The scanner's loop: it stops without a word at a line that does not fit. */
    method ScanLines(c: Codec, lines: seq<string>, ghost base: nat) returns (completed: nat)
      modifies `inFlight
      ensures Tally(base + completed, inFlight) == Fold(c, Readable(lines), Tally(base, old(inFlight)))
    {
      completed := 0;
      ReadableStopsAtTheFirst(lines);
      var i := 0;
      while i < |lines| && Fits(lines[i])
        invariant 0 <= i <= |Readable(lines)| <= |lines|
        invariant Tally(base + completed, inFlight) == Fold(c, lines[..i], Tally(base, old(inFlight)))
      {
        ReadableGoesOn(lines, i);
        assert lines[..i + 1][..i] == lines[..i];
        var n := ApplyToolEvent(TypeOfLine(c, lines[i]));
        completed := completed + n;
        i := i + 1;
      }
      ReadableStops(lines, i);
    }

    /** A file that cannot be opened, and one without a new complete line, change nothing. */
    method ReadToolProgress(c: Codec, file: Option<string>) returns (newlyCompleted: nat, busy: bool)
      modifies this
      ensures Total() == if file.Some? then Poll(c, file.value, old(Total())) else old(Total())
      ensures reported == old(reported) + newlyCompleted && (busy <==> inFlight > 0)
    {
      if file.None? { return 0, inFlight > 0; }
      var data := NewData(file.value, offset);
      var lastNL := LastNewline(data);
      if lastNL.None? {
        NoNewlineNoLines(data);
        return 0, inFlight > 0;
      }
      UpToTheLastNewline(data, lastNL.value);
      offset := offset + lastNL.value + 1;
      newlyCompleted := ScanLines(c, Lines(data[..lastNL.value + 1]), reported);
      reported := reported + newlyCompleted;
      busy := inFlight > 0;
    }
  }

  lemma ReadableGoesOn(lines: seq<string>, i: nat)
    requires i <= |Readable(lines)| && i < |lines| && Fits(lines[i])
    ensures i < |Readable(lines)|
  {
    ReadableStopsAtTheFirst(lines);
  }

  lemma ReadableStops(lines: seq<string>, i: nat)
    requires i <= |Readable(lines)| && i <= |lines| && (i == |lines| || !Fits(lines[i]))
    ensures lines[..i] == Readable(lines)
  {
    ReadableStopsAtTheFirst(lines);
    assert forall k :: 0 <= k < |Readable(lines)| ==> Fits(Readable(lines)[k]) && lines[k] == Readable(lines)[k];
  }

  // ----- any schedule of readings against one scan -------------------------------------------

  /** Readings of the first `ns[0]`, `ns[1]`, … characters of what the file finally holds. */
  function Polled(c: Codec, f: string, ns: seq<nat>): Progress
    requires forall i :: 0 <= i < |ns| ==> ns[i] <= |f|
  {
    if ns == [] then Progress(0, Tally(0, 0)) else Poll(c, f[..ns[|ns| - 1]], Polled(c, f, ns[..|ns| - 1]))
  }

  predicate Schedule(f: string, ns: seq<nat>, n: nat) {
    && n <= |f| && (if ns == [] then n == 0 else ns[|ns| - 1] == n)
    && (forall i :: 0 <= i < |ns| ==> ns[i] <= n)
    && (forall i, j :: 0 <= i < j < |ns| ==> ns[i] <= ns[j])
  }

  /** One scan, without a cap, of the file up to the last newline. */
  function Scan(c: Codec, s: string): Progress {
    Progress(|s| - |Rest(s)|, Fold(c, Lines(s), Tally(0, 0)))
  }

  /** From the first line that does not fit on, there is no tool line. */
  predicate NoToolLineLost(c: Codec, lines: seq<string>) {
    forall i :: 0 <= |Readable(lines)| <= i < |lines| ==> !IsToolLine(c, lines[i])
  }

  lemma {:induction false} NoToolLinesNoChange(c: Codec, lines: seq<string>, t: Tally)
    requires forall i :: 0 <= i < |lines| ==> !IsToolLine(c, lines[i])
    ensures Fold(c, lines, t) == t
  {
    if lines != [] { NoToolLinesNoChange(c, lines[..|lines| - 1], t); }
  }

  lemma {:induction false} CompletionsOnlyGrow(c: Codec, lines: seq<string>, t: Tally)
    ensures Fold(c, lines, t).completed >= t.completed
    ensures Fold(c, lines, t).completed == t.completed ==>
      forall i :: 0 <= i < |lines| ==> !TypeOfLine(c, lines[i]).ToolEnd?
  {
    if lines != [] { CompletionsOnlyGrow(c, lines[..|lines| - 1], t); }
  }

  lemma {:induction false} WithoutEndsFlightOnlyGrows(c: Codec, lines: seq<string>, t: Tally)
    requires forall i :: 0 <= i < |lines| ==> !TypeOfLine(c, lines[i]).ToolEnd?
    ensures Fold(c, lines, t).inFlight >= t.inFlight
    ensures Fold(c, lines, t).inFlight == t.inFlight ==>
      forall i :: 0 <= i < |lines| ==> !TypeOfLine(c, lines[i]).ToolStart?
  {
    if lines != [] { WithoutEndsFlightOnlyGrows(c, lines[..|lines| - 1], t); }
  }

  /** Lost lines show in the tally exactly when one of them is a tool line. */
  lemma LossShowsIff(c: Codec, lines: seq<string>, t: Tally)
    ensures Fold(c, Readable(lines), t) == Fold(c, lines, t) <==> NoToolLineLost(c, lines)
  {
    var r := Readable(lines);
    ReadableStopsAtTheFirst(lines);
    var lost := lines[|r|..];
    assert lines == r + lost;
    var u := Fold(c, r, t);
    FoldOfConcat(c, r, lost, t);
    if NoToolLineLost(c, lines) {
      NoToolLinesNoChange(c, lost, u);
    }
    if Fold(c, lost, u) == u {
      CompletionsOnlyGrow(c, lost, u);
      WithoutEndsFlightOnlyGrows(c, lost, u);
      forall i | |r| <= i < |lines| ensures !IsToolLine(c, lines[i]) { assert lines[i] == lost[i - |r|]; }
    }
  }

  lemma {:induction false} ReadableOfConcat(a: seq<string>, b: seq<string>)
    ensures Readable(a + b) == if |Readable(a)| < |a| then Readable(a) else a + Readable(b)
  {
    if a == [] {
      assert a + b == b;
    } else {
      assert (a + b)[1..] == a[1..] + b;
      ReadableOfConcat(a[1..], b);
    }
  }

  lemma NoneLostInParts(c: Codec, a: seq<string>, b: seq<string>)
    requires NoToolLineLost(c, a + b)
    ensures NoToolLineLost(c, a) && NoToolLineLost(c, b)
  {
    ReadableOfConcat(a, b);
    ReadableStopsAtTheFirst(a);
    ReadableStopsAtTheFirst(b);
    forall i | |Readable(a)| <= i < |a| ensures !IsToolLine(c, a[i]) { assert (a + b)[i] == a[i]; }
    forall i | |Readable(b)| <= i < |b| ensures !IsToolLine(c, b[i]) { assert (a + b)[|a| + i] == b[i]; }
  }

  /** Reading on where the lines `a` have been counted and the lines `b` are new. */
  lemma NewLinesCount(c: Codec, a: seq<string>, b: seq<string>)
    requires NoToolLineLost(c, a + b)
    ensures Fold(c, Readable(b), Fold(c, a, Tally(0, 0))) == Fold(c, a + b, Tally(0, 0))
  {
    NoneLostInParts(c, a, b);
    LossShowsIff(c, b, Fold(c, a, Tally(0, 0)));
    FoldOfConcat(c, a, b, Tally(0, 0));
  }

  lemma PollFrom(c: Codec, s: string, off: nat, t: Tally, data: string)
    requires off <= |s| && s[off..] == data
    ensures Poll(c, s, Progress(off, t)) == Progress(|s| - |Rest(data)|, Fold(c, Readable(Lines(data)), t))
  {
  }

  lemma RestContinues(p: string, q: string)
    ensures Rest(Rest(p) + q) == Rest(p + q)
  {
    LinesContinue(p, q);
  }

  /** Reading on from where a scan of `p` stopped, when `q` has been added: the new data is what was
      left over, and `q`. */
  lemma PollAfterScan(c: Codec, p: string, q: string)
    ensures var added := Lines(Rest(p) + q);
      Poll(c, p + q, Scan(c, p))
        == Progress(|p + q| - |Rest(p + q)|, Fold(c, Readable(added), Fold(c, Lines(p), Tally(0, 0))))
  {
    RestIsASuffix(p);
    var off := |p| - |Rest(p)|;
    DropIntoConcat(p, q, off);
    RestContinues(p, q);
    PollFrom(c, p + q, off, Fold(c, Lines(p), Tally(0, 0)), Rest(p) + q);
  }

  lemma PollContinuesScan(c: Codec, p: string, q: string)
    requires NoToolLineLost(c, Lines(p + q))
    ensures Poll(c, p + q, Scan(c, p)) == Scan(c, p + q)
  {
    PollAfterScan(c, p, q);
    LinesContinue(p, q);
    NewLinesCount(c, Lines(p), Lines(Rest(p) + q));
  }

  lemma DropIntoConcat(p: string, q: string, off: nat)
    requires off <= |p|
    ensures (p + q)[off..] == p[off..] + q
  {
  }

  lemma OneMorePoll(c: Codec, f: string, m: nat, n: nat)
    requires m <= n <= |f| && NoToolLineLost(c, Lines(f[..n]))
    ensures NoToolLineLost(c, Lines(f[..m]))
    ensures Poll(c, f[..n], Scan(c, f[..m])) == Scan(c, f[..n])
  {
    var p, q := f[..m], f[m..n];
    assert f[..n] == p + q;
    PollContinuesScan(c, p, q);
    LinesContinue(p, q);
    NoneLostInParts(c, Lines(p), Lines(Rest(p) + q));
  }

  lemma {:induction false} SchedulesAgree(c: Codec, f: string, ns: seq<nat>, n: nat)
    requires Schedule(f, ns, n) && NoToolLineLost(c, Lines(f[..n]))
    ensures Polled(c, f, ns) == Scan(c, f[..n])
  {
    if ns != [] {
      var before := ns[..|ns| - 1];
      var m := if before == [] then 0 else before[|before| - 1];
      OneMorePoll(c, f, m, n);
      SchedulesAgree(c, f, before, m);
    }
  }

  /** Whatever the file grows to and whenever it is read, the readings together agree with one scan up to
      the last newline — for all schedules, exactly when no tool line comes at or after the first line
      that exceeds the scanner's cap. */
  lemma AllSchedulesAgreeIff(c: Codec, f: string, n: nat)
    requires n <= |f|
    ensures (forall ns :: Schedule(f, ns, n) ==> Polled(c, f, ns) == Scan(c, f[..n]))
      <==> NoToolLineLost(c, Lines(f[..n]))
  {
    if NoToolLineLost(c, Lines(f[..n])) {
      forall ns | Schedule(f, ns, n) ensures Polled(c, f, ns) == Scan(c, f[..n]) {
        SchedulesAgree(c, f, ns, n);
      }
    } else {
      assert Schedule(f, [n], n);
      LossShowsIff(c, Lines(f[..n]), Tally(0, 0));
      OneReading(c, f, n);
    }
  }

  lemma OneReading(c: Codec, f: string, n: nat)
    requires n <= |f|
    ensures Polled(c, f, [n]).tally == Fold(c, Readable(Lines(f[..n])), Tally(0, 0))
  {
    assert [n][..0] == [];
    assert NewData(f[..n], 0) == f[..n];
  }

  lemma {:induction false} ShortLinesAreAllReadable(lines: seq<string>)
    requires forall i :: 0 <= i < |lines| ==> Fits(lines[i])
    ensures Readable(lines) == lines
  {
    if lines != [] {
      ShortLinesAreAllReadable(lines[1..]);
      assert lines == [lines[0]] + lines[1..];
    }
  }

  /** With every line under the cap, all schedules agree. */
  lemma ShortLinesNeverLost(c: Codec, f: string, ns: seq<nat>, n: nat)
    requires Schedule(f, ns, n) && forall i :: 0 <= i < |Lines(f[..n])| ==> Fits(Lines(f[..n])[i])
    ensures Polled(c, f, ns) == Scan(c, f[..n])
  {
    ShortLinesAreAllReadable(Lines(f[..n]));
    SchedulesAgree(c, f, ns, n);
  }

  // ----- the filtered stream -----------------------------------------------------------------

  function Concat(ls: seq<string>): string {
    if ls == [] then "" else Concat(ls[..|ls| - 1]) + ls[|ls| - 1]
  }

  lemma {:induction false} LinesOfConcat(ls: seq<string>)
    requires forall l :: l in ls ==> IsLine(l)
    ensures Lines(Concat(ls)) == ls && Rest(Concat(ls)) == ""
  {
    if ls != [] {
      var before, l := ls[..|ls| - 1], ls[|ls| - 1];
      LinesOfConcat(before);
      assert IsLine(l);
      FinishedThen(Concat(before), l);
      FirstLine(l, |l| - 1);
      assert l[..|l|] == l && l[|l|..] == "";
      assert ls == before + [l];
    }
  }

  lemma {:induction false} FilteredFold(c: Codec, lines: seq<string>, t: Tally)
    requires Lawful(c) && forall l :: l in lines ==> IsLine(l)
    ensures Fold(c, FilterAll(c, lines), t) == Fold(c, lines, t)
  {
    if lines != [] {
      var before, l := lines[..|lines| - 1], lines[|lines| - 1];
      FilteredFold(c, before, t);
      assert IsLine(l) && lines == before + [l];
      FilterKeepsType(c, l);
      FilterOfOneMore(c, before, l);
      FoldOneMore(c, before, l, t);
      FoldOneMore(c, FilterAll(c, before), FilterPiLine(c, l), t);
    }
  }

  lemma FilterOfOneMore(c: Codec, lines: seq<string>, l: string)
    ensures FilterAll(c, lines + [l]) == FilterAll(c, lines) + [FilterPiLine(c, l)]
  {
    FilterOfConcat(c, lines, [l]);
    assert FilterAll(c, [l]) == [FilterPiLine(c, l)];
  }

  /** The file the filter writes has the tool counts of the raw output. */
  lemma FilteredFileHasTheSameCounts(c: Codec, raw: string)
    requires Lawful(c)
    ensures Lines(Concat(FilterAll(c, Lines(raw)))) == FilterAll(c, Lines(raw))
    ensures Scan(c, Concat(FilterAll(c, Lines(raw)))).tally == Scan(c, raw).tally
  {
    LinesAreLines(raw);
    var out := FilterAll(c, Lines(raw));
    forall l | l in out ensures IsLine(l) {
      var i :| 0 <= i < |out| && out[i] == l;
      assert Lines(raw)[i] in Lines(raw);
      FilterKeepsType(c, Lines(raw)[i]);
    }
    LinesOfConcat(out);
    FilteredFold(c, Lines(raw), Tally(0, 0));
  }
}
