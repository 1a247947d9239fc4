/** The writer between the agent's standard output and the activity file. It gets the output in
    arbitrary pieces, and passes it on line by line, projecting the bulky lines. */
module LineFilter {
  import opened Options
  import opened Text

  datatype LineType = ToolStart | ToolEnd | MessageUpdate | OtherLine

  /** The two things asked of the JSON in a line: its type, and the projection of a message update,
      which may fail. Neither sees the newline. */
  datatype Codec = Codec(typeOf: string -> LineType, project: string -> Option<string>)

  /** A projection is again a message update, written on one line. */
  ghost predicate Lawful(c: Codec) {
    forall s: string :: c.project(s).Some? ==>
      && c.typeOf(c.project(s).value).MessageUpdate?
      && '\n' !in c.project(s).value
  }

  function TrimNewlines(s: string): string {
    if s != "" && s[|s| - 1] == '\n' then TrimNewlines(s[..|s| - 1]) else s
  }

  function FilterPiLine(c: Codec, line: string): string {
    var data := TrimNewlines(line);
    if !c.typeOf(data).MessageUpdate? then line
    else
      var projected := c.project(data);
      if projected.None? then line else projected.value + "\n"
  }

  /** Exactly a message update that can be projected is replaced, by its projection on a line of its own. */
  lemma FilterProjects(c: Codec, line: string)
    requires IsLine(line)
    ensures var text := line[..|line| - 1];
      FilterPiLine(c, line)
        == if c.typeOf(text).MessageUpdate? && c.project(text).Some? then c.project(text).value + "\n" else line
  {
    TrimOfLine(line);
  }

  function FilterAll(c: Codec, lines: seq<string>): (out: seq<string>)
    ensures |out| == |lines|
    ensures forall i :: 0 <= i < |lines| ==> out[i] == FilterPiLine(c, lines[i])
  {
    if lines == [] then [] else [FilterPiLine(c, lines[0])] + FilterAll(c, lines[1..])
  }

  predicate IsLine(s: string) {
    s != "" && s[|s| - 1] == '\n' && '\n' !in s[..|s| - 1]
  }

  lemma TrimOfLine(s: string)
    requires IsLine(s)
    ensures TrimNewlines(s) == s[..|s| - 1]
  {
    var init := s[..|s| - 1];
    if init != "" { assert init[|init| - 1] in init; }
  }

  lemma {:induction false} LinesAreLines(s: string)
    ensures forall l :: l in Lines(s) ==> IsLine(l)
  {
    if s != "" {
      LinesAreLines(s[..|s| - 1]);
      RestIsUnfinished(s[..|s| - 1]);
      var l := Rest(s[..|s| - 1]) + "\n";
      assert l[..|l| - 1] == Rest(s[..|s| - 1]);
    }
  }

  /** Filtering neither joins nor splits lines, and keeps what each line is. */
  lemma FilterKeepsType(c: Codec, line: string)
    requires Lawful(c) && IsLine(line)
    ensures IsLine(FilterPiLine(c, line))
    ensures c.typeOf(TrimNewlines(FilterPiLine(c, line))) == c.typeOf(TrimNewlines(line))
  {
    var out := FilterPiLine(c, line);
    if out != line {
      var p := c.project(TrimNewlines(line)).value;
      assert out[..|out| - 1] == p;
      TrimOfLine(out);
    }
  }

  function IndexOfNewline(s: string): (i: Option<nat>)
    ensures i.Some? ==> i.value < |s| && s[i.value] == '\n' && '\n' !in s[..i.value]
    ensures i.None? ==> '\n' !in s
  {
    if s == "" then None
    else if s[0] == '\n' then Some(0)
    else
      var rest := IndexOfNewline(s[1..]);
      assert s == [s[0]] + s[1..];
      if rest.None? then None
      else
        assert s[..rest.value + 1] == [s[0]] + s[1..][..rest.value];
        Some(rest.value + 1)
  }

  lemma FilterOfConcat(c: Codec, a: seq<string>, b: seq<string>)
    ensures FilterAll(c, a + b) == FilterAll(c, a) + FilterAll(c, b)
  {
  }

  /** What has been passed on, and what would be passed on from the buffer, is the whole input filtered
      line by line. */
  ghost predicate PassedOn(c: Codec, dst: seq<string>, buf: string, input: string) {
    dst + FilterAll(c, Lines(buf)) == FilterAll(c, Lines(input)) && Rest(buf) == Rest(input)
  }

  lemma PieceArrives(c: Codec, dst: seq<string>, buf: string, input: string, p: string)
    requires PassedOn(c, dst, buf, input)
    ensures PassedOn(c, dst, buf + p, input + p)
  {
    LinesContinue(buf, p);
    LinesContinue(input, p);
    var more := Lines(Rest(input) + p);
    FilterOfConcat(c, Lines(buf), more);
    FilterOfConcat(c, Lines(input), more);
    Associates(dst, FilterAll(c, Lines(buf)), FilterAll(c, more));
  }

  lemma LineLeaves(c: Codec, dst: seq<string>, buf: string, input: string, i: nat)
    requires PassedOn(c, dst, buf, input)
    requires i < |buf| && buf[i] == '\n' && '\n' !in buf[..i]
    ensures PassedOn(c, dst + [FilterPiLine(c, buf[..i + 1])], buf[i + 1..], input)
    ensures Lines(buf) != []
  {
    FirstLine(buf, i);
    FilterOfConcat(c, [buf[..i + 1]], Lines(buf[i + 1..]));
    assert FilterAll(c, [buf[..i + 1]]) == [FilterPiLine(c, buf[..i + 1])];
    Associates(dst, [FilterPiLine(c, buf[..i + 1])], FilterAll(c, Lines(buf[i + 1..])));
  }

  lemma AllLinesLeft(c: Codec, dst: seq<string>, buf: string, input: string)
    requires PassedOn(c, dst, buf, input) && '\n' !in buf
    ensures dst == FilterAll(c, Lines(input)) && buf == Rest(input)
  {
    NoNewlineNoLines(buf);
  }

  class LineFilterWriter {
    const codec: Codec
    var buf: string
    /** The writes the destination has taken, and the lines the callback has seen. */
    var dst: seq<string>
    var seen: seq<string>
    ghost var input: string

    ghost predicate Valid()
      reads this
    {
      PassedOn(codec, dst, buf, input) && seen == dst
    }

    constructor (codec: Codec)
      ensures Valid() && this.codec == codec && input == "" && buf == "" && dst == []
    {
      this.codec := codec;
      buf, dst, seen, input := "", [], [], "";
    }

    /** Passes on the first line of the buffer, unless the destination refuses it. */
    method PassOn(i: nat, takes: nat -> bool) returns (taken: bool)
      requires Valid() && i < |buf| && buf[i] == '\n' && '\n' !in buf[..i]
      modifies `dst, `seen, `buf
      ensures Valid() && taken == takes(|old(dst)|) && old(dst) <= dst
      ensures if taken then |dst| == |old(dst)| + 1 && |buf| < |old(buf)| else dst == old(dst) && buf == old(buf)
      ensures !taken ==> Lines(buf) != []
    {
      LineLeaves(codec, dst, buf, input, i);
      var out := FilterPiLine(codec, buf[..i + 1]);
      taken := takes(|dst|);
      if !taken { return; }
      dst := dst + [out];
      seen := seen + [out];
      buf := buf[i + 1..];
    }

    /** Whatever was written before and however it was cut into pieces: when the destination takes
        everything, exactly the filtered complete lines of the whole input have been passed on, in order,
        and the buffer holds exactly the unfinished line. When the destination fails, the line it refused
        stays in the buffer, so no line is lost or passed on twice. `takes(k)` says whether the destination
        takes the write that would be its `k`-th. */
    method Write(p: string, takes: nat -> bool) returns (n: nat, ok: bool)
      requires Valid()
      modifies this
      ensures Valid() && input == old(input) + p
      ensures old(dst) <= dst
      ensures ok ==> n == |p| && dst == FilterAll(codec, Lines(input)) && buf == Rest(input)
      ensures !ok ==> n == 0 && Lines(buf) != [] && !takes(|dst|)
      ensures forall k :: |old(dst)| <= k < |dst| ==> takes(k)
    {
      PieceArrives(codec, dst, buf, input, p);
      buf := buf + p;
      input := input + p;
      while true
        invariant Valid() && input == old(input) + p && old(dst) <= dst
        invariant forall k :: |old(dst)| <= k < |dst| ==> takes(k)
        decreases |buf|
      {
        var i := IndexOfNewline(buf);
        if i.None? { break; }
        var taken := PassOn(i.value, takes);
        if !taken { return 0, false; }
      }
      AllLinesLeft(codec, dst, buf, input);
      return |p|, true;
    }
  }
}
