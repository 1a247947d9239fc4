/** Splitting text, as the standard library calls in the modelled code do it. A `char` stands for one byte
    of a path or a stream. */
module Text {
  function AddChar(pieces: seq<string>, c: char, sep: char): (more: seq<string>)
    requires pieces != []
    ensures |more| >= 1
  {
    if c == sep then pieces + [""] else pieces[..|pieces| - 1] + [pieces[|pieces| - 1] + [c]]
  }

  /** The pieces between separators; one piece more than there are separators. */
  function Split(s: string, sep: char): (pieces: seq<string>)
    ensures |pieces| >= 1
  {
    if s == "" then [""] else AddChar(Split(s[..|s| - 1], sep), s[|s| - 1], sep)
  }

  lemma AddCharToTheEnd(a: seq<string>, b: seq<string>, c: char, sep: char)
    requires b != []
    ensures AddChar(a + b, c, sep) == a + AddChar(b, c, sep)
  {
    assert (a + b)[..|a + b| - 1] == a + b[..|b| - 1];
  }

  lemma SplitOneMore(s: string, c: char, sep: char)
    ensures Split(s + [c], sep) == AddChar(Split(s, sep), c, sep)
  {
    assert (s + [c])[..|s|] == s;
  }

  lemma {:induction false} SplitAtSeparator(a: string, sep: char, b: string)
    ensures Split(a + [sep] + b, sep) == Split(a, sep) + Split(b, sep)
  {
    SplitOneMore(a, sep, sep);
    var head := a + [sep];
    if b == "" {
      assert head + b == head;
    } else {
      var init, c := b[..|b| - 1], b[|b| - 1];
      SplitAtSeparator(a, sep, init);
      SplitAfter(head, init, c, b, Split(a, sep), sep);
    }
  }

  lemma SplitAfter(head: string, init: string, c: char, b: string, pieces: seq<string>, sep: char)
    requires b == init + [c] && Split(head + init, sep) == pieces + Split(init, sep)
    ensures Split(head + b, sep) == pieces + Split(b, sep)
  {
    assert head + b == (head + init) + [c];
    SplitOneMore(head + init, c, sep);
    SplitOneMore(init, c, sep);
    AddCharToTheEnd(pieces, Split(init, sep), c, sep);
  }

  lemma {:induction false} SplitWithoutSeparator(s: string, sep: char)
    requires sep !in s
    ensures Split(s, sep) == [s]
  {
    if s != "" {
      SplitWithoutSeparator(s[..|s| - 1], sep);
      assert s == s[..|s| - 1] + [s[|s| - 1]];
    }
  }

  // ----- lines -------------------------------------------------------------------------------

  /** The newline-terminated lines of a text, each with its newline. */
  function Lines(s: string): seq<string> {
    if s == "" then []
    else
      var init, c := s[..|s| - 1], s[|s| - 1];
      if c == '\n' then Lines(init) + [Rest(init) + "\n"] else Lines(init)
  }

  /** What follows the last newline. */
  function Rest(s: string): (r: string)
    ensures |r| <= |s|
  {
    if s == "" then ""
    else
      var init, c := s[..|s| - 1], s[|s| - 1];
      if c == '\n' then "" else Rest(init) + [c]
  }

  lemma LinesOneMore(s: string, c: char)
    ensures Lines(s + [c]) == if c == '\n' then Lines(s) + [Rest(s) + "\n"] else Lines(s)
    ensures Rest(s + [c]) == if c == '\n' then "" else Rest(s) + [c]
  {
    assert (s + [c])[..|s|] == s;
  }

  lemma Associates<T>(a: seq<T>, b: seq<T>, c: seq<T>)
    ensures a + b + c == a + (b + c)
  {
  }

  lemma ContinueOneMore(a: string, r: string, init: string, c: char)
    requires Lines(a + init) == Lines(a) + Lines(r + init) && Rest(a + init) == Rest(r + init)
    ensures Lines(a + init + [c]) == Lines(a) + Lines(r + init + [c])
    ensures Rest(a + init + [c]) == Rest(r + init + [c])
  {
    LinesOneMore(a + init, c);
    LinesOneMore(r + init, c);
    Associates(Lines(a), Lines(r + init), [Rest(r + init) + "\n"]);
  }

  /** Only the unfinished line matters for what follows. */
  lemma {:induction false} LinesContinue(a: string, b: string)
    ensures Lines(a + b) == Lines(a) + Lines(Rest(a) + b)
    ensures Rest(a + b) == Rest(Rest(a) + b)
  {
    if b == "" {
      assert a + b == a && Rest(a) + b == Rest(a);
      RestIsUnfinished(a);
    } else {
      var init, c := b[..|b| - 1], b[|b| - 1];
      assert b == init + [c];
      LinesContinue(a, init);
      ContinueOneMore(a, Rest(a), init, c);
      Associates(a, init, [c]);
      Associates(Rest(a), init, [c]);
    }
  }

  lemma {:induction false} RestIsUnfinished(a: string)
    ensures '\n' !in Rest(a)
    ensures Lines(Rest(a)) == [] && Rest(Rest(a)) == Rest(a)
  {
    if a != "" && a[|a| - 1] != '\n' {
      RestIsUnfinished(a[..|a| - 1]);
      assert Rest(a)[..|Rest(a)| - 1] == Rest(a[..|a| - 1]);
    }
  }

  lemma {:induction false} NoNewlineNoLines(a: string)
    requires '\n' !in a
    ensures Lines(a) == [] && Rest(a) == a
  {
    if a != "" {
      NoNewlineNoLines(a[..|a| - 1]);
      assert a == a[..|a| - 1] + [a[|a| - 1]];
    }
  }

  lemma EndOfLine(s: string)
    ensures Lines(s + "\n") == Lines(s) + [Rest(s) + "\n"] && Rest(s + "\n") == ""
  {
    LinesOneMore(s, '\n');
  }

  /** A text that ends with a newline is finished. */
  lemma FinishedThen(a: string, b: string)
    requires Rest(a) == ""
    ensures Lines(a + b) == Lines(a) + Lines(b) && Rest(a + b) == Rest(b)
  {
    LinesContinue(a, b);
    assert "" + b == b;
  }

  lemma LineThen(line: string, rest: string)
    requires '\n' !in line
    ensures Lines(line + "\n" + rest) == [line + "\n"] + Lines(rest) && Rest(line + "\n" + rest) == Rest(rest)
  {
    NoNewlineNoLines(line);
    EndOfLine(line);
    FinishedThen(line + "\n", rest);
  }

  lemma CutAt(s: string, i: nat)
    requires i < |s|
    ensures s == s[..i] + [s[i]] + s[i + 1..] && s[..i + 1] == s[..i] + [s[i]]
  {
  }

  /** Splitting off the text up to and including the first newline. */
  lemma FirstLine(s: string, i: nat)
    requires i < |s| && s[i] == '\n' && '\n' !in s[..i]
    ensures Lines(s) == [s[..i + 1]] + Lines(s[i + 1..]) && Rest(s) == Rest(s[i + 1..])
  {
    LineThen(s[..i], s[i + 1..]);
    CutAt(s, i);
  }

  /** The text up to and including the last newline. */
  function Finished(s: string): string {
    if s == "" || s[|s| - 1] == '\n' then s else Finished(s[..|s| - 1])
  }

  lemma FinishedOneMore(s: string, c: char)
    requires s == Finished(s) + Rest(s)
    ensures s + [c] == Finished(s + [c]) + Rest(s + [c])
  {
    LinesOneMore(s, c);
    var t := s + [c];
    assert t[..|t| - 1] == s && t[|t| - 1] == c;
    if c == '\n' {
      assert t + "" == t;
    } else {
      Associates(Finished(s), Rest(s), [c]);
    }
  }

  lemma Snoc(s: string)
    requires s != ""
    ensures s == s[..|s| - 1] + [s[|s| - 1]]
  {
  }

  lemma {:induction false} FinishedAndRest(s: string)
    ensures s == Finished(s) + Rest(s)
  {
    if s != "" {
      FinishedAndRest(s[..|s| - 1]);
      FinishedOneMore(s[..|s| - 1], s[|s| - 1]);
      Snoc(s);
    }
  }

  lemma RestIsASuffix(s: string)
    ensures s[|s| - |Rest(s)|..] == Rest(s)
  {
    FinishedAndRest(s);
    SuffixOfConcat(Finished(s), Rest(s));
  }

  lemma SuffixOfConcat(a: string, b: string)
    ensures (a + b)[|a|..] == b
  {
  }
}
