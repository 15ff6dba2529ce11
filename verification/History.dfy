/**
 The history of src/linenoise.c: a fixed array of strings, shifted in place when it is full. The
 array is shown to hold the most recent lines of everything ever added, adjacent repeats dropped.
 */
module History {
  import opened Memory

  /** One add, as a list operation. */
  function Added(h: seq<CString>, line: CString, max: nat): seq<CString> {
    if max == 0 || (h != [] && h[|h| - 1] == line) then h
    else (if |h| == max then h[1..] else h) + [line]
  }

  /** All the adds of a run, oldest first. */
  function AddedAll(h: seq<CString>, lines: seq<CString>, max: nat): seq<CString> {
    if lines == [] then h
    else Added(AddedAll(h, lines[..|lines| - 1], max), lines[|lines| - 1], max)
  }

  lemma AddedOneMore(h: seq<CString>, lines: seq<CString>, line: CString, max: nat)
    ensures AddedAll(h, lines + [line], max) == Added(AddedAll(h, lines, max), line, max)
  {
    assert (lines + [line])[..|lines|] == lines;
  }

  /** The reference: the lines that differ from the line just before them. */
  function Dedup(lines: seq<CString>): seq<CString> {
    if |lines| < 2 then lines
    else if lines[|lines| - 1] == lines[|lines| - 2] then Dedup(lines[..|lines| - 1])
    else Dedup(lines[..|lines| - 1]) + [lines[|lines| - 1]]
  }

  function LastN<T>(s: seq<T>, n: nat): seq<T> {
    if |s| <= n then s else s[|s| - n..]
  }

  lemma {:induction false} DedupEndsWithLast(lines: seq<CString>)
    requires lines != []
    ensures Dedup(lines) != [] && Dedup(lines)[|Dedup(lines)| - 1] == lines[|lines| - 1]
  {
    if |lines| >= 2 {
      DedupEndsWithLast(lines[..|lines| - 1]);
    }
  }

  lemma DedupOfLast(before: seq<CString>, last: CString)
    ensures Dedup(before + [last]) ==
            if before != [] && before[|before| - 1] == last then Dedup(before) else Dedup(before) + [last]
  {
    assert (before + [last])[..|before|] == before;
  }

  /** Adding to what is kept of `d`, and keeping what is left after adding to `d`. */
  lemma AddedToLastN(d: seq<CString>, last: CString, max: nat)
    ensures Added(LastN(d, max), last, max) == LastN(if d != [] && d[|d| - 1] == last then d else d + [last], max)
  {
  }

  /**
   For every sequence of adds and every maximum, the history is the last `max` of the added lines
   with consecutive duplicates removed.
   */
  lemma {:induction false} HistoryIsRecentDistinctLines(lines: seq<CString>, max: nat)
    ensures AddedAll([], lines, max) == LastN(Dedup(lines), max)
  {
    if lines != [] {
      var before, last := lines[..|lines| - 1], lines[|lines| - 1];
      HistoryIsRecentDistinctLines(before, max);
      AddedToLastN(Dedup(before), last, max);
      DedupOfLast(before, last);
      assert lines == before + [last];
      if before != [] {
        DedupEndsWithLast(before);
      }
    }
  }

  ghost predicate NoAdjacentRepeats(h: seq<CString>) {
    forall i :: 0 < i < |h| ==> h[i] != h[i - 1]
  }

  /** `Dedup` shortens exactly the sequences that have an adjacent repeat. */
  lemma {:induction false} DedupLength(h: seq<CString>)
    ensures |Dedup(h)| <= |h|
    ensures NoAdjacentRepeats(h) <==> |Dedup(h)| == |h|
    ensures NoAdjacentRepeats(h) ==> Dedup(h) == h
  {
    if |h| >= 2 {
      var front := h[..|h| - 1];
      DedupLength(front);
      assert h == front + [h[|h| - 1]];
      if NoAdjacentRepeats(front) && h[|h| - 1] != h[|h| - 2] {
        assert forall i :: 0 < i < |h| ==> h[i] != h[i - 1] by {
          forall i | 0 < i < |h| ensures h[i] != h[i - 1] {
            if i < |h| - 1 { assert front[i] != front[i - 1]; }
          }
        }
      }
    }
  }

  // ----- the history file

  const MAX_LINE := 4096

  function FirstOf(s: string, c: char): (k: nat)
    ensures k <= |s| && c !in s[..k]
    ensures k < |s| ==> s[k] == c
  {
    if s == [] || s[0] == c then 0 else 1 + FirstOf(s[1..], c)
  }

  /** How much one `fgets` takes: through the first newline, but at most one less than its buffer. */
  function Chunk(text: string): (n: nat)
    ensures n <= |text| && (text != [] ==> n > 0)
  {
    var k := FirstOf(text, '\n');
    var n := if k < |text| then k + 1 else k;
    if n < MAX_LINE then n else MAX_LINE - 1
  }

  /** The line kept: cut at the first carriage return, or else at the newline. */
  function Cut(s: CString): (r: CString)
    ensures |r| <= |s| && '\r' !in r
  {
    var k := FirstOf(s, '\r');
    if k < |s| then s[..k] else s[..FirstOf(s, '\n')]
  }

  function ReadLines(text: CString): seq<CString> {
    if text == [] then [] else [Cut(text[..Chunk(text)])] + ReadLines(text[Chunk(text)..])
  }

  function Saved(h: seq<CString>): CString {
    if h == [] then [] else h[0] + "\n" + Saved(h[1..])
  }

  /** A line that survives the file. */
  predicate Clean(line: CString) {
    '\r' !in line && '\n' !in line && |line| < MAX_LINE - 1
  }

  lemma {:induction false} FirstIs(a: string, c: char, b: string)
    requires c !in a
    ensures FirstOf(a + [c] + b, c) == |a|
  {
    if a != [] {
      FirstIs(a[1..], c, b);
      assert (a + [c] + b)[1..] == a[1..] + [c] + b;
    }
  }

  lemma FirstIsNone(s: string, c: char)
    requires c !in s
    ensures FirstOf(s, c) == |s|
  {
  }

  lemma ChunkIsRead(a: CString, b: CString)
    requires a != [] && Chunk(a + b) == |a|
    ensures ReadLines(a + b) == [Cut(a)] + ReadLines(b)
  {
    assert (a + b)[..|a|] == a && (a + b)[|a|..] == b;
  }

  lemma CleanLineIsRead(line: CString, rest: CString)
    requires Clean(line)
    ensures ReadLines(line + "\n" + rest) == [line] + ReadLines(rest)
  {
    FirstIs(line, '\n', rest);
    ChunkIsRead(line + "\n", rest);
    assert line + "\n" == line + ['\n'] + [];
    FirstIs(line, '\n', []);
    FirstIsNone(line + "\n", '\r');
  }

  function Newlines(s: string): nat {
    if s == [] then 0 else Newlines(s[1..]) + if s[0] == '\n' then 1 else 0
  }

  lemma {:induction false} NewlinesOfConcat(a: string, b: string)
    ensures Newlines(a + b) == Newlines(a) + Newlines(b)
  {
    if a == [] {
      assert a + b == b;
    } else {
      assert (a + b)[1..] == a[1..] + b;
      NewlinesOfConcat(a[1..], b);
    }
  }

  lemma {:induction false} NoNewlines(s: string)
    requires '\n' !in s
    ensures Newlines(s) == 0
  {
    if s != [] {
      NoNewlines(s[1..]);
    }
  }

  lemma ChunkHoldsOneNewline(text: string)
    requires text != []
    ensures Newlines(text[..Chunk(text)]) <= 1
    ensures forall i :: 0 <= i < Chunk(text) - 1 ==> text[i] != '\n'
  {
    var n := Chunk(text);
    var front, last := text[..n - 1], text[n - 1..n];
    assert front == text[..FirstOf(text, '\n')][..n - 1];
    NoNewlines(front);
    NewlinesOfConcat(front, last);
    assert text[..n] == front + last;
  }

  /** Reading gives at least one line for each newline. */
  lemma {:induction false} NoFewerLinesThanNewlines(text: CString)
    ensures |ReadLines(text)| >= Newlines(text)
    decreases |text|
  {
    if text != [] {
      var n := Chunk(text);
      ChunkHoldsOneNewline(text);
      NewlinesOfConcat(text[..n], text[n..]);
      assert text == text[..n] + text[n..];
      NoFewerLinesThanNewlines(text[n..]);
    }
  }

  lemma {:induction false} SavedHasNewlines(h: seq<CString>)
    ensures Newlines(Saved(h)) >= |h|
  {
    if h != [] {
      SavedHasNewlines(h[1..]);
      NewlinesOfConcat(h[0] + "\n", Saved(h[1..]));
      NewlinesOfConcat(h[0], "\n");
    }
  }

  /** What is read has neither newline nor carriage return, and fits the buffer. */
  lemma FirstLineRead(text: CString)
    requires text != []
    ensures var line := Cut(text[..Chunk(text)]); '\n' !in line && '\r' !in line && |line| < MAX_LINE
  {
    var s := text[..Chunk(text)];
    ChunkHoldsOneNewline(text);
    var k := FirstOf(s, '\r');
    if k < |s| {
      assert forall i :: 0 <= i < k ==> s[i] == text[i];
    }
  }

  lemma EmptyLineIsRead(text: CString, rest: CString)
    requires text == "\n" + rest
    ensures ReadLines(text) == [[]] + ReadLines(rest)
  {
    var none: CString := text[..0];
    assert none + "\n" + rest == text;
    CleanLineIsRead(none, rest);
  }

  /** The one unclean length that is read unchanged leaves its newline behind as a line of its own. */
  lemma FullLineIsReadTwice(line: CString, tail: CString, rest: CString)
    requires '\n' !in line && '\r' !in line && |line| == MAX_LINE - 1 && tail == "\n" + rest
    ensures ReadLines(line + tail) == [line] + ([[]] + ReadLines(rest))
  {
    FullLineIsAChunk(line, tail, rest);
    ChunkIsRead(line, tail);
    EmptyLineIsRead(tail, rest);
  }

  lemma FullLineIsAChunk(line: CString, tail: CString, rest: CString)
    requires '\n' !in line && '\r' !in line && |line| == MAX_LINE - 1 && tail == "\n" + rest
    ensures Chunk(line + tail) == |line| && Cut(line) == line
  {
    FirstIs(line, '\n', rest);
    assert line + tail == line + ['\n'] + rest;
    FirstIsNone(line, '\r');
    FirstIsNone(line, '\n');
  }

  lemma FullLineAddsALine(h: seq<CString>)
    requires h != [] && '\n' !in h[0] && '\r' !in h[0] && |h[0]| == MAX_LINE - 1
    ensures |ReadLines(Saved(h))| > |h|
  {
    var rest := Saved(h[1..]);
    var tail: CString := "\n" + rest;
    assert Saved(h) == h[0] + tail;
    FullLineIsReadTwice(h[0], tail, rest);
    SavedHasNewlines(h[1..]);
    NoFewerLinesThanNewlines(rest);
  }

  lemma UncleanLineIsNotReadBack(h: seq<CString>)
    requires h != [] && !Clean(h[0])
    ensures ReadLines(Saved(h)) != h
  {
    var text := Saved(h);
    FirstLineRead(text);
    if h[0] == Cut(text[..Chunk(text)]) {
      FullLineAddsALine(h);
    } else {
      assert ReadLines(text)[0] != h[0];
    }
  }

  lemma CleanFirstLine(h: seq<CString>)
    requires h != [] && Clean(h[0])
    ensures ReadLines(Saved(h)) == h <==> ReadLines(Saved(h[1..])) == h[1..]
  {
    var rest := ReadLines(Saved(h[1..]));
    CleanLineIsRead(h[0], Saved(h[1..]));
    assert h == [h[0]] + h[1..];
    assert ([h[0]] + rest)[1..] == rest;
  }

  /** A saved history is read back line by line exactly when every line is clean. */
  lemma {:induction false} SavedIsReadBack(h: seq<CString>)
    ensures ReadLines(Saved(h)) == h <==> forall i :: 0 <= i < |h| ==> Clean(h[i])
  {
    if h != [] {
      SavedIsReadBack(h[1..]);
      if Clean(h[0]) {
        CleanFirstLine(h);
      } else {
        UncleanLineIsNotReadBack(h);
      }
    }
  }

  /** A history of clean lines survives saving and loading exactly when it fits and repeats nothing. */
  lemma SaveLoadRoundTrip(h: seq<CString>, max: nat)
    requires forall i :: 0 <= i < |h| ==> Clean(h[i])
    ensures AddedAll([], ReadLines(Saved(h)), max) == h <==> |h| <= max && NoAdjacentRepeats(h)
  {
    SavedIsReadBack(h);
    HistoryIsRecentDistinctLines(h, max);
    DedupLength(h);
  }

  lemma NothingAdded(h: seq<CString>, max: nat)
    ensures AddedAll(h, [], max) == h
  {
  }

  lemma NothingRead()
    ensures ReadLines([]) == []
  {
  }

  class Store {
    const max: nat
    const lines: array<CString>
    var len: nat

    ghost predicate Valid()
      reads this, lines
    {
      lines.Length == max && len <= max
    }

    ghost function Entries(): seq<CString>
      requires Valid()
      reads this, lines
    {
      lines[..len]
    }

    constructor (max: nat)
      ensures Valid() && fresh(lines) && Entries() == [] && this.max == max
    {
      this.max := max;
      lines := new CString[max](_ => "");
      len := 0;
    }

    method Add(line: CString) returns (r: int)
      requires Valid()
      modifies `len, lines
      ensures Valid() && Entries() == Added(old(Entries()), line, max)
      ensures r == 1 || (r == 0 && Entries() == old(Entries()))
    {
      if max == 0 || (len != 0 && lines[len - 1] == line) {
        return 0;
      }
      if len == max {
        Memmove(lines, 0, 1, max - 1);
        len := len - 1;
        assert lines[..len] == old(lines[..len])[1..];
      }
      lines[len] := line;
      len := len + 1;
      return 1;
    }

    /** `linenoiseHistorySave`: the text written. */
    method Save() returns (text: CString)
      requires Valid()
      ensures text == Saved(Entries())
    {
      text := [];
      for j := 0 to len
        invariant text + Saved(Entries()[j..]) == Saved(Entries())
      {
        assert Entries()[j..][1..] == Entries()[j + 1..];
        text := text + lines[j] + "\n";
      }
    }

    /** One turn of the load loop: the line that `fgets` gives is cut and added. */
    method LoadLine(text: CString) returns (rest: CString, ghost line: CString)
      requires Valid() && text != []
      modifies `len, lines
      ensures Valid() && Entries() == Added(old(Entries()), line, max)
      ensures ReadLines(text) == [line] + ReadLines(rest) && |rest| < |text|
    {
      var buf := text[..Chunk(text)];
      var _ := Add(Cut(buf));
      rest, line := text[Chunk(text)..], Cut(buf);
    }

    /** `linenoiseHistoryLoad` */
    method Load(input: CString)
      requires Valid()
      modifies `len, lines
      ensures Valid() && Entries() == AddedAll(old(Entries()), ReadLines(input), max)
      ensures old(len) == 0 ==> Entries() == LastN(Dedup(ReadLines(input)), max)
    {
      hide ReadLines, Added, AddedAll, Dedup;
      assert AddedAll(Entries(), [], max) == Entries() by { NothingAdded(Entries(), max); }
      assert forall text: CString :: text == [] ==> ReadLines(text) == [] by { NothingRead(); }
      ghost var before, done: seq<CString> := Entries(), [];
      var text := input;
      while text != []
        invariant Valid() && Entries() == AddedAll(before, done, max)
        invariant ReadLines(input) == done + ReadLines(text)
        decreases |text|
      {
        ghost var line;
        ghost var was := ReadLines(text);
        text, line := LoadLine(text);
        AddedOneMore(before, done, line, max);
        assert done + was == done + [line] + ReadLines(text);
        done := done + [line];
      }
      assert ReadLines(input) == done;
      if before == [] {
        HistoryIsRecentDistinctLines(done, max);
      }
    }
  }
}
