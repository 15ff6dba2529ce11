/**
 The line buffer of src/linenoise.c. `Line` is the simple model: a text and a cursor. The class
 edits one fixed, terminated character buffer in place, and every key refines the operation on
 `Line`; history keys refine the operation on `Editor`.
 */
module LineEdit {
  import opened Memory
  import History

  datatype Line = Line(text: string, cursor: nat)

  /** A line being edited together with the history it can be swapped with. `index` counts back from the newest entry. */
  datatype Editor = Editor(line: Line, history: seq<CString>, index: nat)

  datatype Direction = Older | Newer

  datatype Key =
    | Char(c: char)
    | Left | Right | Home | End
    | Delete | Backspace | DeleteWord | Swap | KillLine | KillToEnd
    | Recall(dir: Direction)

  predicate WellFormedLine(l: Line, cap: nat) {
    l.cursor <= |l.text| <= cap
  }

  predicate WellFormed(e: Editor, cap: nat) {
    WellFormedLine(e.line, cap) && e.index < |e.history|
  }

  // ----- the simple model

  function Inserted(l: Line, c: char, cap: nat): Line
    requires l.cursor <= |l.text|
  {
    if |l.text| < cap then Line(l.text[..l.cursor] + [c] + l.text[l.cursor..], l.cursor + 1) else l
  }

  function Deleted(l: Line): Line
    requires l.cursor <= |l.text|
  {
    if l.cursor < |l.text| then Line(l.text[..l.cursor] + l.text[l.cursor + 1..], l.cursor) else l
  }

  function Backspaced(l: Line): Line
    requires l.cursor <= |l.text|
  {
    if l.cursor > 0 then Line(l.text[..l.cursor - 1] + l.text[l.cursor..], l.cursor - 1) else l
  }

  /** `start` is where the word before `end` begins: blanks last, then a maximal run of non-blanks. */
  ghost predicate IsWordStart(text: string, start: nat, end: nat)
    requires end <= |text|
  {
    exists mid: nat :: WordSplit(text, start, mid, end)
  }

  ghost predicate WordSplit(text: string, start: nat, mid: nat, end: nat)
    requires end <= |text|
  {
    && start <= mid <= end
    && (forall i :: mid <= i < end ==> text[i] == ' ')
    && (forall i :: start <= i < mid ==> text[i] != ' ')
    && (mid == 0 || text[mid - 1] != ' ')
    && (start == 0 || text[start - 1] == ' ')
  }

  /** There is exactly one such place. */
  lemma WordStartIsUnique(text: string, a: nat, b: nat, end: nat)
    requires end <= |text| && IsWordStart(text, a, end) && IsWordStart(text, b, end)
    ensures a == b
  {
  }

  function WordStart(text: string, end: nat): nat
    requires end <= |text|
  {
    NonBlankStart(text, BlankStart(text, end))
  }

  function BlankStart(text: string, end: nat): (m: nat)
    requires end <= |text|
    ensures m <= end
  {
    if end > 0 && text[end - 1] == ' ' then BlankStart(text, end - 1) else end
  }

  function NonBlankStart(text: string, end: nat): (m: nat)
    requires end <= |text|
    ensures m <= end
  {
    if end > 0 && text[end - 1] != ' ' then NonBlankStart(text, end - 1) else end
  }

  lemma {:induction false} BlankStartSplits(text: string, end: nat)
    requires end <= |text|
    ensures forall i :: BlankStart(text, end) <= i < end ==> text[i] == ' '
    ensures BlankStart(text, end) == 0 || text[BlankStart(text, end) - 1] != ' '
  {
    if end > 0 && text[end - 1] == ' ' {
      BlankStartSplits(text, end - 1);
    }
  }

  lemma {:induction false} NonBlankStartSplits(text: string, end: nat)
    requires end <= |text|
    ensures forall i :: NonBlankStart(text, end) <= i < end ==> text[i] != ' '
    ensures NonBlankStart(text, end) == 0 || text[NonBlankStart(text, end) - 1] == ' '
  {
    if end > 0 && text[end - 1] != ' ' {
      NonBlankStartSplits(text, end - 1);
    }
  }

  /** The two backward scans stop at the start of the previous word. */
  lemma WordStartIsWordStart(text: string, end: nat)
    requires end <= |text|
    ensures IsWordStart(text, WordStart(text, end), end)
  {
    BlankStartSplits(text, end);
    NonBlankStartSplits(text, BlankStart(text, end));
    assert WordSplit(text, WordStart(text, end), BlankStart(text, end), end);
  }

  function WordDeleted(l: Line): Line
    requires l.cursor <= |l.text|
  {
    var start := WordStart(l.text, l.cursor);
    Line(l.text[..start] + l.text[l.cursor..], start)
  }

  function Swapped(l: Line): Line
    requires l.cursor <= |l.text|
  {
    if 0 < l.cursor < |l.text| then
      Line(l.text[l.cursor - 1 := l.text[l.cursor]][l.cursor := l.text[l.cursor - 1]],
           if l.cursor != |l.text| - 1 then l.cursor + 1 else l.cursor)
    else l
  }

  function Shown(entry: CString, cap: nat): Line
    requires cap > 0
  {
    var text := if |entry| < cap then entry else entry[..cap - 1];
    Line(text, |text|)
  }

  /** The line is saved into its own entry, then a neighbouring entry replaces it if there is one. */
  function Recalled(e: Editor, dir: Direction, cap: nat): (r: Editor)
    requires WellFormed(e, cap) && cap > 0
    ensures WellFormed(r, cap)
  {
    var n := |e.history|;
    if n <= 1 then e
    else
      var saved := e.history[n - 1 - e.index := Terminated(e.line.text)];
      if dir.Newer? && e.index == 0 then e.(history := saved)
      else if dir.Older? && e.index == n - 1 then e.(history := saved)
      else
        var index := if dir.Older? then e.index + 1 else e.index - 1;
        Editor(Shown(saved[n - 1 - index], cap), saved, index)
  }

  function AppliedLine(l: Line, key: Key, cap: nat): (r: Line)
    requires WellFormedLine(l, cap) && !key.Recall?
    ensures WellFormedLine(r, cap)
  {
    match key
    case Char(c) => Inserted(l, c, cap)
    case Left => if l.cursor > 0 then l.(cursor := l.cursor - 1) else l
    case Right => if l.cursor < |l.text| then l.(cursor := l.cursor + 1) else l
    case Home => l.(cursor := 0)
    case End => l.(cursor := |l.text|)
    case Delete => Deleted(l)
    case Backspace => Backspaced(l)
    case DeleteWord => WordDeleted(l)
    case Swap => Swapped(l)
    case KillLine => Line("", 0)
    case KillToEnd => Line(l.text[..l.cursor], l.cursor)
  }

  function Applied(e: Editor, key: Key, cap: nat): (r: Editor)
    requires WellFormed(e, cap) && cap > 0
    ensures WellFormed(r, cap)
  {
    if key.Recall? then Recalled(e, key.dir, cap) else e.(line := AppliedLine(e.line, key, cap))
  }

  function AppliedAll(e: Editor, keys: seq<Key>, cap: nat): (r: Editor)
    requires WellFormed(e, cap) && cap > 0
    ensures WellFormed(r, cap)
  {
    if keys == [] then e
    else Applied(AppliedAll(e, keys[..|keys| - 1], cap), keys[|keys| - 1], cap)
  }

  // ----- what runs of keys do

  function Typed(s: string): seq<Key> {
    seq(|s|, i requires 0 <= i < |s| => Char(s[i]))
  }

  function Erasures(n: nat): seq<Key> {
    seq(n, _ => Backspace)
  }

  /** The line with `p` put in at the cursor, and the cursor after it. */
  function With(l: Line, p: string): Line
    requires l.cursor <= |l.text|
  {
    Line(l.text[..l.cursor] + p + l.text[l.cursor..], l.cursor + |p|)
  }

  /** How many of `n` typed characters fit. */
  function Fitting(l: Line, n: nat, cap: nat): (k: nat)
    requires |l.text| <= cap
    ensures k <= n
  {
    if |l.text| + n <= cap then n else cap - |l.text|
  }

  lemma LastKeyApplies(e: Editor, keys: seq<Key>, key: Key, cap: nat)
    requires WellFormed(e, cap) && cap > 0
    ensures AppliedAll(e, keys + [key], cap) == Applied(AppliedAll(e, keys, cap), key, cap)
  {
  }

  lemma TypingStep(l: Line, s: string, cap: nat)
    requires WellFormedLine(l, cap) && s != []
    ensures Inserted(With(l, s[..Fitting(l, |s| - 1, cap)]), s[|s| - 1], cap) == With(l, s[..Fitting(l, |s|, cap)])
  {
  }

  lemma TypedOneMore(s: string)
    requires s != []
    ensures Typed(s) == Typed(s[..|s| - 1]) + [Char(s[|s| - 1])]
  {
  }

  /** Typing a string inserts, at the cursor, the part of it that fits. */
  lemma {:induction false} TypingInserts(e: Editor, s: string, cap: nat)
    requires WellFormed(e, cap) && cap > 0
    ensures AppliedAll(e, Typed(s), cap) == e.(line := With(e.line, s[..Fitting(e.line, |s|, cap)]))
  {
    if s == [] {
      assert With(e.line, s[..0]) == e.line;
    } else {
      var front := s[..|s| - 1];
      TypingInserts(e, front, cap);
      TypedOneMore(s);
      LastKeyApplies(e, Typed(front), Char(s[|s| - 1]), cap);
      assert front[..Fitting(e.line, |front|, cap)] == s[..Fitting(e.line, |front|, cap)];
      TypingStep(e.line, s, cap);
    }
  }

  /** The line without the `k` characters before the cursor. */
  function Cut(l: Line, k: nat): Line
    requires k <= l.cursor <= |l.text|
  {
    Line(l.text[..l.cursor - k] + l.text[l.cursor..], l.cursor - k)
  }

  lemma BackspacedAfter(l: Line, k: nat)
    requires k <= l.cursor <= |l.text|
    ensures Backspaced(Cut(l, k)) == if k < l.cursor then Cut(l, k + 1) else Cut(l, k)
  {
  }

  lemma ErasuresOneMore(n: nat)
    requires n > 0
    ensures Erasures(n) == Erasures(n - 1) + [Backspace]
  {
  }

  /** Erasing what was put in gives the line back. */
  lemma CutUndoesWith(l: Line, p: string)
    requires l.cursor <= |l.text|
    ensures Cut(With(l, p), |p|) == l
  {
  }

  lemma ErasureStep(e: Editor, n: nat, cap: nat)
    requires WellFormed(e, cap) && cap > 0 && n > 0
    ensures var before := e.(line := Cut(e.line, if n - 1 <= e.line.cursor then n - 1 else e.line.cursor));
            WellFormed(before, cap) &&
            Applied(before, Backspace, cap) == e.(line := Cut(e.line, if n <= e.line.cursor then n else e.line.cursor))
  {
    BackspacedAfter(e.line, if n - 1 <= e.line.cursor then n - 1 else e.line.cursor);
  }

  /** `n` backspaces remove the `n` characters before the cursor, or all of them. */
  lemma {:induction false} ErasingRemoves(e: Editor, n: nat, cap: nat)
    requires WellFormed(e, cap) && cap > 0
    ensures AppliedAll(e, Erasures(n), cap) ==
            e.(line := Cut(e.line, if n <= e.line.cursor then n else e.line.cursor))
  {
    if n == 0 {
      assert Cut(e.line, 0) == e.line;
    } else {
      ErasingRemoves(e, n - 1, cap);
      ErasuresOneMore(n);
      LastKeyApplies(e, Erasures(n - 1), Backspace, cap);
      ErasureStep(e, n, cap);
      hide AppliedAll, Applied, Cut;
    }
  }

  /**
   Typing a string and erasing as many characters restores the line exactly when the string fitted
   or the cursor was at the start. Otherwise the erasure eats into the text before the cursor.
   */
  lemma TypeThenErase(e: Editor, s: string, cap: nat)
    requires WellFormed(e, cap) && cap > 0
    ensures AppliedAll(AppliedAll(e, Typed(s), cap), Erasures(|s|), cap) == e
            <==> |e.line.text| + |s| <= cap || e.line.cursor == 0
  {
    var l, k := e.line, Fitting(e.line, |s|, cap);
    TypingInserts(e, s, cap);
    var typed := e.(line := With(l, s[..k]));
    ErasingRemoves(typed, |s|, cap);
    CutUndoesWith(l, s[..k]);
    if |l.text| + |s| > cap && l.cursor > 0 {
      var j := if |s| <= l.cursor + k then |s| else l.cursor + k;
      assert |Cut(typed.line, j).text| < |l.text|;
    }
  }

  /** The keys that move, in positions: one place, or to an end; the text stays. */
  lemma MovesByPosition(l: Line, cap: nat)
    requires WellFormedLine(l, cap)
    ensures forall key :: key in {Left, Right, Home, End} ==> AppliedLine(l, key, cap).text == l.text
    ensures AppliedLine(l, Home, cap).cursor == 0 && AppliedLine(l, End, cap).cursor == |l.text|
    ensures if l.cursor == 0 then AppliedLine(l, Left, cap).cursor == 0 else AppliedLine(l, Left, cap).cursor + 1 == l.cursor
    ensures if l.cursor == |l.text| then AppliedLine(l, Right, cap).cursor == l.cursor
            else AppliedLine(l, Right, cap).cursor == l.cursor + 1
  {
  }

  /** Typing puts the character at the cursor and moves the rest of the text one place. */
  lemma CharByPosition(l: Line, c: char, cap: nat)
    requires WellFormedLine(l, cap)
    ensures var t := AppliedLine(l, Char(c), cap);
            if |l.text| == cap then t == l
            else && |t.text| == |l.text| + 1 && t.cursor == l.cursor + 1 && t.text[l.cursor] == c
                 && (forall i :: 0 <= i < l.cursor ==> t.text[i] == l.text[i])
                 && (forall i :: l.cursor < i < |t.text| ==> t.text[i] == l.text[i - 1])
  {
  }

  /** Deleting takes out the character at the cursor. */
  lemma DeleteByPosition(l: Line, cap: nat)
    requires WellFormedLine(l, cap)
    ensures var t := AppliedLine(l, Delete, cap);
            if l.cursor == |l.text| then t == l
            else && |t.text| + 1 == |l.text| && t.cursor == l.cursor
                 && (forall i :: 0 <= i < l.cursor ==> t.text[i] == l.text[i])
                 && (forall i :: l.cursor <= i < |t.text| ==> t.text[i] == l.text[i + 1])
  {
  }

  /** Erasing takes out the character before the cursor. */
  lemma BackspaceByPosition(l: Line, cap: nat)
    requires WellFormedLine(l, cap)
    ensures var t := AppliedLine(l, Backspace, cap);
            if l.cursor == 0 then t == l
            else && |t.text| + 1 == |l.text| && t.cursor + 1 == l.cursor
                 && (forall i :: 0 <= i < t.cursor ==> t.text[i] == l.text[i])
                 && (forall i :: t.cursor <= i < |t.text| ==> t.text[i] == l.text[i + 1])
  {
  }

  /** Swap exchanges the two characters around the cursor and steps over them, unless they are the last. */
  lemma SwapByPosition(l: Line, cap: nat)
    requires WellFormedLine(l, cap)
    ensures var t := AppliedLine(l, Swap, cap);
            if l.cursor == 0 || l.cursor == |l.text| then t == l
            else && |t.text| == |l.text|
                 && t.text[l.cursor - 1] == l.text[l.cursor] && t.text[l.cursor] == l.text[l.cursor - 1]
                 && (forall i :: 0 <= i < |l.text| && i != l.cursor - 1 && i != l.cursor ==> t.text[i] == l.text[i])
                 && t.cursor == if l.cursor == |l.text| - 1 then l.cursor else l.cursor + 1
  {
  }

  /** Deleting forward is a step to the right and an erasure. */
  lemma DeleteIsRightAndErase(e: Editor, cap: nat)
    requires WellFormed(e, cap) && cap > 0 && e.line.cursor < |e.line.text|
    ensures Applied(e, Delete, cap) == Applied(Applied(e, Right, cap), Backspace, cap)
  {
  }

  /** Killing to the end is going there and erasing back to the cursor. */
  lemma KillToEndIsErasing(e: Editor, cap: nat)
    requires WellFormed(e, cap) && cap > 0
    ensures Applied(e, KillToEnd, cap) == AppliedAll(Applied(e, End, cap), Erasures(|e.line.text| - e.line.cursor), cap)
  {
    ErasingRemoves(Applied(e, End, cap), |e.line.text| - e.line.cursor, cap);
    hide AppliedAll;
  }

  /** Killing the line is erasing all of it. */
  lemma KillLineIsErasing(e: Editor, cap: nat)
    requires WellFormed(e, cap) && cap > 0
    ensures Applied(e, KillLine, cap) == AppliedAll(Applied(e, End, cap), Erasures(|e.line.text|), cap)
  {
    ErasingRemoves(Applied(e, End, cap), |e.line.text|, cap);
    hide AppliedAll;
  }

  /** Deleting the word is erasing back to its start. */
  lemma DeleteWordIsErasing(e: Editor, cap: nat, start: nat)
    requires WellFormed(e, cap) && cap > 0 && IsWordStart(e.line.text, start, e.line.cursor)
    ensures start <= e.line.cursor && Applied(e, DeleteWord, cap) == AppliedAll(e, Erasures(e.line.cursor - start), cap)
  {
    WordStartIsWordStart(e.line.text, e.line.cursor);
    WordStartIsUnique(e.line.text, start, WordStart(e.line.text, e.line.cursor), e.line.cursor);
    ErasingRemoves(e, e.line.cursor - start, cap);
    hide AppliedAll, IsWordStart, WordStart;
  }

  /** Older shows the entry before the one the line stands for, Newer the one after it; the line is kept in its own entry. */
  lemma RecallShowsTheNeighbour(e: Editor, dir: Direction, cap: nat)
    requires WellFormed(e, cap) && cap > 0 && |e.history| > 1
    requires if dir.Older? then e.index < |e.history| - 1 else e.index > 0
    ensures var r, at := Recalled(e, dir, cap), |e.history| - 1 - e.index;
            var shown := e.history[if dir.Older? then at - 1 else at + 1];
            && |r.history| - 1 - r.index == (if dir.Older? then at - 1 else at + 1)
            && r.history == e.history[at := Terminated(e.line.text)]
            && r.line.text <= shown && r.line.cursor == |r.line.text| == if |shown| < cap then |shown| else cap - 1
  {
  }

  /** Exchanging characters loses none. */
  lemma SwapPermutes(l: Line)
    requires l.cursor <= |l.text|
    ensures multiset(Swapped(l).text) == multiset(l.text)
  {
  }

  /**
   Going to an older entry and back gives the line up to its first terminator, cut to `cap - 1`
   characters, with the cursor at the end. So the text is restored exactly when it holds no
   terminator and is shorter than the buffer.
   */
  lemma OlderThenNewer(e: Editor, cap: nat)
    requires WellFormed(e, cap) && cap > 0
    requires |e.history| > 1 && e.index < |e.history| - 1
    ensures var back := Recalled(Recalled(e, Older, cap), Newer, cap);
            && back.index == e.index
            && back.line == Shown(Terminated(e.line.text), cap)
            && (back.line.text == e.line.text <==> '\0' !in e.line.text && |e.line.text| < cap)
  {
  }

  /** A gap made at `at` and filled with `c`. */
  lemma ShiftedText(was: seq<char>, now: seq<char>, at: nat, n: nat, c: char)
    requires at <= n < |was| == |now|
    requires forall i :: 0 <= i < at ==> now[i] == was[i]
    requires now[at] == c
    requires forall i :: at < i <= n ==> now[i] == was[i - 1]
    ensures now[..n + 1] == was[..at] + [c] + was[at..n]
  {
  }

  /** `k` characters taken out at `at`. */
  lemma ClosedText(was: seq<char>, now: seq<char>, at: nat, k: nat, n: nat)
    requires at + k <= n <= |was| == |now|
    requires forall i :: 0 <= i < at ==> now[i] == was[i]
    requires forall i :: at <= i < n - k ==> now[i] == was[i + k]
    ensures now[..n - k] == was[..at] + was[at + k..n]
  {
  }

  /** The first `n` characters of a buffer, with `c` put in at `at`. */
  method OpenGap(buf: array<char>, at: nat, n: nat, c: char)
    requires at <= n < buf.Length
    modifies buf
    ensures buf[..n + 1] == old(buf[..at]) + [c] + old(buf[at..n])
  {
    ghost var was := buf[..];
    Memmove(buf, at + 1, at, n - at);
    buf[at] := c;
    ShiftedText(was, buf[..], at, n, c);
    assert buf[..n + 1] == buf[..][..n + 1];
    assert was[..at] == old(buf[..at]) && was[at..n] == old(buf[at..n]);
  }

  /** The first `n` characters of a buffer, with `k` of them taken out at `at`. */
  method CloseUp(buf: array<char>, at: nat, k: nat, n: nat)
    requires at + k <= n <= buf.Length
    modifies buf
    ensures buf[..n - k] == old(buf[..at]) + old(buf[at + k..n])
  {
    ghost var was := buf[..];
    Memmove(buf, at, at + k, n - at - k);
    ClosedText(was, buf[..], at, k, n);
    assert buf[..n - k] == buf[..][..n - k];
    assert was[..at] == old(buf[..at]) && was[at + k..n] == old(buf[at + k..n]);
  }

  class Buffer {
    const buf: array<char>
    const buflen: nat
    const history: History.Store
    var pos: nat
    var len: nat
    var historyIndex: nat

    /** `buflen` counts the usable characters: one more is kept for the terminator. */
    ghost predicate ValidLine()
      reads `pos, `len, buf
    {
      buf.Length == buflen + 1 && buflen > 0 && pos <= len <= buflen && buf[len] == '\0'
    }

    ghost function LineView(): (l: Line)
      requires ValidLine()
      reads `pos, `len, buf
      ensures WellFormedLine(l, buflen)
    {
      Line(buf[..len], pos)
    }

    ghost predicate Valid()
      reads this, buf, history, history.lines
    {
      ValidLine() && history.Valid() && historyIndex < history.len
    }

    ghost function View(): (e: Editor)
      requires Valid()
      reads this, buf, history, history.lines
      ensures WellFormed(e, buflen)
    {
      Editor(LineView(), history.Entries(), historyIndex)
    }

    /** The start of `linenoiseEdit`: an empty line, entered as the newest entry. */
    constructor (buf: array<char>, history: History.Store)
      requires buf.Length > 1 && history.Valid() && history.max > 0
      modifies buf, history`len, history.lines
      ensures Valid() && this.buf == buf && buflen == buf.Length - 1 && this.history == history
      ensures View() == Editor(Line("", 0), History.Added(old(history.Entries()), "", history.max), 0)
    {
      this.buf, buflen, this.history := buf, buf.Length - 1, history;
      pos, len, historyIndex := 0, 0, 0;
      new;
      buf[0] := '\0';
      var _ := history.Add("");
    }

    method Insert(c: char)
      requires ValidLine()
      modifies `pos, `len, buf
      ensures ValidLine() && LineView() == Inserted(old(LineView()), c, buflen)
    {
      if len < buflen {
        if len == pos {
          ghost var text := buf[..len];
          buf[pos] := c;
          pos, len := pos + 1, len + 1;
          buf[len] := '\0';
          assert buf[..len] == text + [c];
        } else {
          InsertInside(c);
        }
      }
    }

    /** The insertion before existing text, which moves one place to the right. */
    method InsertInside(c: char)
      requires ValidLine() && pos < len < buflen
      modifies `pos, `len, buf
      ensures ValidLine()
      ensures LineView() == Line(old(buf[..pos]) + [c] + old(buf[pos..len]), old(pos) + 1)
    {
      OpenGap(buf, pos, len, c);
      len, pos := len + 1, pos + 1;
      buf[len] := '\0';
    }

    method MoveLeft()
      requires ValidLine()
      modifies `pos
      ensures ValidLine() && LineView() == AppliedLine(old(LineView()), Left, buflen)
    {
      if pos > 0 {
        pos := pos - 1;
      }
    }

    method MoveRight()
      requires ValidLine()
      modifies `pos
      ensures ValidLine() && LineView() == AppliedLine(old(LineView()), Right, buflen)
    {
      if pos != len {
        pos := pos + 1;
      }
    }

    method MoveHome()
      requires ValidLine()
      modifies `pos
      ensures ValidLine() && LineView() == AppliedLine(old(LineView()), Home, buflen)
    {
      if pos != 0 {
        pos := 0;
      }
    }

    method MoveEnd()
      requires ValidLine()
      modifies `pos
      ensures ValidLine() && LineView() == AppliedLine(old(LineView()), End, buflen)
    {
      if pos != len {
        pos := len;
      }
    }

    method DeleteRight()
      requires ValidLine()
      modifies `len, buf
      ensures ValidLine() && LineView() == Deleted(old(LineView()))
    {
      if len > 0 && pos < len {
        ghost var text := buf[..len];
        CloseUp(buf, pos, 1, len);
        len := len - 1;
        buf[len] := '\0';
        assert buf[..len] == text[..pos] + text[pos + 1..];
      }
    }

    method DeleteLeft()
      requires ValidLine()
      modifies `pos, `len, buf
      ensures ValidLine() && LineView() == Backspaced(old(LineView()))
    {
      if pos > 0 && len > 0 {
        ghost var text := buf[..len];
        CloseUp(buf, pos - 1, 1, len);
        pos, len := pos - 1, len - 1;
        buf[len] := '\0';
        assert buf[..len] == text[..pos] + text[pos + 1..];
      }
    }

    method DeletePrevWord()
      requires ValidLine()
      modifies `pos, `len, buf
      ensures ValidLine() && LineView() == WordDeleted(old(LineView()))
    {
      var oldPos := pos;
      ghost var text := buf[..len];
      while pos > 0 && buf[pos - 1] == ' '
        invariant pos <= oldPos && BlankStart(text, oldPos) == BlankStart(text, pos)
        decreases pos
        modifies `pos
      {
        assert text[pos - 1] == ' ';
        pos := pos - 1;
      }
      ghost var mid := pos;
      assert mid == BlankStart(text, oldPos);
      while pos > 0 && buf[pos - 1] != ' '
        invariant pos <= mid && NonBlankStart(text, mid) == NonBlankStart(text, pos)
        decreases pos
        modifies `pos
      {
        assert text[pos - 1] != ' ';
        pos := pos - 1;
      }
      assert pos == WordStart(text, oldPos);
      assert buf[..len] == text;
      CloseGap(oldPos);
      assert LineView() == Line(text[..pos] + text[oldPos..], pos);
    }

    /** Moves the text from `oldPos` on, terminator included, back to the cursor. */
    method CloseGap(oldPos: nat)
      requires ValidLine() && pos <= oldPos <= len
      modifies `len, buf
      ensures ValidLine()
      ensures LineView() == Line(old(buf[..len])[..pos] + old(buf[..len])[oldPos..], pos)
    {
      var diff := oldPos - pos;
      ghost var text := buf[..len];
      CloseUp(buf, pos, diff, len + 1);
      len := len - diff;
      assert buf[..len + 1] == text[..pos] + (text[oldPos..] + ['\0']);
      assert buf[..len] == buf[..len + 1][..len] && buf[len] == buf[..len + 1][len];
    }

    method SwapWithPrev()
      requires ValidLine()
      modifies `pos, buf
      ensures ValidLine() && LineView() == Swapped(old(LineView()))
    {
      if pos > 0 && pos < len {
        var aux := buf[pos - 1];
        buf[pos - 1] := buf[pos];
        buf[pos] := aux;
        if pos != len - 1 {
          pos := pos + 1;
        }
      }
    }

    method DeleteLine()
      requires ValidLine()
      modifies `pos, `len, buf
      ensures ValidLine() && LineView() == AppliedLine(old(LineView()), KillLine, buflen)
    {
      buf[0] := '\0';
      pos, len := 0, 0;
    }

    method DeleteToEnd()
      requires ValidLine()
      modifies `len, buf
      ensures ValidLine() && LineView() == AppliedLine(old(LineView()), KillToEnd, buflen)
    {
      buf[pos] := '\0';
      len := pos;
    }

    /** Replaces the line with a history entry; the last usable character is always cut off. */
    method Show(entry: CString)
      requires ValidLine()
      modifies `pos, `len, buf
      ensures ValidLine() && LineView() == Shown(entry, buflen)
    {
      Strncpy(buf, entry, buflen);
      buf[buflen - 1] := '\0';
      ghost var shown := Shown(entry, buflen).text;
      assert buf[|shown|] == '\0' && forall i :: 0 <= i < |shown| ==> buf[i] == entry[i];
      assert buf[..][buflen - 1] == '\0';
      len := Strlen(buf);
      pos := len;
      assert len == |shown| && buf[..len] == shown;
    }

    /** Writes the current line into the history entry it stands for. */
    method SaveLine()
      requires Valid()
      modifies history.lines
      ensures Valid() && LineView() == old(LineView())
      ensures history.Entries() ==
              old(history.Entries())[history.len - 1 - historyIndex := Terminated(LineView().text)]
    {
      TerminatedAt(buf[..], len);
      assert buf[..][..len] == buf[..len];
      history.lines[history.len - 1 - historyIndex] := Terminated(buf[..]);
    }

    method HistoryNext(dir: Direction)
      requires Valid()
      modifies `pos, `len, `historyIndex, buf, history.lines
      ensures Valid() && View() == Applied(old(View()), Recall(dir), buflen)
    {
      hide Terminated, AppliedLine;
      var n := history.len;
      if n > 1 {
        SaveLine();
        if dir == Newer && historyIndex == 0 {
          return;
        } else if dir == Older && historyIndex + 1 >= n {
          historyIndex := n - 1;
          return;
        }
        historyIndex := if dir == Older then historyIndex + 1 else historyIndex - 1;
        var entry := history.lines[n - 1 - historyIndex];
        Show(entry);
      }
    }

    /** The key switch of the edit loop. */
    method Press(key: Key)
      requires Valid()
      modifies `pos, `len, `historyIndex, buf, history.lines
      ensures Valid() && View() == Applied(old(View()), key, buflen)
    {
      match key
      case Char(c) => Insert(c);
      case Left => MoveLeft();
      case Right => MoveRight();
      case Home => MoveHome();
      case End => MoveEnd();
      case Delete => DeleteRight();
      case Backspace => DeleteLeft();
      case DeleteWord => DeletePrevWord();
      case Swap => SwapWithPrev();
      case KillLine => DeleteLine();
      case KillToEnd => DeleteToEnd();
      case Recall(dir) => HistoryNext(dir);
    }

    /** Every run of keys refines the simple model. */
    method PressAll(keys: seq<Key>)
      requires Valid()
      modifies `pos, `len, `historyIndex, buf, history.lines
      ensures Valid() && View() == AppliedAll(old(View()), keys, buflen)
    {
      for i := 0 to |keys|
        invariant Valid() && View() == AppliedAll(old(View()), keys[..i], buflen)
      {
        assert keys[..i + 1][..i] == keys[..i];
        Press(keys[i]);
      }
      assert keys[..|keys|] == keys;
    }
  }
}
