/** What every terminal run keeps, and that a run does not depend on how its bytes arrive. */
module VtTheorems {
  import opened Bytes
  import opened VtParser
  import opened VtScreen

  // ---------- every action

  /** A good screen of the same size. */
  predicate Kept(s: Screen, t: Screen) {
    Valid(t) && t.rows == s.rows && t.cols == s.cols
  }

  lemma LinesKeepValid(s: Screen, lines: seq<Row>)
    requires Valid(s) && |lines| == s.rows && Uniform(lines, s.cols)
    ensures Kept(s, s.(lines := lines))
  {
  }

  lemma MoveKeepsValid(s: Screen, row: int, col: int)
    requires Valid(s) && OnScreen(s, row, col)
    ensures Kept(s, MoveTo(s, row, col))
  {
  }

  lemma ScrollKeepsValid(s: Screen, count: nat)
    requires Valid(s)
    ensures Kept(s, ScrollUp(s, count)) && Kept(s, ScrollDown(s, count))
  {
    LinesKeepValid(s, ShiftUp(s.lines, s.top, s.bottom, count, s.cols));
    LinesKeepValid(s, ShiftDown(s.lines, s.top, s.bottom, count, s.cols));
    assert Uniform(ScrolledOff(s.lines, s.top, s.bottom, count, s.cols), s.cols);
  }

  lemma InsertKeepsValid(s: Screen, count: nat)
    requires Valid(s)
    ensures Kept(s, InsertLines(s, count)) && Kept(s, DeleteLines(s, count))
  {
    if InRegion(s) {
      LinesKeepValid(s, ShiftDown(s.lines, s.row, s.bottom, count, s.cols));
      LinesKeepValid(s, ShiftUp(s.lines, s.row, s.bottom, count, s.cols));
    }
  }

  lemma FeedLineKeepsValid(s: Screen)
    requires Valid(s)
    ensures Kept(s, FeedLine(s)) && Kept(s, FeedLineBack(s))
  {
    ScrollKeepsValid(s, 1);
  }

  lemma CombineKeepsValid(s: Screen, glyph: Cell)
    requires Valid(s)
    ensures Kept(s, Combine(s, glyph))
  {
    LinesKeepValid(s, Combine(s, glyph).lines);
  }

  lemma WriteKeepsValid(s: Screen, glyph: Cell, width: CellWidth)
    requires Valid(s) && width > 0
    ensures Kept(s, WriteGlyph(s, glyph, width))
  {
    LinesKeepValid(s, WriteGlyph(s, glyph, width).lines);
  }

  lemma PutKeepsValid(s: Screen, glyph: Cell, width: CellWidth)
    requires Valid(s)
    ensures Kept(s, Put(s, glyph, width))
  {
    if width == 0 {
      CombineKeepsValid(s, glyph);
    } else {
      FeedLineKeepsValid(s.(col := 0));
      WriteKeepsValid(Wrapped(s, width), glyph, width);
    }
  }

  lemma EraseKeepsValid(s: Screen, row: int, start: int, end: int)
    requires Valid(s) && 0 <= row < s.rows
    ensures Kept(s, Erase(s, row, start, end))
  {
  }

  lemma BlankLinesKeepsValid(s: Screen, from: int, to: int)
    requires Valid(s) && 0 <= from <= to <= s.rows
    ensures Kept(s, BlankLines(s, from, to))
  {
  }

  lemma EraseDisplayKeepsValid(s: Screen, mode: nat)
    requires Valid(s)
    ensures Kept(s, EraseDisplay(s, mode)) && Kept(s, EraseInLine(s, mode))
  {
    EraseKeepsValid(s, s.row, CursorCol(s), s.cols);
    BlankLinesKeepsValid(Erase(s, s.row, CursorCol(s), s.cols), s.row + 1, s.rows);
    BlankLinesKeepsValid(s, 0, s.row);
    EraseKeepsValid(BlankLines(s, 0, s.row), s.row, 0, s.col + 1);
  }

  lemma MoveCursorKeepsValid(s: Screen, params: seq<Byte>, final: char)
    requires Valid(s)
    ensures Kept(s, MoveCursor(s, params, final))
  {
    var t := MoveCursor(s, params, final);
    MoveKeepsValid(s, t.row, t.col);
  }

  lemma ControlKeepsValid(s: Screen, params: seq<Byte>, final: char)
    requires Valid(s)
    ensures Kept(s, Control(s, params, final))
  {
    var n := Arg(params, 0, 1);
    if MovesCursor(final) {
      MoveCursorKeepsValid(s, params, final);
    } else if final == 'J' || final == 'K' {
      EraseDisplayKeepsValid(s, Mode(params));
    } else if final == 'S' || final == 'T' {
      ScrollKeepsValid(s, n);
    } else if final == 'L' || final == 'M' {
      InsertKeepsValid(s, n);
    } else if final == 'X' {
      EraseKeepsValid(s, s.row, s.col, s.col + n);
    }
  }

  /** Cursor, saved cursor and region stay on a screen whose size never changes. */
  lemma ApplyKeepsValid(s: Screen, a: Action, width: Cell -> CellWidth)
    requires Valid(s)
    ensures Kept(s, Apply(s, a, width))
  {
    match a
    case Csi(params, final) => ControlKeepsValid(s, params, final as char);
    case Glyph(bytes) => PutKeepsValid(s, bytes, width(bytes));
    case NextLine => FeedLineKeepsValid(s.(col := 0));
    case _ => FeedLineKeepsValid(s);
  }

  // ---------- whole runs

  function ApplyAll(s: Screen, tokens: seq<Token>, width: Cell -> CellWidth): (t: Screen)
    requires Valid(s)
    ensures Kept(s, t)
    decreases |tokens|
  {
    if tokens == [] then s
    else
      ApplyKeepsValid(s, ActionOf(tokens[0]), width);
      ApplyAll(Apply(s, ActionOf(tokens[0]), width), tokens[1..], width)
  }

  lemma {:induction false} ApplyInTwo(s: Screen, a: seq<Token>, b: seq<Token>, width: Cell -> CellWidth)
    requires Valid(s)
    ensures ApplyAll(s, a + b, width) == ApplyAll(ApplyAll(s, a, width), b, width)
    decreases |a|
  {
    if a == [] {
      assert a + b == b;
    } else {
      assert (a + b)[1..] == a[1..] + b;
      ApplyKeepsValid(s, ActionOf(a[0]), width);
      ApplyInTwo(Apply(s, ActionOf(a[0]), width), a[1..], b, width);
    }
  }

  /** Applying each step as soon as it is cut. */
  function Run(s: Screen, b: seq<Byte>, width: Cell -> CellWidth): (r: (Screen, seq<Byte>))
    requires Valid(s)
    decreases |b|
  {
    if b == [] || NextCut(b).Wait? then (s, b)
    else
      var action := ActionOf(b[..NextCut(b).length]);
      ApplyKeepsValid(s, action, width);
      Run(Apply(s, action, width), b[NextCut(b).length..], width)
  }

  lemma {:induction false} RunIsParse(s: Screen, b: seq<Byte>, width: Cell -> CellWidth)
    requires Valid(s)
    ensures Run(s, b, width) == (ApplyAll(s, Parse(b).tokens, width), Parse(b).rest)
    decreases |b|
  {
    if b != [] && NextCut(b).Cut? {
      var c := NextCut(b);
      ParseStep(b);
      var action := ActionOf(b[..c.length]);
      ApplyKeepsValid(s, action, width);
      RunIsParse(Apply(s, action, width), b[c.length..], width);
      assert Parse(b).tokens[1..] == Parse(b[c.length..]).tokens;
    }
  }

  /** A safe stream shows the same screen, and leaves the same bytes held back, however it
      arrives. */
  lemma AnyChunkingShowsTheSame(s: Screen, stream: seq<Byte>, chunks: seq<seq<Byte>>, width: Cell -> CellWidth)
    requires Valid(s) && SplitSafe(stream) && Joined(chunks) == stream
    ensures ApplyAll(s, ParseChunks([], chunks).tokens, width) == ApplyAll(s, Parse(stream).tokens, width)
    ensures ParseChunks([], chunks).rest == Parse(stream).rest
  {
    ChunkingIff(stream);
  }

  /** An arrival that pauses before the last byte of a charset designator makes that byte a
      glyph. */
  lemma DesignatorSplitShows(a: seq<Byte>, b: seq<Byte>)
    requires |a| == 2 && a[0] == ESC && OpensDesignator(a[1]) && |b| == 1 && 0x20 <= b[0] < 0x7F
    ensures Parse(a + b).tokens == [a + b] && ActionOf(a + b) == Ignored
    ensures ParseChunks([], [a, b]).tokens == [a, b] && ActionOf(b) == Glyph(b)
  {
    assert NextCut(a + b) == Cut(3, 3) && NextCut(a) == Cut(2, 2) && NextCut(b) == Cut(1, 1);
    OneToken(a + b);
    OneToken(a);
    OneToken(b);
    assert [] + b == b && [a] + [b] == [a, b];
    TwoChunks(a, b);
  }

  lemma OneToken(b: seq<Byte>)
    requires b != [] && NextCut(b).Cut? && NextCut(b).length == |b|
    ensures Parse(b) == Parsed([b], [])
  {
    ParseStep(b);
    assert b[..|b|] == b && b[|b|..] == [];
  }

  // ---------- scroll regions

  predicate EditsLines(final: char) { final == 'L' || final == 'M' }

  predicate Scrolls(a: Action) {
    a.Index? || a.ReverseIndex? || a.NextLine? || a.LineFeed?
    || (a.Csi? && !Private(a.params) && (a.final as char == 'S' || a.final as char == 'T' || EditsLines(a.final as char)))
  }

  /** How far a scroll moves the lines up; negative if it moves them down. */
  function Distance(s: Screen, a: Action): int
    requires Scrolls(a)
  {
    if a.ReverseIndex? then (if s.row == s.top then -1 else 0)
    else if !a.Csi? then (if s.row == s.bottom then 1 else 0)
    else
      var n: int := Arg(a.params, 0, 1);
      match a.final as char
      case 'S' => n
      case 'T' => -n
      case 'L' => if InRegion(s) then -n else 0
      case _ => if InRegion(s) then n else 0
  }

  /** The first line a scroll may move: insertion and deletion start at the cursor. */
  function FirstMoved(s: Screen, a: Action): int
    requires Scrolls(a)
  {
    if a.Csi? && EditsLines(a.final as char) && InRegion(s) then s.row else s.top
  }

  lemma FeedMoves(s: Screen)
    requires Valid(s)
    ensures Moved(s.lines, FeedLine(s).lines, s.top, s.bottom, if s.row == s.bottom then 1 else 0, s.cols)
    ensures Moved(s.lines, FeedLineBack(s).lines, s.top, s.bottom, if s.row == s.top then -1 else 0, s.cols)
  {
  }

  lemma ControlMoves(s: Screen, a: Action)
    requires Valid(s) && Scrolls(a) && a.Csi?
    ensures Moved(s.lines, Control(s, a.params, a.final as char).lines, FirstMoved(s, a), s.bottom, Distance(s, a), s.cols)
  {
  }

  /** Every scroll moves the lines of its region by one distance and changes no other. */
  lemma ScrollMovesRegion(s: Screen, a: Action, width: Cell -> CellWidth)
    requires Valid(s) && Scrolls(a)
    ensures s.top <= FirstMoved(s, a)
    ensures Moved(s.lines, Apply(s, a, width).lines, FirstMoved(s, a), s.bottom, Distance(s, a), s.cols)
  {
    if a.Csi? {
      ControlMoves(s, a);
    } else if a.NextLine? {
      FeedMoves(s.(col := 0));
    } else {
      FeedMoves(s);
    }
  }

  // ---------- scrollback

  predicate ClearsHistory(a: Action) {
    a.Csi? && a.final as char == 'J' && !Private(a.params) && Mode(a.params) == 3
  }

  lemma ControlHistory(s: Screen, params: seq<Byte>, final: char)
    requires Valid(s)
    ensures var t := Control(s, params, final);
            if final == 'J' && !Private(params) && Mode(params) == 3 then t.scrollback == []
            else t.scrollback == s.scrollback
                 || (s.top == 0 && t.scrollback == s.scrollback + ScrolledOff(s.lines, 0, s.bottom, Arg(params, 0, 1), s.cols))
  {
  }

  lemma PutHistory(s: Screen, glyph: Cell, width: CellWidth)
    requires Valid(s)
    ensures var t := Put(s, glyph, width);
            t.scrollback == s.scrollback || (s.top == 0 && t.scrollback == s.scrollback + ScrolledOff(s.lines, 0, s.bottom, 1, s.cols))
  {
    if width > 0 {
      var w := Wrapped(s, width);
      assert WriteGlyph(w, glyph, width).scrollback == w.scrollback;
    }
  }

  /** The scrollback only grows at its end, by lines that leave a region at the top of the
      screen; erase mode 3 alone empties it. */
  lemma HistoryGrows(s: Screen, a: Action, width: Cell -> CellWidth)
    requires Valid(s)
    ensures ClearsHistory(a) ==> Apply(s, a, width).scrollback == []
    ensures !ClearsHistory(a) ==> s.scrollback <= Apply(s, a, width).scrollback
    ensures !ClearsHistory(a) && s.top > 0 ==> Apply(s, a, width).scrollback == s.scrollback
  {
    if a.Glyph? {
      PutHistory(s, a.bytes, width(a.bytes));
    } else if a.Csi? {
      ControlHistory(s, a.params, a.final as char);
    }
  }

  lemma {:induction false} HistoryGrowsOverRuns(s: Screen, tokens: seq<Token>, width: Cell -> CellWidth)
    requires Valid(s) && forall t :: t in tokens ==> !ClearsHistory(ActionOf(t))
    ensures s.scrollback <= ApplyAll(s, tokens, width).scrollback
    decreases |tokens|
  {
    if tokens != [] {
      HistoryGrows(s, ActionOf(tokens[0]), width);
      ApplyKeepsValid(s, ActionOf(tokens[0]), width);
      HistoryGrowsOverRuns(Apply(s, ActionOf(tokens[0]), width), tokens[1..], width);
    }
  }

  /** With the whole screen as region, scrolling up loses nothing: history and screen read
      on as before, followed by the new blank lines. */
  lemma ScrollLosesNothing(s: Screen, count: nat)
    requires Valid(s) && s.top == 0 && s.bottom == s.rows - 1
    ensures var t := ScrollUp(s, count);
            t.scrollback + t.lines == s.scrollback + s.lines + BlankRows(s.cols, count)
  {
    var k := Min(count, s.rows);
    var kept, off := s.lines[k..], s.lines[..k];
    BlankRowsAdd(s.cols, count - k, k);
    WholeShift(s, count, k);
    assert s.lines == off + kept;
    Regroup(s.scrollback, off, kept, BlankRows(s.cols, count - k), BlankRows(s.cols, k));
  }

  lemma Regroup(history: seq<Row>, off: seq<Row>, kept: seq<Row>, x: seq<Row>, y: seq<Row>)
    requires kept == [] || x == []
    ensures (history + (off + x)) + (kept + y) == (history + (off + kept)) + (x + y)
  {
  }

  lemma WholeShift(s: Screen, count: nat, k: nat)
    requires Valid(s) && s.top == 0 && s.bottom == s.rows - 1 && k == Min(count, s.rows)
    ensures ShiftUp(s.lines, 0, s.bottom, count, s.cols) == s.lines[k..] + BlankRows(s.cols, k)
    ensures ScrolledOff(s.lines, 0, s.bottom, count, s.cols) == s.lines[..k] + BlankRows(s.cols, count - k)
  {
  }

  lemma BlankRowsAdd(cols: nat, a: nat, b: nat)
    ensures BlankRows(cols, a) + BlankRows(cols, b) == BlankRows(cols, a + b)
  {
  }

  // ---------- text

  /** A line with `cells` written from `at` on. */
  function Written(line: Row, at: int, cells: seq<Cell>): Row
    requires 0 <= at && at + |cells| <= |line|
  {
    line[..at] + cells + line[at + |cells|..]
  }

  lemma WrittenStep(line: Row, at: int, cells: seq<Cell>)
    requires 0 <= at && at + |cells| <= |line| && cells != []
    ensures Written(line, at, cells) == Written(line[at := cells[0]], at + 1, cells[1..])
  {
  }

  lemma PutNarrow(s: Screen, cell: Cell)
    requires Valid(s) && !s.pendingWrap
    ensures var t := Put(s, cell, 1);
            Kept(s, t) && t.row == s.row && t.lines == s.lines[s.row := s.lines[s.row][s.col := cell]]
            && (s.col + 1 < s.cols ==> t.col == s.col + 1 && !t.pendingWrap)
  {
    PutKeepsValid(s, cell, 1);
  }

  /** Narrow text that fits on the line stands there cell by cell, everything else as before. */
  lemma {:induction false} TextAppears(s: Screen, cells: seq<Cell>, width: Cell -> CellWidth)
    requires Valid(s) && !s.pendingWrap && s.col + |cells| <= s.cols
    requires forall i :: 0 <= i < |cells| ==> ActionOf(cells[i]) == Glyph(cells[i]) && width(cells[i]) == 1
    ensures ApplyAll(s, cells, width).lines == s.lines[s.row := Written(s.lines[s.row], s.col, cells)]
    decreases |cells|
  {
    var line := s.lines[s.row];
    if cells == [] {
      assert Written(line, s.col, cells) == line;
    } else {
      var t, rest := Put(s, cells[0], 1), cells[1..];
      PutNarrow(s, cells[0]);
      WrittenStep(line, s.col, cells);
      assert ApplyAll(s, cells, width) == ApplyAll(t, rest, width);
      if rest == [] {
        assert Written(line, s.col, cells) == line[s.col := cells[0]];
      } else {
        TextAppears(t, rest, width);
      }
    }
  }
}
