/** The emulator as it runs: one byte loop over a held-back buffer, the screen edited in
    place line by line and cell by cell. Each method is tied to its closed form. */
module VtEmulator {
  import opened Bytes
  import opened VtParser
  import opened VtScreen
  import opened VtTheorems

  class VtTerminal {
    const rows: nat
    const cols: nat
    const width: Cell -> CellWidth
    var lines: seq<Row>
    var scrollback: seq<Row>
    var row: int
    var col: int
    var top: int
    var bottom: int
    var pendingWrap: bool
    var saved: (int, int)
    var buf: seq<Byte>

    ghost function View(): Screen
      reads this
    {
      Screen(rows, cols, lines, scrollback, row, col, top, bottom, pendingWrap, saved)
    }

    ghost predicate Ready()
      reads this
    {
      Valid(View())
    }

    constructor (cols: nat, rows: nat, width: Cell -> CellWidth)
      requires rows > 0 && cols > 0
      ensures Ready() && View() == Blank(rows, cols) && buf == [] && this.width == width
    {
      this.rows, this.cols, this.width := rows, cols, width;
      lines, scrollback := BlankRows(cols, rows), [];
      row, col, top, bottom := 0, 0, 0, rows - 1;
      pendingWrap, saved, buf := false, (0, 0), [];
    }

    // ---------- scrolling: one line out, one blank line in

    method DropLines(from: int, to: int, count: nat)
      requires 0 <= from <= to < |lines|
      modifies `lines
      ensures lines == ShiftUp(old(lines), from, to, count, cols)
    {
      ghost var before := lines;
      for i := 0 to count
        invariant Moved(before, lines, from, to, i, cols)
      {
        OneMore(before, lines, from, to, i);
        lines := Cycle(lines, from, to, cols);
      }
      IsShiftUp(before, lines, from, to, count, cols);
    }

    method PushLines(from: int, to: int, count: nat)
      requires 0 <= from <= to < |lines|
      modifies `lines
      ensures lines == ShiftDown(old(lines), from, to, count, cols)
    {
      ghost var before := lines;
      for i := 0 to count
        invariant MovedDown(before, lines, from, to, i, cols)
      {
        OneLess(before, lines, from, to, i);
        lines := Cycle(lines, to, from, cols);
      }
      IsShiftDown(before, lines, from, to, count, cols);
    }

    method Scroll(count: nat)
      requires 0 <= top <= bottom < |lines|
      modifies `lines, `scrollback
      ensures lines == ShiftUp(old(lines), top, bottom, count, cols)
      ensures scrollback == old(scrollback) + ScrolledOff(old(lines), top, bottom, count, cols)
    {
      ghost var before, history := lines, scrollback;
      for i := 0 to count
        invariant Moved(before, lines, top, bottom, i, cols)
        invariant scrollback == history + ScrolledOff(before, top, bottom, i, cols)
      {
        ghost var current := lines;
        if top == 0 {
          OneMoreOff(before, lines, bottom, i, cols);
          scrollback := scrollback + [lines[top]];
        }
        lines := Cycle(lines, top, bottom, cols);
        OneMore(before, current, top, bottom, i);
      }
      IsShiftUp(before, lines, top, bottom, count, cols);
    }

    method ScrollUp(count: nat)
      requires Ready()
      modifies `lines, `scrollback
      ensures View() == VtScreen.ScrollUp(old(View()), count)
    {
      Scroll(count);
    }

    method ScrollDown(count: nat)
      requires Ready()
      modifies `lines
      ensures View() == VtScreen.ScrollDown(old(View()), count)
    {
      PushLines(top, bottom, count);
    }

    method Linefeed()
      requires Ready()
      modifies `lines, `scrollback, `row, `pendingWrap
      ensures View() == FeedLine(old(View()))
    {
      if row == bottom {
        ScrollUp(1);
      } else if row < rows - 1 {
        row := row + 1;
      }
      pendingWrap := false;
    }

    // ---------- cells

    method PutGlyph(glyph: Cell)
      requires Ready()
      modifies `lines, `scrollback, `row, `col, `pendingWrap
      ensures View() == Put(old(View()), glyph, width(glyph))
    {
      ghost var s := View();
      var w := width(glyph);
      if w == 0 {
        if col > 0 {
          lines := lines[row := lines[row][col - 1 := lines[row][col - 1] + glyph]];
        }
        return;
      }
      if pendingWrap || col + w > cols {
        col := 0;
        assert View() == s.(col := 0);
        Linefeed();
        pendingWrap := false;
      }
      FeedLineKeepsValid(s.(col := 0));
      WriteCells(glyph, w);
    }

    /** Writes a glyph that fits at the cursor and moves on. */
    method WriteCells(glyph: Cell, w: CellWidth)
      requires Ready() && w > 0
      modifies `lines, `col, `pendingWrap
      ensures View() == WriteGlyph(old(View()), glyph, w)
    {
      var line := lines[row][col := glyph];
      if w == 2 && col + 1 < cols {
        line := line[col + 1 := []];
      }
      lines := lines[row := line];
      col := col + w;
      if col >= cols {
        col := cols - 1;
        pendingWrap := true;
      }
    }

    method EraseCells(r: int, start: int, end: int)
      requires Ready() && 0 <= r < rows
      modifies `lines
      ensures View() == Erase(old(View()), r, start, end)
    {
      ghost var s := View();
      var line := lines[r];
      for index := High(0, start) to High(High(0, start), Low(cols, end))
        invariant |line| == cols
        invariant forall j :: 0 <= j < cols ==> line[j] == if start <= j < index then BLANK else s.lines[r][j]
      {
        line := line[index := BLANK];
      }
      assert line == ErasedLine(s.lines[r], start, end);
      lines := lines[r := line];
    }

    /** Makes the lines from `from` up to `to` blank. */
    method BlankOut(from: int, to: int)
      requires Ready() && 0 <= from <= to <= rows
      modifies `lines
      ensures View() == BlankLines(old(View()), from, to)
    {
      ghost var before := lines;
      for r := from to to
        invariant lines == before[..from] + BlankRows(cols, r - from) + before[r..]
      {
        lines := lines[r := BlankRow(cols)];
      }
    }

    // ---------- control sequences

    method EraseDisplay(mode: nat)
      requires Ready()
      modifies `lines, `scrollback
      ensures View() == VtScreen.EraseDisplay(old(View()), mode)
    {
      ghost var s := View();
      if mode == 0 {
        EraseKeepsValid(s, row, CursorCol(s), cols);
        EraseCells(row, if pendingWrap then col + 1 else col, cols);
        BlankOut(row + 1, rows);
      } else if mode == 1 {
        BlankLinesKeepsValid(s, 0, row);
        BlankOut(0, row);
        EraseCells(row, 0, col + 1);
      } else {
        BlankOut(0, rows);
        if mode == 3 {
          scrollback := [];
        }
      }
    }

    method EraseInLine(mode: nat)
      requires Ready()
      modifies `lines
      ensures View() == VtScreen.EraseInLine(old(View()), mode)
    {
      if mode == 0 {
        EraseCells(row, if pendingWrap then col + 1 else col, cols);
      } else if mode == 1 {
        EraseCells(row, 0, col + 1);
      } else {
        lines := lines[row := BlankRow(cols)];
      }
    }

    method MoveCursor(params: seq<Byte>, final: char)
      requires Ready() && MovesCursor(final)
      modifies `row, `col, `pendingWrap
      ensures View() == VtScreen.MoveCursor(old(View()), params, final)
    {
      var n := Arg(params, 0, 1);
      pendingWrap := false;
      match final
      case 'A' => row := High(if row >= top then top else 0, row - n);
      case 'B' => row := Low(if row <= bottom then bottom else rows - 1, row + n);
      case 'C' => col := Low(cols - 1, col + n);
      case 'D' => col := High(0, col - n);
      case 'G' => col := Low(cols - 1, n - 1);
      case 'd' => row := Low(rows - 1, n - 1);
      case _ =>
        row := Low(rows - 1, n - 1);
        col := Low(cols - 1, Arg(params, 1, 1) - 1);
    }

    method SetRegion(params: seq<Byte>)
      requires Ready()
      modifies `top, `bottom, `row, `col, `pendingWrap
      ensures View() == VtScreen.SetRegion(old(View()), Arg(params, 0, 1) - 1, Arg(params, 1, rows) - 1)
    {
      var newTop, newBottom := Arg(params, 0, 1) - 1, Arg(params, 1, rows) - 1;
      if 0 <= newTop < newBottom < rows {
        top, bottom := newTop, newBottom;
      } else {
        top, bottom := 0, rows - 1;
      }
      row, col := 0, 0;
      pendingWrap := false;
    }

    method ControlSequence(params: seq<Byte>, final: char)
      requires Ready()
      modifies this
      ensures View() == Control(old(View()), params, final)
      ensures buf == old(buf)
    {
      var rest := params;
      while rest != [] && Private(rest)
        invariant |rest| <= |params|
        invariant if |rest| == |params| then rest == params else Private(params)
        decreases |rest|
      {
        rest := rest[1..];
      }
      if |rest| < |params| {
        return;
      }
      var n := Arg(params, 0, 1);
      if MovesCursor(final) {
        MoveCursor(params, final);
      } else if final == 'J' {
        EraseDisplay(Mode(params));
      } else if final == 'K' {
        EraseInLine(Mode(params));
      } else if final == 'X' {
        EraseCells(row, col, col + n);
      } else if final == 'r' {
        SetRegion(params);
      } else if final == 'S' {
        ScrollUp(n);
      } else if final == 'T' {
        ScrollDown(n);
      } else if final == 'L' {
        if top <= row <= bottom {
          PushLines(row, bottom, n);
        }
      } else if final == 'M' {
        if top <= row <= bottom {
          DropLines(row, bottom, n);
        }
      } else if final == 's' {
        saved := (row, col);
      } else if final == 'u' {
        row, col := saved.0, saved.1;
      }
    }

    // ---------- the byte loop

    method Escape(b: Byte)
      requires Ready()
      modifies this
      ensures View() == Apply(old(View()), EscapeAction(b), width) && buf == old(buf)
    {
      if b == 0x37 {
        saved := (row, col);
      } else if b == 0x38 {
        row, col := saved.0, saved.1;
      } else if b == 0x4D {
        if row == top {
          ScrollDown(1);
        } else if row > 0 {
          row := row - 1;
        }
      } else if b == 0x44 {
        Linefeed();
      } else if b == 0x45 {
        ghost var s := View();
        col := 0;
        assert View() == s.(col := 0);
        Linefeed();
      }
    }

    method ControlCharacter(c: Byte)
      requires Ready() && (c < 0x20 || c == 0x7F)
      modifies this
      ensures View() == Apply(old(View()), ControlAction(c), width) && buf == old(buf)
    {
      if c == 0x0D {
        col := 0;
        pendingWrap := false;
      } else if 0x0A <= c <= 0x0C {
        Linefeed();
      } else if c == 0x08 {
        col := High(0, col - 1);
        pendingWrap := false;
      } else if c == 0x09 {
        col := Low(cols - 1, (col / 8 + 1) * 8);
      }
    }

    /** The scan for the end of a control string that begins at `i`; -1 if it has none yet. */
    method StringScan(b: seq<Byte>, i: nat) returns (end: int)
      requires i + 2 <= |b|
      ensures end == if StringEnd(b[i..], 2) == 0 then -1 else i + StringEnd(b[i..], 2)
    {
      end := -1;
      ghost var t := b[i..];
      var j := i + 2;
      while j < |b|
        invariant i + 2 <= j <= |b|
        invariant end == -1 && StringEnd(t, j - i) == StringEnd(t, 2)
      {
        assert t[j - i] == b[j] && (j + 1 < |b| ==> t[j - i + 1] == b[j + 1]);
        if b[j] == 0x07 {
          end := j + 1;
          break;
        }
        if b[j] == ESC && j + 1 < |b| && b[j + 1] == 0x5C {
          end := j + 2;
          break;
        }
        j := j + 1;
      }
    }

    /** An escape sequence at `i`; `next == i` if it has to wait. */
    method Sequence(b: seq<Byte>, i: nat) returns (next: nat)
      requires Ready() && i + 1 < |b| && b[i] == ESC
      modifies this
      ensures buf == old(buf)
      ensures var cut := NextCut(b[i..]);
              if cut.Wait? then next == i && View() == old(View())
              else next == i + cut.length && View() == Apply(old(View()), ActionOf(b[i..][..cut.length]), width)
    {
      var nxt, n := b[i + 1], |b|;
      ghost var rest := b[i..];
      assert NextCut(rest) == CutSequence(rest) && rest[1] == nxt;
      if nxt == 0x5B {
        var length := CsiLength(b[i..]);
        if length == 0 {
          return if n - i > CSI_LIMIT then i + 2 else i;
        }
        ParametersOfToken(b[i..], length);
        ControlSequence(b[i..][2..AfterParameters(b[i..], 2)], b[i..][length - 1] as char);
        return i + length;
      }
      if OpensString(nxt) {
        var end := StringScan(b, i);
        if end < 0 {
          return if n - i > STRING_LIMIT then i + 2 else i;
        }
        return end;
      }
      if OpensDesignator(nxt) {
        // The third byte is skipped even if it has not arrived.
        return if i + 3 <= n then i + 3 else n;
      }
      Escape(nxt);
      return i + 2;
    }

    /** One turn of the byte loop at `i`; `next == i` if it has to wait. */
    method Step(b: seq<Byte>, i: nat) returns (next: nat)
      requires Ready() && i < |b|
      modifies this
      ensures buf == old(buf)
      ensures var cut := NextCut(b[i..]);
              if cut.Wait? then next == i && View() == old(View())
              else next == i + cut.length && View() == Apply(old(View()), ActionOf(b[i..][..cut.length]), width)
    {
      ghost var rest := b[i..];
      var c, n := b[i], |b|;
      assert rest[0] == c && |rest| == n - i;
      if c == ESC {
        if i + 1 >= n {
          return i;
        }
        next := Sequence(b, i);
        return;
      }
      if c < 0x20 || c == 0x7F {
        ControlCharacter(c);
        return i + 1;
      }
      var length := GlyphLength(c);
      if i + length > n {
        return i;
      }
      assert b[i..i + length] == rest[..length];
      PutGlyph(b[i..i + length]);
      return i + length;
    }

    /** One turn as a step of the run. */
    method Turn(b: seq<Byte>, i: nat) returns (next: nat)
      requires Ready() && i < |b|
      modifies this
      ensures buf == old(buf) && Ready() && i <= next <= |b|
      ensures Run(old(View()), b[i..], width) == if next == i then (View(), b[i..]) else Run(View(), b[next..], width)
    {
      ghost var s, c := View(), NextCut(b[i..]);
      next := Step(b, i);
      assert next == i <==> c.Wait?;
      RunStep(s, b, i, width);
    }

    /** The byte loop; it stops at the first step that has to wait. */
    method Drain(b: seq<Byte>) returns (i: nat)
      requires Ready()
      modifies this
      ensures buf == old(buf) && Ready()
      ensures i <= |b| && Run(old(View()), b, width) == (View(), b[i..])
    {
      ghost var s := View();
      i := 0;
      assert b[0..] == b;
      while i < |b|
        invariant 0 <= i <= |b| && Ready() && buf == old(buf)
        invariant Run(s, b, width) == Run(View(), b[i..], width)
      {
        var next := Turn(b, i);
        if next == i {
          break;
        }
        i := next;
      }
    }

    /** What arrives is cut into steps together with the bytes held back; the steps are
        applied in order and the bytes that only wait are held back again. */
    method Feed(data: seq<Byte>)
      requires Ready()
      modifies this
      ensures Ready()
      ensures View() == ApplyAll(old(View()), Parse(old(buf) + data).tokens, width)
      ensures buf == Parse(old(buf) + data).rest
    {
      RunIsParse(View(), buf + data, width);
      buf := buf + data;
      var i := Drain(buf);
      buf := buf[i..];
    }

    /** Reads fed one by one to a new emulator; on a safe stream it is as if they had come as
        one. */
    method FeedAll(chunks: seq<seq<Byte>>)
      requires Ready() && buf == []
      modifies this
      ensures Ready()
      ensures View() == ApplyAll(old(View()), ParseChunks([], chunks).tokens, width)
      ensures buf == ParseChunks([], chunks).rest
      ensures SplitSafe(Joined(chunks)) ==>
                View() == ApplyAll(old(View()), Parse(Joined(chunks)).tokens, width) && buf == Parse(Joined(chunks)).rest
    {
      ghost var s, whole := View(), ParseChunks([], chunks);
      ghost var done: seq<Token> := [];
      assert chunks[0..] == chunks && done + whole.tokens == whole.tokens;
      for i := 0 to |chunks|
        invariant Ready() && View() == ApplyAll(s, done, width)
        invariant whole.tokens == done + ParseChunks(buf, chunks[i..]).tokens
        invariant whole.rest == ParseChunks(buf, chunks[i..]).rest
      {
        ghost var tokens := Parse(buf + chunks[i]).tokens;
        NextChunk(done, buf, chunks, i);
        ApplyInTwo(s, done, tokens, width);
        Feed(chunks[i]);
        done := done + tokens;
      }
      assert done + [] == done;
      if SplitSafe(Joined(chunks)) {
        AnyChunkingShowsTheSame(s, Joined(chunks), chunks, width);
      }
    }

    lemma OneLess(before: seq<Row>, now: seq<Row>, from: int, to: int, i: nat)
      requires MovedDown(before, now, from, to, i, cols)
      ensures MovedDown(before, Cycle(now, to, from, cols), from, to, i + 1, cols)
    {
      MovedTwice(before, now, Cycle(now, to, from, cols), from, to, -(i as int), -1, cols);
    }

    lemma OneMore(before: seq<Row>, now: seq<Row>, from: int, to: int, i: nat)
      requires Moved(before, now, from, to, i, cols)
      ensures Moved(before, Cycle(now, from, to, cols), from, to, i + 1, cols)
    {
      MovedTwice(before, now, Cycle(now, from, to, cols), from, to, i, 1, cols);
    }
  }

  /** The parameters of a sequence are read off its own bytes. */
  lemma ParametersOfToken(b: seq<Byte>, length: nat)
    requires |b| >= 2 && b[0] == ESC && b[1] == 0x5B && CsiLength(b) == length > 0
    ensures ActionOf(b[..length]) == Csi(b[2..AfterParameters(b, 2)], b[length - 1])
  {
    var t := b[..length];
    assert b == t + b[length..];
    CsiLengthIff(b, length);
    CsiOfPrefix(t, b[length..]);
    var p :| CsiShape(t, p);
    CsiFound(t, length, p);
    assert t[2..AfterParameters(t, 2)] == b[2..AfterParameters(b, 2)];
  }

  lemma RunStep(s: Screen, b: seq<Byte>, i: nat, width: Cell -> CellWidth)
    requires Valid(s) && i < |b|
    ensures var c := NextCut(b[i..]);
            if c.Wait? then Run(s, b[i..], width) == (s, b[i..])
            else
              var t := Apply(s, ActionOf(b[i..][..c.length]), width);
              Valid(t) && Run(s, b[i..], width) == Run(t, b[i + c.length..], width)
  {
    var c := NextCut(b[i..]);
    if c.Cut? {
      ApplyKeepsValid(s, ActionOf(b[i..][..c.length]), width);
      assert b[i..][c.length..] == b[i + c.length..];
    }
  }

  lemma NextChunk(done: seq<Token>, held: seq<Byte>, chunks: seq<seq<Byte>>, i: nat)
    requires i < |chunks|
    ensures var (first, whole) := (Parse(held + chunks[i]), ParseChunks(held, chunks[i..]));
            var more := ParseChunks(first.rest, chunks[i + 1..]);
            done + whole.tokens == (done + first.tokens) + more.tokens && whole.rest == more.rest
  {
    assert chunks[i..][1..] == chunks[i + 1..] && chunks[i..][0] == chunks[i];
  }

  lemma OneMoreOff(before: seq<Row>, lines: seq<Row>, bottom: int, i: nat, cols: nat)
    requires Moved(before, lines, 0, bottom, i, cols)
    ensures ScrolledOff(before, 0, bottom, i + 1, cols) == ScrolledOff(before, 0, bottom, i, cols) + [lines[0]]
  {
    if i <= bottom {
      assert lines[0] == MovedLine(before, 0, bottom, i, cols, 0);
      assert before[..i + 1] == before[..i] + [before[i]];
    } else {
      assert BlankRows(cols, i - bottom) == BlankRows(cols, i - bottom - 1) + [BlankRow(cols)];
    }
  }
}
