/** What each terminal action does to the screen, in closed form. */
module VtScreen {
  import opened Bytes
  import opened VtParser

  /** A cell holds a glyph with its combining marks; the second half of a wide glyph is empty. */
  type Cell = seq<Byte>
  type Row = seq<Cell>
  type CellWidth = w: int | 0 <= w <= 2

  const BLANK: Cell := [0x20]

  datatype Screen = Screen(
    rows: nat, cols: nat,
    lines: seq<Row>, scrollback: seq<Row>,
    row: int, col: int, top: int, bottom: int,
    pendingWrap: bool, saved: (int, int))

  predicate OnScreen(s: Screen, row: int, col: int) {
    0 <= row < s.rows && 0 <= col < s.cols
  }

  predicate Uniform(lines: seq<Row>, cols: nat) {
    forall i :: 0 <= i < |lines| ==> |lines[i]| == cols
  }

  /** Every line has the screen's width; cursor and saved cursor are on the screen; the
      scroll region lies in it. */
  predicate Valid(s: Screen) {
    |s.lines| == s.rows
    && Uniform(s.lines, s.cols) && Uniform(s.scrollback, s.cols)
    && OnScreen(s, s.row, s.col) && OnScreen(s, s.saved.0, s.saved.1)
    && 0 <= s.top <= s.bottom < s.rows
  }

  function BlankRow(cols: nat): (r: Row)
    ensures |r| == cols && forall j :: 0 <= j < cols ==> r[j] == BLANK
  {
    seq(cols, _ => BLANK)
  }

  function BlankRows(cols: nat, count: nat): (r: seq<Row>)
    ensures |r| == count && forall i :: 0 <= i < count ==> r[i] == BlankRow(cols)
  {
    seq(count, _ => BlankRow(cols))
  }

  function Blank(rows: nat, cols: nat): Screen
    requires rows > 0 && cols > 0
  {
    Screen(rows, cols, BlankRows(cols, rows), [], 0, 0, 0, rows - 1, false, (0, 0))
  }

  // ---------- scrolling

  /** Line `i` once lines `from` to `to` have moved up by `k`, or down by `-k`: blank in the gap. */
  function MovedLine(lines: seq<Row>, from: int, to: int, k: int, cols: nat, i: int): Row
    requires 0 <= from <= to < |lines| && 0 <= i < |lines|
  {
    if i < from || to < i then lines[i]
    else if from <= i + k <= to then lines[i + k]
    else BlankRow(cols)
  }

  predicate Moved(lines: seq<Row>, result: seq<Row>, from: int, to: int, k: int, cols: nat) {
    0 <= from <= to < |lines| == |result|
    && forall i :: 0 <= i < |result| ==> result[i] == MovedLine(lines, from, to, k, cols, i)
  }

  function ShiftUp(lines: seq<Row>, from: int, to: int, count: nat, cols: nat): (r: seq<Row>)
    requires 0 <= from <= to < |lines|
    ensures Moved(lines, r, from, to, count, cols)
    ensures Uniform(lines, cols) ==> Uniform(r, cols)
  {
    var k := Min(count, to - from + 1);
    lines[..from] + lines[from + k..to + 1] + BlankRows(cols, k) + lines[to + 1..]
  }

  function ShiftDown(lines: seq<Row>, from: int, to: int, count: nat, cols: nat): (r: seq<Row>)
    requires 0 <= from <= to < |lines|
    ensures Moved(lines, r, from, to, -(count as int), cols)
    ensures Uniform(lines, cols) ==> Uniform(r, cols)
  {
    var k := Min(count, to - from + 1);
    lines[..from] + BlankRows(cols, k) + lines[from..to + 1 - k] + lines[to + 1..]
  }

  /** One line taken out, one blank line put in. */
  function Cycle(lines: seq<Row>, out: nat, back: nat, cols: nat): (r: seq<Row>)
    requires out < |lines| && back < |lines|
    ensures out <= back ==> Moved(lines, r, out, back, 1, cols)
    ensures back <= out ==> Moved(lines, r, back, out, -1, cols)
  {
    var rest := lines[..out] + lines[out + 1..];
    rest[..back] + [BlankRow(cols)] + rest[back..]
  }

  lemma MovedTwice(a: seq<Row>, b: seq<Row>, c: seq<Row>, from: int, to: int, k: int, step: int, cols: nat)
    requires Moved(a, b, from, to, k, cols) && Moved(b, c, from, to, step, cols)
    requires (step == 1 && k >= 0) || (step == -1 && k <= 0)
    ensures Moved(a, c, from, to, k + step, cols)
  {
    forall i | 0 <= i < |c| ensures c[i] == MovedLine(a, from, to, k + step, cols, i) {
      if from <= i <= to && from <= i + step <= to {
        assert c[i] == b[i + step];
      }
    }
  }

  lemma MovedOnce(a: seq<Row>, b: seq<Row>, c: seq<Row>, from: int, to: int, k: int, cols: nat)
    requires Moved(a, b, from, to, k, cols) && Moved(a, c, from, to, k, cols)
    ensures b == c
  {
  }

  predicate MovedDown(lines: seq<Row>, result: seq<Row>, from: int, to: int, count: nat, cols: nat) {
    Moved(lines, result, from, to, -(count as int), cols)
  }

  lemma IsShiftUp(a: seq<Row>, b: seq<Row>, from: int, to: int, count: nat, cols: nat)
    requires Moved(a, b, from, to, count, cols)
    ensures b == ShiftUp(a, from, to, count, cols)
  {
    MovedOnce(a, b, ShiftUp(a, from, to, count, cols), from, to, count, cols);
  }

  lemma IsShiftDown(a: seq<Row>, b: seq<Row>, from: int, to: int, count: nat, cols: nat)
    requires MovedDown(a, b, from, to, count, cols)
    ensures b == ShiftDown(a, from, to, count, cols)
  {
    MovedOnce(a, b, ShiftDown(a, from, to, count, cols), from, to, -(count as int), cols);
  }

  /** The lines that leave a region when it scrolls up, if it is at the top of the screen. */
  function ScrolledOff(lines: seq<Row>, top: int, bottom: int, count: nat, cols: nat): seq<Row>
    requires 0 <= top <= bottom < |lines|
  {
    if top > 0 then [] else lines[..Min(count, bottom + 1)] + BlankRows(cols, count - Min(count, bottom + 1))
  }

  function ScrollUp(s: Screen, count: nat): Screen
    requires Valid(s)
  {
    s.(lines := ShiftUp(s.lines, s.top, s.bottom, count, s.cols),
       scrollback := s.scrollback + ScrolledOff(s.lines, s.top, s.bottom, count, s.cols))
  }

  function ScrollDown(s: Screen, count: nat): Screen
    requires Valid(s)
  {
    s.(lines := ShiftDown(s.lines, s.top, s.bottom, count, s.cols))
  }

  function FeedLine(s: Screen): Screen
    requires Valid(s)
  {
    if s.row == s.bottom then ScrollUp(s, 1).(pendingWrap := false)
    else s.(row := if s.row < s.rows - 1 then s.row + 1 else s.row, pendingWrap := false)
  }

  function FeedLineBack(s: Screen): Screen
    requires Valid(s)
  {
    if s.row == s.top then ScrollDown(s, 1)
    else s.(row := if s.row > 0 then s.row - 1 else s.row)
  }

  // ---------- glyphs

  function SetLine(s: Screen, row: int, line: Row): Screen
    requires Valid(s) && 0 <= row < s.rows
  {
    s.(lines := s.lines[row := line])
  }

  /** A combining mark joins the cell left of the cursor. */
  function Combine(s: Screen, glyph: Cell): Screen
    requires Valid(s)
  {
    if s.col == 0 then s
    else
      var line := s.lines[s.row];
      SetLine(s, s.row, line[s.col - 1 := line[s.col - 1] + glyph])
  }

  /** Where the next glyph of this width goes: the next line if it does not fit. */
  function Wrapped(s: Screen, width: CellWidth): Screen
    requires Valid(s)
  {
    if s.pendingWrap || s.col + width > s.cols then FeedLine(s.(col := 0)) else s
  }

  function WriteGlyph(s: Screen, glyph: Cell, width: CellWidth): Screen
    requires Valid(s) && width > 0
  {
    var line := s.lines[s.row][s.col := glyph];
    var wide := if width == 2 && s.col + 1 < s.cols then line[s.col + 1 := []] else line;
    var full := s.col + width >= s.cols;
    SetLine(s, s.row, wide).(col := if full then s.cols - 1 else s.col + width,
                             pendingWrap := s.pendingWrap || full)
  }

  function Put(s: Screen, glyph: Cell, width: CellWidth): Screen
    requires Valid(s)
  {
    if width == 0 then Combine(s, glyph) else WriteGlyph(Wrapped(s, width), glyph, width)
  }

  // ---------- erasing

  /** A line with the cells from `start` up to `end` blank. */
  function ErasedLine(line: Row, start: int, end: int): (r: Row)
    ensures |r| == |line|
    ensures forall j :: 0 <= j < |r| ==> r[j] == if start <= j < end then BLANK else line[j]
  {
    seq(|line|, j requires 0 <= j < |line| => if start <= j < end then BLANK else line[j])
  }

  function Erase(s: Screen, row: int, start: int, end: int): Screen
    requires Valid(s) && 0 <= row < s.rows
  {
    SetLine(s, row, ErasedLine(s.lines[row], start, end))
  }

  /** The lines from `from` up to `to` blank. */
  function BlankLines(s: Screen, from: int, to: int): (t: Screen)
    requires Valid(s) && 0 <= from <= to <= s.rows
  {
    s.(lines := s.lines[..from] + BlankRows(s.cols, to - from) + s.lines[to..])
  }

  /** While a wrap is pending the cursor stands after the last cell. */
  function CursorCol(s: Screen): int {
    if s.pendingWrap then s.col + 1 else s.col
  }

  function EraseDisplay(s: Screen, mode: nat): Screen
    requires Valid(s)
  {
    if mode == 0 then BlankLines(Erase(s, s.row, CursorCol(s), s.cols), s.row + 1, s.rows)
    else if mode == 1 then Erase(BlankLines(s, 0, s.row), s.row, 0, s.col + 1)
    else BlankLines(s, 0, s.rows).(scrollback := if mode == 3 then [] else s.scrollback)
  }

  function EraseInLine(s: Screen, mode: nat): Screen
    requires Valid(s)
  {
    if mode == 0 then Erase(s, s.row, CursorCol(s), s.cols)
    else if mode == 1 then Erase(s, s.row, 0, s.col + 1)
    else SetLine(s, s.row, BlankRow(s.cols))
  }

  // ---------- control sequences

  predicate IsDigit(b: Byte) { 0x30 <= b <= 0x39 }

  function Decimal(digits: seq<Byte>): nat
    requires forall i :: 0 <= i < |digits| ==> IsDigit(digits[i])
  {
    if digits == [] then 0
    else
      assert IsDigit(digits[|digits| - 1]);
      10 * Decimal(digits[..|digits| - 1]) + (digits[|digits| - 1] as int - 0x30)
  }

  /** A part that is not a number counts as 0. */
  function Number(part: seq<Byte>): nat {
    if forall i :: 0 <= i < |part| ==> IsDigit(part[i]) then Decimal(part) else 0
  }

  function SeparatorAt(params: seq<Byte>): (k: nat)
    ensures k <= |params|
  {
    if params == [] || params[0] == 0x3B then 0 else 1 + SeparatorAt(params[1..])
  }

  /** The numbers between the semicolons of `params`. */
  function Numbers(params: seq<Byte>): (nums: seq<nat>)
    ensures |nums| > 0
    decreases |params|
  {
    var k := SeparatorAt(params);
    if k == |params| then [Number(params)] else [Number(params[..k])] + Numbers(params[k + 1..])
  }

  function Arg(params: seq<Byte>, index: nat, default: nat): (n: nat)
    ensures default > 0 ==> n > 0
  {
    if params != [] && index < |Numbers(params)| && Numbers(params)[index] != 0 then Numbers(params)[index]
    else default
  }

  function Mode(params: seq<Byte>): nat {
    if params == [] then 0 else Numbers(params)[0]
  }

  /** Private sequences do nothing. */
  predicate Private(params: seq<Byte>) {
    params != [] && (0x3C <= params[0] <= 0x3F || params[0] == 0x21)
  }

  function Low(a: int, b: int): int { if a <= b then a else b }

  function High(a: int, b: int): int { if a >= b then a else b }

  function MoveTo(s: Screen, row: int, col: int): Screen {
    s.(row := row, col := col, pendingWrap := false)
  }

  predicate InRegion(s: Screen) { s.top <= s.row <= s.bottom }

  function SetRegion(s: Screen, top: int, bottom: int): Screen {
    var proper := 0 <= top < bottom < s.rows;
    MoveTo(s, 0, 0).(top := if proper then top else 0, bottom := if proper then bottom else s.rows - 1)
  }

  predicate MovesCursor(final: char) {
    final == 'A' || final == 'B' || final == 'C' || final == 'D'
    || final == 'G' || final == 'd' || final == 'H' || final == 'f'
  }

  function MoveCursor(s: Screen, params: seq<Byte>, final: char): Screen
    requires Valid(s)
  {
    var n := Arg(params, 0, 1);
    if final == 'A' then MoveTo(s, High(if s.row >= s.top then s.top else 0, s.row - n), s.col)
    else if final == 'B' then MoveTo(s, Low(if s.row <= s.bottom then s.bottom else s.rows - 1, s.row + n), s.col)
    else if final == 'C' then MoveTo(s, s.row, Low(s.cols - 1, s.col + n))
    else if final == 'D' then MoveTo(s, s.row, High(0, s.col - n))
    else if final == 'G' then MoveTo(s, s.row, Low(s.cols - 1, n - 1))
    else if final == 'd' then MoveTo(s, Low(s.rows - 1, n - 1), s.col)
    else MoveTo(s, Low(s.rows - 1, n - 1), Low(s.cols - 1, Arg(params, 1, 1) - 1))
  }

  function InsertLines(s: Screen, count: nat): Screen
    requires Valid(s)
  {
    if InRegion(s) then s.(lines := ShiftDown(s.lines, s.row, s.bottom, count, s.cols)) else s
  }

  function DeleteLines(s: Screen, count: nat): Screen
    requires Valid(s)
  {
    if InRegion(s) then s.(lines := ShiftUp(s.lines, s.row, s.bottom, count, s.cols)) else s
  }

  function Control(s: Screen, params: seq<Byte>, final: char): Screen
    requires Valid(s)
  {
    var n := Arg(params, 0, 1);
    if Private(params) then s
    else if MovesCursor(final) then MoveCursor(s, params, final)
    else if final == 'J' then EraseDisplay(s, Mode(params))
    else if final == 'K' then EraseInLine(s, Mode(params))
    else if final == 'X' then Erase(s, s.row, s.col, s.col + n)
    else if final == 'r' then SetRegion(s, n - 1, Arg(params, 1, s.rows) - 1)
    else if final == 'S' then ScrollUp(s, n)
    else if final == 'T' then ScrollDown(s, n)
    else if final == 'L' then InsertLines(s, n)
    else if final == 'M' then DeleteLines(s, n)
    else if final == 's' then s.(saved := (s.row, s.col))
    else if final == 'u' then s.(row := s.saved.0, col := s.saved.1)
    else s
  }

  function Apply(s: Screen, a: Action, width: Cell -> CellWidth): Screen
    requires Valid(s)
  {
    match a
    case Ignored => s
    case Csi(params, final) => Control(s, params, final as char)
    case SaveCursor => s.(saved := (s.row, s.col))
    case RestoreCursor => s.(row := s.saved.0, col := s.saved.1)
    case ReverseIndex => FeedLineBack(s)
    case Index => FeedLine(s)
    case NextLine => FeedLine(s.(col := 0))
    case CarriageReturn => s.(col := 0, pendingWrap := false)
    case LineFeed => FeedLine(s)
    case Backspace => s.(col := High(0, s.col - 1), pendingWrap := false)
    case Tab => s.(col := Low(s.cols - 1, (s.col / 8 + 1) * 8))
    case Glyph(bytes) => Put(s, bytes, width(bytes))
  }
}
