/** The differential renderer. */
module Renderer {
  // What one call of doRender writes, and how its private counters move.
  import opened Arithmetic
  import opened Screen
  import opened Wrappers

  const CURSOR_MARKER := "\U{1b}_pi:c\U{7}"
  const SEGMENT_RESET := "\U{1b}[0m\U{1b}]8;;\U{7}"

  /** A composed line before it is finished; a Marked line holds the cursor marker at column `col`. */
  datatype RawLine =
    | Plain(text: string, width: nat)
    | Marked(before: string, after: string, col: nat, width: nat)

  datatype Position = Position(row: nat, col: nat)

  /** One request to draw: composed lines, terminal size, and whether an overlay is on the stack. */
  datatype Frame = Frame(lines: seq<RawLine>, size: Size, overlays: bool)

  datatype Size = Size(width: nat, height: nat) {
    predicate Valid() { width > 0 && height > 0 }
  }

  /** The fields of TUI that doRender reads and writes. */
  datatype State = State(
    previousLines: seq<Line>,
    previousWidth: int,
    previousHeight: int,
    hardwareCursorRow: int,
    previousViewportTop: nat,
    maxLinesRendered: nat,
    clearOnShrink: bool,
    fullRedraws: nat,
    stopped: bool)

  datatype Outcome = Outcome(state: State, ops: seq<Op>)

  const FRESH_STATE := State([], 0, 0, 0, 0, 0, false, 0, false)

  // ---- preparing a frame ----

  /** The lowest marked row in rows [top, row). */
  function FindMarker(lines: seq<RawLine>, top: nat, row: nat): (r: Option<Position>)
    requires top <= row <= |lines|
    ensures r.Some? ==>
      && top <= r.value.row < row
      && lines[r.value.row].Marked? && lines[r.value.row].col == r.value.col
      && forall k :: r.value.row < k < row ==> lines[k].Plain?
    ensures r.None? ==> forall k :: top <= k < row ==> lines[k].Plain?
  {
    if row == top then None
    else if lines[row - 1].Marked? then Some(Position(row - 1, lines[row - 1].col))
    else FindMarker(lines, top, row - 1)
  }

  function CursorOf(f: Frame): Option<Position> {
    FindMarker(f.lines, Max(0, |f.lines| - f.size.height), |f.lines|)
  }

  /** Finished text of a line: the marker is stripped only from the row that holds the cursor. */
  function FinishLine(l: RawLine, strip: bool): Line {
    match l
    case Plain(text, width) => Line(text + SEGMENT_RESET, width)
    case Marked(before, after, _, width) =>
      Line(before + (if strip then "" else CURSOR_MARKER) + after + SEGMENT_RESET, width)
  }

  function Finish(f: Frame): (lines: seq<Line>)
    ensures |lines| == |f.lines|
    ensures forall i :: 0 <= i < |lines| ==> lines[i].text != ""
  {
    var cursor := CursorOf(f);
    seq(|f.lines|, i requires 0 <= i < |f.lines| =>
      FinishLine(f.lines[i], cursor.Some? && cursor.value.row == i))
  }

  // ---- the pieces of the output buffer ----

  function Vertical(delta: int): seq<Op> {
    if delta > 0 then [CursorDown(delta)] else if delta < 0 then [CursorUp(-delta)] else []
  }

  function PrintOps(lines: seq<Line>): seq<Op> {
    if lines == [] then []
    else
      var n := |lines| - 1;
      PrintOps(lines[..n]) + (if n > 0 then [Newline] else []) + [Text(lines[n])]
  }

  function NewlineOps(count: nat): seq<Op> {
    if count == 0 then [] else NewlineOps(count - 1) + [Newline]
  }

  /** Repaints rows [from, to) of a frame, starting on row `from`. */
  function RepaintOps(lines: seq<Line>, from: nat, to: nat): seq<Op>
    requires from <= to <= |lines|
  {
    if from == to then []
    else RepaintOps(lines, from, to - 1) + (if to - 1 > from then [Newline] else []) + [EraseLine, Text(lines[to - 1])]
  }

  /** Clears `count` rows below the cursor row. */
  function EraseBelowOps(count: nat): seq<Op> {
    if count == 0 then [] else EraseBelowOps(count - 1) + [Newline] + [EraseLine]
  }

  /** Clears `done` of `count` rows starting with the cursor row, without scrolling. */
  function EraseRowsOps(done: nat, count: nat): seq<Op>
    requires done <= count
  {
    if done == 0 then []
    else EraseRowsOps(done - 1, count) + [CarriageReturn, EraseLine] + (if done < count then [CursorDown(1)] else [])
  }

  // ---- the diff ----

  const MISSING := Line("", 0)

  function LineAt(lines: seq<Line>, i: nat): Line { if i < |lines| then lines[i] else MISSING }

  function FirstChange(prev: seq<Line>, next: seq<Line>, i: nat): (r: int)
    ensures -1 <= r < Max(|prev|, |next|)
    ensures r == -1 ==> forall k :: i <= k < Max(|prev|, |next|) ==> LineAt(prev, k) == LineAt(next, k)
    ensures r >= 0 ==> i <= r && LineAt(prev, r) != LineAt(next, r)
    ensures r >= 0 ==> forall k :: i <= k < r ==> LineAt(prev, k) == LineAt(next, k)
    decreases Max(|prev|, |next|) - i
  {
    if i >= Max(|prev|, |next|) then -1
    else if LineAt(prev, i) != LineAt(next, i) then i
    else FirstChange(prev, next, i + 1)
  }

  function LastChange(prev: seq<Line>, next: seq<Line>, end: nat): (r: int)
    requires end <= Max(|prev|, |next|)
    ensures -1 <= r < end
    ensures r >= 0 ==> LineAt(prev, r) != LineAt(next, r)
    ensures forall k :: r < k < end ==> LineAt(prev, k) == LineAt(next, k)
  {
    if end == 0 then -1
    else if LineAt(prev, end - 1) != LineAt(next, end - 1) then end - 1
    else LastChange(prev, next, end - 1)
  }

  datatype Range = Range(first: int, last: int)

  function ChangedRange(prev: seq<Line>, next: seq<Line>): Range {
    var first := FirstChange(prev, next, 0);
    var last := LastChange(prev, next, Max(|prev|, |next|));
    if |next| > |prev| then Range(if first == -1 then |prev| else first, |next| - 1) else Range(first, last)
  }

  predicate Overwide(lines: seq<Line>, from: nat, to: nat, width: nat)
    requires to <= |lines|
  {
    exists i :: from <= i < to && lines[i].width > width
  }

  // ---- the five ways a frame is drawn ----

  function PositionCursor(s: State, cursor: Option<Position>, total: nat): Outcome {
    if cursor.None? || total == 0 then Outcome(s, [])
    else
      var target := Max(0, Min(cursor.value.row, total - 1));
      Outcome(s.(hardwareCursorRow := target),
              Vertical(target - s.hardwareCursorRow) + [CursorColumn(cursor.value.col + 1)])
  }

  function FullRender(s: State, lines: seq<Line>, size: Size, clear: bool): Outcome {
    Outcome(
      s.(previousLines := lines,
         previousWidth := size.width,
         previousHeight := size.height,
         hardwareCursorRow := Max(0, |lines| - 1),
         maxLinesRendered := if clear then |lines| else Max(s.maxLinesRendered, |lines|),
         previousViewportTop := Max(0, Max(size.height, |lines|) - size.height),
         fullRedraws := s.fullRedraws + 1),
      (if clear then [ClearAll] else []) + PrintOps(lines))
  }

  function ShrinkOps(delta: int, offset: nat, extra: nat): seq<Op>
    requires extra > 0
  {
    Vertical(delta) + [CarriageReturn] + Vertical(offset) + EraseRowsOps(extra, extra) + Vertical(-(extra - 1 + offset))
  }

  /** Every change is a deleted line at the end. */
  function Shrink(s: State, lines: seq<Line>, size: Size): Outcome
    requires |lines| < |s.previousLines|
  {
    var target := Max(0, |lines| - 1);
    var extra := |s.previousLines| - |lines|;
    if target < s.previousViewportTop || extra > size.height then FullRender(s, lines, size, true)
    else
      var offset := if lines == [] then 0 else 1;
      Outcome(
        s.(previousLines := lines, previousWidth := size.width, previousHeight := size.height, hardwareCursorRow := target),
        ShrinkOps(target - s.hardwareCursorRow, offset, extra))
  }

  /** What stop() writes: leave the cursor on the line after the content. */
  function Stop(s: State): Outcome {
    Outcome(s.(stopped := true),
            if s.previousLines == [] then []
            else Vertical(|s.previousLines| - s.hardwareCursorRow) + [Newline])
  }

  /** The first row to move to: the row above when lines are only appended. */
  function MoveTarget(s: State, lines: seq<Line>, first: int): int {
    if |lines| > |s.previousLines| && first == |s.previousLines| && first > 0 then first - 1 else first
  }

  /** How many rows the scroll-ahead branch scrolls before anything is painted. */
  function ScrollAhead(s: State, lines: seq<Line>, size: Size, first: int): nat {
    Max(0, MoveTarget(s, lines, first) - (s.previousViewportTop + size.height - 1))
  }

  function ScrollAheadOps(s: State, size: Size, scroll: nat): seq<Op> {
    if scroll == 0 then []
    else
      var current := Max(0, Min(size.height - 1, s.hardwareCursorRow - s.previousViewportTop));
      var down := size.height - 1 - current;
      (if down > 0 then [CursorDown(down)] else []) + NewlineOps(scroll)
  }

  /** Move to the first changed row; appended lines start below the last old one. */
  function StartOps(delta: int, append: bool): seq<Op> {
    Vertical(delta) + (if append then [Newline] else [CarriageReturn])
  }

  /** Clear the rows of deleted lines and come back to the last line. */
  function ClearDeletedOps(below: nat, extra: nat): seq<Op> {
    if extra == 0 then [] else Vertical(below) + EraseBelowOps(extra) + [CursorUp(extra)]
  }

  function PaintOps(lines: seq<Line>, delta: int, append: bool, first: nat, end: nat, below: nat, extra: nat): seq<Op>
    requires first <= end <= |lines|
  {
    StartOps(delta, append) + RepaintOps(lines, first, end) + ClearDeletedOps(below, extra)
  }

  function AfterPaint(s: State, lines: seq<Line>, size: Size, scroll: nat, finalRow: int): State {
    s.(previousLines := lines,
       previousWidth := size.width,
       previousHeight := size.height,
       hardwareCursorRow := finalRow,
       maxLinesRendered := Max(s.maxLinesRendered, |lines|),
       previousViewportTop := Max(s.previousViewportTop + scroll, finalRow - size.height + 1))
  }

  /** The cheap path: repaint only the rows from the first to the last change. */
  function Differential(s: State, lines: seq<Line>, size: Size, range: Range): Outcome
    requires 0 <= range.first < |lines| && range.first <= range.last
  {
    var target := MoveTarget(s, lines, range.first);
    var scroll := ScrollAhead(s, lines, size, range.first);
    var cursor := if scroll > 0 then target else s.hardwareCursorRow;
    var renderEnd := Min(range.last, |lines| - 1);
    if Overwide(lines, range.first, renderEnd + 1, size.width) then Stop(s)
    else
      var extra := Max(0, |s.previousLines| - |lines|);
      var finalRow := if extra > 0 then Max(renderEnd, |lines| - 1) else renderEnd;
      Outcome(
        AfterPaint(s, lines, size, scroll, finalRow),
        ScrollAheadOps(s, size, scroll) +
        PaintOps(lines, target - cursor, target < range.first, range.first, renderEnd + 1,
                 Max(0, |lines| - 1 - renderEnd), extra))
  }

  lemma {:induction false} DifferentialValue(s: State, lines: seq<Line>, size: Size, first: nat, last: nat,
      target: int, scroll: nat, cursor: int, renderEnd: int, below: nat, extra: nat, finalRow: int,
      ahead: seq<Op>, paint: seq<Op>)
    requires first < |lines| && first <= last && renderEnd == Min(last, |lines| - 1)
    requires target == MoveTarget(s, lines, first) && scroll == ScrollAhead(s, lines, size, first)
    requires cursor == if scroll > 0 then target else s.hardwareCursorRow
    requires below == Max(0, |lines| - 1 - renderEnd) && extra == Max(0, |s.previousLines| - |lines|)
    requires finalRow == if extra > 0 then Max(renderEnd, |lines| - 1) else renderEnd
    requires ahead == ScrollAheadOps(s, size, scroll)
    requires paint == PaintOps(lines, target - cursor, target < first, first, renderEnd + 1, below, extra)
    requires !Overwide(lines, first, renderEnd + 1, size.width)
    ensures Differential(s, lines, size, Range(first, last)) ==
      Outcome(AfterPaint(s, lines, size, scroll, finalRow), ahead + paint)
  {
    hide PaintOps, ScrollAheadOps, AfterPaint, MoveTarget, ScrollAhead, Overwide;
    var o := Differential(s, lines, size, Range(first, last));
    assert o.ops == ahead + paint;
    assert o.state == AfterPaint(s, lines, size, scroll, finalRow);
  }

  predicate SizeChanged(s: State, size: Size) {
    || (s.previousWidth != 0 && s.previousWidth != size.width)
    || (s.previousHeight != 0 && s.previousHeight != size.height)
  }

  /** Whether the frame is drawn from a clean screen, as far as the caller can tell before drawing it. */
  predicate RedrawsFully(s: State, lines: seq<Line>, size: Size, overlays: bool) {
    var first := ChangedRange(s.previousLines, lines).first;
    || s.previousLines == [] || SizeChanged(s, size)
    || (s.clearOnShrink && |lines| < s.maxLinesRendered && !overlays)
    || (first != -1 && Min(first, Max(0, |lines| - 1)) < s.previousViewportTop)
  }

  function DrawChanges(s: State, lines: seq<Line>, size: Size): Outcome {
    var range := ChangedRange(s.previousLines, lines);
    if range.first == -1 then Outcome(s.(previousHeight := size.height), [])
    else if range.first >= |lines| then Shrink(s, lines, size)
    else if range.first < s.previousViewportTop then FullRender(s, lines, size, true)
    else Differential(s, lines, size, range)
  }

  /** Everything a frame writes before the cursor is put on its marker. */
  function Draw(s: State, lines: seq<Line>, size: Size, overlays: bool): Outcome {
    if s.previousLines == [] && !SizeChanged(s, size) then FullRender(s, lines, size, false)
    else if SizeChanged(s, size) then FullRender(s, lines, size, true)
    else if s.clearOnShrink && |lines| < s.maxLinesRendered && !overlays then FullRender(s, lines, size, true)
    else DrawChanges(s, lines, size)
  }

  function DoRender(s: State, f: Frame): Outcome {
    if s.stopped then Outcome(s, [])
    else
      var drawn := Draw(s, Finish(f), f.size, f.overlays);
      if drawn.state.stopped then drawn
      else
        var positioned := PositionCursor(drawn.state, CursorOf(f), |f.lines|);
        Outcome(positioned.state, drawn.ops + positioned.ops)
  }

  /** requestRender(force): the next frame takes the full redraw path. */
  function Force(s: State): State {
    s.(previousLines := [], previousWidth := -1, previousHeight := -1,
       hardwareCursorRow := 0, maxLinesRendered := 0, previousViewportTop := 0)
  }

  /** start(), followed by requestRender(true) in callers that force. */
  function Restart(s: State, forced: bool): State {
    (if forced then Force(s) else s).(stopped := false)
  }
}
