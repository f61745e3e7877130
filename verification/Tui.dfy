/** The object that draws frames. */
module TuiClass {
  import opened Arithmetic
  import opened Screen
  import opened Renderer
  import opened RenderRefinement
  import opened RenderTexts
  import opened Wrappers

  class TerminalDevice {
    var screen: Terminal

    constructor (screen: Terminal)
      ensures this.screen == screen
    {
      this.screen := screen;
    }

    method Write(buffer: seq<Op>)
      requires screen.Ok()
      modifies this
      ensures screen == Exec(old(screen), buffer)
    {
      var i := 0;
      while i < |buffer|
        invariant 0 <= i <= |buffer|
        invariant screen.Ok() && screen == ExecFirst(old(screen), buffer, i)
      {
        screen := Exec1(screen, buffer[i]);
        i := i + 1;
      }
    }
  }

  /** Scans the bottom `height` lines upwards for the cursor marker and strips it from the line that has it. */
  method ExtractCursorPosition(lines: seq<RawLine>, height: nat) returns (cursor: Option<Position>, strip: seq<bool>)
    ensures cursor == FindMarker(lines, Max(0, |lines| - height), |lines|)
    ensures |strip| == |lines|
    ensures forall i :: 0 <= i < |lines| ==> (strip[i] <==> cursor.Some? && cursor.value.row == i)
  {
    strip := seq(|lines|, i => false);
    var viewportTop := Max(0, |lines| - height);
    var row := |lines| - 1;
    while row >= viewportTop
      invariant viewportTop - 1 <= row < |lines|
      invariant FindMarker(lines, viewportTop, row + 1) == FindMarker(lines, viewportTop, |lines|)
    {
      if lines[row].Marked? {
        return Some(Position(row, lines[row].col)), strip[row := true];
      }
      row := row - 1;
    }
    cursor := None;
  }

  method ApplyLineResets(lines: seq<RawLine>, strip: seq<bool>) returns (finished: seq<Line>)
    requires |strip| == |lines|
    ensures |finished| == |lines|
    ensures forall i :: 0 <= i < |lines| ==> finished[i] == FinishLine(lines[i], strip[i])
    ensures forall i :: 0 <= i < |lines| ==> finished[i].text != ""
  {
    finished := [];
    for i := 0 to |lines|
      invariant |finished| == i
      invariant forall k :: 0 <= k < i ==> finished[k] == FinishLine(lines[k], strip[k])
    {
      finished := finished + [FinishLine(lines[i], strip[i])];
    }
  }

  /** First and last row that differ, a missing line counting as the empty string. */
  method FindChangedRange(prev: seq<Line>, next: seq<Line>) returns (firstChanged: int, lastChanged: int)
    ensures ChangedRange(prev, next) == Range(firstChanged, lastChanged)
  {
    firstChanged, lastChanged := -1, -1;
    var maxLines := Max(|prev|, |next|);
    for i := 0 to maxLines
      invariant firstChanged < i && (firstChanged == -1 <==> lastChanged == -1)
      invariant FirstChange(prev, next, 0) == if firstChanged == -1 then FirstChange(prev, next, i) else firstChanged
      invariant lastChanged == LastChange(prev, next, i)
    {
      if LineAt(prev, i) != LineAt(next, i) {
        if firstChanged == -1 {
          firstChanged := i;
        }
        lastChanged := i;
      }
    }
    if |next| > |prev| {
      if firstChanged == -1 {
        firstChanged := |prev|;
      }
      lastChanged := |next| - 1;
    }
  }

  method FullBuffer(newLines: seq<Line>, clear: bool) returns (buffer: seq<Op>)
    ensures buffer == (if clear then [ClearAll] else []) + PrintOps(newLines)
  {
    buffer := if clear then [ClearAll] else [];
    ghost var start := buffer;
    for i := 0 to |newLines|
      invariant buffer == start + PrintOps(newLines[..i])
    {
      if i > 0 {
        buffer := buffer + [Newline];
      }
      buffer := buffer + [Text(newLines[i])];
      assert newLines[..i + 1][..i] == newLines[..i];
    }
    assert newLines[..|newLines|] == newLines;
  }

  /** Scrolls until the first row to paint is on screen. */
  method ScrollAheadBuffer(s: State, size: Size, scroll: nat) returns (buffer: seq<Op>)
    ensures buffer == ScrollAheadOps(s, size, scroll)
  {
    buffer := [];
    if scroll > 0 {
      var currentScreenRow := Max(0, Min(size.height - 1, s.hardwareCursorRow - s.previousViewportTop));
      var moveToBottom := size.height - 1 - currentScreenRow;
      if moveToBottom > 0 {
        buffer := buffer + [CursorDown(moveToBottom)];
      }
      ghost var start := buffer;
      for i := 0 to scroll
        invariant buffer == start + NewlineOps(i)
      {
        buffer := buffer + [Newline];
      }
    }
  }

  /** Repaints rows [from, to), stopping at the first line that is wider than the terminal. */
  method RepaintBuffer(lines: seq<Line>, from: nat, to: nat, width: nat) returns (buffer: seq<Op>, crashed: bool)
    requires from <= to <= |lines|
    ensures crashed <==> Overwide(lines, from, to, width)
    ensures !crashed ==> buffer == RepaintOps(lines, from, to)
  {
    buffer := [];
    for i := from to to
      invariant buffer == RepaintOps(lines, from, i)
      invariant !Overwide(lines, from, i, width)
    {
      if i > from {
        buffer := buffer + [Newline];
      }
      buffer := buffer + [EraseLine];
      if lines[i].width > width {
        return buffer, true;
      }
      buffer := buffer + [Text(lines[i])];
    }
    crashed := false;
  }

  method ClearDeletedBuffer(below: nat, extra: nat) returns (buffer: seq<Op>)
    ensures buffer == ClearDeletedOps(below, extra)
  {
    buffer := [];
    if extra > 0 {
      if below > 0 {
        buffer := buffer + [CursorDown(below)];
      }
      for i := 0 to extra
        invariant buffer == Vertical(below) + EraseBelowOps(i)
      {
        buffer := buffer + [Newline] + [EraseLine];
      }
      buffer := buffer + [CursorUp(extra)];
    }
  }

  /** The whole buffer of the cheap path once the first row to paint is on screen. */
  method PaintBuffer(lines: seq<Line>, delta: int, append: bool, first: nat, end: nat, below: nat, extra: nat, width: nat)
    returns (buffer: seq<Op>, crashed: bool)
    requires first <= end <= |lines|
    ensures crashed <==> Overwide(lines, first, end, width)
    ensures !crashed ==> buffer == PaintOps(lines, delta, append, first, end, below, extra)
  {
    buffer := Vertical(delta) + (if append then [Newline] else [CarriageReturn]);
    var repaint;
    repaint, crashed := RepaintBuffer(lines, first, end, width);
    if !crashed {
      var clear := ClearDeletedBuffer(below, extra);
      buffer := buffer + repaint + clear;
    }
  }

  /** Everything the cheap path writes, how far it scrolls ahead, and the row the cursor ends on. */
  method ChangesBuffer(s: State, newLines: seq<Line>, size: Size, firstChanged: nat, lastChanged: nat)
    returns (buffer: seq<Op>, scroll: nat, finalCursorRow: int, crashed: bool)
    requires firstChanged < |newLines| && firstChanged <= lastChanged
    ensures var o := Differential(s, newLines, size, Range(firstChanged, lastChanged));
      if crashed then o == Stop(s) else o == Outcome(AfterPaint(s, newLines, size, scroll, finalCursorRow), buffer)
  {
    var viewportBottom := s.previousViewportTop + size.height - 1;
    var appendStart := |newLines| > |s.previousLines| && firstChanged == |s.previousLines| && firstChanged > 0;
    var moveTargetRow := if appendStart then firstChanged - 1 else firstChanged;
    scroll := Max(0, moveTargetRow - viewportBottom);
    var cursorRow := if scroll > 0 then moveTargetRow else s.hardwareCursorRow;
    var renderEnd := Min(lastChanged, |newLines| - 1);
    var below := Max(0, |newLines| - 1 - renderEnd);
    var extraLines := Max(0, |s.previousLines| - |newLines|);
    finalCursorRow := if extraLines > 0 then Max(renderEnd, |newLines| - 1) else renderEnd;
    buffer := ScrollAheadBuffer(s, size, scroll);
    var paint;
    paint, crashed := PaintBuffer(newLines, moveTargetRow - cursorRow, appendStart, firstChanged, renderEnd + 1,
      below, extraLines, size.width);
    if !crashed {
      DifferentialValue(s, newLines, size, firstChanged, lastChanged, moveTargetRow, scroll, cursorRow,
        renderEnd, below, extraLines, finalCursorRow, buffer, paint);
      buffer := buffer + paint;
    }
  }

  /** One frame of a TUI that is not stopped: what is drawn, and the cursor. */
  lemma {:induction false} DrawnFrame(s: State, f: Frame)
    ensures s.stopped ==> DoRender(s, f) == Outcome(s, [])
    ensures !s.stopped ==>
      var drawn := Draw(s, Finish(f), f.size, f.overlays);
      var placed := PositionCursor(drawn.state, CursorOf(f), |f.lines|);
      DoRender(s, f) == if drawn.state.stopped then drawn else Outcome(placed.state, drawn.ops + placed.ops)
  {
  }

  class Tui {
    const terminal: TerminalDevice
    var previousLines: seq<Line>
    var previousWidth: int
    var previousHeight: int
    var hardwareCursorRow: int
    var previousViewportTop: nat
    var maxLinesRendered: nat
    var clearOnShrink: bool
    var fullRedrawCount: nat
    var stopped: bool

    function Snapshot(): State
      reads this
    {
      State(previousLines, previousWidth, previousHeight, hardwareCursorRow, previousViewportTop, maxLinesRendered,
            clearOnShrink, fullRedrawCount, stopped)
    }

    /** The state and the screen after an outcome was applied and the cursor put on its marker. */
    ghost predicate PlacedAfter(drawn: Outcome, before: Terminal, cursor: Option<Position>, total: nat)
      requires before.Ok()
      reads this, terminal
    {
      var placed := PositionCursor(drawn.state, cursor, total);
      Snapshot() == placed.state && terminal.screen == Exec(Exec(before, drawn.ops), placed.ops)
    }

    constructor (terminal: TerminalDevice)
      ensures this.terminal == terminal && Snapshot() == FRESH_STATE
    {
      this.terminal := terminal;
      previousLines, previousWidth, previousHeight := [], 0, 0;
      hardwareCursorRow, previousViewportTop, maxLinesRendered := 0, 0, 0;
      clearOnShrink, fullRedrawCount, stopped := false, 0, false;
    }

    method SetClearOnShrink(enabled: bool)
      modifies this`clearOnShrink
      ensures clearOnShrink == enabled
    {
      clearOnShrink := enabled;
    }

    /** requestRender(true): forget the screen so that the next frame clears it. */
    method RequestForcedRender()
      modifies this
      ensures Snapshot() == Force(old(Snapshot()))
    {
      previousLines := [];
      previousWidth := -1;
      previousHeight := -1;
      hardwareCursorRow := 0;
      maxLinesRendered := 0;
      previousViewportTop := 0;
    }

    method StopRendering()
      requires terminal.screen.Ok()
      modifies this, terminal
      ensures Snapshot() == Stop(old(Snapshot())).state
      ensures terminal.screen == Exec(old(terminal.screen), Stop(old(Snapshot())).ops)
    {
      stopped := true;
      if previousLines != [] {
        var lineDiff := |previousLines| - hardwareCursorRow;
        ExecConcat(terminal.screen, Vertical(lineDiff), [Newline]);
        terminal.Write(Vertical(lineDiff));
        terminal.Write([Newline]);
      }
    }

    /** start(), with the redraw that callers coming back from another program force. */
    method StartRendering(forced: bool)
      modifies this
      ensures Snapshot() == Restart(old(Snapshot()), forced)
    {
      stopped := false;
      if forced {
        RequestForcedRender();
      }
    }

    method PositionHardwareCursor(cursorPos: Option<Position>, totalLines: nat)
      requires terminal.screen.Ok()
      modifies this`hardwareCursorRow, terminal
      ensures Snapshot() == PositionCursor(old(Snapshot()), cursorPos, totalLines).state
      ensures terminal.screen == Exec(old(terminal.screen), PositionCursor(old(Snapshot()), cursorPos, totalLines).ops)
    {
      if cursorPos.None? || totalLines == 0 {
        return;
      }
      var targetRow := Max(0, Min(cursorPos.value.row, totalLines - 1));
      var rowDelta := targetRow - hardwareCursorRow;
      terminal.Write(Vertical(rowDelta) + [CursorColumn(cursorPos.value.col + 1)]);
      hardwareCursorRow := targetRow;
    }

    method RenderFully(newLines: seq<Line>, cursorPos: Option<Position>, size: Size, clear: bool)
      requires terminal.screen.Ok()
      modifies this, terminal
      ensures PlacedAfter(FullRender(old(Snapshot()), newLines, size, clear), old(terminal.screen), cursorPos, |newLines|)
    {
      fullRedrawCount := fullRedrawCount + 1;
      var buffer := FullBuffer(newLines, clear);
      terminal.Write(buffer);
      hardwareCursorRow := Max(0, |newLines| - 1);
      if clear {
        maxLinesRendered := |newLines|;
      } else {
        maxLinesRendered := Max(maxLinesRendered, |newLines|);
      }
      var bufferLength := Max(size.height, |newLines|);
      previousViewportTop := Max(0, bufferLength - size.height);
      previousLines := newLines;
      previousWidth := size.width;
      previousHeight := size.height;
      assert Snapshot() == FullRender(old(Snapshot()), newLines, size, clear).state;
      PositionHardwareCursor(cursorPos, |newLines|);
    }

    /** All changes are deleted lines; false when the frame has to be redrawn in full instead. */
    method ClearDeletedLines(newLines: seq<Line>, size: Size) returns (drawn: bool)
      requires terminal.screen.Ok() && |newLines| < |previousLines|
      modifies this, terminal
      ensures drawn ==>
        && Snapshot() == Shrink(old(Snapshot()), newLines, size).state
        && terminal.screen == Exec(old(terminal.screen), Shrink(old(Snapshot()), newLines, size).ops)
      ensures !drawn ==>
        && Snapshot() == old(Snapshot()) && terminal.screen == old(terminal.screen)
        && Shrink(old(Snapshot()), newLines, size) == FullRender(old(Snapshot()), newLines, size, true)
    {
      hide Exec, ExecFirst, FullRender;
      var targetRow := Max(0, |newLines| - 1);
      if targetRow < previousViewportTop {
        return false;
      }
      var lineDiff := targetRow - hardwareCursorRow;
      var buffer := Vertical(lineDiff) + [CarriageReturn];
      var extraLines := |previousLines| - |newLines|;
      if extraLines > size.height {
        return false;
      }
      var clearStartOffset := if |newLines| == 0 then 0 else 1;
      if clearStartOffset > 0 {
        buffer := buffer + [CursorDown(clearStartOffset)];
      }
      ghost var start := buffer;
      for i := 0 to extraLines
        invariant buffer == start + EraseRowsOps(i, extraLines)
      {
        buffer := buffer + [CarriageReturn, EraseLine];
        if i < extraLines - 1 {
          buffer := buffer + [CursorDown(1)];
        }
        assert start + EraseRowsOps(i + 1, extraLines) == buffer;
      }
      var moveBack := Max(0, extraLines - 1 + clearStartOffset);
      if moveBack > 0 {
        buffer := buffer + [CursorUp(moveBack)];
      }
      assert buffer == Shrink(Snapshot(), newLines, size).ops;
      terminal.Write(buffer);
      hardwareCursorRow := targetRow;
      previousLines := newLines;
      previousWidth := size.width;
      previousHeight := size.height;
      return true;
    }

    /** Repaints from the first to the last changed row. A line wider than the terminal stops the TUI. */
    method RenderChanges(newLines: seq<Line>, size: Size, firstChanged: nat, lastChanged: nat) returns (crashed: bool)
      requires terminal.screen.Ok() && !stopped
      requires firstChanged < |newLines| && firstChanged <= lastChanged
      modifies this, terminal
      ensures var o := Differential(old(Snapshot()), newLines, size, Range(firstChanged, lastChanged));
        crashed == o.state.stopped && Snapshot() == o.state && terminal.screen == Exec(old(terminal.screen), o.ops)
    {
      hide Exec, ExecFirst, ScrollAhead, MoveTarget, PaintOps;
      var buffer, scroll, finalCursorRow;
      buffer, scroll, finalCursorRow, crashed := ChangesBuffer(Snapshot(), newLines, size, firstChanged, lastChanged);
      if crashed {
        StopRendering();
        return;
      }
      terminal.Write(buffer);
      hardwareCursorRow := finalCursorRow;
      maxLinesRendered := Max(maxLinesRendered, |newLines|);
      previousViewportTop := Max(previousViewportTop + scroll, finalCursorRow - size.height + 1);
      previousLines := newLines;
      previousWidth := size.width;
      previousHeight := size.height;
    }

    method RenderLines(newLines: seq<Line>, cursorPos: Option<Position>, size: Size, overlays: bool)
      returns (crashed: bool)
      requires terminal.screen.Ok() && !stopped
      modifies this, terminal
      ensures var drawn := Draw(old(Snapshot()), newLines, size, overlays);
        && crashed == drawn.state.stopped
        && (if crashed then Snapshot() == drawn.state && terminal.screen == Exec(old(terminal.screen), drawn.ops)
            else PlacedAfter(drawn, old(terminal.screen), cursorPos, |newLines|))
    {
      crashed := false;
      var widthChanged := previousWidth != 0 && previousWidth != size.width;
      var heightChanged := previousHeight != 0 && previousHeight != size.height;
      if previousLines == [] && !widthChanged && !heightChanged {
        RenderFully(newLines, cursorPos, size, false);
        return;
      }
      if widthChanged || heightChanged {
        RenderFully(newLines, cursorPos, size, true);
        return;
      }
      if clearOnShrink && |newLines| < maxLinesRendered && !overlays {
        RenderFully(newLines, cursorPos, size, true);
        return;
      }
      crashed := RenderDifference(newLines, cursorPos, size);
    }

    /** The size is the same and something was drawn before: find the changed rows and draw as little as possible. */
    method RenderDifference(newLines: seq<Line>, cursorPos: Option<Position>, size: Size) returns (crashed: bool)
      requires terminal.screen.Ok() && !stopped
      modifies this, terminal
      ensures var drawn := DrawChanges(old(Snapshot()), newLines, size);
        && crashed == drawn.state.stopped
        && (if crashed then Snapshot() == drawn.state && terminal.screen == Exec(old(terminal.screen), drawn.ops)
            else PlacedAfter(drawn, old(terminal.screen), cursorPos, |newLines|))
    {
      crashed := false;
      var firstChanged, lastChanged := FindChangedRange(previousLines, newLines);
      if firstChanged == -1 {
        previousHeight := size.height;
        PositionHardwareCursor(cursorPos, |newLines|);
      } else if firstChanged >= |newLines| {
        var drawn := ClearDeletedLines(newLines, size);
        if drawn {
          PositionHardwareCursor(cursorPos, |newLines|);
        } else {
          RenderFully(newLines, cursorPos, size, true);
        }
      } else if firstChanged < previousViewportTop {
        RenderFully(newLines, cursorPos, size, true);
      } else {
        crashed := RenderChanges(newLines, size, firstChanged, lastChanged);
        if !crashed {
          PositionHardwareCursor(cursorPos, |newLines|);
        }
      }
    }

    /** Draws one frame: full redraw, nothing, deletion, or repainting of the changed rows. */
    method Render(f: Frame) returns (crashed: bool)
      requires terminal.screen.Ok()
      modifies this, terminal
      ensures Snapshot() == DoRender(old(Snapshot()), f).state
      ensures terminal.screen == Exec(old(terminal.screen), DoRender(old(Snapshot()), f).ops)
      ensures crashed <==> !old(stopped) && stopped
      ensures Ready(old(Snapshot()), old(terminal.screen), f.size) && FrameFits(f) ==>
        ShowsFrame(terminal.screen, previousViewportTop, f)
    {
      hide ShowsFrame, FrameFits, Ready, DoRender;
      if Ready(Snapshot(), terminal.screen, f.size) && FrameFits(f) { FrameIsShown(Snapshot(), terminal.screen, f); }
      DrawnFrame(Snapshot(), f);
      if stopped {
        return false;
      }
      var cursorPos, strip := ExtractCursorPosition(f.lines, f.size.height);
      var newLines := ApplyLineResets(f.lines, strip);
      assert newLines == Finish(f);
      ghost var drawn := Draw(Snapshot(), newLines, f.size, f.overlays);
      ExecConcat(terminal.screen, drawn.ops, PositionCursor(drawn.state, cursorPos, |newLines|).ops);
      crashed := RenderLines(newLines, cursorPos, f.size, f.overlays);
    }
  }
}
