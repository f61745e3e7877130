/** Where the renderer goes wrong. */
module RenderFailures {
  // Markers above the viewport and unforced restarts: the conditions a run must meet are not only sufficient.
  import opened Arithmetic
  import opened Screen
  import opened Renderer
  import opened RenderRefinement
  import opened RenderRuns
  import opened Wrappers

  // ---- an edit that lands on the wrong row ----

  lemma {:induction false} CursorKeepsRows(s: State, t: Terminal, cursor: Option<Position>, total: nat)
    requires t.Ok()
    ensures Exec(t, PositionCursor(s, cursor, total).ops).rows == t.rows
  {
    if cursor.Some? && total > 0 {
      var target := Max(0, Min(cursor.value.row, total - 1));
      var move := Vertical(target - s.hardwareCursorRow);
      ExecConcat(t, move, [CursorColumn(cursor.value.col + 1)]);
      if move != [] { ExecOne(t, move[0]); }
      ExecOne(Exec(t, move), CursorColumn(cursor.value.col + 1));
    }
  }

  function EditLine(l: RawLine): RawLine {
    match l
    case Plain(text, width) => Plain(text + "x", width)
    case Marked(before, after, col, width) => Marked(before + "x", after, col, width)
  }

  /** The frame that edits the first line on screen and nothing else, while an overlay is shown. */
  function EditTopLine(f: Frame, top: nat): Frame
    requires top < |f.lines|
  {
    f.(lines := f.lines[top := EditLine(f.lines[top])], overlays := true)
  }

  lemma {:induction false} FindMarkerUnchanged(a: seq<RawLine>, b: seq<RawLine>, top: nat, row: nat)
    requires top <= row <= |a| && |a| == |b|
    requires forall k :: 0 <= k < |a| ==> a[k].Plain? == b[k].Plain? && (a[k].Marked? ==> a[k].col == b[k].col)
    ensures FindMarker(a, top, row) == FindMarker(b, top, row)
  {
    if row > top { FindMarkerUnchanged(a, b, top, row - 1); }
  }

  lemma {:induction false} EditIsLonger(l: RawLine, strip: bool)
    ensures |FinishLine(EditLine(l), strip).text| == |FinishLine(l, strip).text| + 1
    ensures FinishLine(EditLine(l), strip).width == FinishLine(l, strip).width
  {
  }

  lemma {:induction false} EditChangesOneLine(f: Frame, top: nat)
    requires top < |f.lines|
    ensures var g := EditTopLine(f, top);
      && CursorOf(g) == CursorOf(f)
      && Finish(g)[top] != Finish(f)[top] && Finish(g)[top].width == Finish(f)[top].width
      && (forall k :: 0 <= k < |f.lines| && k != top ==> Finish(g)[k] == Finish(f)[k])
  {
    hide FinishLine;
    var g := EditTopLine(f, top);
    FindMarkerUnchanged(f.lines, g.lines, Max(0, |f.lines| - f.size.height), |f.lines|);
    EditIsLonger(f.lines[top], CursorOf(f).Some? && CursorOf(f).value.row == top);
  }

  lemma {:induction false} OneLineRange(prev: seq<Line>, next: seq<Line>, k: nat)
    requires |prev| == |next| && k < |prev| && prev[k] != next[k]
    requires forall i :: 0 <= i < |prev| && i != k ==> prev[i] == next[i]
    ensures ChangedRange(prev, next) == Range(k, k)
  {
    assert LineAt(prev, k) != LineAt(next, k);
    assert forall i: nat :: i < |prev| && i != k ==> LineAt(prev, i) == LineAt(next, i);
  }

  /** A move that does not end on the first screen row leaves that row as it is. */
  lemma {:induction false} RepaintsTheWrongRow(t: Terminal, delta: int, lines: seq<Line>, k: nat)
    requires t.Ok() && 1 < |t.rows| && t.row + delta > 0 && k < |lines|
    ensures Exec(t, [] + PaintOps(lines, delta, false, k, k + 1, 0, 0)).rows[0] == t.rows[0]
  {
    var move := Vertical(delta);
    var put := [EraseLine, Text(lines[k])];
    assert RepaintOps(lines, k, k + 1) == [] + [] + put == put;
    assert [] + PaintOps(lines, delta, false, k, k + 1, 0, 0) == (move + [CarriageReturn]) + put;
    ExecConcat(t, move + [CarriageReturn], put);
    ExecConcat(t, move, [CarriageReturn]);
    if delta != 0 { ExecOne(t, move[0]); }
    ExecOne(Exec(t, move), CarriageReturn);
    ExecTwo(Exec(Exec(t, move), [CarriageReturn]), EraseLine, Text(lines[k]));
  }

  /** The renderer shows the frame but believes the cursor to be higher than it is. */
  ghost predicate Desynced(s: State, t: Terminal, size: Size) {
    && OnTerminal(t, size) && !s.stopped && !SizeChanged(s, size)
    && s.hardwareCursorRow - s.previousViewportTop < t.row
    && 0 <= s.hardwareCursorRow && s.previousViewportTop < |s.previousLines|
    && 1 < |t.rows| && t.rows[0] == Shows(s.previousLines[s.previousViewportTop])
  }

  lemma {:induction false} EditOps(s: State, lines: seq<Line>, size: Size)
    requires size.Valid() && !SizeChanged(s, size) && !s.stopped
    requires 0 <= s.hardwareCursorRow && s.previousViewportTop < |s.previousLines|
    requires Fits(lines, size.width) && ChangedRange(s.previousLines, lines) == Range(s.previousViewportTop, s.previousViewportTop)
    requires |lines| == |s.previousLines|
    ensures var o := Draw(s, lines, size, true); var top := s.previousViewportTop;
      && o.ops == [] + PaintOps(lines, top - s.hardwareCursorRow, false, top, top + 1, 0, 0)
      && !o.state.stopped && o.state.previousViewportTop == top
  {
    assert ScrollAheadOps(s, size, 0) == [];
    assert !Overwide(lines, s.previousViewportTop, s.previousViewportTop + 1, size.width);
  }

  lemma {:induction false} EditGoesWrong(s: State, t: Terminal, g: Frame)
    requires Desynced(s, t, g.size) && g.overlays && |g.lines| == |s.previousLines| && Fits(Finish(g), g.size.width)
    requires Finish(g)[s.previousViewportTop] != s.previousLines[s.previousViewportTop]
    requires forall k :: 0 <= k < |g.lines| && k != s.previousViewportTop ==> Finish(g)[k] == s.previousLines[k]
    ensures var o := DoRender(s, g); !Displays(Exec(t, o.ops), o.state.previousViewportTop, Doc(Finish(g)))
  {
    var lines := Finish(g);
    var top := s.previousViewportTop;
    OneLineRange(s.previousLines, lines, top);
    EditOps(s, lines, g.size);
    var drawn := Draw(s, lines, g.size, true);
    RepaintsTheWrongRow(t, top - s.hardwareCursorRow, lines, top);
    CursorKeepsRows(drawn.state, Exec(t, drawn.ops), CursorOf(g), |g.lines|);
    ExecConcat(t, drawn.ops, PositionCursor(drawn.state, CursorOf(g), |g.lines|).ops);
    var o := DoRender(s, g);
    assert Exec(t, o.ops).rows[0] == Shows(s.previousLines[top]) && o.state.previousViewportTop == top;
  }

  // ---- a marker above the viewport ----

  lemma {:induction false} MarkerAboveDesyncs(s: State, t: Terminal, f: Frame)
    requires Ready(s, t, f.size) && Fits(Finish(f), f.size.width) && !MarkerStays(s, f)
    ensures var o := DoRender(s, f); Desynced(o.state, Exec(t, o.ops), f.size) && o.state.previousLines == Finish(f)
  {
    hide Exec, RedrawsFully, Finish, CursorOf, Draw;
    MarkerStaysOnScreen(s, t, f);
    var lines := Finish(f);
    var drawn := Draw(s, lines, f.size, f.overlays);
    DrawShows(s, t, lines, f.size, f.overlays);
    MarkerIsLow(f);
    CursorLands(drawn.state, Exec(t, drawn.ops), CursorOf(f));
    ExecConcat(t, drawn.ops, PositionCursor(drawn.state, CursorOf(f), |lines|).ops);
    assert Exec(t, drawn.ops).rows[0] == RowAt(Doc(lines), drawn.state.previousViewportTop + 0);
  }

  /** Once a marker above the viewport was drawn, editing the first visible line shows a wrong screen. */
  lemma {:induction false} MarkerAboveViewportCorrupts(s: State, t: Terminal, f: Frame) returns (g: Frame)
    requires Ready(s, t, f.size) && Fits(Finish(f), f.size.width) && !MarkerStays(s, f)
    ensures var o := DoRender(s, f); var o' := DoRender(o.state, g);
      && g.size == f.size && Fits(Finish(g), f.size.width)
      && !Displays(Exec(Exec(t, o.ops), o'.ops), o'.state.previousViewportTop, Doc(Finish(g)))
  {
    hide Exec, DoRender, Finish, CursorOf, Doc, MarkerStays, Displays;
    MarkerAboveDesyncs(s, t, f);
    var s2 := DoRender(s, f).state;
    g := EditTopLine(f, s2.previousViewportTop);
    EditChangesOneLine(f, s2.previousViewportTop);
    EditGoesWrong(s2, Exec(t, DoRender(s, f).ops), g);
  }

  const SMALL := Size(1, 2)
  const LONG_FRAME := Frame([Plain("a", 1), Plain("b", 1), Plain("c", 1), Plain("d", 1)], SMALL, false)
  const SHORT_FRAME := Frame([Plain("a", 1), Marked("b", "", 1, 1), Plain("c", 1)], SMALL, true)

  lemma {:induction false} ShortFrame()
    ensures CursorOf(SHORT_FRAME) == Some(Position(1, 1))
    ensures Finish(SHORT_FRAME) == Finish(LONG_FRAME)[..3]
    ensures Fits(Finish(LONG_FRAME), 1)
  {
    assert FindMarker(SHORT_FRAME.lines, 1, 2) == Some(Position(1, 1));
    assert FindMarker(SHORT_FRAME.lines, 1, 3) == Some(Position(1, 1));
    assert CursorOf(LONG_FRAME) == None by {
      assert FindMarker(LONG_FRAME.lines, 2, 2) == None;
      assert FindMarker(LONG_FRAME.lines, 2, 3) == None;
      assert FindMarker(LONG_FRAME.lines, 2, 4) == None;
    }
    assert "b" + "" + "" + SEGMENT_RESET == "b" + SEGMENT_RESET;
  }

  /** A fresh TUI reaches a marker above the viewport in two frames: on two rows, four lines and then three with
      the marker on the second. Nothing is redrawn, and the screen is not the one a full redraw would show. */
  lemma {:induction false} MarkerAboveIsReachable(t: Terminal)
    requires OnTerminal(t, SMALL) && Known(World(FRESH_STATE, t)) && t.row == 0
    ensures var s := DoRender(FRESH_STATE, LONG_FRAME).state; var t' := Exec(t, DoRender(FRESH_STATE, LONG_FRAME).ops);
      && Ready(FRESH_STATE, t, SMALL) && MarkerStays(FRESH_STATE, LONG_FRAME)
      && Ready(s, t', SMALL) && Fits(Finish(SHORT_FRAME), 1)
      && !MarkerStays(s, SHORT_FRAME)
      && s.maxLinesRendered > Max(|SHORT_FRAME.lines|, SMALL.height)
      && !RedrawsFully(s, Finish(SHORT_FRAME), SMALL, true)
  {
    hide Exec, Displays, DoRender, Finish, CursorOf, Doc, Draw, ChangedRange;
    ShortFrame();
    FrameShows(FRESH_STATE, t, LONG_FRAME);
    LongestFrame(FRESH_STATE, t, Finish(LONG_FRAME), SMALL, false);
    MarkerStaysOnScreen(FRESH_STATE, t, LONG_FRAME);
    ChangedRangeMeans(Finish(LONG_FRAME), Finish(SHORT_FRAME));
  }

  // ---- restarts ----

  /** What stop() leaves behind when lines were drawn: the cursor two rows below the last line, or the rows moved up. */
  lemma {:induction false} StopLeaves(s: State, t: Terminal)
    requires Faithful(s, t) && s.previousLines != []
    ensures var t' := Exec(t, Stop(s).ops); var below := |s.previousLines| - s.previousViewportTop + 1;
      if below < |t.rows| then t'.rows == t.rows && t'.row == below
      else t'.rows == Scrolled(t.rows)
  {
    hide Displays;
    var delta := |s.previousLines| - s.hardwareCursorRow;
    ExecConcat(t, Vertical(delta), [Newline]);
    ExecOne(t, CursorDown(delta));
    ExecOne(Exec(t, Vertical(delta)), Newline);
  }

  /** Once its rows have moved up, the screen does not show the lines any more. */
  lemma {:induction false} ScrolledAway(t: Terminal, top: nat, lines: seq<Line>)
    requires t.Ok() && Displays(t, top, Doc(lines)) && top < |lines| <= top + |t.rows|
    ensures Scrolled(t.rows)[|lines| - 1 - top] != RowAt(Doc(lines), |lines| - 1)
  {
  }

  /** A TUI that drew lines and was stopped does not know the screen it finds at its next start, even if nothing
      else has written to it: the restart is right exactly when it forces a redraw, or nothing was drawn. */
  lemma {:induction false} RestartIsRight(w: World, forced: bool)
    requires Known(w) && !w.state.stopped
    ensures var stop := Stop(w.state); var left := Exec(w.terminal, stop.ops).(clamped := false);
      Known(World(Restart(stop.state, forced), left)) <==> forced || w.state.previousLines == []
  {
    hide Exec;
    var stop := Stop(w.state);
    var after := Exec(w.terminal, stop.ops);
    if w.state.previousLines == [] {
      ExecNothing(w.terminal);
    } else {
      StopLeaves(w.state, w.terminal);
      var last := |w.state.previousLines| - 1 - w.state.previousViewportTop;
      if last + 2 >= |after.rows| {
        ScrolledAway(w.terminal, w.state.previousViewportTop, w.state.previousLines);
        assert after.rows[last] != RowAt(Doc(w.state.previousLines), w.state.previousViewportTop + last);
      }
    }
  }

  /** After an unforced restart on a screen nobody else has touched, some next frame is shown wrong: the same frame
      when stopping scrolled it, otherwise one that edits its first visible line. */
  lemma {:induction false} UnforcedRestartCorrupts(s: State, t: Terminal, f: Frame) returns (g: Frame)
    requires Ready(s, t, f.size) && Fits(Finish(f), f.size.width) && MarkerStays(s, f) && f.lines != []
    ensures var o := DoRender(s, f); var stop := Stop(o.state);
      var left := Exec(Exec(t, o.ops), stop.ops).(clamped := false);
      var o' := DoRender(Restart(stop.state, false), g);
      && g.size == f.size && Fits(Finish(g), f.size.width)
      && !Displays(Exec(left, o'.ops), o'.state.previousViewportTop, Doc(Finish(g)))
  {
    hide Exec, DoRender, Finish, CursorOf, MarkerStays;
    var o := DoRender(s, f);
    FrameRefines(s, t, f);
    var t1 := Exec(t, o.ops);
    StopLeaves(o.state, t1);
    var left := Exec(t1, Stop(o.state).ops).(clamped := false);
    var top := o.state.previousViewportTop;
    if |f.lines| - top + 1 < |t.rows| {
      g := EditTopLine(f, top);
      EditChangesOneLine(f, top);
      assert t1.rows[0] == RowAt(Doc(Finish(f)), top + 0);
      EditGoesWrong(Restart(Stop(o.state).state, false), left, g);
    } else {
      g := f.(overlays := true);
      ScrolledAway(t1, top, Finish(f));
      SameFrameChangesNothing(Restart(Stop(o.state).state, false), left, f, top);
    }
  }

  lemma {:induction false} SameFrameChangesNothing(s: State, t: Terminal, f: Frame, top: nat)
    requires OnTerminal(t, f.size) && !s.stopped && !SizeChanged(s, f.size)
    requires s.previousLines == Finish(f) && f.lines != []
    ensures var g := f.(overlays := true); var o := DoRender(s, g);
      && Finish(g) == Finish(f) && o.state.previousViewportTop == s.previousViewportTop
      && Exec(t, o.ops).rows == t.rows
  {
    hide Exec;
    var g := f.(overlays := true);
    ChangedRangeMeans(Finish(f), Finish(g));
    CursorKeepsRows(Draw(s, Finish(g), f.size, true).state, t, CursorOf(g), |g.lines|);
    assert [] + PositionCursor(Draw(s, Finish(g), f.size, true).state, CursorOf(g), |g.lines|).ops ==
      PositionCursor(Draw(s, Finish(g), f.size, true).state, CursorOf(g), |g.lines|).ops;
  }
}
