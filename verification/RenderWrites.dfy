/** What a frame writes. */
module RenderWrites {
  // Which lines go to the terminal, and whether it is cleared before.
  import opened Arithmetic
  import opened Wrappers
  import opened Screen
  import opened Renderer
  import opened RenderRefinement
  import opened RenderTexts

  /** The lines written by a buffer, in order. */
  function LinesWritten(ops: seq<Op>): seq<Line> {
    if ops == [] then []
    else
      var last := ops[|ops| - 1];
      LinesWritten(ops[..|ops| - 1]) + if last.Text? then [last.line] else []
  }

  predicate Clears(ops: seq<Op>) { exists k :: 0 <= k < |ops| && ops[k].ClearAll? }

  /** A buffer that only moves, erases and scrolls. */
  predicate Quiet(ops: seq<Op>) { LinesWritten(ops) == [] && !Clears(ops) }

  lemma {:induction false} WrittenConcat(a: seq<Op>, b: seq<Op>)
    ensures LinesWritten(a + b) == LinesWritten(a) + LinesWritten(b)
    ensures Clears(a + b) <==> Clears(a) || Clears(b)
  {
    ClearsConcat(a, b);
    if b == [] {
      assert a + b == a;
    } else {
      var n := |b| - 1;
      WrittenConcat(a, b[..n]);
      assert (a + b)[..|a + b| - 1] == a + b[..n];
    }
  }

  lemma {:induction false} ClearsConcat(a: seq<Op>, b: seq<Op>)
    ensures Clears(a + b) <==> Clears(a) || Clears(b)
  {
    assert forall k :: 0 <= k < |a| ==> (a + b)[k] == a[k];
    assert forall k :: 0 <= k < |b| ==> (a + b)[|a| + k] == b[k];
  }

  lemma {:induction false} WrittenOne(op: Op)
    ensures LinesWritten([op]) == if op.Text? then [op.line] else []
    ensures Clears([op]) <==> op.ClearAll?
  {
    assert [op][..0] == [];
    assert [op][0] == op;
  }

  lemma {:induction false} QuietOne(op: Op)
    requires !op.Text? && !op.ClearAll?
    ensures Quiet([op]) && Quiet([])
  {
    WrittenOne(op);
  }

  lemma {:induction false} QuietConcat(a: seq<Op>, b: seq<Op>)
    requires Quiet(a) && Quiet(b)
    ensures Quiet(a + b)
  {
    WrittenConcat(a, b);
  }

  // ---- the pieces of a buffer ----

  lemma {:induction false} VerticalIsQuiet(delta: int)
    ensures Quiet(Vertical(delta))
  {
    hide Quiet;
    QuietOne(if delta > 0 then CursorDown(delta) else CursorUp(if delta < 0 then -delta else 0));
  }

  lemma {:induction false} NewlinesAreQuiet(count: nat)
    ensures Quiet(NewlineOps(count))
  {
    hide Quiet;
    QuietOne(Newline);
    if count > 0 {
      NewlinesAreQuiet(count - 1);
      QuietConcat(NewlineOps(count - 1), [Newline]);
    }
  }

  lemma {:induction false} EraseBelowIsQuiet(count: nat)
    ensures Quiet(EraseBelowOps(count))
  {
    hide Quiet;
    QuietOne(Newline);
    QuietOne(EraseLine);
    if count > 0 {
      EraseBelowIsQuiet(count - 1);
      QuietConcat(EraseBelowOps(count - 1), [Newline]);
      QuietConcat(EraseBelowOps(count - 1) + [Newline], [EraseLine]);
    }
  }

  lemma {:induction false} EraseRowsIsQuiet(done: nat, count: nat)
    requires done <= count
    ensures Quiet(EraseRowsOps(done, count))
  {
    hide Quiet;
    QuietOne(CarriageReturn);
    QuietOne(EraseLine);
    QuietOne(CursorDown(1));
    if done > 0 {
      EraseRowsIsQuiet(done - 1, count);
      QuietConcat([CarriageReturn], [EraseLine]);
      var before, move := EraseRowsOps(done - 1, count), if done < count then [CursorDown(1)] else [];
      QuietConcat(before, [CarriageReturn] + [EraseLine]);
      QuietConcat(before + ([CarriageReturn] + [EraseLine]), move);
      assert [CarriageReturn] + [EraseLine] == [CarriageReturn, EraseLine];
    }
  }

  lemma {:induction false} ShrinkIsQuiet(delta: int, offset: nat, extra: nat)
    requires extra > 0
    ensures Quiet(ShrinkOps(delta, offset, extra))
  {
    hide Quiet, Vertical, EraseRowsOps;
    var a, b, c := Vertical(delta), [CarriageReturn], Vertical(offset);
    var d, e := EraseRowsOps(extra, extra), Vertical(-(extra - 1 + offset));
    VerticalIsQuiet(delta);
    QuietOne(CarriageReturn);
    VerticalIsQuiet(offset);
    EraseRowsIsQuiet(extra, extra);
    VerticalIsQuiet(-(extra - 1 + offset));
    QuietConcat(a, b);
    QuietConcat(a + b, c);
    QuietConcat(a + b + c, d);
    QuietConcat(a + b + c + d, e);
  }

  lemma {:induction false} AheadIsQuiet(s: State, size: Size, scroll: nat)
    ensures Quiet(ScrollAheadOps(s, size, scroll))
  {
    hide Quiet, NewlineOps;
    QuietOne(Newline);
    NewlinesAreQuiet(scroll);
    if scroll > 0 {
      var current := Max(0, Min(size.height - 1, s.hardwareCursorRow - s.previousViewportTop));
      var down := size.height - 1 - current;
      if down > 0 {
        QuietOne(CursorDown(down));
        QuietConcat([CursorDown(down)], NewlineOps(scroll));
      } else {
        assert [] + NewlineOps(scroll) == NewlineOps(scroll);
      }
    }
  }

  lemma {:induction false} PrintWrites(lines: seq<Line>)
    ensures LinesWritten(PrintOps(lines)) == lines && !Clears(PrintOps(lines))
  {
    hide LinesWritten, Clears;
    WrittenNothing();
    if lines != [] {
      var n := |lines| - 1;
      var before, gap := PrintOps(lines[..n]), if n > 0 then [Newline] else [];
      PrintWrites(lines[..n]);
      WrittenOne(Newline);
      WrittenOne(Text(lines[n]));
      WrittenConcat(before, gap);
      WrittenConcat(before + gap, [Text(lines[n])]);
    }
  }

  lemma {:induction false} WrittenNothing()
    ensures LinesWritten([]) == [] && !Clears([])
  {
  }

  lemma {:induction false} RepaintWrites(lines: seq<Line>, from: nat, to: nat)
    requires from <= to <= |lines|
    ensures LinesWritten(RepaintOps(lines, from, to)) == lines[from..to] && !Clears(RepaintOps(lines, from, to))
  {
    hide LinesWritten, Clears;
    WrittenNothing();
    if from < to {
      var before, gap := RepaintOps(lines, from, to - 1), if to - 1 > from then [Newline] else [];
      RepaintWrites(lines, from, to - 1);
      WrittenOne(Newline);
      WrittenOne(EraseLine);
      WrittenOne(Text(lines[to - 1]));
      assert [EraseLine] + [Text(lines[to - 1])] == [EraseLine, Text(lines[to - 1])];
      WrittenConcat([EraseLine], [Text(lines[to - 1])]);
      WrittenConcat(before, gap);
      WrittenConcat(before + gap, [EraseLine, Text(lines[to - 1])]);
    }
  }

  lemma {:induction false} PaintWrites(lines: seq<Line>, delta: int, append: bool, first: nat, end: nat, below: nat,
    extra: nat)
    requires first <= end <= |lines|
    ensures var ops := PaintOps(lines, delta, append, first, end, below, extra);
      LinesWritten(ops) == lines[first..end] && !Clears(ops)
  {
    hide LinesWritten, Clears, Quiet, Vertical, RepaintOps, EraseBelowOps;
    var start, clear := StartOps(delta, append), ClearDeletedOps(below, extra);
    VerticalIsQuiet(delta);
    QuietOne(Newline);
    QuietOne(CarriageReturn);
    QuietConcat(Vertical(delta), if append then [Newline] else [CarriageReturn]);
    DeletedIsQuiet(below, extra);
    RepaintWrites(lines, first, end);
    QuietMeans(start);
    QuietMeans(clear);
    WrittenConcat(start, RepaintOps(lines, first, end));
    WrittenConcat(start + RepaintOps(lines, first, end), clear);
  }

  lemma {:induction false} QuietMeans(ops: seq<Op>)
    requires Quiet(ops)
    ensures LinesWritten(ops) == [] && !Clears(ops)
  {
  }

  lemma {:induction false} DeletedIsQuiet(below: nat, extra: nat)
    ensures Quiet(ClearDeletedOps(below, extra))
  {
    hide Quiet, Vertical, EraseBelowOps;
    QuietOne(Newline);
    if extra > 0 {
      VerticalIsQuiet(below);
      EraseBelowIsQuiet(extra);
      QuietOne(CursorUp(extra));
      QuietConcat(Vertical(below), EraseBelowOps(extra));
      QuietConcat(Vertical(below) + EraseBelowOps(extra), [CursorUp(extra)]);
    }
  }

  lemma {:induction false} PositionIsQuiet(s: State, cursor: Option<Position>, total: nat)
    ensures var o := PositionCursor(s, cursor, total); Quiet(o.ops) && o.state.fullRedraws == s.fullRedraws
  {
    hide Quiet, Vertical;
    QuietOne(Newline);
    if cursor.Some? && total > 0 {
      var target := Max(0, Min(cursor.value.row, total - 1));
      VerticalIsQuiet(target - s.hardwareCursorRow);
      QuietOne(CursorColumn(cursor.value.col + 1));
      QuietConcat(Vertical(target - s.hardwareCursorRow), [CursorColumn(cursor.value.col + 1)]);
    }
  }

  // ---- whole frames ----

  /** The rows [first, end) hold every difference between two frames, and none is larger than it must be. */
  predicate Changed(prev: seq<Line>, next: seq<Line>, first: nat, end: nat) {
    && first <= end <= |next| && first <= |prev| && prev[..first] == next[..first]
    && (first == end ==> first == |next|)
    && (first < end ==> LineAt(prev, first) != LineAt(next, first))
    && if |prev| != |next| then end == |next|
       else prev[end..] == next[end..] && (first < end ==> prev[end - 1] != next[end - 1])
  }

  lemma {:induction false} FullRenderWrites(s: State, lines: seq<Line>, size: Size, clear: bool)
    ensures var o := FullRender(s, lines, size, clear);
      && LinesWritten(o.ops) == lines && (Clears(o.ops) <==> clear) && o.state.fullRedraws == s.fullRedraws + 1
  {
    hide LinesWritten, Clears, PrintOps;
    PrintWrites(lines);
    WrittenNothing();
    WrittenOne(ClearAll);
    WrittenConcat(if clear then [ClearAll] else [], PrintOps(lines));
  }

  lemma {:induction false} DifferentialWrites(s: State, lines: seq<Line>, size: Size)
    requires var r := ChangedRange(s.previousLines, lines); 0 <= r.first < |lines| && r.first <= r.last
    requires Fits(lines, size.width)
    ensures var r := ChangedRange(s.previousLines, lines);
      var o := Differential(s, lines, size, r);
      && LinesWritten(o.ops) == lines[r.first..Min(r.last, |lines| - 1) + 1] && !Clears(o.ops)
      && o.state.fullRedraws == s.fullRedraws
  {
    hide LinesWritten, Clears, Quiet, ChangedRange, ScrollAheadOps, PaintOps, MoveTarget, ScrollAhead;
    var r := ChangedRange(s.previousLines, lines);
    var target, scroll := MoveTarget(s, lines, r.first), ScrollAhead(s, lines, size, r.first);
    var cursor := if scroll > 0 then target else s.hardwareCursorRow;
    var renderEnd := Min(r.last, |lines| - 1);
    var extra := Max(0, |s.previousLines| - |lines|);
    var below := Max(0, |lines| - 1 - renderEnd);
    AheadIsQuiet(s, size, scroll);
    QuietMeans(ScrollAheadOps(s, size, scroll));
    PaintWrites(lines, target - cursor, target < r.first, r.first, renderEnd + 1, below, extra);
    WrittenConcat(ScrollAheadOps(s, size, scroll),
      PaintOps(lines, target - cursor, target < r.first, r.first, renderEnd + 1, below, extra));
  }

  /** A frame is drawn from a clean screen, counted, and written whole; or only the rows from its first to its last
      change are written, without clearing anything before. */
  predicate WritesOf(s: State, lines: seq<Line>, size: Size, overlays: bool, o: Outcome, first: nat, end: nat) {
    if RedrawsFully(s, lines, size, overlays) then
      && LinesWritten(o.ops) == lines && o.state.fullRedraws == s.fullRedraws + 1
      && (Clears(o.ops) <==> s.previousLines != [] || SizeChanged(s, size))
    else
      && Changed(s.previousLines, lines, first, end) && LinesWritten(o.ops) == lines[first..end]
      && o.state.fullRedraws == s.fullRedraws && !Clears(o.ops)
  }

  lemma {:induction false} DrawWrites(s: State, t: Terminal, lines: seq<Line>, size: Size, overlays: bool)
    returns (first: nat, end: nat)
    requires Ready(s, t, size) && Fits(lines, size.width) && Printed(lines)
    ensures WritesOf(s, lines, size, overlays, Draw(s, lines, size, overlays), first, end)
  {
    hide LinesWritten, Clears, ChangedRange, Changed, Differential, FullRender, ShrinkOps;
    first, end := 0, 0;
    FullRenderWrites(s, lines, size, true);
    FullRenderWrites(s, lines, size, false);
    WrittenNothing();
    if s.previousLines != [] && !SizeChanged(s, size) && !(s.clearOnShrink && |lines| < s.maxLinesRendered && !overlays) {
      var r := ChangedRange(s.previousLines, lines);
      first, end := ChangesOf(s.previousLines, lines);
      if r.first >= |lines| {
        DeletedLinesFitTheScreen(s, size.height, |lines|);
        var offset := if lines == [] then 0 else 1;
        ShrinkIsQuiet(Max(0, |lines| - 1) - s.hardwareCursorRow, offset, |s.previousLines| - |lines|);
        assert lines[first..end] == [];
      } else if r.first >= s.previousViewportTop {
        DifferentialWrites(s, lines, size);
      }
    }
  }

  lemma {:induction false} ChangesOf(prev: seq<Line>, next: seq<Line>) returns (first: nat, end: nat)
    requires Printed(prev) && Printed(next)
    ensures Changed(prev, next, first, end)
    ensures var r := ChangedRange(prev, next);
      && (r.first == -1 || r.first >= |next| ==> first == end == |next|)
      && (0 <= r.first < |next| ==> r.first <= r.last && first == r.first && end == Min(r.last, |next| - 1) + 1)
      && (r.first >= |next| ==> |next| < |prev|)
  {
    ChangedRangeMeans(prev, next);
    var r := ChangedRange(prev, next);
    if 0 <= r.first < |next| {
      first, end := r.first, Min(r.last, |next| - 1) + 1;
    } else {
      first, end := |next|, |next|;
    }
  }

  /**
   * Every frame writes what it must and no more: all its lines after a clearing, for the first frame or when it has to
   * be drawn again from the top; otherwise one run of lines, from the first change to the last, or to the end of the
   * frame when their number has changed.
   */
  lemma {:induction false} FrameWrites(s: State, t: Terminal, f: Frame) returns (first: nat, end: nat)
    requires Ready(s, t, f.size) && FrameFits(f)
    ensures WritesOf(s, Finish(f), f.size, f.overlays, DoRender(s, f), first, end)
  {
    hide LinesWritten, Clears, Draw, Finish, PositionCursor, RedrawsFully, Changed, Quiet;
    FittingFrame(f);
    var drawn := Draw(s, Finish(f), f.size, f.overlays);
    first, end := DrawWrites(s, t, Finish(f), f.size, f.overlays);
    PositionIsQuiet(drawn.state, CursorOf(f), |f.lines|);
    var positioned := PositionCursor(drawn.state, CursorOf(f), |f.lines|);
    QuietMeans(positioned.ops);
    WrittenConcat(drawn.ops, positioned.ops);
    DrawShows(s, t, Finish(f), f.size, f.overlays);
  }
}
