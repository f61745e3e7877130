/** The cheap path refines the redraw. */
module RenderRefinement {
  // After every frame the screen shows what a plain full redraw would show from the same row on.
  import opened Arithmetic
  import opened Screen
  import opened Renderer
  import opened Wrappers

  // ---- single moves ----

  lemma {:induction false} ExecOne(t: Terminal, op: Op)
    requires t.Ok()
    ensures Exec(t, [op]) == Exec1(t, op)
  {
    assert ExecFirst(t, [op], 1) == Exec1(ExecFirst(t, [op], 0), op);
  }

  lemma {:induction false} ExecTwo(t: Terminal, a: Op, b: Op)
    requires t.Ok()
    ensures Exec(t, [a, b]) == Exec1(Exec1(t, a), b)
  {
    assert [a, b] == [a] + [b];
    ExecConcat(t, [a], [b]);
    ExecOne(t, a);
    ExecOne(Exec1(t, a), b);
  }

  lemma {:induction false} MoveWithin(t: Terminal, delta: int)
    requires t.Ok() && 0 <= t.row + delta < |t.rows|
    ensures Exec(t, Vertical(delta)) == t.(row := t.row + delta)
  {
    if delta != 0 { ExecOne(t, Vertical(delta)[0]); }
  }

  lemma {:induction false} MoveAbove(t: Terminal, delta: int)
    requires t.Ok() && t.row + delta < 0
    ensures Exec(t, Vertical(delta)) == t.(row := 0, clamped := true)
  {
    ExecOne(t, Vertical(delta)[0]);
  }

  // ---- documents ----

  /** `doc` with rows [from, to) replaced by the lines of a frame. */
  function Patch(doc: seq<Row>, lines: seq<Line>, from: nat, to: nat): (r: seq<Row>)
    requires from <= to <= |lines| && from <= |doc|
    ensures |r| == Max(|doc|, to)
    ensures forall k :: 0 <= k < |r| ==> r[k] == if from <= k < to then Shows(lines[k]) else doc[k]
  {
    seq(Max(|doc|, to), k requires 0 <= k < Max(|doc|, to) => if from <= k < to then Shows(lines[k]) else doc[k])
  }

  /** `doc` with rows [from, to) blank. */
  function Blanked(doc: seq<Row>, from: nat, to: nat): (r: seq<Row>)
    ensures |r| == |doc|
    ensures forall k :: 0 <= k < |r| ==> r[k] == if from <= k < to then Blank else doc[k]
  {
    seq(|doc|, k requires 0 <= k < |doc| => if from <= k < to then Blank else doc[k])
  }

  // ---- loops of the output buffer ----

  lemma {:induction false} NewlineShows(t: Terminal, top: nat, doc: seq<Row>)
    requires t.Ok() && Displays(t, top, doc) && |doc| <= top + |t.rows|
    ensures var t' := Exec(t, [Newline]);
      && t'.col == At(0) && t'.clamped == t.clamped
      && (if t.row + 1 < |t.rows| then t'.row == t.row + 1 && Displays(t', top, doc)
          else t'.row == t.row && Displays(t', top + 1, doc))
  {
    ExecOne(t, Newline);
  }

  lemma {:induction false} PutShows(t: Terminal, top: nat, doc: seq<Row>, line: Line)
    requires t.Ok() && Displays(t, top, doc) && t.col == At(0) && line.width <= t.columns
    ensures var t' := Exec(t, [EraseLine, Text(line)]);
      && t'.row == t.row && t'.clamped == t.clamped
      && t'.rows == t.rows[t.row := Shows(line)]
  {
    ExecTwo(t, EraseLine, Text(line));
  }

  /** One more printed line: a newline, except before the first, and the text on the blank row below. */
  lemma {:induction false} PrintNext(t: Terminal, lines: seq<Line>, n: nat)
    requires n < |lines| && t.Ok() && lines[n].width <= t.columns
    requires var top := Max(0, n - |t.rows|);
      Displays(t, top, Doc(lines[..n])) && t.row == Max(0, n - 1) - top && (n == 0 ==> t.col == At(0))
    ensures var t' := Exec(t, (if n > 0 then [Newline] else []) + [Text(lines[n])]);
      var top := Max(0, n + 1 - |t.rows|);
      && Displays(t', top, Doc(lines[..n + 1])) && t'.row == n - top && t'.clamped == t.clamped
  {
    var sep := if n > 0 then [Newline] else [];
    var mid := Exec(t, sep);
    if n > 0 { NewlineShows(t, Max(0, n - |t.rows|), Doc(lines[..n])); }
    var top := Max(0, n + 1 - |t.rows|);
    assert Displays(mid, top, Doc(lines[..n])) && mid.row == n - top;
    assert mid.rows[mid.row] == Blank;
    ExecConcat(t, sep, [Text(lines[n])]);
    ExecOne(mid, Text(lines[n]));
  }

  /** Printing a whole frame on a blank screen leaves its last rows on the screen. */
  lemma {:induction false} PrintShows(t: Terminal, lines: seq<Line>)
    requires t.Ok() && Displays(t, 0, []) && t.row == 0 && t.col == At(0)
    requires Fits(lines, t.columns)
    ensures var t' := Exec(t, PrintOps(lines)); var top := Max(0, |lines| - |t.rows|);
      && Displays(t', top, Doc(lines)) && t'.row == Max(0, |lines| - 1) - top
      && t'.clamped == t.clamped && (lines == [] ==> t'.col == At(0))
  {
    if lines != [] {
      var n := |lines| - 1;
      PrintShows(t, lines[..n]);
      PrintNext(Exec(t, PrintOps(lines[..n])), lines, n);
      var next := (if n > 0 then [Newline] else []) + [Text(lines[n])];
      ExecConcat(t, PrintOps(lines[..n]), next);
      assert PrintOps(lines) == PrintOps(lines[..n]) + next;
      assert lines[..n + 1] == lines;
    }
  }

  /** Rows [from, to) of the frame have replaced those of `doc`, scrolling only past the bottom. */
  ghost predicate Painted(t: Terminal, top: nat, doc: seq<Row>, lines: seq<Line>, from: nat, to: nat)
    requires t.Ok() && from < to <= |lines| && from <= |doc|
  {
    var top' := Max(top, to - |t.rows|);
    Displays(t, top', Patch(doc, lines, from, to)) && t.row == to - 1 - top'
  }

  /** Repainting one more row, which may be the row below the screen. */
  lemma {:induction false} RepaintNext(t: Terminal, top: nat, doc: seq<Row>, lines: seq<Line>, i: nat)
    requires t.Ok() && Displays(t, top, doc) && i < |lines| && lines[i].width <= t.columns
    requires top < i <= |doc| <= top + |t.rows| && t.row == i - 1 - top
    ensures var t' := Exec(t, [Newline] + [EraseLine, Text(lines[i])]); var top' := Max(top, i + 1 - |t.rows|);
      && Displays(t', top', Patch(doc, lines, i, i + 1)) && t'.row == i - top' && t'.clamped == t.clamped
  {
    NewlineShows(t, top, doc);
    var mid := Exec(t, [Newline]);
    var top' := Max(top, i + 1 - |t.rows|);
    assert Displays(mid, top', doc) && mid.row == i - top';
    ExecConcat(t, [Newline], [EraseLine, Text(lines[i])]);
    PutShows(mid, top', doc, lines[i]);
  }

  lemma {:induction false} PatchMore(doc: seq<Row>, lines: seq<Line>, from: nat, i: nat)
    requires from <= i < |lines| && from <= |doc|
    ensures Patch(Patch(doc, lines, from, i), lines, i, i + 1) == Patch(doc, lines, from, i + 1)
  {
  }

  lemma {:induction false} RepaintStep(t: Terminal, top: nat, doc: seq<Row>, lines: seq<Line>, from: nat, i: nat)
    requires t.Ok() && top <= from < i < |lines| && lines[i].width <= t.columns
    requires from <= |doc| <= top + |t.rows| && Painted(t, top, doc, lines, from, i)
    ensures var t' := Exec(t, [Newline] + [EraseLine, Text(lines[i])]);
      Painted(t', top, doc, lines, from, i + 1) && t'.clamped == t.clamped
  {
    RepaintNext(t, Max(top, i - |t.rows|), Patch(doc, lines, from, i), lines, i);
    PatchMore(doc, lines, from, i);
  }

  lemma {:induction false} RepaintSplit(t: Terminal, lines: seq<Line>, from: nat, i: nat)
    requires t.Ok() && from < i < |lines|
    ensures Exec(t, RepaintOps(lines, from, i + 1)) ==
      Exec(Exec(t, RepaintOps(lines, from, i)), [Newline] + [EraseLine, Text(lines[i])])
  {
    var init := RepaintOps(lines, from, i);
    var next := [Newline] + [EraseLine, Text(lines[i])];
    ExecConcat(t, init, next);
    assert RepaintOps(lines, from, i + 1) == init + next;
  }

  lemma {:induction false} RepaintFirst(t: Terminal, top: nat, doc: seq<Row>, lines: seq<Line>, from: nat)
    requires t.Ok() && Displays(t, top, doc) && Fits(lines, t.columns)
    requires top <= from < |lines| && from <= |doc| <= top + |t.rows|
    requires t.row == from - top && t.col == At(0)
    ensures var t' := Exec(t, RepaintOps(lines, from, from + 1));
      Painted(t', top, doc, lines, from, from + 1) && t'.clamped == t.clamped
  {
    var put := [EraseLine, Text(lines[from])];
    assert RepaintOps(lines, from, from + 1) == [] + [] + put == put;
    PutShows(t, top, doc, lines[from]);
  }

  lemma {:induction false} RepaintShows(t: Terminal, top: nat, doc: seq<Row>, lines: seq<Line>, from: nat, to: nat)
    requires t.Ok() && Displays(t, top, doc) && Fits(lines, t.columns)
    requires top <= from < to <= |lines| && from <= |doc| <= top + |t.rows|
    requires t.row == from - top && t.col == At(0)
    ensures var t' := Exec(t, RepaintOps(lines, from, to));
      Painted(t', top, doc, lines, from, to) && t'.clamped == t.clamped
  {
    hide Exec, Displays, Painted, RepaintOps;
    var i := to - 1;
    if i == from {
      RepaintFirst(t, top, doc, lines, from);
    } else {
      RepaintShows(t, top, doc, lines, from, i);
      RepaintStep(Exec(t, RepaintOps(lines, from, i)), top, doc, lines, from, i);
      RepaintSplit(t, lines, from, i);
    }
  }

  function EraseRowOps(more: bool): seq<Op> {
    [CarriageReturn, EraseLine] + (if more then [CursorDown(1)] else [])
  }

  lemma {:induction false} EraseNext(t: Terminal, top: nat, doc: seq<Row>, more: bool)
    requires t.Ok() && Displays(t, top, doc) && (more ==> t.row + 1 < |t.rows|)
    ensures var t' := Exec(t, EraseRowOps(more));
      && Displays(t', top, Blanked(doc, top + t.row, top + t.row + 1))
      && t'.row == t.row + (if more then 1 else 0) && t'.col == At(0) && t'.clamped == t.clamped
  {
    var erase := [CarriageReturn, EraseLine];
    ExecTwo(t, CarriageReturn, EraseLine);
    var mid := Exec(t, erase);
    ExecConcat(t, erase, if more then [CursorDown(1)] else []);
    if more { ExecOne(mid, CursorDown(1)); }
  }

  lemma {:induction false} EraseBelowNext(t: Terminal, top: nat, doc: seq<Row>)
    requires t.Ok() && Displays(t, top, doc) && t.row + 1 < |t.rows|
    ensures var t' := Exec(t, [Newline, EraseLine]);
      && Displays(t', top, Blanked(doc, top + t.row + 1, top + t.row + 2))
      && t'.row == t.row + 1 && t'.clamped == t.clamped
  {
    ExecTwo(t, Newline, EraseLine);
  }

  lemma {:induction false} BlankedMore(doc: seq<Row>, from: nat, to: nat)
    requires from <= to
    ensures Blanked(Blanked(doc, from, to), to, to + 1) == Blanked(doc, from, to + 1)
  {
  }

  /** Clearing the rows below the cursor: `count` rows become blank, nothing scrolls. */
  lemma {:induction false} EraseBelowShows(t: Terminal, top: nat, doc: seq<Row>, count: nat)
    requires t.Ok() && Displays(t, top, doc) && t.row + count < |t.rows|
    ensures var t' := Exec(t, EraseBelowOps(count));
      && Displays(t', top, Blanked(doc, top + t.row + 1, top + t.row + 1 + count))
      && t'.row == t.row + count && t'.clamped == t.clamped
  {
    hide Exec1;
    if count > 0 {
      EraseBelowShows(t, top, doc, count - 1);
      var init := EraseBelowOps(count - 1);
      var k := top + t.row + 1;
      EraseBelowNext(Exec(t, init), top, Blanked(doc, k, k + count - 1));
      BlankedMore(doc, k, k + count - 1);
      ExecConcat(t, init, [Newline, EraseLine]);
      assert EraseBelowOps(count) == init + [Newline, EraseLine];
    }
  }

  /** Clearing rows from the cursor row on, moving down between them but not after the last. */
  lemma {:induction false} EraseRowsShows(t: Terminal, top: nat, doc: seq<Row>, done: nat, count: nat)
    requires t.Ok() && Displays(t, top, doc) && 0 < done <= count && t.row + count <= |t.rows|
    ensures var t' := Exec(t, EraseRowsOps(done, count));
      && Displays(t', top, Blanked(doc, top + t.row, top + t.row + done))
      && t'.row == t.row + (if done < count then done else done - 1)
      && t'.col == At(0) && t'.clamped == t.clamped
  {
    hide Exec1;
    var init := EraseRowsOps(done - 1, count);
    var k := top + t.row;
    var doc0 := Blanked(doc, k, k + done - 1);
    if done > 1 { EraseRowsShows(t, top, doc, done - 1, count); }
    EraseNext(Exec(t, init), top, doc0, done < count);
    BlankedMore(doc, k, k + done - 1);
    ExecConcat(t, init, EraseRowOps(done < count));
    assert EraseRowsOps(done, count) == init + EraseRowOps(done < count);
  }

  // ---- the invariant of the three private counters ----

  /** How the counters relate to each other on a terminal of `height` rows. */
  predicate Counters(s: State, height: nat) {
    && s.previousViewportTop == Max(0, s.maxLinesRendered - height)
    && |s.previousLines| <= s.maxLinesRendered
    && s.previousViewportTop <= Max(0, |s.previousLines| - 1)
    && s.previousViewportTop <= s.hardwareCursorRow <= Max(0, |s.previousLines| - 1)
  }

  predicate Printed(lines: seq<Line>) {
    forall i :: 0 <= i < |lines| ==> lines[i].text != ""
  }

  /** The renderer knows the screen: the rows show the previous frame from previousViewportTop on, and
      the physical cursor is on the row the counters say. */
  ghost predicate Faithful(s: State, t: Terminal) {
    && t.Ok() && !t.clamped
    && Counters(s, |t.rows|)
    && Fits(s.previousLines, t.columns) && Printed(s.previousLines)
    && Displays(t, s.previousViewportTop, Doc(s.previousLines))
    && t.row == s.hardwareCursorRow - s.previousViewportTop
    && (s.previousLines == [] ==> t.col == At(0))
    && (s.previousWidth == t.columns || (s.previousLines == [] && s.previousWidth == 0))
    && (s.previousHeight == |t.rows| || (s.previousLines == [] && s.previousHeight == 0))
  }

  predicate OnTerminal(t: Terminal, size: Size) {
    size.Valid() && t.Ok() && |t.rows| == size.height && t.columns == size.width
  }

  /** A frame arrives: either the renderer knows the screen, or the size differs from the last frame
      drawn (a resize, or the -1 written by a forced redraw) and the screen may show anything. */
  ghost predicate Ready(s: State, t: Terminal, size: Size) {
    && OnTerminal(t, size) && !s.stopped
    && (Faithful(s, t) || (SizeChanged(s, size) && !t.clamped))
  }

  lemma {:induction false} FullRenderShows(s: State, t: Terminal, lines: seq<Line>, size: Size, clear: bool)
    requires OnTerminal(t, size) && !t.clamped && Fits(lines, size.width) && Printed(lines)
    requires clear || (Faithful(s, t) && s.previousLines == [])
    ensures var o := FullRender(s, lines, size, clear); Faithful(o.state, Exec(t, o.ops))
  {
    var start := if clear then [ClearAll] else [];
    if clear { ExecOne(t, ClearAll); }
    ExecConcat(t, start, PrintOps(lines));
    PrintShows(Exec(t, start), lines);
  }

  lemma {:induction false} ChangedRangeMeans(prev: seq<Line>, next: seq<Line>)
    requires forall i :: 0 <= i < |prev| ==> prev[i].text != ""
    requires forall i :: 0 <= i < |next| ==> next[i].text != ""
    ensures var r := ChangedRange(prev, next);
      && (r.first == -1 <==> prev == next)
      && (r.first >= |next| <==> |next| < |prev| && prev[..|next|] == next)
      && (0 <= r.first < |next| ==> r.first <= |prev| && prev[..r.first] == next[..r.first] && r.first <= r.last)
      && (0 <= r.first && |next| < |prev| ==> r.last == |prev| - 1)
      && (0 <= r.first < |next| && |prev| < |next| ==> r.last == |next| - 1)
      && (0 <= r.first < |next| && |prev| == |next| ==> r.last < |next| && prev[r.last + 1..] == next[r.last + 1..])
      && (0 <= r.first < |next| && |next| <= |prev| ==> r.first < |prev|)
  {
    var r := ChangedRange(prev, next);
    var end := Max(|prev|, |next|);
    if |next| < |prev| { assert LineAt(prev, end - 1) != LineAt(next, end - 1); }
    if |prev| < |next| { assert LineAt(prev, |prev|) != LineAt(next, |prev|); }
    if r.first == -1 || |next| <= r.first {
      forall k | 0 <= k < |next| && k < |prev| ensures prev[k] == next[k] {
        assert LineAt(prev, k) == LineAt(next, k);
      }
    }
    if 0 <= r.first < |next| {
      forall k | 0 <= k < r.first ensures k < |prev| && prev[k] == next[k] {
        assert LineAt(prev, k) == LineAt(next, k);
      }
    }
    if |prev| == |next| {
      forall k | r.last < k < |next| ensures prev[k] == next[k] {
        assert LineAt(prev, k) == LineAt(next, k);
      }
    }
  }

  lemma {:induction false} ExecFive(t: Terminal, a: seq<Op>, b: seq<Op>, c: seq<Op>, d: seq<Op>, e: seq<Op>)
    requires t.Ok()
    ensures Exec(t, a + b + c + d + e) == Exec(Exec(Exec(Exec(Exec(t, a), b), c), d), e)
  {
    ExecConcat(t, a, b);
    ExecConcat(t, a + b, c);
    ExecConcat(t, a + b + c, d);
    ExecConcat(t, a + b + c + d, e);
  }

  /** Step down, clear `extra` rows, and come back to the row it started from. */
  lemma {:induction false} EraseTail(t: Terminal, top: nat, doc: seq<Row>, offset: nat, extra: nat)
    requires t.Ok() && Displays(t, top, doc) && 0 < extra && t.row + offset + extra <= |t.rows|
    ensures var t' := Exec(Exec(Exec(t, Vertical(offset)), EraseRowsOps(extra, extra)), Vertical(-(extra - 1 + offset)));
      && Displays(t', top, Blanked(doc, top + t.row + offset, top + t.row + offset + extra))
      && t'.row == t.row && t'.col == At(0) && t'.clamped == t.clamped
  {
    MoveWithin(t, offset);
    var t1 := Exec(t, Vertical(offset));
    EraseRowsShows(t1, top, doc, extra, extra);
    MoveWithin(Exec(t1, EraseRowsOps(extra, extra)), -(extra - 1 + offset));
  }

  lemma {:induction false} ShrinkErases(t: Terminal, top: nat, doc: seq<Row>, delta: int, offset: nat, extra: nat)
    requires t.Ok() && Displays(t, top, doc)
    requires 0 < extra && 0 <= t.row + delta && t.row + delta + offset + extra <= |t.rows|
    ensures var t' := Exec(t, ShrinkOps(delta, offset, extra)); var from := top + t.row + delta + offset;
      && Displays(t', top, Blanked(doc, from, from + extra))
      && t'.row == t.row + delta && t'.col == At(0) && t'.clamped == t.clamped
  {
    ExecFive(t, Vertical(delta), [CarriageReturn], Vertical(offset), EraseRowsOps(extra, extra),
      Vertical(-(extra - 1 + offset)));
    MoveWithin(t, delta);
    var t1 := Exec(t, Vertical(delta));
    ExecOne(t1, CarriageReturn);
    EraseTail(Exec(t1, [CarriageReturn]), top, doc, offset, extra);
  }

  /** Deleting lines at the end clears exactly their rows. */
  lemma {:induction false} ShrinkShows(s: State, t: Terminal, lines: seq<Line>, size: Size)
    requires OnTerminal(t, size) && Faithful(s, t) && Fits(lines, size.width) && Printed(lines)
    requires |lines| < |s.previousLines| && s.previousLines[..|lines|] == lines
    requires s.previousViewportTop <= Max(0, |lines| - 1)
    ensures var o := Shrink(s, lines, size); Faithful(o.state, Exec(t, o.ops))
  {
    var extra := |s.previousLines| - |lines|;
    var offset := if lines == [] then 0 else 1;
    var delta := Max(0, |lines| - 1) - s.hardwareCursorRow;
    ShrinkErases(t, s.previousViewportTop, Doc(s.previousLines), delta, offset, extra);
    ShrunkDocument(s.previousLines, lines);
  }

  lemma {:induction false} ShrunkDocument(prev: seq<Line>, next: seq<Line>)
    requires |next| < |prev| && prev[..|next|] == next
    ensures forall k: nat :: RowAt(Blanked(Doc(prev), |next|, |prev|), k) == RowAt(Doc(next), k)
  {
    forall k: nat ensures RowAt(Blanked(Doc(prev), |next|, |prev|), k) == RowAt(Doc(next), k) {
      if k < |next| { assert prev[k] == prev[..|next|][k]; }
    }
  }

  lemma {:induction false} StartShows(t: Terminal, top: nat, doc: seq<Row>, delta: int, first: nat, append: bool)
    requires t.Ok() && Displays(t, top, doc) && first <= |doc| <= top + |t.rows| && top <= first
    requires append ==> first == |doc|
    requires t.row + delta == (if append then first - 1 else first) - top && 0 <= t.row + delta < |t.rows|
    ensures var t' := Exec(t, StartOps(delta, append));
      var top' := if append then Max(top, first + 1 - |t.rows|) else top;
      && Displays(t', top', doc) && t'.row == first - top' && t'.col == At(0) && t'.clamped == t.clamped
  {
    MoveWithin(t, delta);
    var t1 := Exec(t, Vertical(delta));
    ExecConcat(t, Vertical(delta), if append then [Newline] else [CarriageReturn]);
    if append { NewlineShows(t1, top, doc); } else { ExecOne(t1, CarriageReturn); }
  }

  lemma {:induction false} ClearDeletedShows(t: Terminal, top: nat, doc: seq<Row>, extra: nat)
    requires t.Ok() && Displays(t, top, doc) && t.row + extra < |t.rows|
    ensures var t' := Exec(t, ClearDeletedOps(0, extra)); var from := top + t.row + 1;
      && Displays(t', top, Blanked(doc, from, from + extra)) && t'.row == t.row && t'.clamped == t.clamped
  {
    if extra > 0 {
      EraseBelowShows(t, top, doc, extra);
      var t1 := Exec(t, EraseBelowOps(extra));
      assert ClearDeletedOps(0, extra) == EraseBelowOps(extra) + Vertical(0 - extra);
      ExecConcat(t, EraseBelowOps(extra), Vertical(0 - extra));
      MoveWithin(t1, 0 - extra);
    }
  }

  lemma {:induction false} StartAndRepaint(t: Terminal, top: nat, doc: seq<Row>, lines: seq<Line>, first: nat, end: nat,
      delta: int, append: bool)
    requires t.Ok() && Displays(t, top, doc) && Fits(lines, t.columns)
    requires top <= first < end <= |lines| && first <= |doc| <= top + |t.rows|
    requires append ==> first == |doc|
    requires t.row + delta == (if append then first - 1 else first) - top && 0 <= t.row + delta < |t.rows|
    ensures var t' := Exec(t, StartOps(delta, append) + RepaintOps(lines, first, end));
      Painted(t', top, doc, lines, first, end) && t'.clamped == t.clamped
  {
    StartShows(t, top, doc, delta, first, append);
    var top1 := if append then Max(top, first + 1 - |t.rows|) else top;
    RepaintShows(Exec(t, StartOps(delta, append)), top1, doc, lines, first, end);
    ExecConcat(t, StartOps(delta, append), RepaintOps(lines, first, end));
  }

  /** The changed rows are repainted and the rows of deleted lines cleared. */
  ghost predicate Cleared(t: Terminal, top: nat, doc: seq<Row>, lines: seq<Line>, first: nat, end: nat, extra: nat)
    requires t.Ok() && first < end <= |lines| && first <= |doc|
  {
    var top' := Max(top, end - |t.rows|);
    Displays(t, top', Blanked(Patch(doc, lines, first, end), end, end + extra)) && t.row == end - 1 - top'
  }

  lemma {:induction false} ClearPainted(t: Terminal, top: nat, doc: seq<Row>, lines: seq<Line>, first: nat, end: nat, extra: nat)
    requires t.Ok() && first < end <= |lines| && first <= |doc|
    requires Painted(t, top, doc, lines, first, end) && (extra > 0 ==> end + extra <= top + |t.rows|)
    ensures var t' := Exec(t, ClearDeletedOps(0, extra));
      Cleared(t', top, doc, lines, first, end, extra) && t'.clamped == t.clamped
  {
    ClearDeletedShows(t, Max(top, end - |t.rows|), Patch(doc, lines, first, end), extra);
  }

  /** The buffer of the cheap path on a screen the counters know. */
  lemma {:induction false} DifferentialPaints(t: Terminal, top: nat, doc: seq<Row>, lines: seq<Line>, first: nat, end: nat,
      delta: int, append: bool, extra: nat)
    requires t.Ok() && Displays(t, top, doc) && Fits(lines, t.columns)
    requires top <= first < end <= |lines| && first <= |doc| <= top + |t.rows|
    requires append ==> first == |doc|
    requires t.row + delta == (if append then first - 1 else first) - top && 0 <= t.row + delta < |t.rows|
    requires extra > 0 ==> end + extra <= top + |t.rows|
    ensures var t' := Exec(t, StartOps(delta, append) + RepaintOps(lines, first, end) + ClearDeletedOps(0, extra));
      Cleared(t', top, doc, lines, first, end, extra) && t'.clamped == t.clamped
  {
    StartAndRepaint(t, top, doc, lines, first, end, delta, append);
    var paint := StartOps(delta, append) + RepaintOps(lines, first, end);
    ClearPainted(Exec(t, paint), top, doc, lines, first, end, extra);
    ExecConcat(t, paint, ClearDeletedOps(0, extra));
  }

  /** The rows [first, end) are all that differs between two documents, apart from deleted lines at the end. */
  predicate OnlyRangeDiffers(prev: seq<Line>, next: seq<Line>, first: nat, end: nat) {
    && first < end <= |next| && first <= |prev| && prev[..first] == next[..first]
    && (|prev| != |next| ==> end == |next|)
    && (|prev| == |next| ==> prev[end..] == next[end..])
  }

  /** Repainting the changed range and clearing deleted rows turns the old document into the new one. */
  lemma {:induction false} PatchedDocument(prev: seq<Line>, next: seq<Line>, first: nat, end: nat, k: nat)
    requires OnlyRangeDiffers(prev, next, first, end)
    ensures RowAt(Blanked(Patch(Doc(prev), next, first, end), end, end + Max(0, |prev| - |next|)), k) ==
      RowAt(Doc(next), k)
  {
    if k < |prev| && k < first { assert prev[k] == prev[..first][k] == next[..first][k]; }
    if k < |prev| && end <= k < |next| { assert prev[k] == prev[end..][k - end] == next[end..][k - end]; }
  }

  lemma {:induction false} ClearedShows(t: Terminal, top: nat, prev: seq<Line>, next: seq<Line>, first: nat, end: nat)
    requires t.Ok() && OnlyRangeDiffers(prev, next, first, end)
    requires Cleared(t, top, Doc(prev), next, first, end, Max(0, |prev| - |next|))
    ensures Displays(t, Max(top, end - |t.rows|), Doc(next))
  {
    var top' := Max(top, end - |t.rows|);
    forall s | 0 <= s < |t.rows| ensures t.rows[s] == RowAt(Doc(next), top' + s) {
      PatchedDocument(prev, next, first, end, top' + s);
    }
  }

  /** On counters that hold, the scroll-ahead branch is never taken and the cursor ends on the last row painted. */
  lemma {:induction false} DifferentialPlan(s: State, lines: seq<Line>, size: Size)
    requires size.Valid() && Counters(s, size.height) && Fits(lines, size.width)
    requires Printed(s.previousLines) && Printed(lines)
    requires s.previousViewportTop <= ChangedRange(s.previousLines, lines).first < |lines|
    ensures var r := ChangedRange(s.previousLines, lines);
      var end := Min(r.last, |lines| - 1) + 1;
      var target := MoveTarget(s, lines, r.first);
      && OnlyRangeDiffers(s.previousLines, lines, r.first, end) && r.first <= r.last
      && ScrollAhead(s, lines, size, r.first) == 0
      && s.previousViewportTop <= target < s.previousViewportTop + size.height
      && (if target < r.first then target == r.first - 1 && r.first == |s.previousLines| else target == r.first)
      && (|s.previousLines| == |lines| || end == |lines|)
  {
    ChangedRangeMeans(s.previousLines, lines);
  }

  /** What the cheap path does to the counters when they hold. */
  function Painting(s: State, lines: seq<Line>, size: Size, first: nat, end: nat, target: int): Outcome
    requires first < end <= |lines|
  {
    Outcome(
      s.(previousLines := lines, previousWidth := size.width, previousHeight := size.height,
         hardwareCursorRow := end - 1,
         maxLinesRendered := Max(s.maxLinesRendered, |lines|),
         previousViewportTop := Max(s.previousViewportTop, end - size.height)),
      PaintOps(lines, target - s.hardwareCursorRow, target < first, first, end, 0, Max(0, |s.previousLines| - |lines|)))
  }

  lemma {:induction false} NothingAhead(ops: seq<Op>)
    ensures [] + ops == ops
  {
  }

  lemma {:induction false} ClearOnlyBelowLastLine(lines: seq<Line>, delta: int, append: bool, first: nat, end: nat,
      below: nat, extra: nat)
    requires first <= end <= |lines| && (below == 0 || extra == 0)
    ensures PaintOps(lines, delta, append, first, end, below, extra) == PaintOps(lines, delta, append, first, end, 0, extra)
  {
  }

  /** With nothing scrolled ahead, the counters end where Painting says. */
  lemma {:induction false} AfterPaintIsPainting(s: State, lines: seq<Line>, size: Size, first: nat, end: nat, target: int)
    requires first < end <= |lines|
    ensures AfterPaint(s, lines, size, 0, end - 1) == Painting(s, lines, size, first, end, target).state
  {
    hide PaintOps;
  }

  lemma {:induction false} DifferentialIsPainting(s: State, lines: seq<Line>, size: Size, first: nat, last: nat)
    requires Fits(lines, size.width) && first <= last && first < |lines|
    requires |s.previousLines| == |lines| || Min(last, |lines| - 1) == |lines| - 1
    requires ScrollAhead(s, lines, size, first) == 0
    ensures Differential(s, lines, size, Range(first, last)) ==
      Painting(s, lines, size, first, Min(last, |lines| - 1) + 1, MoveTarget(s, lines, first))
  {
    hide Differential, PaintOps, AfterPaint, ScrollAhead, MoveTarget;
    var target := MoveTarget(s, lines, first);
    var renderEnd := Min(last, |lines| - 1);
    var extra := Max(0, |s.previousLines| - |lines|);
    var below := Max(0, |lines| - 1 - renderEnd);
    var paint := PaintOps(lines, target - s.hardwareCursorRow, target < first, first, renderEnd + 1, below, extra);
    DifferentialValue(s, lines, size, first, last, target, 0, s.hardwareCursorRow, renderEnd, below, extra, renderEnd,
      [], paint);
    NothingAhead(paint);
    AfterPaintIsPainting(s, lines, size, first, renderEnd + 1, target);
    ClearOnlyBelowLastLine(lines, target - s.hardwareCursorRow, target < first, first, renderEnd + 1, below, extra);
  }

  lemma {:induction false} PaintingShows(s: State, t: Terminal, lines: seq<Line>, size: Size, first: nat, end: nat, target: int)
    requires OnTerminal(t, size) && Faithful(s, t) && Fits(lines, size.width) && Printed(lines)
    requires s.previousViewportTop <= first && OnlyRangeDiffers(s.previousLines, lines, first, end)
    requires if target < first then target == first - 1 && first == |s.previousLines| else target == first
    requires s.previousViewportTop <= target < s.previousViewportTop + size.height
    ensures var o := Painting(s, lines, size, first, end, target); Faithful(o.state, Exec(t, o.ops))
  {
    hide ExecFirst, Exec, RepaintOps, ClearDeletedOps, StartOps, Cleared;
    var top := s.previousViewportTop;
    var o := Painting(s, lines, size, first, end, target);
    DifferentialPaints(t, top, Doc(s.previousLines), lines, first, end,
      target - s.hardwareCursorRow, target < first, Max(0, |s.previousLines| - |lines|));
    ClearedShows(Exec(t, o.ops), top, s.previousLines, lines, first, end);
  }

  /** The cheap path leaves a screen the counters know. */
  lemma {:induction false} DifferentialShows(s: State, t: Terminal, lines: seq<Line>, size: Size)
    requires OnTerminal(t, size) && Faithful(s, t) && Fits(lines, size.width) && Printed(lines)
    requires s.previousViewportTop <= ChangedRange(s.previousLines, lines).first < |lines|
    ensures var r := ChangedRange(s.previousLines, lines); r.first <= r.last
    ensures var o := Differential(s, lines, size, ChangedRange(s.previousLines, lines)); Faithful(o.state, Exec(t, o.ops))
  {
    hide ExecFirst, Exec, Differential, Painting, ChangedRange, Displays;
    DifferentialPlan(s, lines, size);
    var r := ChangedRange(s.previousLines, lines);
    var end := Min(r.last, |lines| - 1) + 1;
    var p := Painting(s, lines, size, r.first, end, MoveTarget(s, lines, r.first));
    assert Differential(s, lines, size, r) == p by {
      DifferentialIsPainting(s, lines, size, r.first, r.last);
    }
    assert Faithful(p.state, Exec(t, p.ops)) by {
      PaintingShows(s, t, lines, size, r.first, end, MoveTarget(s, lines, r.first));
    }
  }

  // ---- one frame ----

  lemma {:induction false} DrawShows(s: State, t: Terminal, lines: seq<Line>, size: Size, overlays: bool)
    requires Ready(s, t, size) && Fits(lines, size.width) && Printed(lines)
    ensures var o := Draw(s, lines, size, overlays);
      Faithful(o.state, Exec(t, o.ops)) && o.state.previousLines == lines && !o.state.stopped
  {
    if SizeChanged(s, size) {
      FullRenderShows(s, t, lines, size, true);
    } else if s.previousLines == [] {
      FullRenderShows(s, t, lines, size, false);
    } else if s.clearOnShrink && |lines| < s.maxLinesRendered && !overlays {
      FullRenderShows(s, t, lines, size, true);
    } else {
      ChangedRangeMeans(s.previousLines, lines);
      var first := ChangedRange(s.previousLines, lines).first;
      if first == -1 {
      } else if first >= |lines| {
        DeletedLinesFitTheScreen(s, size.height, |lines|);
        if Max(0, |lines| - 1) < s.previousViewportTop {
          FullRenderShows(s, t, lines, size, true);
        } else {
          ShrinkShows(s, t, lines, size);
        }
      } else if first < s.previousViewportTop {
        FullRenderShows(s, t, lines, size, true);
      } else {
        DifferentialShows(s, t, lines, size);
      }
    }
  }

  /** More deleted lines than screen rows always reach above the viewport: the second test of Shrink never decides. */
  lemma {:induction false} DeletedLinesFitTheScreen(s: State, height: nat, total: nat)
    requires Counters(s, height) && total < |s.previousLines|
    ensures |s.previousLines| - total > height ==> Max(0, total - 1) < s.previousViewportTop
  {
  }

  /** The marker lies on a row the screen still shows. */
  predicate MarkerOnScreen(cursor: Option<Position>, top: nat) {
    cursor.Some? ==> top <= cursor.value.row
  }

  /** Putting the cursor on its marker never changes a row; it arrives exactly when the row is on screen. */
  lemma {:induction false} CursorLands(s: State, t: Terminal, cursor: Option<Position>)
    requires Faithful(s, t) && (cursor.Some? ==> cursor.value.row < |s.previousLines|)
    ensures var o := PositionCursor(s, cursor, |s.previousLines|); var t' := Exec(t, o.ops);
      && t'.rows == t.rows
      && (t'.clamped <==> !MarkerOnScreen(cursor, s.previousViewportTop))
      && (MarkerOnScreen(cursor, s.previousViewportTop) ==> Faithful(o.state, t'))
      && (!MarkerOnScreen(cursor, s.previousViewportTop) ==> t'.row == 0 && o.state.hardwareCursorRow < s.previousViewportTop)
      && (cursor.Some? ==> t'.col == At(cursor.value.col) && o.state.hardwareCursorRow == cursor.value.row)
  {
    if cursor.Some? {
      var delta := cursor.value.row - s.hardwareCursorRow;
      if t.row + delta >= 0 { MoveWithin(t, delta); } else { MoveAbove(t, delta); }
      ExecConcat(t, Vertical(delta), [CursorColumn(cursor.value.col + 1)]);
      ExecOne(Exec(t, Vertical(delta)), CursorColumn(cursor.value.col + 1));
    }
  }

  /** Drawing a frame shows its lines from previousViewportTop on, whatever path was taken; the counters know
      the screen again, and no move was clamped, exactly when the marker is on the screen that was drawn. */
  lemma {:induction false} FrameShows(s: State, t: Terminal, f: Frame)
    requires Ready(s, t, f.size) && Fits(Finish(f), f.size.width)
    ensures var o := DoRender(s, f); var t' := Exec(t, o.ops);
      && Displays(t', o.state.previousViewportTop, Doc(Finish(f)))
      && o.state.previousLines == Finish(f) && !o.state.stopped
      && o.state.previousViewportTop == Max(0, o.state.maxLinesRendered - f.size.height)
      && |f.lines| <= o.state.maxLinesRendered
      && (t'.clamped <==> !MarkerOnScreen(CursorOf(f), o.state.previousViewportTop))
      && (Faithful(o.state, t') <==> MarkerOnScreen(CursorOf(f), o.state.previousViewportTop))
      && (CursorOf(f).Some? ==> t'.col == At(CursorOf(f).value.col))
  {
    hide Exec, Draw, Finish, Doc, Fits, SizeChanged;
    var lines := Finish(f);
    DrawShows(s, t, lines, f.size, f.overlays);
    var drawn := Draw(s, lines, f.size, f.overlays);
    var t1 := Exec(t, drawn.ops);
    CursorLands(drawn.state, t1, CursorOf(f));
    ExecConcat(t, drawn.ops, PositionCursor(drawn.state, CursorOf(f), |lines|).ops);
  }

  // ---- the same, told before the frame is drawn ----

  /** The longest frame a draw leaves on record: a full redraw starts over, every other path keeps count. */
  lemma {:induction false} LongestFrame(s: State, t: Terminal, lines: seq<Line>, size: Size, overlays: bool)
    requires Ready(s, t, size) && Fits(lines, size.width) && Printed(lines)
    ensures var m := Draw(s, lines, size, overlays).state.maxLinesRendered;
      if RedrawsFully(s, lines, size, overlays) then |lines| <= m && Max(size.height, m) == Max(size.height, |lines|)
      else m == Max(s.maxLinesRendered, |lines|)
  {
    hide Exec, Displays, Doc;
    if !SizeChanged(s, size) && s.previousLines != [] && !(s.clearOnShrink && |lines| < s.maxLinesRendered && !overlays) {
      ChangedRangeMeans(s.previousLines, lines);
      LongestAfterChanges(s, lines, size);
    }
  }

  lemma {:induction false} LongestAfterChanges(s: State, lines: seq<Line>, size: Size)
    requires Counters(s, size.height) && s.previousLines != []
    requires var r := ChangedRange(s.previousLines, lines);
      && (r.first == -1 ==> s.previousLines == lines)
      && (r.first >= |lines| ==> |lines| < |s.previousLines|)
      && (0 <= r.first < |lines| ==> r.first <= r.last)
    requires forall i :: 0 <= i < |lines| ==> lines[i].width <= size.width
    ensures var first := ChangedRange(s.previousLines, lines).first;
      var m := DrawChanges(s, lines, size).state.maxLinesRendered;
      if first != -1 && Min(first, Max(0, |lines| - 1)) < s.previousViewportTop then m == |lines|
      else m == Max(s.maxLinesRendered, |lines|)
  {
    hide ChangedRange, PaintOps, PrintOps, ShrinkOps, ScrollAheadOps;
    var first := ChangedRange(s.previousLines, lines).first;
    if first >= |lines| {
      DeletedLinesFitTheScreen(s, size.height, |lines|);
    }
  }

  /** The marker will be on the screen: the frame is redrawn in full, or the marker is not above the rows shown now. */
  predicate MarkerStays(s: State, f: Frame) {
    RedrawsFully(s, Finish(f), f.size, f.overlays) || MarkerOnScreen(CursorOf(f), s.previousViewportTop)
  }

  lemma {:induction false} MarkerStaysOnScreen(s: State, t: Terminal, f: Frame)
    requires Ready(s, t, f.size) && Fits(Finish(f), f.size.width)
    ensures MarkerOnScreen(CursorOf(f), DoRender(s, f).state.previousViewportTop) <==> MarkerStays(s, f)
    ensures DoRender(s, f).state.maxLinesRendered == Draw(s, Finish(f), f.size, f.overlays).state.maxLinesRendered
  {
    hide Exec, Displays, Draw, Fits, ChangedRange, Finish, Doc, CursorOf;
    FrameShows(s, t, f);
    LongestFrame(s, t, Finish(f), f.size, f.overlays);
    MarkerIsLow(f);
    DrawKeepsRunning(s, t, f);
  }

  lemma {:induction false} DrawKeepsRunning(s: State, t: Terminal, f: Frame)
    requires Ready(s, t, f.size) && Fits(Finish(f), f.size.width)
    ensures !Draw(s, Finish(f), f.size, f.overlays).state.stopped
  {
    DrawShows(s, t, Finish(f), f.size, f.overlays);
  }

  lemma {:induction false} MarkerIsLow(f: Frame)
    ensures CursorOf(f).Some? ==> |f.lines| - f.size.height <= CursorOf(f).value.row
    ensures |Finish(f)| == |f.lines|
  {
  }

  /** Drawing a frame shows its lines from previousViewportTop on; the counters know the screen again, and no
      move was clamped, exactly when, before the call, a full redraw was due or the marker was not above the viewport. */
  lemma {:induction false} FrameRefines(s: State, t: Terminal, f: Frame)
    requires Ready(s, t, f.size) && Fits(Finish(f), f.size.width)
    ensures var o := DoRender(s, f); var t' := Exec(t, o.ops);
      && Displays(t', o.state.previousViewportTop, Doc(Finish(f)))
      && o.state.previousLines == Finish(f) && !o.state.stopped
      && o.state.previousViewportTop == Max(0, o.state.maxLinesRendered - f.size.height)
      && |f.lines| <= o.state.maxLinesRendered
      && (t'.clamped <==> !MarkerStays(s, f))
      && (Faithful(o.state, t') <==> MarkerStays(s, f))
      && (CursorOf(f).Some? ==> t'.col == At(CursorOf(f).value.col))
  {
    hide Exec, Displays, DoRender, Finish, Fits, MarkerStays, MarkerOnScreen, Faithful, CursorOf, Doc;
    FrameShows(s, t, f);
    MarkerStaysOnScreen(s, t, f);
  }
}
