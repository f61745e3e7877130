/** The anchored transcript window. */
module Transcript {
  import opened Arithmetic

  type Line = string

  /** The fields that place the window; offset 0 follows the end of the transcript. */
  datatype Window = Window(scrollOffset: int, maxScrollOffset: nat, viewportHeight: nat, topLineCount: nat, start: nat)

  const FRESH := Window(0, 0, 0, 0, 0)

  /** Placing the window for n transcript lines over `bottom` lines on a screen of `height` rows. */
  function Place(w: Window, n: nat, bottom: nat, height: nat): Window {
    if height == 0 then w
    else if bottom >= height then w.(viewportHeight := 0, topLineCount := n, maxScrollOffset := n)
    else
      var rows := height - bottom;
      var anchored :=
        if w.scrollOffset > 0 && w.topLineCount > 0 && n > w.topLineCount
        then w.scrollOffset + n - w.topLineCount else w.scrollOffset;
      var max := Max(0, n - rows);
      var offset := Max(0, Min(anchored, max));
      Window(offset, max, rows, n, Max(0, n - rows - offset))
  }

  function Visible(w: Window, top: seq<Line>): seq<Line>
    requires w.start <= |top|
  {
    top[w.start..Min(|top|, w.start + w.viewportHeight)]
  }

  /** The rows of the screen, top to bottom. */
  function Rows(w: Window, top: seq<Line>, bottom: seq<Line>, height: nat): seq<Line>
    requires height > |bottom| ==> w.start <= |top|
  {
    if height == 0 then top + bottom
    else if |bottom| >= height then bottom[|bottom| - height..]
    else
      var visible := Visible(w, top);
      visible + seq(Max(0, height - |bottom| - |visible|), i => "") + bottom
  }

  function Scroll(w: Window, delta: int): Window {
    if delta == 0 then w
    else w.(scrollOffset := Max(0, Min(w.maxScrollOffset, w.scrollOffset + delta)))
  }

  predicate InRange(w: Window) { 0 <= w.scrollOffset <= w.maxScrollOffset }

  /**
   * The offset stays in range through every render but one: when the bottom alone fills the screen
   * while the transcript has become shorter than the offset, the offset is not clamped.
   */
  lemma {:induction false} PlaceKeepsRange(w: Window, n: nat, bottom: nat, height: nat)
    requires InRange(w)
    ensures InRange(Place(w, n, bottom, height)) <==> !(0 < height <= bottom && n < w.scrollOffset)
  {
    var rows, max := height - bottom, Max(0, n - (height - bottom));
    assert height > bottom ==> 0 <= Place(w, n, bottom, height).scrollOffset <= max;
  }

  /** A scroll, or the next render that leaves room for the transcript, brings the offset back in range. */
  lemma {:induction false} RangeIsRestored(w: Window, delta: int, n: nat, bottom: nat, height: nat)
    ensures delta != 0 ==> InRange(Scroll(w, delta))
    ensures bottom < height ==> InRange(Place(w, n, bottom, height))
  {
    var max := Max(0, n - (height - bottom));
    assert bottom < height ==> Place(w, n, bottom, height).maxScrollOffset == max;
  }

  /** A render that leaves room changes the offset only to clamp it, unless a transcript that was scrolled back grew. */
  lemma {:induction false} OnlyGrowthIsFollowed(w: Window, n: nat, bottom: nat, height: nat)
    requires bottom < height && (w.scrollOffset <= 0 || w.topLineCount == 0 || n <= w.topLineCount)
    ensures Place(w, n, bottom, height).scrollOffset == Max(0, Min(w.scrollOffset, Max(0, n - (height - bottom))))
  {
    var rows := height - bottom;
    assert Place(w, n, bottom, height).maxScrollOffset == Max(0, n - rows);
  }

  /** The screen is filled exactly, and following the end shows the last lines. */
  lemma {:induction false} RowsFillTheScreen(w: Window, top: seq<Line>, bottom: seq<Line>, height: nat)
    requires height > 0
    ensures var p := Place(w, |top|, |bottom|, height);
      && |Rows(p, top, bottom, height)| == height
      && (|bottom| < height && p.scrollOffset == 0 ==>
          Visible(p, top) == top[Max(0, |top| - p.viewportHeight)..])
  {
    var p := Place(w, |top|, |bottom|, height);
    if |bottom| < height {
      var max := Max(0, |top| - p.viewportHeight);
      assert p.start == Max(0, max - p.scrollOffset);
      assert |Visible(p, top)| <= p.viewportHeight;
    }
  }

  /** Row by row: the bottom lines keep the lowest rows, and without room for more only their last lines are shown;
      above them stands the transcript, which ends `scrollOffset` lines before its end when it does not fit. */
  lemma {:induction false} RowShows(w: Window, top: seq<Line>, bottom: seq<Line>, height: nat, i: nat)
    requires 0 < height && i < height
    ensures var p := Place(w, |top|, |bottom|, height);
      var rows := height - |bottom|;
      |Rows(p, top, bottom, height)| == height && Rows(p, top, bottom, height)[i] ==
        if i >= rows then bottom[i - rows]
        else if |top| >= rows then top[|top| - p.scrollOffset - rows + i]
        else if i < |top| then top[i] else ""
  {
    var p, rows := Place(w, |top|, |bottom|, height), height - |bottom|;
    RowsFillTheScreen(w, top, bottom, height);
    if rows > 0 {
      assert 0 <= p.scrollOffset <= Max(0, |top| - rows);
      assert p.start == if |top| >= rows then |top| - rows - p.scrollOffset else 0;
      assert Rows(p, top, bottom, height)[i] ==
        if i >= rows then bottom[i - rows] else if i < |Visible(p, top)| then Visible(p, top)[i] else "";
    }
  }

  /** A scroll moves the window by its lines: towards the beginning for a positive delta, towards the end for a negative
      one, and no further than either. */
  lemma {:induction false} ScrollMovesTheWindow(w: Window, n: nat, bottom: nat, height: nat, delta: int)
    requires bottom < height
    ensures var p := Place(w, n, bottom, height);
      Place(Scroll(p, delta), n, bottom, height).start == Max(0, Min(p.start - delta, Max(0, n - (height - bottom))))
  {
    var max := Max(0, n - (height - bottom));
    var p := Place(w, n, bottom, height);
    assert p.maxScrollOffset == max && p.start == max - p.scrollOffset;
    var q := Place(Scroll(p, delta), n, bottom, height);
    assert q.scrollOffset == Max(0, Min(max, p.scrollOffset + delta));
  }

  /** The window was last placed for these lines with room for the transcript, and is scrolled back. */
  predicate ScrolledBack(w: Window, n: nat, rows: nat) {
    && rows > 0 && n > 0 && w.topLineCount == n && w.viewportHeight == rows
    && 0 < w.scrollOffset <= w.maxScrollOffset == Max(0, n - rows)
    && w.start == Max(0, n - rows - w.scrollOffset)
  }

  lemma {:induction false} PlacedIsScrolledBack(w: Window, n: nat, bottom: nat, height: nat)
    requires bottom < height && Place(w, n, bottom, height).scrollOffset > 0
    ensures ScrolledBack(Place(w, n, bottom, height), n, height - bottom)
  {
    var max := Max(0, n - (height - bottom));
    assert Place(w, n, bottom, height).scrollOffset <= max;
  }

  /** Appending lines while scrolled back moves neither the start of the window nor its contents. */
  lemma {:induction false} AppendKeepsView(w: Window, top: seq<Line>, more: seq<Line>, bottom: nat, height: nat)
    requires bottom < height && ScrolledBack(w, |top|, height - bottom)
    ensures var p := Place(w, |top + more|, bottom, height);
      && p.start == w.start && ScrolledBack(p, |top + more|, height - bottom)
      && Visible(p, top + more) == Visible(w, top)
  {
    var rows, n, m := height - bottom, |top|, |top + more|;
    var p := Place(w, m, bottom, height);
    assert w.start == n - rows - w.scrollOffset;
    assert p.scrollOffset == w.scrollOffset + (m - n);
    assert w.start + rows <= n;
    assert Visible(p, top + more) == (top + more)[w.start..w.start + rows];
    assert Visible(w, top) == top[w.start..w.start + rows];
  }

  /** The transcript after each of a run of appends, and the window placed for it each time. */
  function Appended(top: seq<Line>, appends: seq<seq<Line>>): seq<Line>
    decreases |appends|
  {
    if appends == [] then top else Appended(top + appends[0], appends[1..])
  }

  function PlaceAll(w: Window, top: seq<Line>, appends: seq<seq<Line>>, bottom: nat, height: nat): Window
    decreases |appends|
  {
    if appends == [] then w
    else PlaceAll(Place(w, |top + appends[0]|, bottom, height), top + appends[0], appends[1..], bottom, height)
  }

  lemma {:induction false} AppendsKeepView(w: Window, top: seq<Line>, appends: seq<seq<Line>>, bottom: nat, height: nat)
    requires bottom < height && ScrolledBack(w, |top|, height - bottom)
    ensures var p := PlaceAll(w, top, appends, bottom, height);
      && p.start == w.start && p.start <= |Appended(top, appends)| && w.start <= |top|
      && Visible(p, Appended(top, appends)) == Visible(w, top)
    decreases |appends|
  {
    hide Place, Visible;
    if appends != [] {
      AppendKeepsView(w, top, appends[0], bottom, height);
      AppendsKeepView(Place(w, |top + appends[0]|, bottom, height), top + appends[0], appends[1..], bottom, height);
    }
  }

  /** The same from any render that left the window scrolled back. */
  lemma {:induction false} RenderedViewIsKept(w: Window, top: seq<Line>, appends: seq<seq<Line>>, bottom: nat, height: nat)
    requires bottom < height && Place(w, |top|, bottom, height).scrollOffset > 0
    ensures var shown := Place(w, |top|, bottom, height);
      var p := PlaceAll(shown, top, appends, bottom, height);
      && p.start == shown.start && p.start <= |Appended(top, appends)| && shown.start <= |top|
      && Visible(p, Appended(top, appends)) == Visible(shown, top)
  {
    hide Place, Visible, PlaceAll, ScrolledBack;
    PlacedIsScrolledBack(w, |top|, bottom, height);
    AppendsKeepView(Place(w, |top|, bottom, height), top, appends, bottom, height);
  }

  class TranscriptView {
    var scrollOffset: int
    var maxScrollOffset: nat
    var viewportHeight: nat
    var topLineCount: nat
    var visibleStartLine: nat

    ghost function Now(): Window
      reads this
    {
      Window(scrollOffset, maxScrollOffset, viewportHeight, topLineCount, visibleStartLine)
    }

    constructor ()
      ensures Now() == FRESH
    {
      scrollOffset, maxScrollOffset, viewportHeight, topLineCount, visibleStartLine := 0, 0, 0, 0, 0;
    }

    /** False when there is nothing to do. */
    method ScrollTranscript(deltaLines: int) returns (handled: bool)
      modifies this`scrollOffset
      ensures Now() == Scroll(old(Now()), deltaLines)
      ensures handled <==> deltaLines != 0
    {
      if deltaLines == 0 {
        return false;
      }
      var next := Max(0, Min(maxScrollOffset, scrollOffset + deltaLines));
      if next == scrollOffset {
        return true;
      }
      scrollOffset := next;
      handled := true;
    }

    /** Four fifths of the window, at least one line. */
    method ScrollTranscriptPage(direction: int) returns (handled: bool)
      modifies this`scrollOffset
      ensures Now() == Scroll(old(Now()), direction * Max(1, 4 * viewportHeight / 5))
    {
      var amount := Max(1, 4 * viewportHeight / 5);
      handled := ScrollTranscript(direction * amount);
    }

    method Render(topLines: seq<Line>, bottomLines: seq<Line>, height: nat) returns (rows: seq<Line>)
      modifies this
      ensures Now() == Place(old(Now()), |topLines|, |bottomLines|, height)
      ensures height > |bottomLines| ==> visibleStartLine <= |topLines|
      ensures rows == Rows(Now(), topLines, bottomLines, height)
    {
      if height == 0 {
        return topLines + bottomLines;
      }
      if |bottomLines| >= height {
        viewportHeight := 0;
        topLineCount := |topLines|;
        maxScrollOffset := |topLines|;
        return bottomLines[|bottomLines| - height..];
      }
      var topViewportHeight := height - |bottomLines|;
      viewportHeight := topViewportHeight;
      if scrollOffset > 0 && topLineCount > 0 && |topLines| > topLineCount {
        scrollOffset := scrollOffset + |topLines| - topLineCount;
      }
      topLineCount := |topLines|;
      maxScrollOffset := Max(0, |topLines| - topViewportHeight);
      scrollOffset := Max(0, Min(scrollOffset, maxScrollOffset));
      var start := Max(0, |topLines| - topViewportHeight - scrollOffset);
      var visibleTopLines := topLines[start..Min(|topLines|, start + topViewportHeight)];
      visibleStartLine := start;
      var spacerLines := Max(0, topViewportHeight - |visibleTopLines|);
      rows := visibleTopLines + seq(spacerLines, i => "") + bottomLines;
    }
  }
}
