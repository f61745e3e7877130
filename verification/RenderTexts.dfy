/** The text of a drawn frame. */
module RenderTexts {
  // What a screen row says, told from the composed lines alone.
  import opened Screen
  import opened Renderer
  import opened RenderRefinement
  import opened Wrappers
  import opened Strings
  import A = AnsiCodes
  import L = AnsiLaws
  import R = AnsiRoundTrip
  import T = AnsiTexts

  /** A composed line as text, the cursor marker included. */
  function RawText(l: RawLine): string {
    match l
    case Plain(text, _) => text
    case Marked(before, after, _, _) => before + CURSOR_MARKER + after
  }

  /** Row k is the lowest marked one of the last `height` rows. */
  predicate IsCursorRow(f: Frame, k: nat) {
    && k < |f.lines| && f.lines[k].Marked? && |f.lines| - f.size.height <= k
    && forall j :: k < j < |f.lines| ==> f.lines[j].Plain?
  }

  /** The line as it is written: its own text and width, and a reset behind it; on the cursor row without the marker. */
  ghost predicate Written(f: Frame, k: nat, line: Line)
    requires k < |f.lines|
  {
    && line.width == f.lines[k].width
    && if IsCursorRow(f, k) then
         exists a, b {:trigger a + b} :: RawText(f.lines[k]) == a + CURSOR_MARKER + b && line.text == a + b + SEGMENT_RESET
       else line.text == RawText(f.lines[k]) + SEGMENT_RESET
  }

  predicate FrameFits(f: Frame) { forall k :: 0 <= k < |f.lines| ==> f.lines[k].width <= f.size.width }

  lemma {:induction false} FittingFrame(f: Frame)
    ensures FrameFits(f) <==> Fits(Finish(f), f.size.width)
  {
    forall k | 0 <= k < |f.lines| ensures Finish(f)[k].width == f.lines[k].width {
    }
  }

  lemma {:induction false} CursorRowIsFound(f: Frame, k: nat)
    requires k < |f.lines|
    ensures IsCursorRow(f, k) <==> CursorOf(f).Some? && CursorOf(f).value.row == k
  {
  }

  /** What is drawn of a frame: every line as it is to be written. */
  lemma {:induction false} FinishedIsWritten(f: Frame, k: nat)
    requires k < |f.lines|
    ensures Written(f, k, Finish(f)[k])
  {
    hide CursorOf, IsCursorRow;
    CursorRowIsFound(f, k);
    var l := f.lines[k];
    if IsCursorRow(f, k) {
      MarkedRow(f, k);
      assert RawText(l) == l.before + CURSOR_MARKER + l.after;
      assert l.before + "" + l.after == l.before + l.after;
    } else if l.Marked? {
      assert Finish(f)[k].text == l.before + CURSOR_MARKER + l.after + SEGMENT_RESET;
    }
  }

  lemma {:induction false} MarkedRow(f: Frame, k: nat)
    requires IsCursorRow(f, k)
    ensures f.lines[k].Marked?
  {
  }

  /** The screen shows the frame from row `top` on: every line as written, blank rows past the end. */
  ghost predicate ShowsFrame(t: Terminal, top: nat, f: Frame) {
    forall r {:trigger t.rows[r]} :: 0 <= r < |t.rows| ==>
      if top + r < |f.lines| then t.rows[r].Shows? && Written(f, top + r, t.rows[r].line) else t.rows[r] == Blank
  }

  lemma {:induction false} DisplaysFrame(t: Terminal, top: nat, f: Frame)
    requires Displays(t, top, Doc(Finish(f)))
    ensures ShowsFrame(t, top, f)
  {
    hide Written, Finish;
    forall r | 0 <= r < |t.rows|
      ensures if top + r < |f.lines| then t.rows[r].Shows? && Written(f, top + r, t.rows[r].line) else t.rows[r] == Blank
    {
      assert t.rows[r] == RowAt(Doc(Finish(f)), top + r);
      if top + r < |f.lines| { FinishedIsWritten(f, top + r); }
    }
  }

  /** After any frame the screen shows the texts of its lines. */
  lemma {:induction false} FrameIsShown(s: State, t: Terminal, f: Frame)
    requires Ready(s, t, f.size) && FrameFits(f)
    ensures var o := DoRender(s, f); ShowsFrame(Exec(t, o.ops), o.state.previousViewportTop, f)
  {
    hide DoRender, Exec, Finish, ShowsFrame, Displays;
    FittingFrame(f);
    FrameRefines(s, t, f);
    DisplaysFrame(Exec(t, DoRender(s, f).ops), DoRender(s, f).state.previousViewportTop, f);
  }

  /** The reset behind every line leaves no style, whatever the line has set. */
  lemma {:induction false} SegmentResetIsPlain(s: A.Style)
    ensures A.ProcessAll(s, A.CodesFrom(SEGMENT_RESET, 0)) == A.PLAIN
  {
    hide A.Process, A.CodesFrom;
    var sgr, link := L.Sgr("0"), A.FormatClose([A.BEL]);
    assert SEGMENT_RESET == sgr + link;
    R.SgrIsCode("0", link);
    T.CloseIsCode([A.BEL]);
    R.OneCode(SEGMENT_RESET, sgr, link);
    assert A.CodesFrom(SEGMENT_RESET, 0) == [sgr] + [link] by { FirstCode(sgr, link); }
    L.ResetLaw(s, "");
    ZeroIsReset(s);
    L.LinkLaw(A.Process(s, sgr), "", "", [A.BEL]);
    assert A.OSC8 + "" + ";" + "" + [A.BEL] == link;
    R.ProcessConcat(s, [sgr], [link]);
    assert [sgr][1..] == [] && [link][1..] == [];
  }

  lemma {:induction false} FirstCode(sgr: string, rest: string)
    requires sgr != "" && A.CodeLength(sgr + rest, 0) == |sgr|
    ensures A.CodesFrom(sgr + rest, 0) == [sgr] + A.CodesFrom(sgr + rest, |sgr|)
  {
    hide A.CodeLength;
    assert (sgr + rest)[0..|sgr|] == sgr;
  }

  lemma {:induction false} ZeroIsReset(s: A.Style)
    ensures A.Process(s, L.Sgr("0")) == A.Style({}, None, None, s.link)
  {
    assert DigitsValue("0") == 0 by { assert "0"[..0] == ""; }
    L.ResetLaw(s, "0");
  }
}
