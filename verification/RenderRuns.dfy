/** Whole runs of the renderer. */
module RenderRuns {
  import opened Arithmetic
  import opened Screen
  import opened Renderer
  import opened RenderRefinement
  import opened RenderTexts

  // ---- the cheap path against the full redraw ----

  /** Two windows into the same lines show the same rows only when they start on the same line. */
  lemma {:induction false} WindowsDiffer(a: Terminal, b: Terminal, lines: seq<Line>, top: nat)
    requires a.Ok() && b.Ok() && |a.rows| == |b.rows|
    requires Displays(a, top, Doc(lines)) && Displays(b, Max(0, |lines| - |b.rows|), Doc(lines))
    requires Max(0, |lines| - |b.rows|) <= top <= Max(0, |lines| - 1)
    ensures a.rows == b.rows <==> top == Max(0, |lines| - |b.rows|)
  {
    var last := Min(|lines|, |b.rows|) - 1;
    if top != Max(0, |lines| - |b.rows|) {
      assert a.rows[last] == Blank && b.rows[last] == Shows(lines[|lines| - 1]);
    } else {
      assert forall r :: 0 <= r < |a.rows| ==> a.rows[r] == b.rows[r];
    }
  }

  /** After any frame the screen is the one a full redraw would have produced, exactly when the frame is redrawn in
      full, or it is as long as the longest frame since the last full redraw, or that one fits on the screen. */
  lemma {:induction false} SameAsFullRedraw(s: State, t: Terminal, f: Frame)
    requires Ready(s, t, f.size) && Fits(Finish(f), f.size.width)
    ensures var o := DoRender(s, f); var full := FullRender(s, Finish(f), f.size, true);
      Exec(t, o.ops).rows == Exec(t, full.ops).rows <==>
      RedrawsFully(s, Finish(f), f.size, f.overlays) || s.maxLinesRendered <= Max(|f.lines|, f.size.height)
  {
    hide Exec, Displays, Draw, DoRender, Finish, Doc, CursorOf, RedrawsFully, MarkerStays, PrintOps, Fits;
    var lines := Finish(f);
    var o := DoRender(s, f);
    var full := FullRender(s, lines, f.size, true);
    FrameShows(s, t, f);
    FullRenderShows(s, t, lines, f.size, true);
    LongestFrame(s, t, lines, f.size, f.overlays);
    MarkerStaysOnScreen(s, t, f);
    MarkerIsLow(f);
    ViewportIsShown(s, t, lines, f.size, f.overlays);
    WindowsDiffer(Exec(t, o.ops), Exec(t, full.ops), lines, o.state.previousViewportTop);
  }

  lemma {:induction false} ViewportIsShown(s: State, t: Terminal, lines: seq<Line>, size: Size, overlays: bool)
    requires Ready(s, t, size) && Fits(lines, size.width) && Printed(lines)
    ensures Max(0, Draw(s, lines, size, overlays).state.maxLinesRendered - size.height) <= Max(0, |lines| - 1)
  {
    DrawShows(s, t, lines, size, overlays);
  }

  // ---- runs ----

  /** What happens to a TUI: a frame is drawn, a redraw is forced, an option is set, it is stopped, and started
      again. `reflow` is what the terminal shows after it was resized; it is only looked at when the size has
      changed. `left` is what the terminal shows when the TUI gets it back. */
  datatype Event =
    | Drawn(frame: Frame, reflow: Terminal)
    | Forced
    | ClearOnShrinkSet(enabled: bool)
    | Stopped
    | Started(left: Terminal, forced: bool)

  datatype World = World(state: State, terminal: Terminal)

  function Before(w: World, e: Event): Terminal
    requires e.Drawn?
  {
    if SizeChanged(w.state, e.frame.size) then e.reflow else w.terminal
  }

  function Step(w: World, e: Event): (w': World)
    requires w.terminal.Ok() && Admissible(w, e)
    ensures w'.terminal.Ok()
  {
    match e
    case Drawn(f, _) =>
      if w.state.stopped then w
      else var o := DoRender(w.state, f); World(o.state, Exec(Before(w, e), o.ops))
    case Forced => w.(state := Force(w.state))
    case ClearOnShrinkSet(enabled) => w.(state := w.state.(clearOnShrink := enabled))
    case Stopped => var o := Stop(w.state); World(o.state, Exec(w.terminal, o.ops))
    case Started(left, forced) => World(Restart(w.state, forced), left)
  }

  /** A forced redraw is still to come. */
  predicate Forgotten(s: State) {
    s.previousLines == [] && s.previousWidth == -1
  }

  /** A frame reports the size the terminal has, its lines fit, and its marker is not above the rows shown, unless
      it is redrawn in full. A restart forces a redraw, unless nothing was drawn and the terminal was left alone. */
  predicate Admissible(w: World, e: Event) {
    match e
    case Drawn(f, reflow) => !w.state.stopped ==>
      && OnTerminal(Before(w, e), f.size) && !reflow.clamped
      && Fits(Finish(f), f.size.width) && MarkerStays(w.state, f)
    case Started(left, forced) =>
      && left.Ok() && !left.clamped
      && (forced || Forgotten(w.state) || (w.state.previousLines == [] && left == w.terminal))
    case _ => true
  }

  predicate AllAdmissible(w: World, events: seq<Event>)
    requires w.terminal.Ok()
    decreases |events|, 0
  {
    events == [] ||
    (AllAdmissible(w, events[..|events| - 1]) && Admissible(Run(w, events[..|events| - 1]), events[|events| - 1]))
  }

  function Run(w: World, events: seq<Event>): (w': World)
    requires w.terminal.Ok() && AllAdmissible(w, events)
    ensures w'.terminal.Ok()
    decreases |events|, 1
  {
    if events == [] then w
    else Step(Run(w, events[..|events| - 1]), events[|events| - 1])
  }

  /** Between frames the renderer knows the screen, unless a redraw was forced and is still to come. Of a terminal
      it has given back it knows only what it showed when nothing had been drawn. */
  ghost predicate Known(w: World) {
    && w.terminal.Ok()
    && if w.state.stopped then
         w.state.previousLines == [] ==> Forgotten(w.state) || Faithful(w.state, w.terminal)
       else
         (Forgotten(w.state) && !w.terminal.clamped) || Faithful(w.state, w.terminal)
  }

  lemma {:induction false} StepKeepsKnown(w: World, e: Event)
    requires Known(w) && Admissible(w, e)
    ensures Known(Step(w, e))
    ensures e.Drawn? && !w.state.stopped ==>
      && !Step(w, e).state.stopped
      && Displays(Step(w, e).terminal, Step(w, e).state.previousViewportTop, Doc(Finish(e.frame)))
  {
    hide Exec, Displays, DoRender, Finish, Fits, MarkerStays, Doc, Vertical;
    if e.Drawn? && !w.state.stopped { FrameRefines(w.state, Before(w, e), e.frame); }
    if e.Stopped? && w.state.previousLines == [] { ExecNothing(w.terminal); }
  }

  lemma {:induction false} ExecNothing(t: Terminal)
    requires t.Ok()
    ensures Exec(t, []) == t
  {
  }

  /** Over every run of frames, resizes, forced redraws, stops and restarts: while the TUI runs no cursor move has
      been clamped, and after each frame the screen shows exactly that frame from previousViewportTop on, blank
      past its end. */
  lemma {:induction false} EveryRunRefines(w: World, events: seq<Event>)
    requires Known(w) && AllAdmissible(w, events)
    ensures var w' := Run(w, events);
      && Known(w') && (!w'.state.stopped ==> !w'.terminal.clamped)
      && (events != [] && events[|events| - 1].Drawn? && !w'.state.stopped ==>
            && Displays(w'.terminal, w'.state.previousViewportTop, Doc(Finish(events[|events| - 1].frame)))
            && ShowsFrame(w'.terminal, w'.state.previousViewportTop, events[|events| - 1].frame))
  {
    hide Exec, Displays, DoRender, Finish, Doc, Step, Admissible, ShowsFrame;
    if events != [] {
      var before := Run(w, events[..|events| - 1]);
      var e := events[|events| - 1];
      EveryRunRefines(w, events[..|events| - 1]);
      StepKeepsKnown(before, e);
      if e.Drawn? {
        if before.state.stopped {
          StoppedDrawsNothing(before, e);
        } else {
          DisplaysFrame(Step(before, e).terminal, Step(before, e).state.previousViewportTop, e.frame);
        }
      }
    }
  }

  lemma {:induction false} StoppedDrawsNothing(w: World, e: Event)
    requires w.terminal.Ok() && w.state.stopped && e.Drawn?
    ensures Admissible(w, e) && Step(w, e) == w
  {
  }

  /** A fresh renderer on a blank screen with the cursor in its first column and row. */
  lemma {:induction false} FreshIsKnown(t: Terminal)
    requires t.Ok() && !t.clamped && t.row == 0 && t.col == At(0) && (forall r :: 0 <= r < |t.rows| ==> t.rows[r] == Blank)
    ensures Known(World(FRESH_STATE, t))
  {
    assert Displays(t, 0, Doc([]));
  }
}
