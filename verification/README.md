# Verified model of the terminal renderer, the agent loop and the streaming parsers

This project models the parts of a coding-agent workspace in which state lives longest and mistakes show latest, and proves what they keep over every run:

- **the differential renderer** of the terminal UI: one frame is compared with the previous one and only relative cursor moves, line feeds, erasures and changed lines are written, trusting private counters to know where the real cursor is (`Screen`, `Renderer`, `RenderRefinement`, `RenderTexts`, `RenderWrites`, `RenderRuns`, `RenderFailures`, `TuiClass`);
- **text with escape codes**: the style tracker and its printer, word wrapping, column slicing and overlay splicing, over codes and graphemes (`AnsiCodes`, `AnsiParams`, `AnsiRoundTrip`, `AnsiTexts`, `AnsiForms`, `AnsiLaws`, `AnsiTracker`, `StyledText`, `TextWrap`, `WrapMeaning`, `WrapBreaks`, `WrapLayout`, `WrapClosing`, `WrapFitSteps`, `WrapWide`, `WrapFits`, `WrapOverflow`, `Overlay`, `OverlaySpots`, `OverlayCells`, `TextUtils`);
- **the agent loop**: turns, streamed replies, sequential and parallel tool batches, message queues and the event-fed state of an agent (`AgentEvents`, `Agents`, `AgentStates`, `AgentProtocol`, `AgentResults`, `AgentLoop`, `AgentRuns`);
- **terminal input**: escape sequences and bracketed paste out of arbitrary chunks (`StdinTokens`, `StdinForms`, `StdinKeys`, `StdinSequences`, `StdinCuts`, `StdinChunks`, `StdinBuffers`);
- **the router's NDJSON stream**: events folded into one message under budgets (`RouterStream`, `RouterRuns`, `RouterVerdict`, `RouterTexts`, `RouterBlocks`, `RouterLimits`, `RouterConsumer`);
- **two smaller machines**: the presence gate's time accounting (`Presence`) and the prompt-template scanner (`Template`); and the anchored transcript window (`Transcript`).

`Strings`, `Arithmetic` and `Wrappers` hold shared helpers. Where the program changes state step by step, the model is a class or a method with loops, and its postcondition ties the new state to a specification function; what the program promises is then proved about that function, and what the function means is told without it: what text stands on which row, why a line was broken, what a code does to a style, which call a result answers, what a message says.

The terminal is rows of atomic lines with a cursor that clamps (ECMA-48 sections 8.3.19 CUD, 8.3.22 CUU, 8.3.41 EL, 8.3.74 LF). Styles follow SGR (ECMA-48 section 8.3.117) as `AnsiCodeTracker.process` reads it, and OSC 8 hyperlinks. Model replies, tool outcomes, hooks, clocks, JSON parsing and whatever callers do while a run waits are parameters or nondeterministic choices; tasks of a parallel batch are run in every interleaving.

## What turned out not to hold

The model keeps the code as it is. Where a promise fails, the exact condition is proved.

- *Cursor marker above the viewport.* `extractCursorPosition` accepts a marker in the last `height` lines, but after a shrink the viewport may begin lower. The screen is then right for this frame, the cursor move is clamped, and a following frame is drawn over the wrong rows. `FrameRefines` gives the condition as an equivalence, told before the frame is drawn: a full redraw is due, or the marker is not above the rows shown now. `MarkerAboveIsReachable` gets there in two frames, `MarkerAboveViewportCorrupts` builds the following frame.
- *Same screen as a full redraw.* True exactly when the frame is redrawn in full, or the longest frame since the last full redraw is no longer than this frame or the screen (`SameAsFullRedraw`); the two frames of `MarkerAboveIsReachable` fail it too.
- *Restarts.* `stop` leaves the cursor below the content, or the rows moved up, and `start` asks for an ordinary frame. The renderer knows the screen it comes back to exactly when a redraw is forced, or nothing was drawn (`RestartIsRight`); otherwise some next frame is shown wrong (`UnforcedRestartCorrupts`). The callers that come back from another program do force a redraw.
- *Wrapped lines fit.* The documentation of `wrapTextWithAnsi` says every line is at most `width` wide. `WrapTextFits` gives the condition for every text and width: no grapheme but white space is wider than a line, and no code is put behind white space that is too wide. The second part can fail because a line that looks empty takes any run of white space, which would be trimmed unless a code follows it. Three inputs show what it takes, each on a line one column wide: a grapheme of two columns (`IdeographOverflows`; every such text overflows, `WideGraphemesOverflow`), white space that is no ordinary space (`NoBreakSpacesOverflow`), and a grapheme that takes no column, between ordinary spaces (`InvisibleGraphemesOverflow`). On a line of at least one column, text whose graphemes all take a column and whose only white space is spaces and newlines fits exactly when none of them is wider than the line (`OrdinaryTextFits`).
- *Slices keep styles.* A slice puts the codes that stand at its first column before the earlier ones. It shows the graphemes of its columns in any case, and their styles exactly when that order makes no difference (`SliceShows`); `SliceMayRestyle` is a line that is restyled. Slices from the first column on are right (`SliceFromStart`).
- *Overlays leave the rest in place.* A wide base grapheme that straddles the end of an overlay is dropped, and what is behind it moves left to the overlay's end; exactly then the base behind an overlay leaves its columns (`BaseKeepsItsColumns`, `CutGraphemeMovesTheRest`).
- *Chunk invariance of terminal input* fails exactly at two kinds of cut (`OneCut`, and `ChunksMakeNoDifference` for what listeners get): between `ESC ESC` and a character that begins a longer sequence, and inside a paste marker, when an unfinished sequence stands before it that the first part of the marker completes. The second kind delivers what the whole input would drop: alone, as an Escape key before a paste (`EscapeBeforePaste`), or with a part of the marker, and then the paste goes unnoticed (`SplitMarkerSwallowed`).
- *Transcript offset in range.* The offset is not clamped when the bottom alone fills the screen while the transcript has become shorter than the offset (`PlaceKeepsRange`).
- *A reply begun twice* would overlap its own message events; replies keep to the protocol exactly when the provider begins them at most once, as the stream contract asks (`ReplyFollows`).
- *An error event of the router does not always stick*: a tool call after it makes the message a tool use again (`ErrorDoesNotStick`). A completed stream ends as an error exactly when some error event has no event with tool calls after it (`WhenAnErrorSticks`).

## Model

| member | source | states |
|---|---|---|
| `Renderer.FindMarker` | packages/tui/src/tui.ts:1839-1857 | the marker found is the lowest one in the rows looked at |
| `TuiClass.ExtractCursorPosition` | packages/tui/src/tui.ts:1839-1857 | the upward scan returns that marker and strips exactly the line that holds it |
| `TuiClass.ApplyLineResets` | packages/tui/src/tui.ts:1700-1709 | every line is finished as specified, and none is empty |
| `RenderTexts.FinishedIsWritten` | packages/tui/src/tui.ts:1700-1709 | a finished line is the composed line with a reset behind it; on the row of the lowest marker in view the cursor marker alone is taken out, what stands before and after it stays, and so does the width |
| `RenderTexts.SegmentResetIsPlain` | packages/tui/src/tui.ts:1700-1709 | the codes of that reset leave the default style from any style |
| `TuiClass.FindChangedRange` | packages/tui/src/tui.ts:1972-1994 | the loop finds the first and last differing row, a missing row counting as empty |
| `RenderRefinement.ChangedRangeMeans` | packages/tui/src/tui.ts:1972-1994 | what the two indices mean: no change iff the frames are equal, past the end iff lines were only deleted, outside the range both frames agree |
| `RenderRefinement.FullRenderShows` | packages/tui/src/tui.ts:1889-1930 | a full redraw leaves the screen, cursor row and counters in agreement, from any screen when it clears |
| `RenderRefinement.ShrinkShows` | packages/tui/src/tui.ts:2009-2056 | deleting lines at the end erases exactly their rows and puts the cursor on the last line left |
| `RenderRefinement.DifferentialPlan` | packages/tui/src/tui.ts:2058-2083 | on counters that agree the scroll-ahead branch is never taken and every cursor move stays on the screen |
| `RenderRefinement.RepaintShows` | packages/tui/src/tui.ts:2100-2180 | repainting a range shows its lines, scrolling once per line below the screen |
| `RenderRefinement.DifferentialShows` | packages/tui/src/tui.ts:2058-2224 | the cheap path turns a screen showing the previous frame into one showing the new frame, counters in agreement |
| `RenderRefinement.DrawShows` | packages/tui/src/tui.ts:1932-2224 | whichever of the five paths is chosen, the new frame is on the screen |
| `RenderRefinement.LongestFrame` | packages/tui/src/tui.ts:1859-2225 | a full redraw starts the count of the longest frame over, every other path keeps it, and which of the two happens is told before the frame is drawn |
| `RenderRefinement.DeletedLinesFitTheScreen` | packages/tui/src/tui.ts:2018-2032 | more deleted lines than rows always reach above the viewport, so the second test of that branch never decides |
| `RenderRefinement.CursorLands` | packages/tui/src/tui.ts:2231-2263 | the cursor lands on its marker's row and column, and is clamped exactly when the marker is above the viewport |
| `RenderRefinement.FrameRefines` | packages/tui/src/tui.ts:1859-2225 | after one frame row s shows line previousViewportTop+s, and the viewport is the longest frame minus the height; no move was clamped, and the counters agree, iff before the call a full redraw was due or the marker was not above the viewport |
| `RenderTexts.FrameIsShown` | packages/tui/src/tui.ts:1859-2225 | after any frame whose lines fit, row s holds the text of line previousViewportTop+s as it is to be written, marker and reset included in the account, and rows past the end are blank |
| `RenderWrites.FrameWrites` | packages/tui/src/tui.ts:1889-2224 | a frame is counted as a full redraw iff one was due, then all its lines are written, after a clearing unless it is the first; otherwise one run of lines is written that begins at the first change, ends at the last one or, when their number has changed, at the end, and nothing is cleared before |
| `RenderRuns.SameAsFullRedraw` | packages/tui/src/tui.ts:1859-2225 | the screen equals that of a full redraw iff the frame is redrawn in full, or the longest frame so far is no longer than this frame or the screen |
| `RenderRuns.StepKeepsKnown` | packages/tui/src/tui.ts:1228-1333 | frames, resizes, forced redraws, stops, and restarts that force a redraw or find nothing drawn, all keep what the renderer knows of the screen |
| `RenderRuns.EveryRunRefines` | packages/tui/src/tui.ts:1859-2225 | over every run of such steps no move is clamped while the TUI runs, and the texts of the last frame drawn are on the screen |
| `RenderRuns.FreshIsKnown` | packages/tui/src/tui.ts:331-349 | a new renderer on a clean screen starts such a run |
| `RenderFailures.MarkerAboveDesyncs` | packages/tui/src/tui.ts:2231-2263 | a marker above the viewport leaves the cursor on another row than the counters say |
| `RenderFailures.MarkerAboveViewportCorrupts` | packages/tui/src/tui.ts:1839-1857 | and then some next frame is not what the screen shows |
| `RenderFailures.MarkerAboveIsReachable` | packages/tui/src/tui.ts:1839-1857 | two frames on a fresh screen lead there: the second is neither redrawn in full nor has its marker on the screen |
| `RenderFailures.RestartIsRight` | packages/tui/src/tui.ts:1228-1304 | after a stop and a start on an untouched screen the renderer knows the screen iff the restart forces a redraw or nothing was drawn |
| `RenderFailures.UnforcedRestartCorrupts` | packages/tui/src/tui.ts:1228-1304 | after an unforced restart some next frame is not what the screen shows |
| `TuiClass.Tui.StopRendering` | packages/tui/src/tui.ts:1280-1304 | stopping moves below the content and leaves the specified state and screen |
| `TuiClass.Tui.StartRendering` | packages/tui/src/tui.ts:1228-1240 | starting again clears the stopped flag and, when forced, forgets the previous frame |
| `TuiClass.Tui.RequestForcedRender` | packages/tui/src/tui.ts:1306-1333 | a forced render forgets the previous frame and its size |
| `TuiClass.Tui.PositionHardwareCursor` | packages/tui/src/tui.ts:2231-2263 | the cursor method writes the specified moves and keeps the specified row |
| `TuiClass.Tui.RenderFully` | packages/tui/src/tui.ts:1889-1930 | the full redraw writes and stores what the specification says |
| `TuiClass.Tui.RenderChanges` | packages/tui/src/tui.ts:2058-2224 | the cheap path writes and stores what the specification says |
| `TuiClass.Tui.Render` | packages/tui/src/tui.ts:1859-2225 | one frame: fields and terminal are those the refinement theorem speaks about, and when the lines fit, the screen shows the text of each line on its row |
| `AnsiTracker.ExtractAnsiCode` | packages/tui/src/utils.ts:307-345 | the scan finds the code that starts at a position, or none |
| `AnsiForms.CodesHaveTheForm` | packages/tui/src/utils.ts:307-345 | a code begins at a position iff the text there is ESC [ up to its first m, G, K, H or J, or ESC ] or ESC _ up to its first bell or ESC backslash, and that is its length |
| `AnsiRoundTrip.LinkRoundTrip` | packages/tui/src/utils.ts:352-381 | a hyperlink is stored so that printing it gives back the very code it came from, terminator included |
| `AnsiRoundTrip.ParamsOfPrinted` | packages/tui/src/utils.ts:418-550 | printed parameters are parameters, and never read as a reset |
| `AnsiParams.SplitJoin` | packages/tui/src/utils.ts:418-590 | splitting joined codes gives the codes' own parameters back, in order |
| `AnsiParams.DecimalRoundTrip` | packages/tui/src/utils.ts:418-550 | a printed number reads as itself |
| `AnsiRoundTrip.SgrRestores` | packages/tui/src/utils.ts:418-590 | the printed SGR code restores attributes and both colours, 256-colour and RGB included |
| `AnsiRoundTrip.PrintedCodes` | packages/tui/src/utils.ts:307-590 | what is found in a printed style is the SGR code and the link code that were printed, nothing else |
| `AnsiRoundTrip.TrackerRoundTrip` | packages/tui/src/utils.ts:404-624 | processing the codes of getActiveCodes on a cleared tracker restores exactly the state that printed them |
| `AnsiRoundTrip.ProcessKeepsReachable` | packages/tui/src/utils.ts:418-550 | no code leads out of the states the round trip covers |
| `AnsiTexts.FoundCodeIsCode` | packages/tui/src/utils.ts:307-345 | what a scan finds inside a text is a code on its own, whatever stands around it |
| `AnsiTexts.TextRoundTrip` | packages/tui/src/utils.ts:404-637 | for every text, the codes printed for the state its codes leave restore exactly that state |
| `AnsiTexts.LineEndCloses` | packages/tui/src/utils.ts:614-624 | the line-end reset switches underline off and closes the hyperlink, and changes nothing else |
| `AnsiLaws.ResetLaw` | packages/tui/src/utils.ts:418-550 | ESC [ m and every spelling of ESC [ 0 m leave the hyperlink and nothing else |
| `AnsiLaws.AttributeOn` | packages/tui/src/utils.ts:418-550 | 1 to 5 and 7 to 9 each add one attribute to the others |
| `AnsiLaws.AttributeOff` | packages/tui/src/utils.ts:418-550 | 23 to 25 and 27 to 29 each take one attribute away, 22 bold and dim, 21 bold; the other attributes, the colours and the link stay |
| `AnsiLaws.DefaultColours` | packages/tui/src/utils.ts:418-550 | 39 clears the foreground, 49 the background, and nothing else |
| `AnsiLaws.BasicColours` | packages/tui/src/utils.ts:418-550 | 30 to 37 and 90 to 97 set only the foreground, 40 to 47 and 100 to 107 only the background |
| `AnsiLaws.ExtendedColours` | packages/tui/src/utils.ts:418-550 | 38;5;N and 38;2;R;G;B set only the foreground, with 48 only the background, to the text of the parameters |
| `AnsiLaws.OtherNumbers` | packages/tui/src/utils.ts:418-550 | every other number changes nothing |
| `AnsiLaws.LeftToRight` | packages/tui/src/utils.ts:418-550 | the parameters of one code act one after the other as if each had a code of its own |
| `AnsiLaws.PassedOver` | packages/tui/src/utils.ts:418-550 | an empty parameter, and a 38 or 48 that no colour follows, are passed over |
| `AnsiLaws.LinkLaw` | packages/tui/src/utils.ts:352-381 | an OSC 8 code with a target opens that hyperlink, one without closes it; the rest of the style stays |
| `AnsiForms.NotAStyle` | packages/tui/src/utils.ts:418-550 | a control sequence that ends in m but has other parameters than digits and semicolons changes nothing |
| `AnsiTracker.AnsiCodeTracker.Process` | packages/tui/src/utils.ts:418-550 | the mutating tracker computes the style that the laws above and the round trip speak about |
| `AnsiTracker.AnsiCodeTracker.UpdateFromText` | packages/tui/src/utils.ts:626-637 | feeding a text processes the codes a scan of it finds, in order, by the same laws |
| `AnsiTracker.AnsiCodeTracker.GetActiveCodes` | packages/tui/src/utils.ts:572-590 | the printer returns the codes the round trip speaks about |
| `AnsiTracker.AnsiCodeTracker.GetLineEndReset` | packages/tui/src/utils.ts:614-624 | the codes found in what it returns take the tracker's state to the same with underline off and no hyperlink |
| `StyledText.ActiveItemsRestore` | packages/tui/src/utils.ts:572-590 | a line started with the active codes continues in the active style, at no width |
| `StyledText.TrimDropsSpace` | packages/tui/src/utils.ts:830-833 | trimming drops white-space cells only |
| `WrapMeaning.TokensKeepItems` | packages/tui/src/utils.ts:642-716 | splitting into tokens loses and reorders nothing |
| `WrapBreaks.TokensEndAtBoundaries` | packages/tui/src/utils.ts:642-716 | tokens end exactly where a space meets a word and around every grapheme that lines may break around, codes going with what follows them |
| `WrapMeaning.BreakKeepsCells` | packages/tui/src/utils.ts:851-918 | breaking a long word keeps every cell and its style across the pieces |
| `WrapMeaning.SplitLinesJoin` | packages/tui/src/utils.ts:729-752 | the input lines joined by newlines are the text |
| `WrapMeaning.WrapSingleLineKeepsMeaning` | packages/tui/src/utils.ts:754-833 | the lines of one wrapped line, each drawn from the default style, show the cells of the line less white space |
| `WrapMeaning.WrapKeepsMeaning` | packages/tui/src/utils.ts:729-833 | the same for whole texts, style carried over newlines |
| `WrapLayout.WrapSingleLineLaysOut` | packages/tui/src/utils.ts:754-833 | a line that fits is returned as one row; of a wider one every row but the last would be too wide with the next token, with the white space dropped behind it, or inside a broken word with the next grapheme; a row without graphemes has one of two causes |
| `WrapLayout.WrapTextLaysOut` | packages/tui/src/utils.ts:729-833 | the same for every input line of a text, taken behind the codes that are active where it begins; the rows of the text are those of its lines, in order |
| `WrapClosing.WrapSingleLineCloses` | packages/tui/src/utils.ts:754-833 | every line of a wrapped line but the last ends with neither underline nor an open hyperlink |
| `WrapClosing.WrapTextCloses` | packages/tui/src/utils.ts:729-833 | so does every line of a wrapped text that is not the last of its input line |
| `WrapFitSteps.BreakFits` | packages/tui/src/utils.ts:851-918 | pieces of a long word whose graphemes are no wider than the line fit, and the tracked width is the true one |
| `WrapFitSteps.PiecesFit` | packages/tui/src/utils.ts:851-918 | the pieces of any word without too wide graphemes but white space fit once trimmed iff no code is put behind a piece that is too wide |
| `WrapWide.WideGraphemesOverflow` | packages/tui/src/utils.ts:729-833 | a grapheme that is no white space and wider than a line makes some wrapped line too wide, whatever the text |
| `WrapWide.IdeographOverflows` | packages/tui/src/utils.ts:729-833 | one grapheme of two columns on a line of one |
| `WrapFits.WrapSingleLineFits` | packages/tui/src/utils.ts:754-833 | the lines of one wrapped line fit iff no grapheme but white space is wider than a line, and no code is put behind white space that is too wide |
| `WrapFits.WrapTextFits` | packages/tui/src/utils.ts:729-833 | the same for whole texts, of whatever graphemes |
| `WrapFits.OrdinaryTextFits` | packages/tui/src/utils.ts:729-833 | on a line of at least one column, text whose graphemes all take a column, and whose only white space is spaces and newlines, fits iff none of them is wider than the line, over-long runs of spaces included |
| `WrapOverflow.NoBreakSpacesOverflow` | packages/tui/src/utils.ts:754-833 | an input with no-break spaces whose wrapped line is too wide |
| `WrapOverflow.InvisibleGraphemesOverflow` | packages/tui/src/utils.ts:754-833 | an input with a grapheme of no width, and no white space but ordinary spaces, whose wrapped line is too wide |
| `TextUtils.SplitIntoTokensWithAnsi` | packages/tui/src/utils.ts:642-716 | the token loop computes the specified tokens |
| `TextUtils.BreakLongWord` | packages/tui/src/utils.ts:851-918 | the long-word loop computes the specified pieces and leaves the tracker in the style after the word |
| `TextUtils.WrapOneLine` | packages/tui/src/utils.ts:754-833 | the wrapping loop computes the rows that the layout, meaning and fitting theorems speak about |
| `TextUtils.WrapTextWithAnsi` | packages/tui/src/utils.ts:729-752 | the outer loop computes the rows that those theorems speak about, the style carried over |
| `TextUtils.SliceColumns` | packages/tui/src/utils.ts:1097-1142 | the slicing loop, which stops early, computes the specified slice |
| `TextUtils.SliceStops` | packages/tui/src/utils.ts:1097-1142 | stopping early is sound: once past its end column a slice never changes |
| `TextUtils.SplitAround` | packages/tui/src/utils.ts:1152-1223 | the one-pass segment loop computes the specified segments |
| `TextUtils.SegmentsStop` | packages/tui/src/utils.ts:1152-1223 | stopping early is sound for the segments too |
| `Overlay.SliceFits` | packages/tui/src/utils.ts:1097-1142 | a strict slice is at most as wide as asked and its width is the true one |
| `Overlay.SegmentsFit` | packages/tui/src/utils.ts:1152-1223 | so are the segments before and after an overlay |
| `Overlay.SpliceWidth` | packages/tui/src/tui.ts:1781-1829 | the spliced line is as wide as the terminal, or as the overlay reaches |
| `Overlay.CompositeWidth` | packages/tui/src/tui.ts:1781-1829 | the result never exceeds the terminal, and the truncation safeguard fires iff the overlay itself reaches past it |
| `OverlaySpots.SliceShows` | packages/tui/src/utils.ts:1097-1142 | a strict slice from any column shows the graphemes inside its columns where they stood, and their styles iff it makes no difference that codes at its first column come first |
| `OverlaySpots.SliceFromStart` | packages/tui/src/utils.ts:1097-1142 | a slice from the first column on shows exactly what the line shows there |
| `OverlaySpots.SliceMayRestyle` | packages/tui/src/utils.ts:1097-1142 | a line whose underline ends just before the slice, and is underlined in it |
| `OverlaySpots.SegmentsShow` | packages/tui/src/utils.ts:1152-1223 | the segments show the base's graphemes that lie inside their columns, of any width, in the styles they had there; those behind the overlay as one run |
| `OverlaySpots.FirstBehind` | packages/tui/src/utils.ts:1152-1223 | the first grapheme kept behind an overlay begins right at its end iff none straddles that column |
| `OverlayCells.CompositeShows` | packages/tui/src/tui.ts:1781-1829 | for graphemes of any width and any overlay: the base before it in place, the overlay inside its columns, the base behind it as one run from the overlay's end on, blanks in every other column, cut graphemes included; cut strictly at the terminal when the overlay reaches past it |
| `OverlayCells.BaseKeepsItsColumns` | packages/tui/src/tui.ts:1781-1829 | the base behind an overlay keeps its columns iff no grapheme straddles the overlay's end, or nothing is kept there |
| `OverlayCells.CutGraphemeMovesTheRest` | packages/tui/src/tui.ts:1781-1829 | an input where it does not |
| `AgentEvents.ReducerKeepsEnded` | packages/agent/src/agent.ts:547-594 | the reducer's transcript grows by exactly the messages whose end was announced |
| `AgentEvents.PendingAreRunning` | packages/agent/src/agent.ts:547-594 | a call id is pending only while a call with that id runs, whatever ids repeat |
| `AgentEvents.NothingPendingAtTurnEnd` | packages/agent/src/agent.ts:547-594 | at every turn end and at the end of the run no call is pending and no message streams |
| `AgentEvents.StreamingWhileOpen` | packages/agent/src/agent.ts:547-594 | the state has a streaming message exactly while a message is open |
| `AgentStates.StreamingMessageIs` | packages/agent/src/agent.ts:547-594 | the streaming message is that of the last start or update, and none when a message end or the end of the run came after it |
| `AgentStates.ErrorMessageIs` | packages/agent/src/agent.ts:547-594 | the error message is that of the last turn whose reply carries one |
| `AgentStates.PendingIsOpen` | packages/agent/src/agent.ts:547-594 | an id is pending iff a call with it was started and none with it has ended since |
| `AgentEvents.StartFirstEndLast` | packages/agent/src/agent-loop.ts:97-279 | agent_start is first and only there, agent_end last and only there |
| `AgentEvents.MessagePairsNeverOverlap` | packages/agent/src/agent-loop.ts:109-228 | between two message starts there is a message end |
| `AgentEvents.ToolEventsInsideTheirCall` | packages/agent/src/agent-loop.ts:721-764 | an update or end of a call follows the start of that same call in its turn, with no end of it between |
| `AgentEvents.StartedCallsEnd` | packages/agent/src/agent-loop.ts:442-573 | every call started in a turn ends before the turn does |
| `AgentProtocol.ReplyFollows` | packages/agent/src/agent-loop.ts:315-381 | the events of a streamed reply keep to the protocol iff the provider begins it at most once, and end exactly one message |
| `AgentProtocol.OneByOneFollows` | packages/agent/src/agent-loop.ts:442-491 | a sequential batch starts and ends its calls in source order and announces one result each, in that order |
| `AgentProtocol.BatchFollows` | packages/agent/src/agent-loop.ts:442-573 | however a batch interleaves, all started calls end and the results come in source order |
| `AgentResults.CallAt` | packages/agent/src/agent-loop.ts:420-428 | the k-th call of a reply is its k-th tool-call block, counted by position |
| `AgentResults.ResultsAnswerTheirCalls` | packages/agent/src/agent-loop.ts:442-573 | in every turn the k-th result, in the turn's end event and among the messages announced after the reply, has the id and name of the k-th tool-call block of the reply, and the content and error flag with which that call was reported to end |
| `AgentResults.EveryCallIsAnswered` | packages/agent/src/agent-loop.ts:442-573 | a reply that did not fail has as many results as tool-call blocks, unless the run was aborted |
| `AgentResults.CutOffReply` | packages/agent/src/agent-loop.ts:390-415 | in a turn whose reply hit the token limit every call gets that one error result and no update, and the loop goes on iff there was a call |
| `AgentResults.GoesOnMeans` | packages/agent/src/agent-loop.ts:601-603 | after a batch the loop goes on iff some outcome does not ask to terminate |
| `AgentResults.StreamedChunkByChunk` | packages/agent/src/agent-loop.ts:315-381 | each partial message from the first beginning on is announced by one start or update, in order, and then the final message by its end; a reply that never began is started with its final message |
| `AgentProtocol.RunFollows` | packages/agent/src/agent-loop.ts:97-279 | every run keeps to the protocol and ends with the messages it announced |
| `AgentProtocol.TranscriptsAgree` | packages/agent/src/agent-loop.ts:204-256 | at every turn end announced messages, new messages, the reducer's additions and, unless replaced, the context's growth are the same sequence |
| `Agents.LeaveTogether` | packages/agent/src/agent.ts:127-161 | leaving messages keep their order among all that left and among those handed over |
| `Agents.HandedUnlessCleared` | packages/agent/src/agent.ts:127-161 | with no clear, everything that left a queue was handed to a run |
| `Agents.PendingMessageQueue.Enqueue` | packages/agent/src/agent.ts:135-137 | a message joins at the end |
| `Agents.PendingMessageQueue.Drain` | packages/agent/src/agent.ts:143-156 | all messages or the first one leave, in arrival order; none iff the queue is empty |
| `Agents.PendingMessageQueue.Clear` | packages/agent/src/agent.ts:158-160 | the rest is dropped and recorded as never handed over |
| `Agents.Agent.ProcessEvents` | packages/agent/src/agent.ts:547-594 | the fields always are what the reducer makes of the events so far |
| `AgentLoop.Loop.PollSteering` | packages/agent/src/agent.ts:474-480 | a poll hands over what the queue drains, or nothing the first time when asked to skip |
| `AgentLoop.Loop.ReadStream` | packages/agent/src/agent-loop.ts:315-381 | for any stream the announced events are as specified, and the context ends with just the reply iff it was begun at most once |
| `AgentLoop.Loop.FailToolCallsFromTruncatedMessage` | packages/agent/src/agent-loop.ts:390-415 | every call of a cut-off reply fails without running |
| `AgentLoop.Loop.ExecuteToolCallsSequential` | packages/agent/src/agent-loop.ts:442-491 | the calls run one by one, a non-empty prefix of them, all unless aborted |
| `AgentLoop.SettleTask` | packages/agent/src/agent-loop.ts:537-554 | settling one task of a parallel batch keeps all others as they stand |
| `AgentLoop.Loop.StartTasks` | packages/agent/src/agent-loop.ts:507-556 | the preparation phase starts calls in order and leaves a task for each that may run |
| `AgentLoop.Loop.RunTasks` | packages/agent/src/agent-loop.ts:537-561 | under every interleaving of starts, updates and ends each task ends once, after its updates |
| `AgentLoop.Loop.ExecuteToolCallsParallel` | packages/agent/src/agent-loop.ts:499-573 | results come last, in source order, one per started call, for a non-empty prefix of the calls and for all unless aborted |
| `AgentLoop.Loop.ExecuteToolCalls` | packages/agent/src/agent-loop.ts:420-435 | the batch answers the calls of its reply, as the results theorem says of every turn, in parallel iff it was not cut off and neither the configuration nor a tool it calls asks for sequential execution |
| `AgentLoop.Loop.FinishTurn` | packages/agent/src/agent-loop.ts:207-241 | a turn ends with the results of its batch in context and new messages, none after a failed reply |
| `AgentLoop.Loop.Pass` | packages/agent/src/agent-loop.ts:178-263 | one turn with its polls: what it ends in, and what it leaves to do |
| `AgentLoop.AccountForTurn` | packages/agent/src/agent-loop.ts:178-263 | a turn keeps the books: log, messages, context and queues all grow by what the turn says |
| `AgentLoop.Loop.TakeTurns` | packages/agent/src/agent-loop.ts:176-263 | the inner loop: turns until neither a batch nor a poll asks for more, or the run ends, with the books kept |
| `AgentLoop.Loop.RunLoop` | packages/agent/src/agent-loop.ts:157-279 | the log is the trace of the turns, messages and context are theirs, each polled message is injected once in order, at most one per later turn in one-at-a-time mode, every later turn has a reason, all calls are answered unless aborted, and a normal exit found both queues empty |
| `AgentRuns.RunLeaves` | packages/agent/src/agent.ts:532-594 | after a run the transcript grew by the turns' messages and nothing is left open or pending |
| `AgentRuns.FinishRun` | packages/agent/src/agent.ts:532-538 | so the cleanup after a run changes nothing in the state |
| `AgentRuns.RunAgentLoop` | packages/agent/src/agent-loop.ts:97-120 | prompts open the first turn and count as messages and context |
| `AgentRuns.Prompt` | packages/agent/src/agent.ts:351-359 | refused while a run is active, otherwise one whole run |
| `AgentRuns.Continue` | packages/agent/src/agent.ts:362-389 | which refusal or source of prompts applies, in every case; drained messages are injected exactly once and the first steering poll is skipped |
| `StdinSequences.ExtractConserves` | packages/tui/src/stdin-buffer.ts:192-255 | sequences and remainder are the buffer, cut into pieces |
| `StdinForms.FirstSequence` | packages/tui/src/stdin-buffer.ts:29-255 | the first sequence of any input is its first prefix of one of the forms, a single character, ESC with one more, ESC O with one more, a control sequence up to its first final byte, a mouse report of either kind, OSC up to a bell or ESC backslash, DCS and APC up to ESC backslash, and none when no prefix has a form; only an Escape before the beginning of another sequence is taken alone |
| `StdinForms.FormsAreExtracted` | packages/tui/src/stdin-buffer.ts:192-255 | a sequence of one of the forms is taken as it is, whatever comes behind it, unless it is the first half of a split ESC ESC |
| `StdinForms.RemainderHasNoForm` | packages/tui/src/stdin-buffer.ts:192-255 | what is held back has no prefix of any form |
| `StdinSequences.ExtractInTwo` | packages/tui/src/stdin-buffer.ts:192-255 | extracting in two steps is extracting at once, unless the cut splits ESC ESC |
| `StdinSequences.ExtractedAreMinimal` | packages/tui/src/stdin-buffer.ts:29-179 | no proper prefix of an extracted sequence is complete, a lone ESC apart, and the remainder has no complete prefix |
| `StdinSequences.PastesEndAtFirstMarker` | packages/tui/src/stdin-buffer.ts:313-376 | no paste, finished or not, contains the end marker |
| `StdinChunks.OneCut` | packages/tui/src/stdin-buffer.ts:287-387 | cutting the input changes nothing iff the cut splits neither ESC ESC nor a paste marker whose first part completes an unfinished sequence; otherwise a token already delivered is another one in the whole input |
| `StdinChunks.ChunksGiveTheSameTokens` | packages/tui/src/stdin-buffer.ts:287-387 | chunks give the tokens and the state of their concatenation iff every cut is good in that sense |
| `StdinChunks.ChunksMakeNoDifference` | packages/tui/src/stdin-buffer.ts:287-398 | non-empty chunks give the listeners the events, and leave the state, of one chunk iff every cut is good |
| `StdinChunks.ChunksKeepPrintable` | packages/tui/src/stdin-buffer.ts:389-398 | the reported key that may be suppressed is always a printable character, which is what that equivalence asks of the start |
| `StdinChunks.FeedConserves` | packages/tui/src/stdin-buffer.ts:313-376 | tokens, lost ones included, and what is held are exactly what was held and came in |
| `StdinChunks.NothingLostIffClean` | packages/tui/src/stdin-buffer.ts:339-346 | what is passed on accounts for the whole input iff no marker interrupted a sequence |
| `StdinChunks.ParsedAreMinimal` | packages/tui/src/stdin-buffer.ts:287-387 | every sequence of an input is minimal |
| `StdinChunks.SplitMarkerSwallowed` | packages/tui/src/stdin-buffer.ts:339-346 | an input where the first part of a marker completes a sequence, and no paste begins |
| `StdinChunks.EscapeBeforePaste` | packages/tui/src/stdin-buffer.ts:339-346 | an Escape key before a paste that is lost in one chunk and delivered in two |
| `StdinChunks.SuppressedRepeatsKittyKey` | packages/tui/src/stdin-buffer.ts:389-398 | only a character that repeats the Kitty key reported just before is held back |
| `StdinKeys.KittyKeys` | packages/tui/src/stdin-buffer.ts:184-190 | a sequence reports a key iff it is ESC [ number, optionally a colon with or without digits, optionally a colon with digits, u, and the number is at least 32; the key is that number |
| `StdinKeys.DeliveredNext` | packages/tui/src/stdin-buffer.ts:389-398 | every sequence is delivered but a single character that repeats the key reported last, with nothing but lost input between; a paste is delivered at its end |
| `StdinBuffers.ExtractCompleteSequences` | packages/tui/src/stdin-buffer.ts:192-255 | the scanning loops compute the specified extraction |
| `StdinBuffers.StdinBuffer.EmitDataSequence` | packages/tui/src/stdin-buffer.ts:389-398 | a sequence is emitted or suppressed as specified |
| `StdinBuffers.StdinBuffer.FinishPaste` | packages/tui/src/stdin-buffer.ts:313-333 | a paste ends at its first end marker and the rest is processed on; the recursion ends |
| `StdinBuffers.StdinBuffer.Process` | packages/tui/src/stdin-buffer.ts:287-387 | one chunk: state and events are those the chunk theorems speak about, and the timeout runs iff a sequence is unfinished |
| `StdinBuffers.StdinBuffer.Flush` | packages/tui/src/stdin-buffer.ts:400-414 | flushing hands back the unfinished sequence as it is, and forgets the Kitty key; nothing is delivered by it |
| `StdinBuffers.StdinBuffer.OnTimeout` | packages/tui/src/stdin-buffer.ts:378-386 | the timeout delivers the unfinished sequence, whatever key was reported before it |
| `RouterRuns.AccountKeeps` | packages/ai/src/api/adrouter.ts:154-175 | accounting keeps ids distinct and both budgets, and accounts for every call of the event |
| `RouterRuns.AppendToolsKeep` | packages/ai/src/api/adrouter.ts:591-609 | a call that was accounted for never conflicts with the message, and makes it a tool use |
| `RouterRuns.StepKeeps` | packages/ai/src/api/adrouter.ts:1089-1179 | every event keeps the run invariant |
| `RouterRuns.EveryStreamKeeps` | packages/ai/src/api/adrouter.ts:960-1087 | for every stream: tool call iff "toolUse", unique ids, budgets kept, and without a completion event an error with no tool call |
| `RouterRuns.MessageIsInBudget` | packages/ai/src/api/adrouter.ts:154-175 | so the message itself has at most 128 tool calls and 1 MiB of arguments |
| `RouterRuns.ErrorDoesNotStick` | packages/ai/src/api/adrouter.ts:1158-1176 | a tool call after an error event makes the failed message a tool use |
| `RouterVerdict.StreamEndsAsItsEventsSay` | packages/ai/src/api/adrouter.ts:960-1179 | the stop reason of every stream is what the last event of its text says that is an error or carries calls, and an error without a completion event |
| `RouterVerdict.WhenAnErrorSticks` | packages/ai/src/api/adrouter.ts:1089-1179 | a completed stream ends as an error iff some error event has no calls after it, as a tool use iff some calls have no error after them |
| `RouterTexts.MessageSays` | packages/ai/src/api/adrouter.ts:557-589 | the text of every message is the last final text of its events, if there is one, followed by the deltas after it, in one block, and there is no block when that is empty; the same for the thinking; errors and streams that break off keep both |
| `RouterTexts.MessageError` | packages/ai/src/api/adrouter.ts:1158-1176 | the error message is that of the last error event, tool calls after it notwithstanding, and that of an incomplete stream when the stream breaks off without ending as an error |
| `RouterBlocks.MessageBlocks` | packages/ai/src/api/adrouter.ts:543-609 | the blocks are one text, one thinking and one call for each id, in order of first mention; an error, or breaking off, takes the calls away |
| `RouterLimits.WhichStreamsAreRead` | packages/ai/src/api/adrouter.ts:154-175 | a stream is read to its end, however it is cut, iff every line is at most 1 MiB and reads as an event or as nothing, its events are at most 8192, calls with one id are the same, and repeats counted once the calls are at most 128 with at most 1 MiB of arguments |
| `RouterLimits.GoodLinesMeans` | packages/ai/src/api/adrouter.ts:982-1021 | the lines in question are the stretches between the newlines of the whole text |
| `RouterRuns.ChunkInTwo` | packages/ai/src/api/adrouter.ts:1022-1036 | two chunks are processed as their concatenation, over-long lines included |
| `RouterRuns.ChunkingMakesNoDifference` | packages/ai/src/api/adrouter.ts:1022-1040 | the outcome, message or failure, does not depend on chunking |
| `RouterConsumer.NdjsonConsumer.AccountToolCalls` | packages/ai/src/api/adrouter.ts:154-175 | the accounting loop computes the specified budget or failure |
| `RouterConsumer.NdjsonConsumer.AppendToolCall` | packages/ai/src/api/adrouter.ts:591-609 | the search for the id appends, ignores or refuses as specified |
| `RouterConsumer.NdjsonConsumer.HandleRouterStreamEvent` | packages/ai/src/api/adrouter.ts:1089-1179 | one event changes the message as the step does that the theorems on texts, blocks and verdicts are about |
| `RouterConsumer.NdjsonConsumer.ProcessLine` | packages/ai/src/api/adrouter.ts:982-1021 | one line is refused, skipped or folded in as specified |
| `RouterConsumer.NdjsonConsumer.ConsumeNdjsonStream` | packages/ai/src/api/adrouter.ts:960-1087 | the whole loop computes the outcome, message or failure, that those theorems tell from the events of the stream |
| `Presence.ElapsedCountsTicks` | packages/agent/src/presence.ts:44-87 | summing the stretches counts exactly the unpaused milliseconds since the last start or acknowledgement |
| `Presence.NoPauseSince` | packages/agent/src/presence.ts:37-42 | no pause survives a start or a stop |
| `Presence.PresenceGate.Check` | packages/agent/src/presence.ts:51-57 | an armed, unpaused gate prompts exactly when those milliseconds have reached 60000 |
| `Presence.PresenceGate.Start` | packages/agent/src/presence.ts:37-42 | starting clears the old task and arms a full minute |
| `Presence.PresenceGate.Acknowledge` | packages/agent/src/presence.ts:59-74 | accepted iff it names the prompt on display and that is up for 250 ms; time then counts afresh |
| `Presence.PresenceGate.Pause` | packages/agent/src/presence.ts:77-83 | pauses nest and keep the time that was left; a prompt that is due is raised first |
| `Presence.PresenceGate.Resume` | packages/agent/src/presence.ts:85-87 | the last resume rearms with the time that was left |
| `Presence.PresenceGate.Stop` | packages/agent/src/presence.ts:120-128 | stopping clears the prompt and says so iff one was up |
| `Transcript.PlaceKeepsRange` | packages/tui/src/tui.ts:482-515 | a render keeps the offset in range iff not the bottom alone fills the screen over a transcript shorter than the offset |
| `Transcript.RangeIsRestored` | packages/tui/src/tui.ts:445-515 | the next scroll, or render with room, restores the range |
| `Transcript.OnlyGrowthIsFollowed` | packages/tui/src/tui.ts:502-515 | a render with room changes the offset only to clamp it, unless a transcript that was there and scrolled back has grown |
| `Transcript.RowsFillTheScreen` | packages/tui/src/tui.ts:482-523 | a render gives exactly one row per screen row, and the last lines when following the end |
| `Transcript.RowShows` | packages/tui/src/tui.ts:482-523 | row by row: the bottom lines keep the lowest rows, without room for more only their last ones; above them stands the transcript, up to the line the offset counts back from its end, or from the first row when it fits |
| `Transcript.ScrollMovesTheWindow` | packages/tui/src/tui.ts:445-456 | a positive scroll moves the window by its lines towards the beginning, a negative one towards the end, and no further than either |
| `Transcript.AppendKeepsView` | packages/tui/src/tui.ts:502-520 | while scrolled back, appended lines move neither the window nor its contents |
| `Transcript.AppendsKeepView` | packages/tui/src/tui.ts:502-520 | nor does any run of renders with appended lines |
| `Transcript.RenderedViewIsKept` | packages/tui/src/tui.ts:482-520 | the same from any render that left the window scrolled back |
| `Transcript.TranscriptView.ScrollTranscript` | packages/tui/src/tui.ts:445-456 | the method computes that scroll, and says whether there was anything to do |
| `Transcript.TranscriptView.Render` | packages/tui/src/tui.ts:463-523 | the fields and rows are those of the specified placement |
| `Template.PiecesMakeTheTemplate` | packages/agent/src/harness/prompt-templates.ts:249-339 | the pieces are cut without any argument, and their texts make up the template |
| `Template.PiecesAreWellFormed` | packages/agent/src/harness/prompt-templates.ts:249-339 | every piece has one of the placeholder forms with the numbers and default its text shows, or is one literal character |
| `Template.PlaceholdersAreFound` | packages/agent/src/harness/prompt-templates.ts:249-339 | where the text of a placeholder stands, the scan finds that placeholder, so a dollar sign is literal only where none begins |
| `Template.ScanBraced` | packages/agent/src/harness/prompt-templates.ts:270-324 | the braced forms are recognised as specified |
| `Template.SubstituteArgs` | packages/agent/src/harness/prompt-templates.ts:249-339 | the scan advances to the end and returns the pieces' expansions, each made once |
| `Template.PlainTemplateIsUnchanged` | packages/agent/src/harness/prompt-templates.ts:255-261 | without a dollar sign the template is returned as it is |
| `Template.ChosenAreNeighbours` | packages/agent/src/harness/prompt-templates.ts:270-339 | which arguments those are: the one a number counts to if there is one, for a default one that is not empty, all of them, or those of a slice from its start, counted from one, as many as its length allows and the list has |
| `Template.NothingChosen` | packages/agent/src/harness/prompt-templates.ts:255-339 | a piece that stands for no argument is its own character of the template, its default, or nothing |
| `Template.ArgumentsAreInsertedVerbatim` | packages/agent/src/harness/prompt-templates.ts:248-324 | for every template and argument list, each argument that a placeholder of any form stands for is in the result verbatim, at its place among the others, between the expansions of what the template has before and after |

## Left out

- Renderer: Kitty and iTerm image lines, the Termux height path, synchronized-output marks, debug and crash logs, mouse input and overlay focus.
- Renderer: the theorems ask that lines fit the terminal; an over-wide line stops the program on the cheap path, as in the code, and on a full redraw only marks its row as unknown, because automatic wrapping is not modelled.
- Renderer: a resize and back between two frames is not a step; what other programs do to the screen between a stop and a start is a parameter of the restart, and a first run starts on a clean screen.
- Text: grapheme segmentation, width tables and emoji rules are the grapheme's own width and flags; tabs, the Thai and Lao normalisation and `truncateToWidth` are not modelled.
- WrapTextFits: states the exact condition instead of the documented claim, which can fail with graphemes wider than a line, with white space other than spaces and with graphemes of no width.
- BreakFits: asks for graphemes no wider than the line; PiecesFit is the statement without that.
- SliceShows: speaks of strict slices, the only ones the terminal interface takes.
- Agent: hooks that throw, `handleRunFailure` and the presence error path; `prepareToolCall` and the hooks after a tool are choices of an outcome; context transformation, model, thinking level, keys and the listeners of an agent.
- RunLoop: a provider gives finitely many replies and then fails, so runs that never end are covered only up to any point at which the provider fails.
- ProcessEvents: asks for an active run, which its only callers have; the error it throws otherwise is not modelled.
- Queue modes and tools do not change during a run; the tools that a context put in place by `prepareNextTurn` may bring are not modelled.
- Terminal input: the timer is only the call of OnTimeout; the conversion of a single high byte is not modelled.
- Router stream: JSON parsing, white-space lines and invalid tool calls are one parameter that reads a line; text counts as its encoded bytes; advertisements, settlements, usage, the Kimi memory, the response size limit and the output events are left out, and so is the non-streaming path.
- PresenceGate: timers are calls of Check, `boundary` and its waiters are left out, and each call reads the clock once.
- Transcript: selection highlighting, and the render without an anchored bottom.
- Template: numbers are unbounded.
- Smaller tables and plumbing (key tables, undo and kill rings, registries, model catalogs) would only add easy members.
