/** What a router message says. */
module RouterTexts {
  // Text, thinking and tool calls of the message, told from the events of the stream alone.
  import opened Strings
  import opened Wrappers
  import opened RouterStream
  import opened RouterRuns
  import opened RouterVerdict

  datatype Kind = OfText | OfThinking

  // ---- what the events say ----

  /** What an event adds to the end of the text, or of the thinking. */
  function Delta(e: Event, k: Kind): string {
    match e
    case TextDelta(delta) => if k == OfText then delta else ""
    case ThinkingDelta(delta) => if k == OfThinking then delta else ""
    case _ => ""
  }

  /** What an event replaces the whole text, or thinking, with; "" when it leaves it. */
  function Final(e: Event, k: Kind): string {
    match e
    case Done(text, reasoning, _) => if k == OfText then text else reasoning
    case _ => ""
  }

  function Deltas(events: seq<Event>, k: Kind): string {
    if events == [] then "" else Delta(events[0], k) + Deltas(events[1..], k)
  }

  /** The text of a stream: that of the last event with a final text, if there is one, and all deltas after it. */
  predicate Says(events: seq<Event>, k: Kind, text: string) {
    || ((forall i :: 0 <= i < |events| ==> Final(events[i], k) == "") && text == Deltas(events, k))
    || exists i :: 0 <= i < |events| && LastFinal(events, k, i) && text == Final(events[i], k) + Deltas(events[i + 1..], k)
  }

  predicate LastFinal(events: seq<Event>, k: Kind, i: nat)
    requires i < |events|
  {
    Final(events[i], k) != "" && forall j :: i < j < |events| ==> Final(events[j], k) == ""
  }

  /** The same, event by event. */
  function TextStep(text: string, e: Event, k: Kind): string {
    if Final(e, k) != "" then Final(e, k) else text + Delta(e, k)
  }

  function TextAfter(start: string, events: seq<Event>, k: Kind): string
    decreases |events|
  {
    if events == [] then start else TextAfter(TextStep(start, events[0], k), events[1..], k)
  }

  lemma {:induction false} TextWithoutFinal(start: string, events: seq<Event>, k: Kind)
    requires forall i :: 0 <= i < |events| ==> Final(events[i], k) == ""
    ensures TextAfter(start, events, k) == start + Deltas(events, k)
    decreases |events|
  {
    if events == [] {
      assert start + "" == start;
    } else {
      TextWithoutFinal(start + Delta(events[0], k), events[1..], k);
      assert start + (Delta(events[0], k) + Deltas(events[1..], k)) == start + Delta(events[0], k) + Deltas(events[1..], k);
    }
  }

  lemma {:induction false} TextWithFinal(start: string, events: seq<Event>, k: Kind, i: nat)
    requires i < |events| && LastFinal(events, k, i)
    ensures TextAfter(start, events, k) == Final(events[i], k) + Deltas(events[i + 1..], k)
    decreases i
  {
    hide Final, Delta, Deltas;
    if i == 0 {
      TextWithoutFinal(Final(events[0], k), events[1..], k);
    } else {
      assert events[1..][i - 1] == events[i] && events[1..][i - 1 + 1..] == events[i + 1..];
      TextWithFinal(TextStep(start, events[0], k), events[1..], k, i - 1);
    }
  }

  lemma {:induction false} LastFinalExists(events: seq<Event>, k: Kind, j: nat) returns (i: nat)
    requires j < |events| && Final(events[j], k) != ""
    ensures j <= i < |events| && LastFinal(events, k, i)
    decreases |events| - j
  {
    if m :| j < m < |events| && Final(events[m], k) != "" {
      i := LastFinalExists(events, k, m);
    } else {
      i := j;
    }
  }

  lemma {:induction false} TextAfterSays(events: seq<Event>, k: Kind)
    ensures Says(events, k, TextAfter("", events, k))
  {
    if j :| 0 <= j < |events| && Final(events[j], k) != "" {
      var i := LastFinalExists(events, k, j);
      TextWithFinal("", events, k, i);
    } else {
      TextWithoutFinal("", events, k);
      assert "" + Deltas(events, k) == Deltas(events, k);
    }
  }

  // ---- what the blocks hold ----

  predicate IsKind(b: Block, k: Kind) { if k == OfText then b.Text? else b.Thinking? }

  function Saying(b: Block, k: Kind): string
    requires IsKind(b, k)
  {
    if k == OfText then b.text else b.thinking
  }

  /** At most one block of the kind; it holds the text, and there is none when the text is empty. */
  predicate Holds(content: seq<Block>, k: Kind, text: string) {
    if text == "" then forall i :: 0 <= i < |content| ==> !IsKind(content[i], k)
    else exists i :: 0 <= i < |content| && OnlyBlock(content, k, i, text)
  }

  predicate OnlyBlock(content: seq<Block>, k: Kind, i: int, text: string) {
    && 0 <= i < |content| && IsKind(content[i], k) && Saying(content[i], k) == text
    && forall j :: 0 <= j < |content| && j != i ==> !IsKind(content[j], k)
  }

  /** Adding or changing a block of another kind changes nothing here. */
  lemma {:induction false} OtherBlocks(a: seq<Block>, b: seq<Block>, k: Kind, text: string)
    requires Holds(a, k, text) && |a| <= |b|
    requires forall i :: 0 <= i < |a| && (IsKind(a[i], k) || IsKind(b[i], k)) ==> b[i] == a[i]
    requires forall i :: |a| <= i < |b| ==> !IsKind(b[i], k)
    ensures Holds(b, k, text)
  {
    if text != "" {
      var i :| 0 <= i < |a| && OnlyBlock(a, k, i, text);
      assert 0 <= i < |b|;
      assert IsKind(a[i], k);
      assert b[i] == a[i];
      forall j | 0 <= j < |b| && j != i ensures !IsKind(b[j], k) {
      }
      assert OnlyBlock(b, k, i, text);
    }
  }

  lemma {:induction false} TextHolds(content: seq<Block>, before: string, text: string, replace: bool)
    requires Holds(content, OfText, before)
    ensures Holds(WithText(content, text, replace), OfText, if replace && text != "" then text else before + text)
  {
    hide FindText;
    var next := WithText(content, text, replace);
    if text == "" {
      assert before + text == before;
    } else if before == "" {
      assert before + text == text;
      assert OnlyBlock(next, OfText, |content|, text);
    } else {
      var i :| 0 <= i < |content| && OnlyBlock(content, OfText, i, before);
      assert FindText(content) == i;
      assert OnlyBlock(next, OfText, i, if replace then text else before + text);
    }
  }

  lemma {:induction false} ThinkingHolds(content: seq<Block>, before: string, text: string, replace: bool)
    requires Holds(content, OfThinking, before)
    ensures Holds(WithThinking(content, text, replace), OfThinking, if replace && text != "" then text else before + text)
  {
    hide FindThinking;
    var next := WithThinking(content, text, replace);
    if text == "" {
      assert before + text == before;
    } else if before == "" {
      assert before + text == text;
      assert OnlyBlock(next, OfThinking, |content|, text);
    } else {
      var i :| 0 <= i < |content| && OnlyBlock(content, OfThinking, i, before);
      assert FindThinking(content) == i;
      assert OnlyBlock(next, OfThinking, i, if replace then text else before + text);
    }
  }

  lemma {:induction false} ToolsHold(s: State, calls: seq<ToolCall>, k: Kind, text: string)
    requires AppendTools(s, calls).Ok? && Holds(s.content, k, text)
    ensures Holds(AppendTools(s, calls).value.content, k, text)
    decreases |calls|
  {
    hide FindTool, Holds;
    if calls != [] {
      var next := AppendTool(s, calls[0]).value;
      OtherBlocks(s.content, next.content, k, text);
      ToolsHold(next, calls[1..], k, text);
    }
  }

  lemma {:induction false} WithoutToolsHolds(content: seq<Block>, k: Kind, text: string)
    requires Holds(content, k, text)
    ensures Holds(WithoutTools(content), k, text)
  {
    if content != [] {
      var n := |content| - 1;
      var rest, last := content[..n], content[n];
      if IsKind(last, k) {
        var i :| 0 <= i < |content| && OnlyBlock(content, k, i, text);
        assert content[n] == last && i == n;
        assert forall j :: 0 <= j < n ==> rest[j] == content[j];
        assert Holds(rest, k, "");
        WithoutToolsHolds(rest, k, "");
        assert OnlyBlock(WithoutTools(content), k, |WithoutTools(rest)|, text);
      } else {
        OneLess(content, k, text);
        WithoutToolsHolds(rest, k, text);
        if !last.Tool? { OtherBlocks(WithoutTools(rest), WithoutTools(rest) + [last], k, text); }
      }
    }
  }

  lemma {:induction false} OneLess(content: seq<Block>, k: Kind, text: string)
    requires content != [] && Holds(content, k, text) && !IsKind(content[|content| - 1], k)
    ensures Holds(content[..|content| - 1], k, text)
  {
    if text != "" {
      var i :| 0 <= i < |content| && OnlyBlock(content, k, i, text);
      assert OnlyBlock(content[..|content| - 1], k, i, text);
    }
  }

  lemma {:induction false} ThinkingLeavesText(content: seq<Block>, add: string, replace: bool, text: string)
    requires Holds(content, OfText, text)
    ensures Holds(WithThinking(content, add, replace), OfText, text)
  {
    hide FindThinking, Holds;
    OtherBlocks(content, WithThinking(content, add, replace), OfText, text);
  }

  lemma {:induction false} TextLeavesThinking(content: seq<Block>, add: string, replace: bool, text: string)
    requires Holds(content, OfThinking, text)
    ensures Holds(WithText(content, add, replace), OfThinking, text)
  {
    hide FindText, Holds;
    OtherBlocks(content, WithText(content, add, replace), OfThinking, text);
  }

  /** One event says what it says, and nothing else changes the text or the thinking. */
  lemma {:induction false} StepHolds(s: State, e: Event, k: Kind, text: string)
    requires Step(s, e).Ok? && Holds(s.content, k, text)
    ensures Holds(Step(s, e).value.content, k, TextStep(text, e, k))
  {
    hide Holds, AppendTools, WithText, WithThinking, WithoutTools, Account;
    var t := Account(s.(sawDone := s.sawDone || e.Done?), CallsOf(e)).value;
    AccountLeavesContent(s.(sawDone := s.sawDone || e.Done?), CallsOf(e));
    assert text + "" == text;
    match e {
      case TextDelta(delta) =>
        if k == OfText { TextHolds(t.content, text, delta, false); } else { TextLeavesThinking(t.content, delta, false, text); }
      case ThinkingDelta(delta) =>
        if k == OfThinking { ThinkingHolds(t.content, text, delta, false); } else { ThinkingLeavesText(t.content, delta, false, text); }
      case ToolCalls(calls) => ToolsHold(t, calls, k, text);
      case Done(final, reasoning, calls) =>
        var thought := WithThinking(t.content, reasoning, true);
        if k == OfText {
          ThinkingLeavesText(t.content, reasoning, true, text);
          TextHolds(thought, text, final, true);
        } else {
          ThinkingHolds(t.content, text, reasoning, true);
          TextLeavesThinking(thought, final, true, TextStep(text, e, k));
        }
        ToolsHold(t.(content := WithText(thought, final, true)), calls, k, TextStep(text, e, k));
      case ErrorEvent(_) => WithoutToolsHolds(t.content, k, text);
      case Other =>
    }
  }

  lemma {:induction false} AccountLeavesContent(s: State, calls: seq<ToolCall>)
    requires Account(s, calls).Ok?
    ensures Account(s, calls).value.content == s.content
    decreases |calls|
  {
    hide FindCall;
    if calls != [] { AccountLeavesContent(AccountOne(s, calls[0]).value, calls[1..]); }
  }

  // ---- whole streams ----

  /** The events of a stream, one after the other. */
  function StepAll(s: State, events: seq<Event>): Result<State, Failure>
    decreases |events|
  {
    if events == [] then Ok(s)
    else
      match Step(s.(eventCount := s.eventCount + 1), events[0])
      case Err(failure) => Err(failure)
      case Ok(t) => StepAll(t, events[1..])
  }

  lemma {:induction false} StepAllConcat(s: State, a: seq<Event>, b: seq<Event>)
    ensures StepAll(s, a + b) == match StepAll(s, a) case Err(failure) => Err(failure) case Ok(t) => StepAll(t, b)
    decreases |a|
  {
    hide Step;
    if a == [] {
      assert a + b == b;
    } else {
      assert (a + b)[0] == a[0] && (a + b)[1..] == a[1..] + b;
      var next := Step(s.(eventCount := s.eventCount + 1), a[0]);
      if next.Ok? { StepAllConcat(next.value, a[1..], b); }
    }
  }

  lemma {:induction false} LineIsItsEvent(read: string -> Reading, s: State, line: string)
    requires ProcessLine(read, s, line).Ok?
    ensures ProcessLine(read, s, line) == StepAll(s, EventsOfLine(read, line))
  {
    hide Step;
    if read(line).Read? {
      var e := read(line).event;
      assert [e][1..] == [];
    }
  }

  lemma {:induction false} LinesAreTheirEvents(read: string -> Reading, s: State, text: string)
    requires Lines(read, s, text).Ok?
    requires var p := Lines(read, s, text).value; ProcessLine(read, p.state, p.buffer).Ok?
    ensures var p := Lines(read, s, text).value; ProcessLine(read, p.state, p.buffer) == StepAll(s, EventsIn(read, text))
    decreases |text|
  {
    hide ProcessLine, Find, EventsOfLine, Step;
    var f := Find(text, "\n", 0);
    if f.None? {
      LineIsItsEvent(read, s, text);
    } else {
      var line, rest := text[..f.value], text[f.value + 1..];
      LineIsItsEvent(read, s, line);
      LinesAreTheirEvents(read, ProcessLine(read, s, line).value, rest);
      StepAllConcat(s, EventsOfLine(read, line), EventsIn(read, rest));
    }
  }

  /** However a stream was cut, its message is what its events, one by one, make of an empty one. */
  lemma {:induction false} StreamIsItsEvents(read: string -> Reading, chunks: seq<string>) returns (t: State)
    requires Consume(read, chunks).Ok?
    ensures StepAll(EMPTY, EventsIn(read, Together(chunks))) == Ok(t)
    ensures Consume(read, chunks).value == Close(t)
    ensures var events := EventsIn(read, Together(chunks));
      t.stopReason == LastWord(Stop, events) && (t.sawDone <==> Completed(events))
  {
    hide Lines, ProcessLine, Together, EventsIn, StepAll, LastWord, Completed;
    ConsumeAsOne(read, chunks);
    var text := Together(chunks);
    assert "" + text == text;
    LinesAreTheirEvents(read, EMPTY, text);
    EmptyIsGood();
    LinesSay(read, EMPTY, text);
    var p := Lines(read, EMPTY, text).value;
    t := ProcessLine(read, p.state, p.buffer).value;
  }

  lemma {:induction false} EventsHold(s: State, events: seq<Event>, k: Kind, text: string)
    requires StepAll(s, events).Ok? && Holds(s.content, k, text)
    ensures Holds(StepAll(s, events).value.content, k, TextAfter(text, events, k))
    decreases |events|
  {
    hide Holds, Step, TextStep;
    if events != [] {
      var counted := s.(eventCount := s.eventCount + 1);
      StepHolds(counted, events[0], k, text);
      EventsHold(Step(counted, events[0]).value, events[1..], k, TextStep(text, events[0], k));
    }
  }

  /**
   * The text of every message, from the events of its stream alone: the last final text, if there is one, and the
   * deltas after it, in one block; no block when there is nothing to say. The same for the thinking. Errors and
   * streams that break off keep both.
   */
  lemma {:induction false} MessageSays(read: string -> Reading, chunks: seq<string>, k: Kind) returns (text: string)
    requires Consume(read, chunks).Ok?
    ensures Says(EventsIn(read, Together(chunks)), k, text)
    ensures Holds(Consume(read, chunks).value.content, k, text)
  {
    hide Consume, EventsIn, Together, StepAll, WithoutTools, Says;
    var events := EventsIn(read, Together(chunks));
    text := TextAfter("", events, k);
    TextAfterSays(events, k);
    var t := StreamIsItsEvents(read, chunks);
    EventsHold(EMPTY, events, k, "");
    WithoutToolsHolds(t.content, k, text);
  }

  // ---- the error message ----

  lemma {:induction false} ToolsLeaveError(s: State, calls: seq<ToolCall>)
    requires AppendTools(s, calls).Ok?
    ensures AppendTools(s, calls).value.errorMessage == s.errorMessage
    decreases |calls|
  {
    hide FindTool;
    if calls != [] { ToolsLeaveError(AppendTool(s, calls[0]).value, calls[1..]); }
  }

  lemma {:induction false} AccountLeavesError(s: State, calls: seq<ToolCall>)
    requires Account(s, calls).Ok?
    ensures Account(s, calls).value.errorMessage == s.errorMessage
    decreases |calls|
  {
    hide FindCall;
    if calls != [] { AccountLeavesError(AccountOne(s, calls[0]).value, calls[1..]); }
  }

  lemma {:induction false} StepError(s: State, e: Event)
    requires Step(s, e).Ok?
    ensures Step(s, e).value.errorMessage == if e.ErrorEvent? then Some(e.message) else s.errorMessage
  {
    hide Account, AppendTools, WithText, WithThinking, WithoutTools;
    var before := s.(sawDone := s.sawDone || e.Done?);
    AccountLeavesError(before, CallsOf(e));
    var t := Account(before, CallsOf(e)).value;
    match e {
      case ToolCalls(calls) => ToolsLeaveError(t, calls);
      case Done(text, reasoning, calls) =>
        ToolsLeaveError(t.(content := WithText(WithThinking(t.content, reasoning, true), text, true)), calls);
      case _ =>
    }
  }

  lemma {:induction false} EventsError(s: State, events: seq<Event>) returns (k: int)
    requires StepAll(s, events).Ok?
    ensures -1 <= k < |events| && NoErrorAfter(events, k) && (k >= 0 ==> events[k].ErrorEvent?)
    ensures StepAll(s, events).value.errorMessage == if k >= 0 then Some(events[k].message) else s.errorMessage
    decreases |events|
  {
    hide Step;
    k := -1;
    if events != [] {
      var counted := s.(eventCount := s.eventCount + 1);
      StepError(counted, events[0]);
      var i := EventsError(Step(counted, events[0]).value, events[1..]);
      assert forall j :: 0 < j < |events| ==> events[j] == events[1..][j - 1];
      k := if i < 0 && !events[0].ErrorEvent? then -1 else i + 1;
    }
  }

  /** The error message of every message: that of the last error event, kept even when tool calls follow it; a stream
      that breaks off without one, or after calls that follow one, says so itself. */
  lemma {:induction false} MessageError(read: string -> Reading, chunks: seq<string>) returns (k: int)
    requires Consume(read, chunks).Ok?
    ensures var events := EventsIn(read, Together(chunks));
      && -1 <= k < |events| && NoErrorAfter(events, k) && (k >= 0 ==> events[k].ErrorEvent?)
      && Consume(read, chunks).value.errorMessage ==
        if !Completed(events) && LastWord(Stop, events) != Error then Some(INCOMPLETE)
        else if k >= 0 then Some(events[k].message) else None
  {
    hide Consume, EventsIn, Together, StepAll, WithoutTools, LastWord, Completed;
    var events := EventsIn(read, Together(chunks));
    var t := StreamIsItsEvents(read, chunks);
    k := EventsError(EMPTY, events);
  }
}
