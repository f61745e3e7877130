/** How a router stream ends. */
module RouterVerdict {
  import opened Strings
  import opened RouterStream
  import opened RouterRuns

  /** An event that decides the stop reason: an error, or one that carries tool calls. */
  predicate Speaks(e: Event) { e.ErrorEvent? || CallsOf(e) != [] }

  function Verdict(e: Event): StopReason
    requires Speaks(e)
  {
    if e.ErrorEvent? then Error else ToolUse
  }

  /** The verdict of the last event that speaks; `start` when none does. */
  function LastWord(start: StopReason, events: seq<Event>): StopReason {
    if events == [] then start
    else
      var last := events[|events| - 1];
      if Speaks(last) then Verdict(last) else LastWord(start, events[..|events| - 1])
  }

  predicate Completed(events: seq<Event>) { exists k :: 0 <= k < |events| && events[k].Done? }

  /** No event after position k speaks. */
  predicate SilentAfter(events: seq<Event>, k: int) { forall j :: 0 <= j < |events| && k < j ==> !Speaks(events[j]) }

  /** The events of a text, line by line; what follows the last newline is a line too. */
  function EventsIn(read: string -> Reading, text: string): seq<Event>
    decreases |text|
  {
    match Find(text, "\n", 0)
    case None => EventsOfLine(read, text)
    case Some(i) => EventsOfLine(read, text[..i]) + EventsIn(read, text[i + 1..])
  }

  function EventsOfLine(read: string -> Reading, line: string): seq<Event> {
    if read(line).Read? then [read(line).event] else []
  }

  lemma {:induction false} LastWordConcat(start: StopReason, a: seq<Event>, b: seq<Event>)
    ensures LastWord(start, a + b) == LastWord(LastWord(start, a), b)
    ensures Completed(a + b) <==> Completed(a) || Completed(b)
  {
    hide Speaks;
    if b == [] {
      assert a + b == a;
    } else {
      var n := |b| - 1;
      LastWordConcat(start, a, b[..n]);
      assert (a + b)[..|a + b| - 1] == a + b[..n];
      assert (a + b)[|a + b| - 1] == b[n];
    }
    CompletedConcat(a, b);
  }

  lemma {:induction false} CompletedConcat(a: seq<Event>, b: seq<Event>)
    ensures Completed(a + b) <==> Completed(a) || Completed(b)
  {
    if Completed(a) {
      var k :| 0 <= k < |a| && a[k].Done?;
      assert (a + b)[k].Done?;
    }
    if Completed(b) {
      var k :| 0 <= k < |b| && b[k].Done?;
      assert (a + b)[|a| + k].Done?;
    }
    if Completed(a + b) {
      var k :| 0 <= k < |a + b| && (a + b)[k].Done?;
      assert if k < |a| then a[k].Done? else b[k - |a|].Done?;
    }
  }

  /** LastWord without recursion: nothing speaks, or the last event that does decides. */
  lemma {:induction false} NoLastWord(start: StopReason, events: seq<Event>)
    requires SilentAfter(events, -1)
    ensures LastWord(start, events) == start
  {
    if events != [] {
      NoLastWord(start, events[..|events| - 1]);
    }
  }

  lemma {:induction false} LastWordIs(start: StopReason, events: seq<Event>, k: nat)
    requires k < |events| && Speaks(events[k]) && SilentAfter(events, k)
    ensures LastWord(start, events) == Verdict(events[k])
  {
    if k < |events| - 1 {
      LastWordIs(start, events[..|events| - 1], k);
    }
  }

  lemma {:induction false} StepSays(s: State, e: Event)
    requires Good(s) && Step(s, e).Ok?
    ensures Step(s, e).value.stopReason == if Speaks(e) then Verdict(e) else s.stopReason
    ensures Step(s, e).value.sawDone <==> s.sawDone || e.Done?
  {
    hide Good, Account, AppendTools, WithoutTools, WithText, WithThinking;
    var before := s.(sawDone := s.sawDone || e.Done?);
    assert Good(before) by { SameMessage(s, before); }
    AccountKeeps(before, CallsOf(e));
    var t := Account(before, CallsOf(e)).value;
    match e {
      case ToolCalls(calls) =>
        AppendToolsKeep(t, calls);
        AppendToolsOnly(t, calls);
      case Done(text, reasoning, calls) =>
        ThinkingKeeps(t, reasoning, true);
        var u := t.(content := WithThinking(t.content, reasoning, true));
        TextKeeps(u, text, true);
        var v := u.(content := WithText(u.content, text, true));
        AppendToolsKeep(v, calls);
        AppendToolsOnly(v, calls);
      case _ =>
    }
  }

  lemma {:induction false} AppendToolsOnly(s: State, calls: seq<ToolCall>)
    requires AppendTools(s, calls).Ok?
    ensures AppendTools(s, calls).value.sawDone == s.sawDone
    ensures calls == [] ==> AppendTools(s, calls).value == s
    decreases |calls|
  {
    hide FindTool;
    if calls != [] {
      AppendToolsOnly(AppendTool(s, calls[0]).value, calls[1..]);
    }
  }

  lemma {:induction false} LineSays(read: string -> Reading, s: State, line: string)
    requires Good(s) && ProcessLine(read, s, line).Ok?
    ensures var t := ProcessLine(read, s, line).value;
      && t.stopReason == LastWord(s.stopReason, EventsOfLine(read, line))
      && (t.sawDone <==> s.sawDone || Completed(EventsOfLine(read, line)))
  {
    hide Good, Step;
    if read(line).Read? {
      var e, counted := read(line).event, s.(eventCount := s.eventCount + 1);
      assert Good(counted) by { SameMessage(s, counted); }
      StepSays(counted, e);
      assert EventsOfLine(read, line)[0] == e;
      assert [e][..0] == [];
    }
  }

  /** From any state a run can be in: the lines of a text say what its events say. */
  lemma {:induction false} LinesSay(read: string -> Reading, s: State, text: string)
    requires Good(s) && Lines(read, s, text).Ok?
    requires var p := Lines(read, s, text).value; ProcessLine(read, p.state, p.buffer).Ok?
    ensures var p := Lines(read, s, text).value;
      var t := ProcessLine(read, p.state, p.buffer).value;
      && t.stopReason == LastWord(s.stopReason, EventsIn(read, text))
      && (t.sawDone <==> s.sawDone || Completed(EventsIn(read, text)))
    decreases |text|
  {
    hide Good, ProcessLine, Find, LastWord, Completed, EventsOfLine;
    var f := Find(text, "\n", 0);
    if f.None? {
      LineSays(read, s, text);
    } else {
      var line, rest := text[..f.value], text[f.value + 1..];
      var s' := ProcessLine(read, s, line).value;
      LineKeeps(read, s, line);
      LineSays(read, s, line);
      LinesSay(read, s', rest);
      LastWordConcat(s.stopReason, EventsOfLine(read, line), EventsIn(read, rest));
    }
  }

  /**
   * The stop reason of every stream that is read to its end, from the events in its text alone:
   * an error without a completion event; otherwise what the last event says that is an error or carries calls.
   */
  lemma {:induction false} StreamEndsAsItsEventsSay(read: string -> Reading, chunks: seq<string>)
    requires Consume(read, chunks).Ok?
    ensures var s := Consume(read, chunks).value;
      var events := EventsIn(read, Together(chunks));
      && (s.sawDone <==> Completed(events))
      && s.stopReason == if Completed(events) then LastWord(Stop, events) else Error
  {
    hide Lines, ProcessLine, WithoutTools, Together, Completed, LastWord, EventsIn;
    ConsumeAsOne(read, chunks);
    EmptyIsGood();
    var text := Together(chunks);
    assert "" + text == text;
    LinesSay(read, EMPTY, text);
  }

  predicate NoCallsAfter(events: seq<Event>, k: int) { forall j :: 0 <= j < |events| && k < j ==> CallsOf(events[j]) == [] }
  predicate NoErrorAfter(events: seq<Event>, k: int) { forall j :: 0 <= j < |events| && k < j ==> !events[j].ErrorEvent? }

  /**
   * When an error sticks: a completed stream ends as an error exactly when some error event has no event
   * with tool calls after it, as a tool use exactly when some event with tool calls has no error event
   * after it, and plainly exactly when there is neither.
   */
  lemma {:induction false} WhenAnErrorSticks(read: string -> Reading, chunks: seq<string>)
    requires Consume(read, chunks).Ok? && Completed(EventsIn(read, Together(chunks)))
    ensures var stop, events := Consume(read, chunks).value.stopReason, EventsIn(read, Together(chunks));
      && (stop == Error <==> exists k :: 0 <= k < |events| && events[k].ErrorEvent? && NoCallsAfter(events, k))
      && (stop == ToolUse <==> exists k :: 0 <= k < |events| && CallsOf(events[k]) != [] && NoErrorAfter(events, k))
      && (stop == Stop <==> NoCallsAfter(events, -1) && NoErrorAfter(events, -1))
  {
    hide Consume, Together, EventsIn, LastWord;
    StreamEndsAsItsEventsSay(read, chunks);
    LastWordMeans(EventsIn(read, Together(chunks)));
  }

  lemma {:induction false} LastWordMeans(events: seq<Event>)
    ensures LastWord(Stop, events) == Error <==>
      exists k :: 0 <= k < |events| && events[k].ErrorEvent? && NoCallsAfter(events, k)
    ensures LastWord(Stop, events) == ToolUse <==>
      exists k :: 0 <= k < |events| && CallsOf(events[k]) != [] && NoErrorAfter(events, k)
    ensures LastWord(Stop, events) == Stop <==> NoCallsAfter(events, -1) && NoErrorAfter(events, -1)
  {
    hide LastWord;
    if SilentAfter(events, -1) {
      NoLastWord(Stop, events);
      assert NoCallsAfter(events, -1) && NoErrorAfter(events, -1);
    } else {
      var k := LastSpeaker(events);
      LastWordIs(Stop, events, k);
      assert events[k].ErrorEvent? ==> NoCallsAfter(events, k);
      assert CallsOf(events[k]) != [] ==> NoErrorAfter(events, k);
    }
  }

  lemma {:induction false} LastSpeaker(events: seq<Event>) returns (k: nat)
    requires !SilentAfter(events, -1)
    ensures k < |events| && Speaks(events[k]) && SilentAfter(events, k)
  {
    var n := |events| - 1;
    if Speaks(events[n]) {
      k := n;
    } else {
      var j :| 0 <= j < |events| && Speaks(events[j]);
      assert events[..n][j] == events[j];
      k := LastSpeaker(events[..n]);
    }
  }
}
