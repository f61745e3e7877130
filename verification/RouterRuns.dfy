/** What every router stream keeps. */
module RouterRuns {
  import opened Strings
  import opened Wrappers
  import opened RouterStream

  // ---- the run invariant ----

  predicate HasTools(content: seq<Block>) { exists k :: 0 <= k < |content| && content[k].Tool? }

  /** stopReason is "toolUse" exactly with a tool call in the content; "error" exactly after an error event without one. */
  predicate StopsRight(s: State) {
    && (s.stopReason == ToolUse <==> HasTools(s.content))
    && (s.stopReason == Error <==> s.errorMessage.Some? && !HasTools(s.content))
  }

  predicate UniqueBlocks(content: seq<Block>) {
    forall i, j :: 0 <= i < j < |content| ==>
      && !(content[i].Text? && content[j].Text?)
      && !(content[i].Thinking? && content[j].Thinking?)
      && !(content[i].Tool? && content[j].Tool? && content[i].call.id == content[j].call.id)
  }

  predicate DistinctIds(calls: seq<ToolCall>) {
    forall i, j :: 0 <= i < j < |calls| ==> calls[i].id != calls[j].id
  }

  function ArgumentBytes(calls: seq<ToolCall>): nat {
    if calls == [] then 0 else ArgumentBytes(calls[..|calls| - 1]) + |calls[|calls| - 1].arguments|
  }

  /** The budget: what was accounted for, under its limits. */
  predicate InBudget(s: State) {
    && DistinctIds(s.accounted) && |s.accounted| <= MAX_TOOL_CALLS
    && s.argumentBytes == ArgumentBytes(s.accounted) <= MAX_TOOL_ARGUMENT_BYTES
  }

  predicate Accounted(content: seq<Block>, accounted: seq<ToolCall>) {
    forall k :: 0 <= k < |content| && content[k].Tool? ==> content[k].call in accounted
  }

  predicate Good(s: State) {
    && StopsRight(s) && UniqueBlocks(s.content) && InBudget(s) && Accounted(s.content, s.accounted)
    && s.eventCount <= MAX_EVENTS
  }

  lemma {:induction false} AccountOneKeeps(s: State, call: ToolCall)
    requires Good(s) && AccountOne(s, call).Ok?
    ensures var t := AccountOne(s, call).value;
      Good(t) && t.content == s.content && s.accounted <= t.accounted && call in t.accounted
  {
    hide FindCall;
    var t := AccountOne(s, call).value;
    if t != s {
      assert t.accounted[|s.accounted|] == call;
      assert t.accounted[..|t.accounted| - 1] == s.accounted;
    }
  }

  lemma {:induction false} AccountKeeps(s: State, calls: seq<ToolCall>)
    requires Good(s) && Account(s, calls).Ok?
    ensures var t := Account(s, calls).value;
      && Good(t) && t == s.(accounted := t.accounted, argumentBytes := t.argumentBytes)
      && s.accounted <= t.accounted
      && forall c :: c in calls ==> c in t.accounted
    decreases |calls|
  {
    hide Good, AccountOne;
    if calls != [] {
      AccountOneKeeps(s, calls[0]);
      AccountOneChanges(s, calls[0]);
      var s' := AccountOne(s, calls[0]).value;
      AccountKeeps(s', calls[1..]);
      assert calls == [calls[0]] + calls[1..];
    }
  }

  lemma {:induction false} AccountOneChanges(s: State, call: ToolCall)
    requires AccountOne(s, call).Ok?
    ensures var t := AccountOne(s, call).value; t == s.(accounted := t.accounted, argumentBytes := t.argumentBytes)
  {
    hide FindCall;
  }

  /** A call that was accounted for never conflicts with the message. */
  lemma {:induction false} AppendToolKeeps(s: State, call: ToolCall)
    requires Good(s) && call in s.accounted
    ensures AppendTool(s, call).Ok?
    ensures var t := AppendTool(s, call).value; Good(t) && t.accounted == s.accounted && HasTools(t.content)
  {
    hide FindTool;
    var i := FindTool(s.content, call.id);
    if i < |s.content| {
      assert s.content[i].call in s.accounted;
    } else {
      var t := AppendTool(s, call).value;
      assert t.content[|s.content|].Tool?;
    }
  }

  lemma {:induction false} AppendToolsKeep(s: State, calls: seq<ToolCall>)
    requires Good(s) && forall c :: c in calls ==> c in s.accounted
    ensures AppendTools(s, calls).Ok? && Good(AppendTools(s, calls).value)
    ensures calls != [] ==> AppendTools(s, calls).value.stopReason == ToolUse
    decreases |calls|
  {
    hide Good, AppendTool, HasTools;
    if calls != [] {
      AppendToolKeeps(s, calls[0]);
      var s' := AppendTool(s, calls[0]).value;
      AppendToolsKeep(s', calls[1..]);
      assert StopsRight(s') by { GoodStops(s'); }
    }
  }

  lemma {:induction false} GoodStops(s: State)
    requires Good(s)
    ensures StopsRight(s)
  {
  }

  lemma {:induction false} TextKeeps(s: State, text: string, replace: bool)
    requires Good(s)
    ensures Good(s.(content := WithText(s.content, text, replace)))
  {
    hide FindText;
    var i, t := FindText(s.content), WithText(s.content, text, replace);
    assert forall k :: 0 <= k < |s.content| ==> (t[k].Tool? <==> s.content[k].Tool?);
    assert forall k :: 0 <= k < |s.content| && s.content[k].Tool? ==> t[k] == s.content[k];
    SameTools(s.content, t);
  }

  lemma {:induction false} ThinkingKeeps(s: State, text: string, replace: bool)
    requires Good(s)
    ensures Good(s.(content := WithThinking(s.content, text, replace)))
  {
    hide FindThinking;
    var i, t := FindThinking(s.content), WithThinking(s.content, text, replace);
    assert forall k :: 0 <= k < |s.content| ==> (t[k].Tool? <==> s.content[k].Tool?);
    assert forall k :: 0 <= k < |s.content| && s.content[k].Tool? ==> t[k] == s.content[k];
    SameTools(s.content, t);
  }

  lemma {:induction false} SameTools(a: seq<Block>, b: seq<Block>)
    requires |a| <= |b| && forall k :: 0 <= k < |a| ==> (a[k].Tool? <==> b[k].Tool?)
    requires forall k :: |a| <= k < |b| ==> !b[k].Tool?
    ensures HasTools(a) <==> HasTools(b)
  {
  }

  lemma {:induction false} WithoutToolsKeeps(content: seq<Block>)
    requires UniqueBlocks(content)
    ensures UniqueBlocks(WithoutTools(content)) && !HasTools(WithoutTools(content))
    ensures forall b :: b in WithoutTools(content) ==> b in content
  {
    if content != [] {
      assert UniqueBlocks(content[..|content| - 1]);
      WithoutToolsKeeps(content[..|content| - 1]);
      AddBlock(content, WithoutTools(content[..|content| - 1]));
    }
  }

  lemma {:induction false} AddBlock(content: seq<Block>, kept: seq<Block>)
    requires content != [] && UniqueBlocks(content) && UniqueBlocks(kept) && !HasTools(kept)
    requires forall b :: b in kept ==> b in content[..|content| - 1]
    ensures UniqueBlocks(content[..|content| - 1])
    ensures var last := content[|content| - 1];
      var all := if last.Tool? then kept else kept + [last];
      UniqueBlocks(all) && !HasTools(all) && forall b :: b in all ==> b in content
  {
    var rest, last := content[..|content| - 1], content[|content| - 1];
    forall k | 0 <= k < |kept| ensures exists j :: 0 <= j < |rest| && rest[j] == kept[k] {
      assert kept[k] in kept;
    }
  }

  lemma {:induction false} FailKeeps(s: State, message: string)
    requires Good(s)
    ensures Good(Fail(s, message)) && Fail(s, message).stopReason == Error
  {
    hide WithoutTools;
    WithoutToolsKeeps(s.content);
  }

  lemma {:induction false} StepKeeps(s: State, e: Event)
    requires Good(s) && Step(s, e).Ok?
    ensures Good(Step(s, e).value)
  {
    hide Good, Account, AppendTools, Fail, WithText, WithThinking;
    var before := s.(sawDone := s.sawDone || e.Done?);
    assert Good(before) by { SameMessage(s, before); }
    AccountKeeps(before, CallsOf(e));
    var t := Account(before, CallsOf(e)).value;
    match e {
      case TextDelta(delta) => TextKeeps(t, delta, false);
      case ThinkingDelta(delta) => ThinkingKeeps(t, delta, false);
      case ToolCalls(calls) => AppendToolsKeep(t, calls);
      case Done(text, reasoning, calls) =>
        ThinkingKeeps(t, reasoning, true);
        var u := t.(content := WithThinking(t.content, reasoning, true));
        TextKeeps(u, text, true);
        AppendToolsKeep(u.(content := WithText(u.content, text, true)), calls);
      case ErrorEvent(message) => FailKeeps(t, message);
      case Other =>
    }
  }

  lemma {:induction false} SameMessage(s: State, t: State)
    requires Good(s) && t == s.(sawDone := t.sawDone, eventCount := t.eventCount)
    requires t.eventCount == s.eventCount || t.eventCount <= MAX_EVENTS
    ensures Good(t)
  {
  }

  lemma {:induction false} LineKeeps(read: string -> Reading, s: State, line: string)
    requires Good(s) && ProcessLine(read, s, line).Ok?
    ensures Good(ProcessLine(read, s, line).value)
  {
    hide Good, Step;
    if read(line).Read? {
      var counted := s.(eventCount := s.eventCount + 1);
      assert Good(counted) by { SameMessage(s, counted); }
      StepKeeps(counted, read(line).event);
    }
  }

  lemma {:induction false} LinesKeep(read: string -> Reading, s: State, buffer: string)
    requires Good(s) && Lines(read, s, buffer).Ok?
    ensures Good(Lines(read, s, buffer).value.state)
    decreases |buffer|
  {
    hide Good, ProcessLine, Find;
    var f := Find(buffer, "\n", 0);
    if f.Some? {
      LineKeeps(read, s, buffer[..f.value]);
      LinesKeep(read, ProcessLine(read, s, buffer[..f.value]).value, buffer[f.value + 1..]);
    }
  }

  lemma {:induction false} ChunksKeep(read: string -> Reading, p: Progress, chunks: seq<string>)
    requires Good(p.state) && Chunks(read, p, chunks).Ok?
    ensures Good(Chunks(read, p, chunks).value.state)
    decreases |chunks|
  {
    hide Good, Lines;
    if chunks != [] {
      LinesKeep(read, p.state, p.buffer + chunks[0]);
      ChunksKeep(read, Chunk(read, p, chunks[0]).value, chunks[1..]);
    }
  }

  /**
   * Every stream that is read to its end: unique ids, budgets kept, "toolUse" exactly with a tool call,
   * and without a completion event an error without any tool call.
   */
  lemma {:induction false} EveryStreamKeeps(read: string -> Reading, chunks: seq<string>)
    requires Consume(read, chunks).Ok?
    ensures var s := Consume(read, chunks).value;
      && Good(s)
      && (!s.sawDone ==> s.stopReason == Error && !HasTools(s.content))
      && (s.sawDone ==> (s.stopReason == Error <==> s.errorMessage.Some? && !HasTools(s.content)))
  {
    hide Chunks, ProcessLine, Fail;
    assert Good(EMPTY) by { EmptyIsGood(); }
    ChunksKeep(read, Progress(EMPTY, ""), chunks);
    var p := Chunks(read, Progress(EMPTY, ""), chunks).value;
    LineKeeps(read, p.state, p.buffer);
    var s := ProcessLine(read, p.state, p.buffer).value;
    FailKeeps(s, INCOMPLETE);
    assert Fail(s, INCOMPLETE).sawDone == s.sawDone by { FailSees(s); }
  }

  lemma {:induction false} FailSees(s: State)
    ensures Fail(s, INCOMPLETE).sawDone == s.sawDone
  {
  }

  lemma {:induction false} EmptyIsGood()
    ensures Good(EMPTY)
  {
  }

  /** An error event does not stick: a tool call after it makes the message a tool use again. */
  lemma {:induction false} ErrorDoesNotStick(call: ToolCall)
    requires |call.arguments| <= MAX_TOOL_ARGUMENT_BYTES
    ensures var failed := Step(EMPTY, ErrorEvent("overloaded")).value;
      && Step(EMPTY, ErrorEvent("overloaded")).Ok? && failed.stopReason == Error
      && Step(failed, ToolCalls([call])).Ok?
      && Step(failed, ToolCalls([call])).value.stopReason == ToolUse
      && Step(failed, ToolCalls([call])).value.errorMessage == Some("overloaded")
  {
    var failed := Step(EMPTY, ErrorEvent("overloaded")).value;
    assert WithoutTools([]) == [];
    assert AccountOne(failed, call).Ok?;
    var accounted := AccountOne(failed, call).value;
    assert [call][1..] == [];
    assert Account(failed, [call]) == Ok(accounted);
    assert AppendTools(accounted, [call]) == AppendTool(accounted, call);
  }

  // ---- the content is under the budget too ----

  function ToolsIn(content: seq<Block>): seq<ToolCall> {
    if content == [] then []
    else
      var rest := ToolsIn(content[..|content| - 1]);
      var last := content[|content| - 1];
      if last.Tool? then rest + [last.call] else rest
  }

  lemma {:induction false} ToolsAreInContent(content: seq<Block>)
    requires UniqueBlocks(content)
    ensures DistinctIds(ToolsIn(content))
    ensures forall c :: c in ToolsIn(content) ==> Tool(c) in content
  {
    if content != [] {
      var rest, last := content[..|content| - 1], content[|content| - 1];
      assert UniqueBlocks(rest);
      ToolsAreInContent(rest);
      forall k | 0 <= k < |ToolsIn(rest)| && last.Tool? ensures ToolsIn(rest)[k].id != last.call.id {
        assert ToolsIn(rest)[k] in ToolsIn(rest);
        assert Tool(ToolsIn(rest)[k]) in rest;
      }
    }
  }

  lemma {:induction false} ArgumentBytesWithout(calls: seq<ToolCall>, i: nat)
    requires i < |calls|
    ensures ArgumentBytes(calls) == ArgumentBytes(calls[..i] + calls[i + 1..]) + |calls[i].arguments|
  {
    var n := |calls| - 1;
    if i == n {
      assert calls[..i] + calls[i + 1..] == calls[..n];
    } else {
      ArgumentBytesWithout(calls[..n], i);
      var without := calls[..i] + calls[i + 1..];
      assert without[..|without| - 1] == calls[..n][..i] + calls[..n][i + 1..];
      assert without[|without| - 1] == calls[n];
    }
  }

  lemma {:induction false} FewerCalls(some: seq<ToolCall>, all: seq<ToolCall>)
    requires DistinctIds(some) && DistinctIds(all) && forall c :: c in some ==> c in all
    ensures |some| <= |all| && ArgumentBytes(some) <= ArgumentBytes(all)
    decreases |some|
  {
    if some != [] {
      var n := |some| - 1;
      assert some[n] in some;
      var i :| 0 <= i < |all| && all[i] == some[n];
      var without := all[..i] + all[i + 1..];
      forall c | c in some[..n] ensures c in without {
        assert c in some;
        var j :| 0 <= j < |all| && all[j] == c;
        assert j != i;
        assert c == if j < i then without[j] else without[j - 1];
      }
      ArgumentBytesWithout(all, i);
      FewerCalls(some[..n], without);
    }
  }

  /** So the tool calls of the message itself are at most 128, with at most 1 MiB of arguments. */
  lemma {:induction false} MessageIsInBudget(s: State)
    requires Good(s)
    ensures |ToolsIn(s.content)| <= MAX_TOOL_CALLS
    ensures ArgumentBytes(ToolsIn(s.content)) <= MAX_TOOL_ARGUMENT_BYTES
  {
    hide ArgumentBytes, ToolsIn;
    ToolsAreInContent(s.content);
    FewerCalls(ToolsIn(s.content), s.accounted);
  }

  // ---- chunk invariance ----

  lemma {:induction false} FindNewlineInPrefix(a: string, b: string)
    ensures Find(a, "\n", 0).Some? ==> Find(a + b, "\n", 0) == Find(a, "\n", 0)
    ensures Find(a, "\n", 0).None? && Find(a + b, "\n", 0).Some? ==> Find(a + b, "\n", 0).value >= |a|
  {
    forall k: nat | k < |a| ensures StartsAt(a + b, "\n", k) <==> StartsAt(a, "\n", k) {
      assert (a + b)[k..k + 1] == a[k..k + 1];
    }
    var f := Find(a, "\n", 0);
    var g := Find(a + b, "\n", 0);
    if f.Some? {
      assert StartsAt(a + b, "\n", f.value);
      assert g.Some? && !(f.value < g.value) && !(g.value < f.value);
    }
  }

  /** The lines of a + b are those of a, then those of what a leaves with b. */
  lemma {:induction false} LinesInTwo(read: string -> Reading, s: State, a: string, b: string)
    ensures var first := Lines(read, s, a);
      Lines(read, s, a + b) ==
        if first.Err? then first else Lines(read, first.value.state, first.value.buffer + b)
    decreases |a|
  {
    hide ProcessLine, Find;
    FindNewlineInPrefix(a, b);
    var f := Find(a, "\n", 0);
    if f.Some? {
      assert (a + b)[..f.value] == a[..f.value] && (a + b)[f.value + 1..] == a[f.value + 1..] + b;
      var line := ProcessLine(read, s, a[..f.value]);
      if line.Ok? {
        LinesInTwo(read, line.value, a[f.value + 1..], b);
      }
    }
  }

  /** A line that is already too long fails in the end, whatever is added to it. */
  lemma {:induction false} TooLongStays(read: string -> Reading, s: State, a: string, b: string)
    requires Find(a, "\n", 0).None? && |a| > MAX_LINE_BYTES
    ensures var all := Lines(read, s, a + b);
      all == Err(LineTooLong) || (all.Ok? && |all.value.buffer| > MAX_LINE_BYTES)
  {
    FindNewlineInPrefix(a, b);
  }

  lemma {:induction false} LinesLeaveNoNewline(read: string -> Reading, s: State, a: string)
    requires Lines(read, s, a).Ok?
    ensures Find(Lines(read, s, a).value.buffer, "\n", 0).None?
    decreases |a|
  {
    hide ProcessLine, Find;
    var f := Find(a, "\n", 0);
    if f.Some? {
      LinesLeaveNoNewline(read, ProcessLine(read, s, a[..f.value]).value, a[f.value + 1..]);
    }
  }

  lemma {:induction false} ChunkInTwo(read: string -> Reading, p: Progress, a: string, b: string)
    ensures Chunk(read, p, a + b) ==
      (var q := Chunk(read, p, a); if q.Err? then q else Chunk(read, q.value, b))
  {
    hide Lines, Find;
    assert p.buffer + (a + b) == p.buffer + a + b;
    LinesInTwo(read, p.state, p.buffer + a, b);
    var first := Lines(read, p.state, p.buffer + a);
    if first.Ok? {
      LinesLeaveNoNewline(read, p.state, p.buffer + a);
      if |first.value.buffer| > MAX_LINE_BYTES {
        TooLongStays(read, first.value.state, first.value.buffer, b);
      }
    }
  }

  lemma {:induction false} ChunksAsOne(read: string -> Reading, p: Progress, chunks: seq<string>)
    requires chunks != []
    ensures Chunks(read, p, chunks) == Chunk(read, p, Together(chunks))
    decreases |chunks|
  {
    hide Chunk;
    var rest := chunks[1..];
    if rest == [] {
      assert chunks[0] + "" == chunks[0];
      assert Together(chunks) == chunks[0];
    } else {
      ChunkInTwo(read, p, chunks[0], Together(rest));
      if Chunk(read, p, chunks[0]).Ok? {
        ChunksAsOne(read, Chunk(read, p, chunks[0]).value, rest);
      }
    }
  }

  lemma {:induction false} NoChunksAsOne(read: string -> Reading)
    ensures Chunks(read, Progress(EMPTY, ""), []) == Chunk(read, Progress(EMPTY, ""), "")
  {
    assert "" + "" == "";
    assert Find("", "\n", 0).None?;
  }

  /** However a response was cut into chunks, it has the same outcome: the same message, or the same failure. */
  lemma {:induction false} ChunkingMakesNoDifference(read: string -> Reading, a: seq<string>, b: seq<string>)
    requires Together(a) == Together(b)
    ensures Consume(read, a) == Consume(read, b)
  {
    ConsumeAsOne(read, a);
    ConsumeAsOne(read, b);
  }

  lemma {:induction false} ConsumeAsOne(read: string -> Reading, chunks: seq<string>)
    ensures Chunks(read, Progress(EMPTY, ""), chunks) == Chunk(read, Progress(EMPTY, ""), Together(chunks))
  {
    hide Chunk, Chunks;
    if chunks == [] {
      NoChunksAsOne(read);
    } else {
      ChunksAsOne(read, Progress(EMPTY, ""), chunks);
    }
  }
}
