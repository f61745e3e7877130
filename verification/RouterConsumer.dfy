/** The consumer of a router stream. */
module RouterConsumer {
  import opened Strings
  import opened Wrappers
  import opened RouterStream

  class NdjsonConsumer {
    const read: string -> Reading
    var content: seq<Block>
    var stopReason: StopReason
    var errorMessage: Option<string>
    var seen: seq<ToolCall>
    var argumentBytes: nat
    var eventCount: nat
    var sawDone: bool
    var buffer: string

    ghost function Now(): State
      reads this
    {
      State(content, stopReason, errorMessage, seen, argumentBytes, eventCount, sawDone)
    }

    constructor (read: string -> Reading)
      ensures this.read == read && Now() == EMPTY && buffer == ""
    {
      this.read := read;
      content, stopReason, errorMessage := [], Stop, None;
      seen, argumentBytes, eventCount, sawDone, buffer := [], 0, 0, false, "";
    }

    method FindCall(id: string) returns (i: nat)
      ensures i == RouterStream.FindCall(seen, id)
    {
      i := 0;
      while i < |seen| && seen[i].id != id
        invariant i <= |seen| && forall k :: 0 <= k < i ==> seen[k].id != id
      {
        i := i + 1;
      }
    }

    method AccountToolCalls(calls: seq<ToolCall>) returns (failure: Option<Failure>)
      modifies this`seen, this`argumentBytes
      ensures var r := Account(old(Now()), calls);
        if failure.Some? then r == Err(failure.value) else r == Ok(Now())
    {
      hide AccountOne;
      var i := 0;
      while i < |calls|
        invariant 0 <= i <= |calls| && Account(old(Now()), calls) == Account(Now(), calls[i..])
      {
        assert calls[i..][0] == calls[i] && calls[i..][1..] == calls[i + 1..];
        failure := AccountToolCall(calls[i]);
        if failure.Some? {
          return;
        }
        i := i + 1;
      }
      failure := None;
    }

    method AccountToolCall(call: ToolCall) returns (failure: Option<Failure>)
      modifies this`seen, this`argumentBytes
      ensures var r := AccountOne(old(Now()), call);
        if failure.Some? then r == Err(failure.value) else r == Ok(Now())
    {
      hide RouterStream.FindCall;
      var prior := FindCall(call.id);
      if prior < |seen| {
        return if seen[prior] != call then Some(ConflictingCalls(call.id)) else None;
      }
      if |seen| >= MAX_TOOL_CALLS {
        return Some(TooManyCalls);
      }
      if argumentBytes + |call.arguments| > MAX_TOOL_ARGUMENT_BYTES {
        return Some(ArgumentsTooLarge);
      }
      argumentBytes := argumentBytes + |call.arguments|;
      seen := seen + [call];
      failure := None;
    }

    method AppendToolCall(call: ToolCall) returns (failure: Option<Failure>)
      modifies this`content, this`stopReason
      ensures var r := AppendTool(old(Now()), call);
        if failure.Some? then r == Err(failure.value) else r == Ok(Now())
    {
      hide FindTool;
      var existing := 0;
      while existing < |content| && !(content[existing].Tool? && content[existing].call.id == call.id)
        invariant existing <= |content|
        invariant forall k :: 0 <= k < existing ==> !(content[k].Tool? && content[k].call.id == call.id)
      {
        existing := existing + 1;
      }
      if existing < |content| {
        return if content[existing].call != call then Some(ConflictingCalls(call.id)) else None;
      }
      content := content + [Tool(call)];
      stopReason := ToolUse;
      failure := None;
    }

    method AppendToolCalls(calls: seq<ToolCall>) returns (failure: Option<Failure>)
      modifies this`content, this`stopReason
      ensures var r := AppendTools(old(Now()), calls);
        if failure.Some? then r == Err(failure.value) else r == Ok(Now())
    {
      hide AppendTool;
      var i := 0;
      while i < |calls|
        invariant 0 <= i <= |calls| && AppendTools(old(Now()), calls) == AppendTools(Now(), calls[i..])
      {
        assert calls[i..][0] == calls[i] && calls[i..][1..] == calls[i + 1..];
        failure := AppendToolCall(calls[i]);
        if failure.Some? {
          return;
        }
        i := i + 1;
      }
      failure := None;
    }

    method AppendText(delta: string, replace: bool)
      modifies this`content
      ensures content == WithText(old(content), delta, replace)
    {
      hide FindText;
      if |delta| == 0 {
        return;
      }
      var index := 0;
      while index < |content| && !content[index].Text?
        invariant index <= |content| && forall k :: 0 <= k < index ==> !content[k].Text?
      {
        index := index + 1;
      }
      if index == |content| {
        content := content + [Text("")];
        content := content[index := Text(delta)];
      } else {
        content := content[index := Text(if replace then delta else content[index].text + delta)];
      }
    }

    method AppendThinking(delta: string, replace: bool)
      modifies this`content
      ensures content == WithThinking(old(content), delta, replace)
    {
      hide FindThinking;
      if |delta| == 0 {
        return;
      }
      var index := 0;
      while index < |content| && !content[index].Thinking?
        invariant index <= |content| && forall k :: 0 <= k < index ==> !content[k].Thinking?
      {
        index := index + 1;
      }
      if index == |content| {
        content := content + [Thinking("")];
        content := content[index := Thinking(delta)];
      } else {
        content := content[index := Thinking(if replace then delta else content[index].thinking + delta)];
      }
    }

    /** The error event: tool calls go, everything else stays. */
    method FailMessage(message: string)
      modifies this`content, this`stopReason, this`errorMessage
      ensures Now() == Fail(old(Now()), message)
    {
      var kept: seq<Block> := [];
      for i := 0 to |content|
        invariant kept == WithoutTools(content[..i])
      {
        assert content[..i + 1][..i] == content[..i];
        if !content[i].Tool? {
          kept := kept + [content[i]];
        }
      }
      assert content[..|content|] == content;
      content, stopReason, errorMessage := kept, Error, Some(message);
    }

    method HandleRouterStreamEvent(event: Event) returns (failure: Option<Failure>)
      modifies this`content, this`stopReason, this`errorMessage
      ensures var r := Handle(old(Now()), event);
        if failure.Some? then r == Err(failure.value) else r == Ok(Now())
    {
      hide WithText, WithThinking, AppendTools, Fail;
      failure := None;
      match event {
        case TextDelta(delta) => AppendText(delta, false);
        case ThinkingDelta(delta) => AppendThinking(delta, false);
        case ToolCalls(calls) => failure := AppendToolCalls(calls);
        case Done(text, reasoning, calls) =>
          AppendThinking(reasoning, true);
          AppendText(text, true);
          failure := AppendToolCalls(calls);
        case ErrorEvent(message) => FailMessage(message);
        case Other =>
      }
    }

    method ProcessLine(line: string) returns (failure: Option<Failure>)
      modifies this
      ensures buffer == old(buffer)
      ensures var r := RouterStream.ProcessLine(read, old(Now()), line);
        if failure.Some? then r == Err(failure.value) else r == Ok(Now())
    {
      hide Account, Handle;
      if |line| > MAX_LINE_BYTES {
        return Some(LineTooLong);
      }
      var reading := read(line);
      if reading == Blank {
        return None;
      }
      eventCount := eventCount + 1;
      if eventCount > MAX_EVENTS {
        return Some(TooManyEvents);
      }
      if reading == Bad {
        return Some(BadLine);
      }
      if reading.event.Done? {
        sawDone := true;
      }
      failure := AccountToolCalls(CallsOf(reading.event));
      if failure.None? {
        failure := HandleRouterStreamEvent(reading.event);
      }
    }

    method ProcessChunk(chunk: string) returns (failure: Option<Failure>)
      modifies this
      ensures var r := Chunk(read, Progress(old(Now()), old(buffer)), chunk);
        if failure.Some? then r == Err(failure.value) else r == Ok(Progress(Now(), buffer))
    {
      hide RouterStream.ProcessLine, Find;
      buffer := buffer + chunk;
      ghost var whole := Lines(read, old(Now()), buffer);
      var newlineIndex := Find(buffer, "\n", 0);
      while newlineIndex.Some?
        invariant newlineIndex == Find(buffer, "\n", 0)
        invariant whole == Lines(read, Now(), buffer)
        decreases |buffer|
      {
        var line := buffer[..newlineIndex.value];
        buffer := buffer[newlineIndex.value + 1..];
        failure := ProcessLine(line);
        if failure.Some? {
          return;
        }
        newlineIndex := Find(buffer, "\n", 0);
      }
      failure := if |buffer| > MAX_LINE_BYTES then Some(LineTooLong) else None;
    }

    method ConsumeNdjsonStream(chunks: seq<string>) returns (failure: Option<Failure>)
      requires Now() == EMPTY && buffer == ""
      modifies this
      ensures var r := Consume(read, chunks);
        if failure.Some? then r == Err(failure.value) else r == Ok(Now())
    {
      hide RouterStream.ProcessLine, Chunk, Fail;
      var i := 0;
      while i < |chunks|
        invariant 0 <= i <= |chunks|
        invariant Chunks(read, Progress(EMPTY, ""), chunks) == Chunks(read, Progress(Now(), buffer), chunks[i..])
      {
        assert chunks[i..][0] == chunks[i] && chunks[i..][1..] == chunks[i + 1..];
        failure := ProcessChunk(chunks[i]);
        if failure.Some? {
          return;
        }
        i := i + 1;
      }
      failure := ProcessLine(buffer);
      if failure.None? && !sawDone && stopReason != Error {
        FailMessage(INCOMPLETE);
      }
    }
  }
}
