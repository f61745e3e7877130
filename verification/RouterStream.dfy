/** The events of a router stream. */
module RouterStream {
  import opened Strings
  import opened Wrappers

  const MAX_LINE_BYTES := 1024 * 1024
  const MAX_EVENTS := 8192
  const MAX_TOOL_CALLS := 128
  const MAX_TOOL_ARGUMENT_BYTES := 1024 * 1024

  /** `arguments` is the JSON text of the arguments; characters of a string stand for its encoded bytes. */
  datatype ToolCall = ToolCall(id: string, name: string, arguments: string)

  datatype Block = Text(text: string) | Thinking(thinking: string) | Tool(call: ToolCall)

  datatype StopReason = Stop | ToolUse | Error

  datatype Event =
    | TextDelta(delta: string)
    | ThinkingDelta(delta: string)
    | ToolCalls(calls: seq<ToolCall>)
    | Done(text: string, reasoning: string, calls: seq<ToolCall>)
    | ErrorEvent(message: string)
    | Other

  /** What a line reads as: nothing but white space, no valid event, or an event. */
  datatype Reading = Blank | Bad | Read(event: Event)

  datatype Failure =
    | LineTooLong | TooManyEvents | BadLine
    | ConflictingCalls(id: string) | TooManyCalls | ArgumentsTooLarge

  datatype State = State(
    content: seq<Block>, stopReason: StopReason, errorMessage: Option<string>,
    accounted: seq<ToolCall>, argumentBytes: nat, eventCount: nat, sawDone: bool)

  const EMPTY := State([], Stop, None, [], 0, 0, false)
  const INCOMPLETE := "stream incomplete"

  // ---- budgets ----

  /** The position of the call with this id, or |calls|. */
  function FindCall(calls: seq<ToolCall>, id: string): (r: nat)
    ensures r <= |calls| && forall k :: 0 <= k < r ==> calls[k].id != id
    ensures r < |calls| ==> calls[r].id == id
  {
    if calls == [] then 0
    else
      var before := FindCall(calls[..|calls| - 1], id);
      if before < |calls| - 1 || calls[|calls| - 1].id == id then before else |calls|
  }

  function AccountOne(s: State, call: ToolCall): Result<State, Failure> {
    var i := FindCall(s.accounted, call.id);
    if i < |s.accounted| then
      if s.accounted[i] == call then Ok(s) else Err(ConflictingCalls(call.id))
    else if |s.accounted| >= MAX_TOOL_CALLS then Err(TooManyCalls)
    else if s.argumentBytes + |call.arguments| > MAX_TOOL_ARGUMENT_BYTES then Err(ArgumentsTooLarge)
    else Ok(s.(accounted := s.accounted + [call], argumentBytes := s.argumentBytes + |call.arguments|))
  }

  function Account(s: State, calls: seq<ToolCall>): Result<State, Failure>
    decreases |calls|
  {
    if calls == [] then Ok(s)
    else
      match AccountOne(s, calls[0])
      case Err(e) => Err(e)
      case Ok(s') => Account(s', calls[1..])
  }

  // ---- the message ----

  function FindTool(content: seq<Block>, id: string): (r: nat)
    ensures r <= |content| && forall k :: 0 <= k < r ==> !(content[k].Tool? && content[k].call.id == id)
    ensures r < |content| ==> content[r].Tool? && content[r].call.id == id
  {
    if content == [] then 0
    else
      var n := |content| - 1;
      var before := FindTool(content[..n], id);
      if before < n || (content[n].Tool? && content[n].call.id == id) then before else |content|
  }

  function AppendTool(s: State, call: ToolCall): Result<State, Failure> {
    var i := FindTool(s.content, call.id);
    if i < |s.content| then
      if s.content[i].call == call then Ok(s) else Err(ConflictingCalls(call.id))
    else Ok(s.(content := s.content + [Tool(call)], stopReason := ToolUse))
  }

  function AppendTools(s: State, calls: seq<ToolCall>): Result<State, Failure>
    decreases |calls|
  {
    if calls == [] then Ok(s)
    else
      match AppendTool(s, calls[0])
      case Err(e) => Err(e)
      case Ok(s') => AppendTools(s', calls[1..])
  }

  function FindText(content: seq<Block>): (r: nat)
    ensures r <= |content| && forall k :: 0 <= k < r ==> !content[k].Text?
    ensures r < |content| ==> content[r].Text?
  {
    if content == [] then 0 else if content[0].Text? then 0 else 1 + FindText(content[1..])
  }

  function FindThinking(content: seq<Block>): (r: nat)
    ensures r <= |content| && forall k :: 0 <= k < r ==> !content[k].Thinking?
    ensures r < |content| ==> content[r].Thinking?
  {
    if content == [] then 0 else if content[0].Thinking? then 0 else 1 + FindThinking(content[1..])
  }

  /** Text goes to the one text block: appended while streaming, replaced by the final text. */
  function WithText(content: seq<Block>, text: string, replace: bool): seq<Block> {
    var i := FindText(content);
    if text == "" then content
    else if i == |content| then content + [Text(text)]
    else content[i := Text(if replace then text else content[i].text + text)]
  }

  function WithThinking(content: seq<Block>, text: string, replace: bool): seq<Block> {
    var i := FindThinking(content);
    if text == "" then content
    else if i == |content| then content + [Thinking(text)]
    else content[i := Thinking(if replace then text else content[i].thinking + text)]
  }

  function WithoutTools(content: seq<Block>): seq<Block> {
    if content == [] then []
    else
      var rest := WithoutTools(content[..|content| - 1]);
      var last := content[|content| - 1];
      if last.Tool? then rest else rest + [last]
  }

  function Fail(s: State, message: string): State {
    s.(content := WithoutTools(s.content), stopReason := Error, errorMessage := Some(message))
  }

  function CallsOf(e: Event): seq<ToolCall> {
    match e
    case ToolCalls(calls) => calls
    case Done(_, _, calls) => calls
    case _ => []
  }

  function Handle(s: State, e: Event): Result<State, Failure> {
    match e
    case TextDelta(delta) => Ok(s.(content := WithText(s.content, delta, false)))
    case ThinkingDelta(delta) => Ok(s.(content := WithThinking(s.content, delta, false)))
    case ToolCalls(calls) => AppendTools(s, calls)
    case Done(text, reasoning, calls) =>
      AppendTools(s.(content := WithText(WithThinking(s.content, reasoning, true), text, true)), calls)
    case ErrorEvent(message) => Ok(Fail(s, message))
    case Other => Ok(s)
  }

  /** One event: counted, its calls accounted for, then folded into the message. */
  function Step(s: State, e: Event): Result<State, Failure> {
    match Account(s.(sawDone := s.sawDone || e.Done?), CallsOf(e))
    case Err(failure) => Err(failure)
    case Ok(s') => Handle(s', e)
  }

  // ---- lines and chunks ----

  function ProcessLine(read: string -> Reading, s: State, line: string): Result<State, Failure> {
    if |line| > MAX_LINE_BYTES then Err(LineTooLong)
    else if read(line) == Blank then Ok(s)
    else if s.eventCount >= MAX_EVENTS then Err(TooManyEvents)
    else
      match read(line)
      case Read(e) => Step(s.(eventCount := s.eventCount + 1), e)
      case _ => Err(BadLine)
  }

  datatype Progress = Progress(state: State, buffer: string)

  /** Process every complete line of the buffer. */
  function Lines(read: string -> Reading, s: State, buffer: string): Result<Progress, Failure>
    decreases |buffer|
  {
    match Find(buffer, "\n", 0)
    case None => Ok(Progress(s, buffer))
    case Some(i) =>
      match ProcessLine(read, s, buffer[..i])
      case Err(failure) => Err(failure)
      case Ok(s') => Lines(read, s', buffer[i + 1..])
  }

  function Chunk(read: string -> Reading, p: Progress, chunk: string): Result<Progress, Failure> {
    match Lines(read, p.state, p.buffer + chunk)
    case Err(failure) => Err(failure)
    case Ok(q) => if |q.buffer| > MAX_LINE_BYTES then Err(LineTooLong) else Ok(q)
  }

  function Chunks(read: string -> Reading, p: Progress, chunks: seq<string>): Result<Progress, Failure>
    decreases |chunks|
  {
    if chunks == [] then Ok(p)
    else
      match Chunk(read, p, chunks[0])
      case Err(failure) => Err(failure)
      case Ok(q) => Chunks(read, q, chunks[1..])
  }

  /** A stream that ends without its completion event is an error; its partial text is kept. */
  function Close(s: State): State {
    if !s.sawDone && s.stopReason != Error then Fail(s, INCOMPLETE) else s
  }

  /** The whole response: the chunks, then what is left of the last line, then the end. */
  function Consume(read: string -> Reading, chunks: seq<string>): Result<State, Failure> {
    match Chunks(read, Progress(EMPTY, ""), chunks)
    case Err(failure) => Err(failure)
    case Ok(p) =>
      match ProcessLine(read, p.state, p.buffer)
      case Err(failure) => Err(failure)
      case Ok(s) => Ok(Close(s))
  }
}
