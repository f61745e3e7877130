/** The events of an agent run. */
module AgentEvents {
  import opened Wrappers

  datatype ToolCall = ToolCall(id: string, name: string, arguments: string)
  datatype Block = Text(text: string) | Call(call: ToolCall)
  datatype StopReason = Stop | Length | ToolUse | Error | Aborted

  /** What a tool call came to; `terminate` asks the loop not to go on because of it. */
  datatype Outcome = Outcome(call: ToolCall, content: string, terminate: bool, isError: bool)

  datatype Message =
    | User(text: string)
    | Assistant(content: seq<Block>, stopReason: StopReason, errorMessage: Option<string>)
    | ToolResult(callId: string, toolName: string, text: string, isError: bool)

  /** Tool events carry the position (`slot`) of their call in the batch: call ids need not be distinct. */
  datatype Event =
    | AgentStart
    | AgentEnd(messages: seq<Message>)
    | TurnStart
    | TurnEnd(message: Message, toolResults: seq<Message>)
    | MessageStart(message: Message)
    | MessageUpdate(message: Message)
    | MessageEnd(message: Message)
    | ToolStart(slot: nat, call: ToolCall)
    | ToolUpdate(slot: nat, call: ToolCall, partial: string)
    | ToolEnd(slot: nat, outcome: Outcome)

  // ---- the state of the Agent ----

  datatype AgentState = AgentState(
    messages: seq<Message>,
    streamingMessage: Option<Message>,
    pendingToolCalls: set<string>,
    errorMessage: Option<string>)

  /** The reducer of Agent.processEvents. */
  function Reduce(s: AgentState, e: Event): AgentState {
    match e
    case MessageStart(m) => s.(streamingMessage := Some(m))
    case MessageUpdate(m) => s.(streamingMessage := Some(m))
    case MessageEnd(m) => s.(streamingMessage := None, messages := s.messages + [m])
    case ToolStart(_, call) => s.(pendingToolCalls := s.pendingToolCalls + {call.id})
    case ToolEnd(_, outcome) => s.(pendingToolCalls := s.pendingToolCalls - {outcome.call.id})
    case TurnEnd(m, _) =>
      if m.Assistant? && m.errorMessage.Some? then s.(errorMessage := m.errorMessage) else s
    case AgentEnd(_) => s.(streamingMessage := None)
    case AgentStart => s
    case TurnStart => s
    case ToolUpdate(_, _, _) => s
  }

  function ReduceAll(s: AgentState, trace: seq<Event>): AgentState {
    if trace == [] then s
    else Reduce(ReduceAll(s, trace[..|trace| - 1]), trace[|trace| - 1])
  }

  /** The messages whose end was announced, in order. */
  function Ended(trace: seq<Event>): seq<Message> {
    if trace == [] then []
    else
      var rest := Ended(trace[..|trace| - 1]);
      var e := trace[|trace| - 1];
      if e.MessageEnd? then rest + [e.message] else rest
  }

  // ---- the protocol ----

  /**
   * Where a run stands: `calls` are the tool calls started in this turn, in order,
   * and `running` the positions of those that have not ended.
   */
  datatype Phase = Phase(
    started: bool, over: bool, turn: bool, message: bool, calls: seq<ToolCall>, running: set<nat>)

  const NOT_STARTED := Phase(false, false, false, false, [], {})

  function BetweenTurns(calls: seq<ToolCall>): Phase { Phase(true, false, false, false, calls, {}) }
  function InTurn(calls: seq<ToolCall>): Phase { Phase(true, false, true, false, calls, {}) }

  predicate IsRunning(p: Phase, slot: nat, call: ToolCall) {
    p.turn && !p.message && slot < |p.calls| && slot in p.running && p.calls[slot] == call
  }

  predicate Legal(p: Phase, e: Event) {
    match e
    case AgentStart => !p.started
    case AgentEnd(_) => p.started && !p.over && !p.turn
    case TurnStart => p.started && !p.over && !p.turn
    case TurnEnd(_, _) => p.turn && !p.message && p.running == {}
    case MessageStart(_) => p.turn && !p.message && p.running == {}
    case MessageUpdate(_) => p.turn && p.message
    case MessageEnd(_) => p.turn && p.message
    case ToolStart(slot, _) => p.turn && !p.message && slot == |p.calls|
    case ToolUpdate(slot, call, _) => IsRunning(p, slot, call)
    case ToolEnd(slot, outcome) => IsRunning(p, slot, outcome.call)
  }

  function Advance(p: Phase, e: Event): Phase {
    match e
    case AgentStart => p.(started := true)
    case AgentEnd(_) => p.(over := true)
    case TurnStart => p.(turn := true, calls := [], running := {})
    case TurnEnd(_, _) => p.(turn := false)
    case MessageStart(_) => p.(message := true)
    case MessageUpdate(_) => p
    case MessageEnd(_) => p.(message := false)
    case ToolStart(slot, call) => p.(calls := p.calls + [call], running := p.running + {slot})
    case ToolUpdate(_, _, _) => p
    case ToolEnd(slot, _) => p.(running := p.running - {slot})
  }

  /** The phase after a trace, or None when some event of it came out of order. */
  function Follow(p: Phase, trace: seq<Event>): Option<Phase> {
    if trace == [] then Some(p)
    else
      var before := Follow(p, trace[..|trace| - 1]);
      var e := trace[|trace| - 1];
      if before.Some? && Legal(before.value, e) then Some(Advance(before.value, e)) else None
  }

  lemma {:induction false} FollowSnoc(p: Phase, trace: seq<Event>, e: Event)
    ensures Follow(p, trace + [e]) ==
      (var q := Follow(p, trace); if q.Some? && Legal(q.value, e) then Some(Advance(q.value, e)) else None)
  {
    assert (trace + [e])[..|trace|] == trace;
  }

  lemma {:induction false} FollowConcat(p: Phase, a: seq<Event>, b: seq<Event>)
    ensures Follow(p, a + b) == (var q := Follow(p, a); if q.Some? then Follow(q.value, b) else None)
  {
    if b == [] {
      assert a + b == a;
    } else {
      var c, e := b[..|b| - 1], b[|b| - 1];
      FollowConcat(p, a, c);
      assert a + b == (a + c) + [e];
      FollowSnoc(p, a + c, e);
    }
  }

  lemma {:induction false} EndedSnoc(trace: seq<Event>, e: Event)
    ensures Ended(trace + [e]) == if e.MessageEnd? then Ended(trace) + [e.message] else Ended(trace)
  {
    assert (trace + [e])[..|trace|] == trace;
  }

  lemma {:induction false} EndedConcat(a: seq<Event>, b: seq<Event>)
    ensures Ended(a + b) == Ended(a) + Ended(b)
  {
    if b == [] {
      assert a + b == a;
    } else {
      var c, e := b[..|b| - 1], b[|b| - 1];
      EndedConcat(a, c);
      assert a + b == (a + c) + [e];
      EndedSnoc(a + c, e);
      assert b == c + [e];
      EndedSnoc(c, e);
    }
  }

  lemma {:induction false} ReduceAllSnoc(s: AgentState, trace: seq<Event>, e: Event)
    ensures ReduceAll(s, trace + [e]) == Reduce(ReduceAll(s, trace), e)
  {
    assert (trace + [e])[..|trace|] == trace;
  }

  // ---- what every run in order keeps ----

  lemma {:induction false} PrefixFollows(trace: seq<Event>, k: nat)
    requires k <= |trace| && Follow(NOT_STARTED, trace).Some?
    ensures Follow(NOT_STARTED, trace[..k]).Some?
    decreases |trace| - k
  {
    if k == |trace| {
      assert trace[..k] == trace;
    } else {
      PrefixFollows(trace, k + 1);
      assert trace[..k + 1] == trace[..k] + [trace[k]];
      FollowSnoc(NOT_STARTED, trace[..k], trace[k]);
    }
  }

  /** The reducer's transcript grows by exactly the messages whose end was announced. */
  lemma {:induction false} ReducerKeepsEnded(s: AgentState, trace: seq<Event>)
    ensures ReduceAll(s, trace).messages == s.messages + Ended(trace)
  {
    if trace != [] {
      ReducerKeepsEnded(s, trace[..|trace| - 1]);
    }
  }

  /** A call id is pending only while some call with that id is running; a batch that is over leaves none. */
  lemma {:induction false} PendingAreRunning(s: AgentState, trace: seq<Event>)
    requires s.pendingToolCalls == {} && Follow(NOT_STARTED, trace).Some?
    ensures var p := Follow(NOT_STARTED, trace).value;
      && (forall i :: i in p.running ==> i < |p.calls|)
      && (!p.turn ==> p.running == {})
      && forall id :: id in ReduceAll(s, trace).pendingToolCalls ==>
          exists i :: i in p.running && i < |p.calls| && p.calls[i].id == id
  {
    if trace != [] {
      var rest, e := trace[..|trace| - 1], trace[|trace| - 1];
      PendingAreRunning(s, rest);
      PendingStep(ReduceAll(s, rest), Follow(NOT_STARTED, rest).value, e);
    }
  }

  lemma {:induction false} PendingStep(s: AgentState, p: Phase, e: Event)
    requires Legal(p, e)
    requires forall i :: i in p.running ==> i < |p.calls|
    requires !p.turn ==> p.running == {}
    requires forall id :: id in s.pendingToolCalls ==>
      exists i :: i in p.running && i < |p.calls| && p.calls[i].id == id
    ensures var q := Advance(p, e);
      && (forall i :: i in q.running ==> i < |q.calls|)
      && (!q.turn ==> q.running == {})
      && forall id :: id in Reduce(s, e).pendingToolCalls ==>
          exists i :: i in q.running && i < |q.calls| && q.calls[i].id == id
  {
    var q := Advance(p, e);
    forall id | id in Reduce(s, e).pendingToolCalls
      ensures exists i :: i in q.running && i < |q.calls| && q.calls[i].id == id
    {
      if e.ToolStart? && id == e.call.id {
        assert e.slot in q.running && q.calls[e.slot].id == id;
      } else {
        assert id in s.pendingToolCalls;
        var i :| i in p.running && i < |p.calls| && p.calls[i].id == id;
        if e.ToolEnd? {
          assert i != e.slot;
        }
        assert i in q.running && i < |q.calls| && q.calls[i].id == id;
      }
    }
  }

  /** At the end of every turn no call is pending and no message is open in the reducer. */
  lemma {:induction false} NothingPendingAtTurnEnd(s: AgentState, trace: seq<Event>, k: nat)
    requires s.pendingToolCalls == {} && s.streamingMessage == None
    requires Follow(NOT_STARTED, trace).Some?
    requires k < |trace| && (trace[k].TurnEnd? || trace[k].AgentEnd?)
    ensures ReduceAll(s, trace[..k]).pendingToolCalls == {}
    ensures ReduceAll(s, trace[..k]).streamingMessage == None
  {
    PrefixFollows(trace, k + 1);
    assert trace[..k + 1] == trace[..k] + [trace[k]];
    FollowSnoc(NOT_STARTED, trace[..k], trace[k]);
    PendingAreRunning(s, trace[..k]);
    StreamingWhileOpen(s, trace[..k]);
  }

  /** The reducer has a streaming message exactly while a message is open. */
  lemma {:induction false} StreamingWhileOpen(s: AgentState, trace: seq<Event>)
    requires s.streamingMessage == None && Follow(NOT_STARTED, trace).Some?
    ensures ReduceAll(s, trace).streamingMessage.Some? <==> Follow(NOT_STARTED, trace).value.message
    ensures Follow(NOT_STARTED, trace).value.message ==> Follow(NOT_STARTED, trace).value.turn
  {
    if trace != [] {
      StreamingWhileOpen(s, trace[..|trace| - 1]);
    }
  }

  lemma {:induction false} OverIsFinal(trace: seq<Event>)
    requires Follow(NOT_STARTED, trace).Some?
    ensures var p := Follow(NOT_STARTED, trace).value;
      && (p.over ==> p.started && !p.turn)
      && (p.turn ==> p.started)
      && (p.over <==> exists k :: 0 <= k < |trace| && trace[k].AgentEnd?)
      && (trace == [] <==> !p.started)
    ensures forall k :: 0 <= k < |trace| && trace[k].AgentEnd? ==> k == |trace| - 1
    ensures forall k :: 0 <= k < |trace| ==> (trace[k].AgentStart? <==> k == 0)
  {
    if trace != [] {
      var rest := trace[..|trace| - 1];
      OverIsFinal(rest);
      assert forall k :: 0 <= k < |rest| ==> rest[k] == trace[k];
    }
  }

  /** agent_start comes first and only there; agent_end comes last and only there. */
  lemma {:induction false} StartFirstEndLast(trace: seq<Event>)
    requires Follow(NOT_STARTED, trace).Some? && Follow(NOT_STARTED, trace).value.over
    ensures |trace| > 0 && trace[|trace| - 1].AgentEnd?
    ensures forall k :: 0 <= k < |trace| ==> (trace[k].AgentStart? <==> k == 0)
    ensures forall k :: 0 <= k < |trace| ==> (trace[k].AgentEnd? <==> k == |trace| - 1)
  {
    OverIsFinal(trace);
  }

  /** Message pairs never overlap: two starts have an end between them. */
  lemma {:induction false} MessagePairsNeverOverlap(trace: seq<Event>, i: nat, j: nat)
    requires Follow(NOT_STARTED, trace).Some?
    requires i < j < |trace| && trace[i].MessageStart? && trace[j].MessageStart?
    ensures exists k :: i < k < j && trace[k].MessageEnd?
  {
    PrefixFollows(trace, j + 1);
    assert trace[..j + 1] == trace[..j] + [trace[j]];
    FollowSnoc(NOT_STARTED, trace[..j], trace[j]);
    if forall k :: i < k < j ==> !trace[k].MessageEnd? {
      StaysOpen(trace, i, j);
    }
  }

  lemma {:induction false} StaysOpen(trace: seq<Event>, i: nat, j: nat)
    requires i < j <= |trace| && trace[i].MessageStart?
    requires Follow(NOT_STARTED, trace[..j]).Some?
    requires forall k :: i < k < j ==> !trace[k].MessageEnd?
    ensures Follow(NOT_STARTED, trace[..j]).value.message
  {
    assert trace[..j] == trace[..j - 1] + [trace[j - 1]];
    FollowSnoc(NOT_STARTED, trace[..j - 1], trace[j - 1]);
    if i < j - 1 {
      StaysOpen(trace, i, j - 1);
    }
  }

  /**
   * An update or the end of a call comes after the start of that same call,
   * in the same turn, and no end of it comes in between.
   */
  lemma {:induction false} ToolEventsInsideTheirCall(trace: seq<Event>, k: nat) returns (start: nat)
    requires Follow(NOT_STARTED, trace).Some? && k < |trace|
    requires trace[k].ToolUpdate? || trace[k].ToolEnd?
    ensures var call := if trace[k].ToolUpdate? then trace[k].call else trace[k].outcome.call;
      start < k && trace[start] == ToolStart(trace[k].slot, call)
    ensures forall j :: start < j < k ==>
      !trace[j].TurnStart? && (trace[j].ToolEnd? ==> trace[j].slot != trace[k].slot)
  {
    PrefixFollows(trace, k + 1);
    assert trace[..k + 1] == trace[..k] + [trace[k]];
    FollowSnoc(NOT_STARTED, trace[..k], trace[k]);
    start := FindStart(trace, k, trace[k].slot);
  }

  lemma {:induction false} StartStep(p: Phase, e: Event, slot: nat)
    requires Legal(p, e)
    requires slot < |Advance(p, e).calls| && slot in Advance(p, e).running
    ensures if e.ToolStart? && e.slot == slot then e.call == Advance(p, e).calls[slot]
      else
        && slot < |p.calls| && slot in p.running && p.calls[slot] == Advance(p, e).calls[slot]
        && !e.TurnStart? && (e.ToolEnd? ==> e.slot != slot)
  {
  }

  lemma {:induction false} FindStart(trace: seq<Event>, k: nat, slot: nat) returns (start: nat)
    requires k <= |trace| && Follow(NOT_STARTED, trace[..k]).Some?
    requires var p := Follow(NOT_STARTED, trace[..k]).value; slot < |p.calls| && slot in p.running
    ensures start < k && trace[start] == ToolStart(slot, Follow(NOT_STARTED, trace[..k]).value.calls[slot])
    ensures forall j :: start < j < k ==>
      !trace[j].TurnStart? && (trace[j].ToolEnd? ==> trace[j].slot != slot)
  {
    if k == 0 {
      assert false;
    } else {
      assert trace[..k] == trace[..k - 1] + [trace[k - 1]];
      FollowSnoc(NOT_STARTED, trace[..k - 1], trace[k - 1]);
      StartStep(Follow(NOT_STARTED, trace[..k - 1]).value, trace[k - 1], slot);
      if trace[k - 1].ToolStart? && trace[k - 1].slot == slot {
        start := k - 1;
      } else {
        start := FindStart(trace, k - 1, slot);
      }
    }
  }

  /** Every call that was started in a finished turn has ended in it. */
  lemma {:induction false} StartedCallsEnd(trace: seq<Event>, start: nat, k: nat)
    requires Follow(NOT_STARTED, trace).Some? && start < k < |trace|
    requires trace[start].ToolStart? && trace[k].TurnEnd?
    ensures exists j :: start < j < k && trace[j].ToolEnd? && trace[j].slot == trace[start].slot
  {
    PrefixFollows(trace, k + 1);
    assert trace[..k + 1] == trace[..k] + [trace[k]];
    FollowSnoc(NOT_STARTED, trace[..k], trace[k]);
    if forall j :: start < j < k && trace[j].ToolEnd? ==> trace[j].slot != trace[start].slot {
      StaysRunning(trace, start, k);
    }
  }

  /** A call that has not ended keeps running, and its turn stays open. */
  lemma {:induction false} StaysRunning(trace: seq<Event>, start: nat, k: nat)
    requires start < k <= |trace| && trace[start].ToolStart?
    requires Follow(NOT_STARTED, trace[..k]).Some?
    requires forall j :: start < j < k && trace[j].ToolEnd? ==> trace[j].slot != trace[start].slot
    ensures var p := Follow(NOT_STARTED, trace[..k]).value; p.turn && trace[start].slot in p.running
  {
    assert trace[..k] == trace[..k - 1] + [trace[k - 1]];
    FollowSnoc(NOT_STARTED, trace[..k - 1], trace[k - 1]);
    if start < k - 1 {
      StaysRunning(trace, start, k - 1);
    }
  }
}
