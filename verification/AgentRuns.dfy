/** Starting runs of an agent. */
module AgentRuns {
  import opened Wrappers
  import opened AgentEvents
  import opened Agents
  import opened AgentProtocol
  import opened AgentLoop

  /** How the loop executes tools, and how many replies the provider will give. */
  datatype Setup = Setup(toolExecution: ExecutionMode, tools: map<string, ExecutionMode>, patience: nat)

  /** No run is active, no message is open, no call is pending. */
  predicate Idle(agent: Agent)
    reads agent
  {
    !agent.active && !agent.isStreaming && agent.state.pendingToolCalls == {} && agent.state.streamingMessage == None
  }

  /** After a run everything it opened is closed again, and the transcript grew by the messages of its turns. */
  lemma {:induction false} RunLeaves(s: AgentState, turns: seq<Turn>)
    requires s.pendingToolCalls == {} && s.streamingMessage == None && GoodTurns(turns)
    ensures var after := ReduceAll(s, RunTrace(turns));
      && after.messages == s.messages + MessagesOf(turns)
      && after.pendingToolCalls == {} && after.streamingMessage == None
  {
    var trace := RunTrace(turns);
    RunFollows(turns);
    ReducerKeepsEnded(s, trace);
    PendingAreRunning(s, trace);
    OverIsFinal(trace);
    StreamingWhileOpen(s, trace);
  }

  /** The failed or finished run of a loop that was opened on this agent. */
  ghost predicate Ran(agent: Agent, loop: Loop, exit: Exit, r: Record)
    reads agent, agent.steering, agent.followUp, loop
  {
    && loop.agent == agent && Settles(r, loop.Held())
    && (exit == ReplyFailed <==> LastFailed(r))
    && (exit == NothingLeft ==> loop.steeringAtPoll == [] && loop.followUpAtPoll == [] && !LastGoesOn(r))
  }

  /** Open a run on an idle agent. */
  method BeginRun(agent: Agent)
    requires agent.Valid() && Idle(agent)
    modifies agent
    ensures agent.Valid() && agent.active && agent.isStreaming && !agent.aborted
    ensures agent.base == agent.state == old(agent.state).(errorMessage := None) && agent.log == []
  {
    agent.active, agent.isStreaming, agent.aborted := true, true, false;
    agent.state := agent.state.(streamingMessage := None, errorMessage := None);
    agent.base, agent.log := agent.state, [];
  }

  /** Close a run whose events are complete: the cleanup finds nothing left to clean up. */
  method FinishRun(agent: Agent, ghost r: Record)
    requires agent.Valid() && GoodTurns(r.turns) && agent.log == RunTrace(r.turns)
    requires agent.base.pendingToolCalls == {} && agent.base.streamingMessage == None
    modifies agent`active, agent`isStreaming, agent`state
    ensures agent.Valid() && Idle(agent) && agent.state == old(agent.state)
    ensures agent.state.messages == agent.base.messages + MessagesOf(r.turns)
  {
    hide RunTrace, MessagesOf, GoodTurn;
    RunLeaves(agent.base, r.turns);
    agent.isStreaming := false;
    agent.state := agent.state.(streamingMessage := None, pendingToolCalls := {});
    agent.active := false;
  }

  method RunAgentLoop(agent: Agent, prompts: seq<Message>, setup: Setup, skipInitialSteeringPoll: bool)
    returns (loop: Loop, exit: Exit, ghost r: Record)
    requires agent.Valid() && agent.active && agent.log == []
    modifies agent`state, agent`log, agent`aborted, agent.steering, agent.followUp
    ensures fresh(loop) && agent.Valid() && agent.active && Ran(agent, loop, exit, r)
    ensures agent.base == old(agent.base) && agent.isStreaming == old(agent.isStreaming)
    ensures r == Record(prompts, old(agent.state).messages, old(agent.steering.handed), old(agent.followUp.handed), r.turns)
    ensures r.turns != [] && (skipInitialSteeringPoll ==> r.turns[0].steered == [])
  {
    hide Announce, Settles, ReduceAll, Left, Handed;
    ghost var start := agent.state.messages;
    loop := new Loop(agent, setup.toolExecution, setup.tools, agent.state.messages + prompts, prompts,
      skipInitialSteeringPoll, setup.patience);
    loop.Emit(AgentStart);
    loop.Emit(TurnStart);
    loop.EmitMessages(prompts);
    assert agent.log == [AgentStart, TurnStart] + Announce(prompts);
    exit, r := loop.RunLoop(prompts, start);
  }

  datatype Refusal = AlreadyProcessing | NothingToContinue | AssistantSpokeLast

  /** The messages a run of the agent added, as every observer of it sees them. */
  ghost predicate Added(before: seq<Message>, agent: Agent, r: Record)
    reads agent, agent.steering, agent.followUp
  {
    && GoodRecord(r) && agent.log == RunTrace(r.turns)
    && agent.state.messages == before + MessagesOf(r.turns)
    && agent.steering.handed == r.steeredBefore + Steered(r.turns)
    && agent.followUp.handed == r.followedBefore + Followed(r.turns)
  }

  /** A run from the given prompts; with no prompts it continues from the transcript. */
  method RunPromptMessages(agent: Agent, prompts: seq<Message>, setup: Setup, skipInitialSteeringPoll: bool)
    returns (exit: Exit, ghost r: Record)
    requires agent.Valid() && Idle(agent)
    modifies agent, agent.steering, agent.followUp
    ensures agent.Valid() && Idle(agent) && Added(old(agent.state.messages), agent, r)
    ensures r == Record(prompts, old(agent.state).messages, old(agent.steering.handed), old(agent.followUp.handed), r.turns)
    ensures r.turns != [] && (skipInitialSteeringPoll ==> r.turns[0].steered == [])
    ensures exit == ReplyFailed <==> LastFailed(r)
    ensures exit == NothingLeft ==> !LastGoesOn(r)
  {
    BeginRun(agent);
    var loop;
    loop, exit, r := RunAgentLoop(agent, prompts, setup, skipInitialSteeringPoll);
    FinishRun(agent, r);
  }

  method Prompt(agent: Agent, prompts: seq<Message>, setup: Setup) returns (result: Result<Exit, Refusal>, ghost r: Record)
    requires agent.Valid() && (agent.active || Idle(agent))
    modifies agent, agent.steering, agent.followUp
    ensures agent.Valid()
    ensures result == Err(AlreadyProcessing) <==> old(agent.active)
    ensures result.Err? ==> result.error == AlreadyProcessing
    ensures result.Err? ==> agent.state == old(agent.state) && agent.log == old(agent.log)
    ensures result.Ok? ==> Idle(agent) && Added(old(agent.state.messages), agent, r) && r.prompts == prompts
    ensures result.Ok? ==> r.steeredBefore == old(agent.steering.handed) && r.followedBefore == old(agent.followUp.handed)
  {
    if agent.active {
      r := Record([], [], [], [], []);
      return Err(AlreadyProcessing), r;
    }
    var exit;
    exit, r := RunPromptMessages(agent, prompts, setup, false);
    result := Ok(exit);
  }

  predicate AssistantLast(s: AgentState) { s.messages != [] && s.messages[|s.messages| - 1].Assistant? }

  /**
   * Continue from the transcript, or, when the assistant spoke last, from the queues: steering first, follow-ups next.
   * What it takes from a queue becomes the prompts of the run, so it is injected as well, and injected once.
   */
  method Continue(agent: Agent, setup: Setup) returns (result: Result<Exit, Refusal>, ghost r: Record)
    requires agent.Valid() && (agent.active || Idle(agent))
    modifies agent, agent.steering, agent.followUp
    ensures agent.Valid()
    ensures result.Err? ==> agent.state == old(agent.state) && agent.log == old(agent.log)
    ensures result.Err? ==>
      agent.steering.messages == old(agent.steering.messages) && agent.followUp.messages == old(agent.followUp.messages)
    ensures result.Ok? ==> Idle(agent) && Added(old(agent.state.messages), agent, r)
    ensures result == Err(AlreadyProcessing) <==> old(agent.active)
    ensures result == Err(NothingToContinue) <==> !old(agent.active) && old(agent.state.messages) == []
    ensures result == Err(AssistantSpokeLast) <==>
      !old(agent.active) && AssistantLast(old(agent.state)) &&
      old(agent.steering.messages) == old(agent.followUp.messages) == []
    ensures result.Ok? && !AssistantLast(old(agent.state)) ==>
      r.prompts == [] && r.steeredBefore == old(agent.steering.handed) && r.followedBefore == old(agent.followUp.handed)
    ensures result.Ok? && AssistantLast(old(agent.state)) && old(agent.steering.messages) != [] ==>
      r.prompts != [] && r.prompts <= old(agent.steering.messages) && r.turns != [] && r.turns[0].steered == [] &&
      r.steeredBefore == old(agent.steering.handed) + r.prompts && r.followedBefore == old(agent.followUp.handed)
    ensures result.Ok? && AssistantLast(old(agent.state)) && old(agent.steering.messages) == [] ==>
      r.prompts != [] && r.prompts <= old(agent.followUp.messages) &&
      r.followedBefore == old(agent.followUp.handed) + r.prompts && r.steeredBefore == old(agent.steering.handed)
  {
    r := Record([], [], [], [], []);
    if agent.active {
      return Err(AlreadyProcessing), r;
    }
    if |agent.state.messages| == 0 {
      return Err(NothingToContinue), r;
    }
    var exit;
    if agent.state.messages[|agent.state.messages| - 1].Assistant? {
      var queuedSteering := agent.steering.Drain();
      if |queuedSteering| > 0 {
        exit, r := RunPromptMessages(agent, queuedSteering, setup, true);
        return Ok(exit), r;
      }
      var queuedFollowUps := agent.followUp.Drain();
      if |queuedFollowUps| > 0 {
        exit, r := RunPromptMessages(agent, queuedFollowUps, setup, false);
        return Ok(exit), r;
      }
      return Err(AssistantSpokeLast), r;
    }
    exit, r := RunPromptMessages(agent, [], setup, false);
    result := Ok(exit);
  }
}
