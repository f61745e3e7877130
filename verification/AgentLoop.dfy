/** The agent loop: turns, tool batches and polls. */
module AgentLoop {
  import opened Wrappers
  import opened AgentEvents
  import opened Agents
  import opened AgentProtocol

  datatype ExecutionMode = RunsSequentially | RunsInParallel

  /** Why a run ended: a failed reply, a hook's wish, or nothing left to do. */
  datatype Exit = ReplyFailed | StoppedByHook | NothingLeft

  /** A started call of a parallel batch: settled, or a task that waits or runs. */
  datatype Entry = Settled(outcome: Outcome) | Waiting | Running

  const ABORTED := "Operation aborted"

  // ---- run bookkeeping ----

  function Steered(turns: seq<Turn>): seq<Message> {
    if turns == [] then [] else Steered(turns[..|turns| - 1]) + turns[|turns| - 1].steered
  }

  function Followed(turns: seq<Turn>): seq<Message> {
    if turns == [] then [] else Followed(turns[..|turns| - 1]) + turns[|turns| - 1].followed
  }

  /** Only the first turn has prompts, and every later turn has a reason: injected messages, or a batch that goes on. */
  predicate Justified(prompts: seq<Message>, turns: seq<Turn>) {
    turns != [] ==>
      var n := |turns| - 1;
      if n == 0 then turns[0].prompts == prompts
      else
        && Justified(prompts, turns[..n]) && turns[n].prompts == []
        && !Failed(turns[n - 1].reply)
        && (Injected(turns[n]) != [] || GoesOn(turns[n - 1].outcomes))
  }

  /** In one-at-a-time mode a turn takes at most one message from the queue. */
  predicate OneEach(turns: seq<Turn>, steeringMode: QueueMode, followUpMode: QueueMode) {
    forall k :: 0 <= k < |turns| ==>
      && (steeringMode == OneAtATime ==> |turns[k].steered| <= 1)
      && (followUpMode == OneAtATime ==> |turns[k].followed| <= 1)
      && (turns[k].steered == [] || turns[k].followed == [])
  }

  predicate AllComplete(turns: seq<Turn>) { forall k :: 0 <= k < |turns| ==> AnswersAll(turns[k].reply, turns[k].outcomes) }

  /** What a run was given, and its turns so far. */
  datatype Record = Record(
    prompts: seq<Message>, start: seq<Message>, steeredBefore: seq<Message>, followedBefore: seq<Message>,
    turns: seq<Turn>)

  /** The first turn is opened, and its prompts announced, before the loop begins. */
  function Opening(r: Record): seq<Message> { if r.turns == [] then r.prompts else [] }

  function LogOf(r: Record): seq<Event>
    requires GoodTurns(r.turns)
  {
    [AgentStart] + TurnsTrace(r.turns) + if r.turns == [] then [TurnStart] + Announce(r.prompts) else []
  }

  predicate GoodRecord(r: Record) { GoodTurns(r.turns) && Justified(r.prompts, r.turns) }

  lemma {:induction false} OpeningLog(r: Record)
    requires GoodTurns(r.turns)
    ensures LogOf(r) + (if r.turns == [] then [] else [TurnStart]) ==
      [AgentStart] + TurnsTrace(r.turns) + [TurnStart] + Announce(Opening(r))
  {
    hide GoodTurns, TurnTrace;
  }

  /** The injected part of a turn that is about to be taken. */
  function Opened(r: Record, steered: seq<Message>, followed: seq<Message>, replaced: Option<seq<Message>>): Turn {
    Turn(Opening(r), steered, followed, [], User(""), Sequential([]), [], replaced)
  }

  function Kept(r: Record, replaced: Option<seq<Message>>): seq<Message> {
    if replaced.Some? then replaced.value else ContextAfter(r.start, r.turns)
  }

  function Extend(r: Record, t: Turn): Record { r.(turns := r.turns + [t]) }

  lemma {:induction false} ExtendGood(r: Record, t: Turn)
    requires GoodRecord(r) && GoodTurn(t)
    requires t.prompts == Opening(r)
    requires r.turns != [] ==>
      !Failed(r.turns[|r.turns| - 1].reply) && (Injected(t) != [] || GoesOn(r.turns[|r.turns| - 1].outcomes))
    ensures GoodRecord(Extend(r, t))
  {
    assert (r.turns + [t])[..|r.turns|] == r.turns;
  }

  lemma {:induction false} ExtendLog(r: Record, t: Turn)
    requires GoodRecord(r) && GoodTurn(t)
    ensures GoodTurns(r.turns + [t])
    ensures LogOf(Extend(r, t)) == [AgentStart] + TurnsTrace(r.turns) + TurnTrace(t)
  {
    hide GoodTurn, TurnTrace, Justified;
    assert (r.turns + [t])[..|r.turns|] == r.turns;
    Together([AgentStart], TurnsTrace(r.turns), TurnTrace(t));
  }

  lemma {:induction false} Together(a: seq<Event>, b: seq<Event>, c: seq<Event>)
    ensures a + (b + c) + [] == a + b + c
  {
  }

  lemma {:induction false} ExtendMessages(r: Record, t: Turn)
    ensures MessagesOf(r.turns + [t]) == MessagesOf(r.turns) + MessagesIn(t)
    ensures ContextAfter(r.start, r.turns + [t]) == Kept(r, t.replaced) + MessagesIn(t)
  {
    assert (r.turns + [t])[..|r.turns|] == r.turns;
  }

  lemma {:induction false} ExtendQueues(r: Record, t: Turn)
    ensures Steered(r.turns + [t]) == Steered(r.turns) + t.steered
    ensures Followed(r.turns + [t]) == Followed(r.turns) + t.followed
  {
    assert (r.turns + [t])[..|r.turns|] == r.turns;
  }

  /** What a run holds that its record accounts for. */
  datatype Holdings = Holdings(
    log: seq<Event>, messages: seq<Message>, context: seq<Message>,
    steered: seq<Message>, followed: seq<Message>,
    steeringMode: QueueMode, followUpMode: QueueMode, aborted: bool)

  predicate AccountsForMessages(r: Record, h: Holdings) {
    && GoodTurns(r.turns) && h.log == LogOf(r)
    && h.messages == MessagesOf(r.turns) + Opening(r)
    && h.context == ContextAfter(r.start, r.turns) + Opening(r)
  }

  /** `steered` or `followed` was taken from its queue and is not injected yet. */
  predicate AccountsForQueues(r: Record, steered: seq<Message>, followed: seq<Message>, h: Holdings) {
    && h.steered == r.steeredBefore + Steered(r.turns) + steered
    && h.followed == r.followedBefore + Followed(r.turns) + followed
    && (h.steeringMode == OneAtATime ==> |steered| <= 1)
    && (h.followUpMode == OneAtATime ==> |followed| <= 1)
    && (steered == [] || followed == [])
  }

  /** Between two turns, or before the first. */
  predicate Accounts(r: Record, steered: seq<Message>, followed: seq<Message>, h: Holdings) {
    && GoodRecord(r) && AccountsForMessages(r, h) && AccountsForQueues(r, steered, followed, h)
    && OneEach(r.turns, h.steeringMode, h.followUpMode)
    && (!h.aborted ==> AllComplete(r.turns))
  }

  lemma {:induction false} OpeningAccounts(r: Record, h: Holdings)
    requires r.turns == [] && h.log == [AgentStart, TurnStart] + Announce(r.prompts)
    requires h.messages == r.prompts && h.context == r.start + r.prompts
    requires h.steered == r.steeredBefore && h.followed == r.followedBefore
    ensures Accounts(r, [], [], h)
  {
    assert [AgentStart, TurnStart] + Announce(r.prompts) == [AgentStart] + [] + ([TurnStart] + Announce(r.prompts));
  }

  /** A turn has a reason: it is the first, something is pending, or the batch before it goes on. */
  predicate MayGoOn(r: Record, pending: seq<Message>) {
    r.turns != [] ==> !LastFailed(r) && (pending != [] || LastGoesOn(r))
  }

  lemma {:induction false} AccountForQueues(r: Record, steered: seq<Message>, followed: seq<Message>, h: Holdings,
    late: seq<Message>, t: Turn, after: Holdings)
    requires AccountsForQueues(r, steered, followed, h)
    requires t.steered == steered + late && t.followed == followed
    requires after.steered == h.steered + late && after.followed == h.followed
    ensures AccountsForQueues(Extend(r, t), [], [], after)
  {
    ExtendQueues(r, t);
    Appended(r.steeredBefore, Steered(r.turns), steered, late);
    Appended(r.followedBefore, Followed(r.turns), followed, []);
  }

  lemma {:induction false} Appended(a: seq<Message>, b: seq<Message>, c: seq<Message>, d: seq<Message>)
    ensures a + b + c + d == a + (b + (c + d)) + []
  {
  }

  lemma {:induction false} AccountForModes(r: Record, steered: seq<Message>, followed: seq<Message>,
    late: seq<Message>, t: Turn, steeringMode: QueueMode, followUpMode: QueueMode, aborted: bool)
    requires OneEach(r.turns, steeringMode, followUpMode)
    requires steeringMode == OneAtATime ==> |steered| <= 1 && |late| <= 1
    requires followUpMode == OneAtATime ==> |followed| <= 1
    requires steered == [] || followed == []
    requires late != [] ==> steered == [] && followed == []
    requires t.steered == steered + late && t.followed == followed
    requires !aborted ==> AllComplete(r.turns) && AnswersAll(t.reply, t.outcomes)
    ensures OneEach(r.turns + [t], steeringMode, followUpMode)
    ensures !aborted ==> AllComplete(r.turns + [t])
  {
  }

  lemma {:induction false} AccountForTurn(r: Record, steered: seq<Message>, followed: seq<Message>, h: Holdings,
    late: seq<Message>, t: Turn, after: Holdings)
    requires Accounts(r, steered, followed, h) && MayGoOn(r, steered + followed)
    requires GoodTurn(t) && t.prompts == Opening(r) && t.steered == steered + late && t.followed == followed
    requires late != [] ==> steered == [] && followed == []
    requires h.steeringMode == OneAtATime ==> |late| <= 1
    requires after.log == [AgentStart] + TurnsTrace(r.turns) + TurnTrace(t)
    requires after.messages == MessagesOf(r.turns) + MessagesIn(t)
    requires after.context == Kept(r, t.replaced) + MessagesIn(t)
    requires after.steered == h.steered + late && after.followed == h.followed
    requires after.steeringMode == h.steeringMode && after.followUpMode == h.followUpMode
    requires h.aborted ==> after.aborted
    requires !after.aborted ==> AnswersAll(t.reply, t.outcomes)
    ensures Accounts(Extend(r, t), [], [], after)
  {
    hide TurnsTrace, MessagesOf, ContextAfter, Steered, Followed, GoodTurn, Justified, OneEach, AllComplete;
    assert GoodRecord(Extend(r, t)) by { ExtendGood(r, t); }
    ExtendLog(r, t);
    ExtendMessages(r, t);
    AccountForQueues(r, steered, followed, h, late, t, after);
    AccountForModes(r, steered, followed, late, t, h.steeringMode, h.followUpMode, after.aborted);
  }

  lemma {:induction false} AccountForSteering(r: Record, h: Holdings, messages: seq<Message>, after: Holdings)
    requires Accounts(r, [], [], h)
    requires after == h.(steered := h.steered + messages)
    requires h.steeringMode == OneAtATime ==> |messages| <= 1
    ensures Accounts(r, messages, [], after)
  {
    hide TurnsTrace, MessagesOf, ContextAfter, Steered, Followed, GoodTurn, Justified, OneEach, AllComplete;
    assert h.steered + messages == r.steeredBefore + Steered(r.turns) + messages;
  }

  lemma {:induction false} AccountForFollowUp(r: Record, h: Holdings, messages: seq<Message>, after: Holdings)
    requires Accounts(r, [], [], h)
    requires after == h.(followed := h.followed + messages)
    requires h.followUpMode == OneAtATime ==> |messages| <= 1
    ensures Accounts(r, [], messages, after)
  {
    hide TurnsTrace, MessagesOf, ContextAfter, Steered, Followed, GoodTurn, Justified, OneEach, AllComplete;
    assert h.followed + messages == r.followedBefore + Followed(r.turns) + messages;
  }

  lemma {:induction false} AccountsForOpening(r: Record, steered: seq<Message>, followed: seq<Message>, h: Holdings)
    requires Accounts(r, steered, followed, h)
    ensures GoodTurns(r.turns) && h.messages == MessagesOf(r.turns) + Opening(r)
    ensures h.context == ContextAfter(r.start, r.turns) + Opening(r)
    ensures h.log + (if r.turns == [] then [] else [TurnStart]) ==
      [AgentStart] + TurnsTrace(r.turns) + [TurnStart] + Announce(Opening(r))
    ensures r.turns != [] ==> Opening(r) == []
  {
    hide TurnsTrace, MessagesOf, ContextAfter, Steered, Followed, GoodTurn, Justified, OneEach, AllComplete, Announce;
    OpeningLog(r);
  }

  /** What a turn starts from, whether or not the context was replaced before it. */
  lemma {:induction false} KeptAtOpening(r: Record, before: seq<Message>, replaced: Option<seq<Message>>)
    requires before == ContextAfter(r.start, r.turns) + Opening(r) && (r.turns == [] ==> replaced.None?)
    ensures (if replaced.Some? then replaced.value else before) == Kept(r, replaced) + Opening(r)
  {
    hide ContextAfter;
    if replaced.Some? { assert replaced.value + [] == replaced.value; }
  }

  /** Steering that came late joins only when nothing was pending, so its place among the injected ones is no question. */
  lemma {:induction false} LateJoins(steered: seq<Message>, followed: seq<Message>, late: seq<Message>)
    requires late != [] ==> steered + followed == []
    ensures late != [] ==> steered == [] && followed == []
    ensures steered + followed + late == (steered + late) + followed
  {
    if late != [] {
      assert |steered + followed| == |steered| + |followed|;
    } else {
      assert steered + followed + [] == steered + [] + followed;
    }
  }

  /** What a finished run leaves behind. */
  predicate Settles(r: Record, h: Holdings) {
    && GoodRecord(r) && r.turns != [] && h.log == RunTrace(r.turns)
    && h.messages == MessagesOf(r.turns) && h.context == ContextAfter(r.start, r.turns)
    && h.steered == r.steeredBefore + Steered(r.turns) && h.followed == r.followedBefore + Followed(r.turns)
    && OneEach(r.turns, h.steeringMode, h.followUpMode)
    && (!h.aborted ==> AllComplete(r.turns))
  }

  lemma {:induction false} AccountForEnd(r: Record, h: Holdings, aborted: bool)
    requires Accounts(r, [], [], h) && r.turns != [] && (h.aborted ==> aborted)
    ensures Settles(r, h.(log := h.log + [AgentEnd(h.messages)], aborted := aborted))
  {
    assert h.messages == MessagesOf(r.turns);
    assert h.log == [AgentStart] + TurnsTrace(r.turns);
  }

  predicate LastGoesOn(r: Record) { r.turns != [] && GoesOn(r.turns[|r.turns| - 1].outcomes) }
  predicate LastFailed(r: Record) { r.turns != [] && Failed(r.turns[|r.turns| - 1].reply) }

  predicate MatchesEntries(work: seq<Event>, entries: seq<Entry>) {
    forall k :: 0 <= k < |work| ==> match work[k]
      case ToolStart(_, _) => true
      case ToolUpdate(_, _, _) => true
      case ToolEnd(slot, o) => slot < |entries| && entries[slot] == Settled(o)
      case _ => false
  }

  /** Tasks are the entries that have not settled; a settled entry answers the call at its position. */
  predicate TasksOf(calls: seq<ToolCall>, entries: seq<Entry>, tasks: set<nat>) {
    && |entries| <= |calls|
    && (forall i :: 0 <= i < |entries| ==> (i in tasks <==> !entries[i].Settled?))
    && (forall i :: i in tasks ==> i < |entries|)
    && (forall i :: 0 <= i < |entries| && entries[i].Settled? ==> entries[i].outcome.call == calls[i])
  }

  function WithTasks(calls: seq<ToolCall>, tasks: set<nat>): Phase { Phase(true, false, true, false, calls, tasks) }

  lemma {:induction false} AnsweredInOrder(calls: seq<ToolCall>, outcomes: seq<Outcome>)
    requires |outcomes| <= |calls|
    requires forall k :: 0 <= k < |outcomes| ==> outcomes[k].call == calls[k]
    ensures CallsIn(outcomes) <= calls
    ensures |outcomes| == |calls| ==> CallsIn(outcomes) == calls
  {
    assert CallsIn(outcomes) == calls[..|outcomes|];
  }

  /** Where a parallel batch stands: what was emitted, how each started call stands, which tasks are left. */
  predicate Going(calls: seq<ToolCall>, entries: seq<Entry>, tasks: set<nat>, work: seq<Event>) {
    && TasksOf(calls, entries, tasks) && MatchesEntries(work, entries)
    && Follow(InTurn([]), work) == Some(WithTasks(calls[..|entries|], tasks))
  }

  lemma {:induction false} NothingGoing(calls: seq<ToolCall>)
    ensures Going(calls, [], {}, [])
  {
  }

  lemma {:induction false} StartTask(calls: seq<ToolCall>, entries: seq<Entry>, tasks: set<nat>, work: seq<Event>, i: nat)
    requires Going(calls, entries, tasks, work) && i == |entries| < |calls|
    ensures Going(calls, entries + [Waiting], tasks + {i}, work + [ToolStart(i, calls[i])])
  {
    assert calls[..i + 1] == calls[..i] + [calls[i]];
    FollowSnoc(InTurn([]), work, ToolStart(i, calls[i]));
  }

  lemma {:induction false} UpdateTask(calls: seq<ToolCall>, entries: seq<Entry>, tasks: set<nat>, work: seq<Event>,
    i: nat, partial: string)
    requires Going(calls, entries, tasks, work) && i in tasks
    ensures Going(calls, entries, tasks, work + [ToolUpdate(i, calls[i], partial)])
  {
    FollowSnoc(InTurn([]), work, ToolUpdate(i, calls[i], partial));
  }

  lemma {:induction false} RunTask(calls: seq<ToolCall>, entries: seq<Entry>, tasks: set<nat>, work: seq<Event>, i: nat)
    requires Going(calls, entries, tasks, work) && i in tasks
    ensures Going(calls, entries[i := Running], tasks, work)
  {
  }

  lemma {:induction false} SettleTask(calls: seq<ToolCall>, entries: seq<Entry>, tasks: set<nat>, work: seq<Event>,
    i: nat, outcome: Outcome)
    requires Going(calls, entries, tasks, work) && i in tasks && outcome.call == calls[i]
    ensures Going(calls, entries[i := Settled(outcome)], tasks - {i}, work + [ToolEnd(i, outcome)])
  {
    FollowSnoc(InTurn([]), work, ToolEnd(i, outcome));
    assert MatchesEntries(work, entries[i := Settled(outcome)]);
  }

  function OutcomesOf(entries: seq<Entry>): (r: seq<Outcome>)
    requires forall i :: 0 <= i < |entries| ==> entries[i].Settled?
    ensures |r| == |entries| && forall i :: 0 <= i < |r| ==> r[i] == entries[i].outcome
  {
    seq(|entries|, i requires 0 <= i < |entries| => entries[i].outcome)
  }

  lemma {:induction false} AllSettled(calls: seq<ToolCall>, entries: seq<Entry>, work: seq<Event>)
    requires Going(calls, entries, {}, work)
    ensures forall i :: 0 <= i < |entries| ==> entries[i].Settled?
    ensures CallsIn(OutcomesOf(entries)) == calls[..|entries|]
    ensures LawfulBatch(Parallel(work), OutcomesOf(entries))
  {
    assert CallsIn(OutcomesOf(entries)) == calls[..|entries|];
  }

  class Loop {
    const agent: Agent
    const toolExecution: ExecutionMode
    const tools: map<string, ExecutionMode>
    var context: seq<Message>
    var newMessages: seq<Message>
    var skipInitialSteeringPoll: bool
    /** How many more replies the provider will give before it fails: the oracle that ends every run. */
    var patience: nat
    ghost var steeringAtPoll: seq<Message>
    ghost var followUpAtPoll: seq<Message>

    constructor (agent: Agent, toolExecution: ExecutionMode, tools: map<string, ExecutionMode>,
      context: seq<Message>, newMessages: seq<Message>, skipInitialSteeringPoll: bool, patience: nat)
      ensures this.agent == agent && this.context == context && this.newMessages == newMessages
      ensures this.skipInitialSteeringPoll == skipInitialSteeringPoll
    {
      this.agent, this.toolExecution, this.tools := agent, toolExecution, tools;
      this.context, this.newMessages := context, newMessages;
      this.skipInitialSteeringPoll, this.patience := skipInitialSteeringPoll, patience;
      steeringAtPoll, followUpAtPoll := [], [];
    }

    ghost predicate Ready()
      reads agent, agent.steering, agent.followUp
    {
      agent.Valid() && agent.active
    }

    method Emit(event: Event)
      requires Ready()
      modifies agent`state, agent`log, agent`aborted, agent.steering, agent.followUp
      ensures Ready() && agent.Waited() && agent.log == old(agent.log) + [event]
    {
      agent.ProcessEvents(event);
      agent.Elsewhere();
    }

    /** An await that emits nothing: hooks, the provider, a tool. */
    method Await()
      requires Ready()
      modifies agent`aborted, agent.steering, agent.followUp
      ensures Ready() && agent.Waited()
    {
      agent.Elsewhere();
    }

    method EmitMessages(messages: seq<Message>)
      requires Ready()
      modifies agent`state, agent`log, agent`aborted, agent.steering, agent.followUp
      ensures Ready() && agent.Waited() && agent.log == old(agent.log) + Announce(messages)
    {
      hide Ready;
      for i := 0 to |messages|
        invariant Ready() && agent.Waited() && agent.log == old(agent.log) + Announce(messages[..i])
      {
        Emit(MessageStart(messages[i]));
        Emit(MessageEnd(messages[i]));
        assert messages[..i + 1][..i] == messages[..i];
      }
      assert messages[..|messages|] == messages;
    }

    method PollSteering() returns (messages: seq<Message>)
      requires Ready()
      modifies this`skipInitialSteeringPoll, this`steeringAtPoll, agent.steering
      ensures Ready() && !skipInitialSteeringPoll
      ensures agent.steering.handed == old(agent.steering.handed) + messages
      ensures agent.steering.mode == old(agent.steering.mode)
      ensures agent.followUp.handed == old(agent.followUp.handed) && agent.followUp.mode == old(agent.followUp.mode)
      ensures agent.steering.mode == OneAtATime ==> |messages| <= 1
      ensures old(skipInitialSteeringPoll) ==> messages == []
      ensures messages == [] && !old(skipInitialSteeringPoll) ==> steeringAtPoll == []
    {
      if skipInitialSteeringPoll {
        skipInitialSteeringPoll := false;
        return [];
      }
      steeringAtPoll := agent.steering.messages;
      messages := agent.steering.Drain();
    }

    method PollFollowUp() returns (messages: seq<Message>)
      requires Ready()
      modifies this`followUpAtPoll, agent.followUp
      ensures Ready()
      ensures agent.followUp.handed == old(agent.followUp.handed) + messages
      ensures agent.followUp.mode == old(agent.followUp.mode)
      ensures agent.steering.handed == old(agent.steering.handed) && agent.steering.mode == old(agent.steering.mode)
      ensures agent.followUp.mode == OneAtATime ==> |messages| <= 1
      ensures messages == [] ==> followUpAtPoll == []
    {
      followUpAtPoll := agent.followUp.messages;
      messages := agent.followUp.Drain();
    }

    // ---- the streamed reply ----

    /** The provider: any stream that begins at most once, any reply, but a failed one when patience is out. */
    method Ask() returns (stream: seq<Chunk>, reply: Message)
      modifies this`patience
      ensures WellBegun(stream) && reply.Assistant?
      ensures !Failed(reply) ==> patience < old(patience)
    {
      stream :| WellBegun(stream) by { assert Read([]) == 0; assert WellBegun([]); }
      var content: seq<Block>, stop: StopReason, problem: Option<string> := *, *, *;
      reply := Assistant(content, if patience == 0 then Error else stop, problem);
      patience := if patience == 0 then 0 else patience - 1;
    }

    /** The partial messages: each Begin opens a message and adds it to the context, each Delta replaces the last one. */
    method ReadPartials(stream: seq<Chunk>, n: nat) returns (addedPartial: bool)
      requires Ready() && n <= |stream|
      modifies this`context, agent`state, agent`log, agent`aborted, agent.steering, agent.followUp
      ensures Ready() && agent.Waited() && agent.log == old(agent.log) + Seen(stream, n)
      ensures addedPartial <==> Begins(stream, n) > 0
      ensures |context| == |old(context)| + Begins(stream, n) && context[..|old(context)|] == old(context)
    {
      hide ReduceAll, Left, Handed;
      addedPartial := false;
      for i := 0 to n
        invariant Ready() && agent.Waited() && agent.log == old(agent.log) + Seen(stream, i)
        invariant addedPartial <==> Begins(stream, i) > 0
        invariant |context| == |old(context)| + Begins(stream, i) && context[..|old(context)|] == old(context)
      {
        if stream[i].Begin? {
          context := context + [stream[i].partial];
          addedPartial := true;
          Emit(MessageStart(stream[i].partial));
        } else if stream[i].Delta? && addedPartial {
          context := context[|context| - 1 := stream[i].partial];
          Emit(MessageUpdate(stream[i].partial));
        }
      }
    }

    /** Whatever a provider streams, the reply ends the context; it replaces at most one partial message. */
    method ReadStream(stream: seq<Chunk>, reply: Message)
      requires Ready()
      modifies this`context, agent`state, agent`log, agent`aborted, agent.steering, agent.followUp
      ensures Ready() && agent.Waited() && agent.log == old(agent.log) + Streamed(stream, reply)
      ensures WellBegun(stream) <==> context == old(context) + [reply]
    {
      hide Seen, ReduceAll, Left, Handed;
      var addedPartial := ReadPartials(stream, Read(stream));
      if addedPartial {
        context := context[|context| - 1 := reply];
      } else {
        context := context + [reply];
        Emit(MessageStart(reply));
      }
      Emit(MessageEnd(reply));
    }

    method StreamAssistantResponse() returns (reply: Message, ghost stream: seq<Chunk>)
      requires Ready()
      modifies this`context, this`patience, agent`state, agent`log, agent`aborted, agent.steering, agent.followUp
      ensures Ready() && agent.Waited() && agent.log == old(agent.log) + Streamed(stream, reply)
      ensures WellBegun(stream) && reply.Assistant? && context == old(context) + [reply]
      ensures !Failed(reply) ==> patience < old(patience)
    {
      Await();
      var chunks;
      chunks, reply := Ask();
      ReadStream(chunks, reply);
      stream := chunks;
    }

    // ---- tool calls ----

    /** Lookup, validation, hooks and authorization: an outcome on the spot, or None when the tool may run. */
    method PrepareToolCall(call: ToolCall) returns (immediate: Option<Outcome>)
      requires Ready()
      modifies agent`aborted, agent.steering, agent.followUp
      ensures Ready() && agent.Waited()
      ensures immediate.Some? ==> immediate.value.call == call
    {
      Await();
      var content: string, terminate: bool, isError: bool := *, *, *;
      if call.name !in tools {
        return Some(Outcome(call, "Tool " + call.name + " not found", false, true));
      }
      if * {
        return None;
      }
      return Some(Outcome(call, content, terminate, isError));
    }

    /** What the tool and the hook after it make of the call. */
    method FinalizeToolCall(call: ToolCall) returns (outcome: Outcome)
      requires Ready()
      modifies agent`aborted, agent.steering, agent.followUp
      ensures Ready() && agent.Waited() && outcome.call == call
    {
      Await();
      var content: string, terminate: bool, isError: bool := *, *, *;
      outcome := Outcome(call, content, terminate, isError);
    }

    method FailToolCallsFromTruncatedMessage(calls: seq<ToolCall>)
      returns (outcomes: seq<Outcome>, ghost partials: seq<seq<string>>)
      requires Ready()
      modifies agent`state, agent`log, agent`aborted, agent.steering, agent.followUp
      ensures Ready() && agent.Waited()
      ensures outcomes == AllTruncated(calls) && |partials| == |outcomes| && NoUpdates(partials)
      ensures agent.log == old(agent.log) + OneByOne(partials, outcomes)
    {
      hide ReduceAll, Left, Handed, CallTrace;
      outcomes, partials := [], [];
      for i := 0 to |calls|
        invariant Ready() && agent.Waited()
        invariant |outcomes| == |partials| == i && NoUpdates(partials)
        invariant forall k :: 0 <= k < i ==> outcomes[k] == Truncated(calls[k])
        invariant agent.log == old(agent.log) + OneByOne(partials, outcomes)
      {
        FailCall(i, calls[i]);
        OneByOneSnoc(partials, outcomes, [], Truncated(calls[i]));
        outcomes, partials := outcomes + [Truncated(calls[i])], partials + [[]];
      }
      assert outcomes == AllTruncated(calls);
    }

    method FailCall(slot: nat, call: ToolCall)
      requires Ready()
      modifies agent`state, agent`log, agent`aborted, agent.steering, agent.followUp
      ensures Ready() && agent.Waited()
      ensures agent.log == old(agent.log) + CallTrace(slot, [], Truncated(call))
    {
      var outcome := Truncated(call);
      Emit(ToolStart(slot, call));
      Emit(ToolEnd(slot, outcome));
      EmitMessages([ResultOf(outcome)]);
    }

    /** The outcome of a started call: on the spot, or by running the tool, which may report updates. */
    method ObtainOutcome(slot: nat, call: ToolCall) returns (outcome: Outcome, ghost partials: seq<string>)
      requires Ready()
      modifies agent`state, agent`log, agent`aborted, agent.steering, agent.followUp
      ensures Ready() && agent.Waited() && outcome.call == call
      ensures agent.log == old(agent.log) + Updates(slot, call, partials)
    {
      partials := [];
      var immediate := PrepareToolCall(call);
      if immediate.Some? {
        return immediate.value, [];
      }
      partials := ReportUpdates(slot, call);
      outcome := FinalizeToolCall(call);
    }

    /** One call of a sequential batch. */
    method RunCall(slot: nat, call: ToolCall) returns (outcome: Outcome, ghost partials: seq<string>)
      requires Ready()
      modifies agent`state, agent`log, agent`aborted, agent.steering, agent.followUp
      ensures Ready() && agent.Waited() && outcome.call == call
      ensures agent.log == old(agent.log) + CallTrace(slot, partials, outcome)
    {
      hide ReduceAll, Left, Handed;
      Emit(ToolStart(slot, call));
      outcome, partials := ObtainOutcome(slot, call);
      Emit(ToolEnd(slot, outcome));
      EmitMessages([ResultOf(outcome)]);
    }

    method ReportUpdates(slot: nat, call: ToolCall) returns (ghost partials: seq<string>)
      requires Ready()
      modifies agent`state, agent`log, agent`aborted, agent.steering, agent.followUp
      ensures Ready() && agent.Waited() && agent.log == old(agent.log) + Updates(slot, call, partials)
    {
      partials := [];
      var rounds: nat :| rounds >= 0;
      for i := 0 to rounds
        invariant Ready() && agent.Waited() && agent.log == old(agent.log) + Updates(slot, call, partials)
      {
        var partial: string := *;
        Emit(ToolUpdate(slot, call, partial));
        assert (partials + [partial])[..|partials|] == partials;
        partials := partials + [partial];
      }
    }

    method ExecuteToolCallsSequential(calls: seq<ToolCall>)
      returns (outcomes: seq<Outcome>, ghost partials: seq<seq<string>>)
      requires Ready()
      modifies agent`state, agent`log, agent`aborted, agent.steering, agent.followUp
      ensures Ready() && agent.Waited()
      ensures CallsIn(outcomes) <= calls && |partials| == |outcomes|
      ensures !agent.aborted ==> CallsIn(outcomes) == calls
      ensures calls != [] ==> outcomes != []
      ensures agent.log == old(agent.log) + OneByOne(partials, outcomes)
    {
      hide Ready, CallTrace, CallsIn;
      outcomes, partials := [], [];
      var i := 0;
      while i < |calls|
        invariant Ready() && agent.Waited()
        invariant |outcomes| == |partials| == i <= |calls|
        invariant forall k :: 0 <= k < i ==> outcomes[k].call == calls[k]
        invariant agent.log == old(agent.log) + OneByOne(partials, outcomes)
      {
        var outcome, seen := RunCall(i, calls[i]);
        OneByOneSnoc(partials, outcomes, seen, outcome);
        outcomes, partials := outcomes + [outcome], partials + [seen];
        i := i + 1;
        if agent.aborted {
          break;
        }
      }
      AnsweredInOrder(calls, outcomes);
    }

    /** The preparation phase of a parallel batch: calls start in order; those that may run become tasks. */
    method StartTasks(calls: seq<ToolCall>) returns (entries: seq<Entry>, tasks: set<nat>, ghost work: seq<Event>)
      requires Ready()
      modifies agent`state, agent`log, agent`aborted, agent.steering, agent.followUp
      ensures Ready() && agent.Waited() && agent.log == old(agent.log) + work
      ensures Going(calls, entries, tasks, work)
      ensures !agent.aborted ==> |entries| == |calls|
      ensures calls != [] ==> entries != []
    {
      hide Ready, Going;
      NothingGoing(calls);
      entries, tasks, work := [], {}, [];
      var i := 0;
      while i < |calls|
        invariant Ready() && agent.Waited() && agent.log == old(agent.log) + work
        invariant |entries| == i <= |calls| && Going(calls, entries, tasks, work)
      {
        Emit(ToolStart(i, calls[i]));
        StartTask(calls, entries, tasks, work, i);
        entries, tasks, work := entries + [Waiting], tasks + {i}, work + [ToolStart(i, calls[i])];
        var immediate := PrepareToolCall(calls[i]);
        if immediate.Some? {
          Emit(ToolEnd(i, immediate.value));
          SettleTask(calls, entries, tasks, work, i, immediate.value);
          entries, tasks := entries[i := Settled(immediate.value)], tasks - {i};
          work := work + [ToolEnd(i, immediate.value)];
        }
        i := i + 1;
        if agent.aborted {
          break;
        }
      }
    }

    /** The tasks in any interleaving: each step starts a task, reports an update of one, or settles one. */
    method RunTasks(calls: seq<ToolCall>, started: seq<Entry>, tasks: set<nat>, ghost start: seq<Event>,
      ghost before: seq<Event>)
      returns (outcomes: seq<Outcome>, ghost work: seq<Event>)
      requires Ready() && Going(calls, started, tasks, before) && agent.log == start + before
      modifies agent`state, agent`log, agent`aborted, agent.steering, agent.followUp
      ensures Ready() && agent.Waited()
      ensures |outcomes| == |started| && |started| <= |calls| && CallsIn(outcomes) == calls[..|started|]
      ensures LawfulBatch(Parallel(work), outcomes)
      ensures agent.log == start + work
    {
      hide ReduceAll, Left, Handed, Follow;
      var entries, left, idle := started, tasks, tasks;
      var updates: nat :| updates >= 0;
      work := before;
      while left != {}
        invariant Ready() && agent.Waited() && agent.log == start + work
        invariant |entries| == |started| && Going(calls, entries, left, work)
        decreases |left|, |idle|, updates
      {
        var slot :| slot in left;
        var call := calls[slot];
        if slot in idle && !agent.aborted {
          RunTask(calls, entries, left, work, slot);
          entries, idle := entries[slot := Running], idle - {slot};
          continue;
        }
        var goOn := *;
        if slot !in idle && goOn && updates > 0 {
          var partial: string := *;
          Emit(ToolUpdate(slot, call, partial));
          UpdateTask(calls, entries, left, work, slot, partial);
          work := work + [ToolUpdate(slot, call, partial)];
          updates := updates - 1;
          continue;
        }
        var outcome := Outcome(call, ABORTED, false, true);
        if slot !in idle {
          outcome := FinalizeToolCall(call);
        }
        Emit(ToolEnd(slot, outcome));
        SettleTask(calls, entries, left, work, slot, outcome);
        work := work + [ToolEnd(slot, outcome)];
        entries, left := entries[slot := Settled(outcome)], left - {slot};
      }
      AllSettled(calls, entries, work);
      outcomes := OutcomesOf(entries);
    }

    method ExecuteToolCallsParallel(calls: seq<ToolCall>)
      returns (outcomes: seq<Outcome>, ghost work: seq<Event>)
      requires Ready()
      modifies agent`state, agent`log, agent`aborted, agent.steering, agent.followUp
      ensures Ready() && agent.Waited()
      ensures CallsIn(outcomes) <= calls && LawfulBatch(Parallel(work), outcomes)
      ensures !agent.aborted ==> CallsIn(outcomes) == calls
      ensures calls != [] ==> outcomes != []
      ensures agent.log == old(agent.log) + work + Announce(ResultsOf(outcomes))
    {
      var entries, tasks, before := StartTasks(calls);
      outcomes, work := RunTasks(calls, entries, tasks, old(agent.log), before);
      EmitMessages(ResultsOf(outcomes));
    }

    /** The configuration or one of the tools called asks for sequential execution. */
    predicate NeedsOrder(calls: seq<ToolCall>) {
      || toolExecution == RunsSequentially
      || exists i :: 0 <= i < |calls| && calls[i].name in tools && tools[calls[i].name] == RunsSequentially
    }

    method ExecuteToolCalls(reply: Message) returns (outcomes: seq<Outcome>, ghost batch: Batch)
      requires Ready() && reply.Assistant? && !Failed(reply)
      modifies agent`state, agent`log, agent`aborted, agent.steering, agent.followUp
      ensures Ready() && agent.Waited() && Answers(reply, batch, outcomes)
      ensures !agent.aborted ==> AnswersAll(reply, outcomes)
      ensures CallsOf(reply.content) == [] <==> outcomes == []
      ensures batch.Parallel? <==>
        reply.stopReason != Length && CallsOf(reply.content) != [] && !NeedsOrder(CallsOf(reply.content))
      ensures agent.log == old(agent.log) + BatchTrace(batch, outcomes)
    {
      hide ReduceAll, Left, Handed, Follow, ToolWork;
      var calls := CallsOf(reply.content);
      if reply.stopReason == Length || calls == [] {
        ghost var partials;
        outcomes, partials := FailToolCallsFromTruncatedMessage(calls);
        batch := Sequential(partials);
      } else if NeedsOrder(calls) {
        ghost var partials;
        outcomes, partials := ExecuteToolCallsSequential(calls);
        batch := Sequential(partials);
      } else {
        ghost var work;
        outcomes, work := ExecuteToolCallsParallel(calls);
        batch := Parallel(work);
      }
    }

    // ---- turns ----

    /** Inject the pending messages and get a reply. */
    method Respond(pending: seq<Message>) returns (reply: Message, ghost stream: seq<Chunk>)
      requires Ready()
      modifies this`context, this`newMessages, this`patience
      modifies agent`state, agent`log, agent`aborted, agent.steering, agent.followUp
      ensures Ready() && agent.Waited() && reply.Assistant? && WellBegun(stream)
      ensures !Failed(reply) ==> patience < old(patience)
      ensures agent.log == old(agent.log) + Announce(pending) + Streamed(stream, reply)
      ensures newMessages == old(newMessages) + pending + [reply] && context == old(context) + pending + [reply]
    {
      EmitMessages(pending);
      context, newMessages := context + pending, newMessages + pending;
      reply, stream := StreamAssistantResponse();
      newMessages := newMessages + [reply];
    }

    /** Answer the tool calls of a reply, none when it failed, and end the turn. */
    method FinishTurn(reply: Message) returns (outcomes: seq<Outcome>, ghost batch: Batch)
      requires Ready() && reply.Assistant?
      modifies this`context, this`newMessages
      modifies agent`state, agent`log, agent`aborted, agent.steering, agent.followUp
      ensures Ready() && agent.Waited() && Answers(reply, batch, outcomes)
      ensures !agent.aborted ==> AnswersAll(reply, outcomes)
      ensures !Failed(reply) ==> (CallsOf(reply.content) == [] <==> outcomes == [])
      ensures agent.log == old(agent.log) + BatchTrace(batch, outcomes) + [TurnEnd(reply, ResultsOf(outcomes))]
      ensures newMessages == old(newMessages) + ResultsOf(outcomes) && context == old(context) + ResultsOf(outcomes)
    {
      hide ReduceAll, Left, Handed;
      outcomes, batch := [], Sequential([]);
      if !Failed(reply) {
        Await();
        outcomes, batch := ExecuteToolCalls(reply);
        context, newMessages := context + ResultsOf(outcomes), newMessages + ResultsOf(outcomes);
      }
      Emit(TurnEnd(reply, ResultsOf(outcomes)));
    }

    /** A turn after its turn_start, and what it came to. */
    method TakeTurn(pending: seq<Message>, ghost injected: Turn, ghost log: seq<Event>,
      ghost done: seq<Message>, ghost kept: seq<Message>)
      returns (reply: Message, outcomes: seq<Outcome>, ghost turn: Turn)
      requires Ready() && pending == injected.steered + injected.followed
      requires agent.log == log + [TurnStart] + Announce(injected.prompts)
      requires newMessages == done + injected.prompts && context == kept + injected.prompts
      modifies this`context, this`newMessages, this`patience
      modifies agent`state, agent`log, agent`aborted, agent.steering, agent.followUp
      ensures Ready() && agent.Waited() && GoodTurn(turn)
      ensures turn.prompts == injected.prompts && turn.replaced == injected.replaced
      ensures turn.steered == injected.steered && turn.followed == injected.followed
      ensures turn.reply == reply && turn.outcomes == outcomes && reply.Assistant?
      ensures !agent.aborted ==> AnswersAll(reply, outcomes)
      ensures !Failed(reply) ==> patience < old(patience) && (CallsOf(reply.content) == [] <==> outcomes == [])
      ensures agent.log == log + TurnTrace(turn)
      ensures newMessages == done + MessagesIn(turn) && context == kept + MessagesIn(turn)
    {
      ghost var stream, batch;
      Await();
      reply, stream := Respond(pending);
      outcomes, batch := FinishTurn(reply);
      turn := injected.(stream := stream, reply := reply, batch := batch, outcomes := outcomes);
      TurnTraceParts(turn, pending, log);
      MessageParts(turn, pending, done);
      MessageParts(turn, pending, kept);
    }

    ghost function Held(): Holdings
      reads this, agent, agent.steering, agent.followUp
    {
      Holdings(agent.log, newMessages, context, agent.steering.handed, agent.followUp.handed,
        agent.steering.mode, agent.followUp.mode, agent.aborted)
    }

    /** Preparation may replace the context; steering that came meanwhile is picked up if nothing is pending. */
    method PrepareNextTurn(pending: seq<Message>) returns (messages: seq<Message>, ghost replaced: Option<seq<Message>>)
      requires Ready()
      modifies this`context, this`skipInitialSteeringPoll, this`steeringAtPoll
      modifies agent`state, agent`log, agent`aborted, agent.steering, agent.followUp
      ensures !old(skipInitialSteeringPoll) ==> !skipInitialSteeringPoll
      ensures Ready() && agent.log == old(agent.log) + [TurnStart]
      ensures context == if replaced.Some? then replaced.value else old(context)
      ensures pending != [] ==> messages == pending
      ensures agent.steering.handed == old(agent.steering.handed) + if pending == [] then messages else []
      ensures agent.followUp.handed == old(agent.followUp.handed)
      ensures agent.steering.mode == old(agent.steering.mode) && agent.followUp.mode == old(agent.followUp.mode)
      ensures pending == [] && agent.steering.mode == OneAtATime ==> |messages| <= 1
      ensures old(agent.aborted) ==> agent.aborted
    {
      messages, replaced := pending, None;
      Await();
      var replace := *;
      if replace {
        context := *;
        replaced := Some(context);
      }
      Await();
      if |messages| == 0 {
        messages := PollSteering();
      }
      Emit(TurnStart);
    }

    /** The start of a turn: the first one was opened before the loop. */
    method OpenTurn(first: bool, pending: seq<Message>)
      returns (messages: seq<Message>, ghost late: seq<Message>, ghost replaced: Option<seq<Message>>)
      requires Ready()
      modifies this`context, this`skipInitialSteeringPoll, this`steeringAtPoll
      modifies agent`state, agent`log, agent`aborted, agent.steering, agent.followUp
      ensures !old(skipInitialSteeringPoll) ==> !skipInitialSteeringPoll
      ensures Ready() && agent.log == old(agent.log) + if first then [] else [TurnStart]
      ensures context == if replaced.Some? then replaced.value else old(context)
      ensures messages == pending + late && (late != [] ==> pending == [])
      ensures first ==> late == [] && replaced.None?
      ensures agent.steering.handed == old(agent.steering.handed) + late
      ensures agent.followUp.handed == old(agent.followUp.handed)
      ensures agent.steering.mode == old(agent.steering.mode) && agent.followUp.mode == old(agent.followUp.mode)
      ensures agent.steering.mode == OneAtATime ==> |late| <= 1
      ensures old(agent.aborted) ==> agent.aborted
    {
      messages, late, replaced := pending, [], None;
      if !first {
        messages, replaced := PrepareNextTurn(pending);
        late := if pending == [] then messages else [];
      }
    }

    /** What a turn starts from: log, messages and context, with the messages to inject. */
    method BeginTurn(ghost r: Record, first: bool, pending: seq<Message>,
      ghost steered: seq<Message>, ghost followed: seq<Message>)
      returns (messages: seq<Message>, ghost late: seq<Message>, ghost plan: Turn)
      requires Ready() && Accounts(r, steered, followed, Held())
      requires pending == steered + followed && (first <==> r.turns == [])
      modifies this`context, this`skipInitialSteeringPoll, this`steeringAtPoll
      modifies agent`state, agent`log, agent`aborted, agent.steering, agent.followUp
      ensures Ready() && GoodTurns(r.turns) && (!old(skipInitialSteeringPoll) ==> !skipInitialSteeringPoll)
      ensures plan == Opened(r, steered + late, followed, plan.replaced) && messages == plan.steered + plan.followed
      ensures agent.log == [AgentStart] + TurnsTrace(r.turns) + [TurnStart] + Announce(plan.prompts)
      ensures newMessages == MessagesOf(r.turns) + plan.prompts && context == Kept(r, plan.replaced) + plan.prompts
      ensures (late != [] ==> steered == [] && followed == []) && (first ==> late == [])
      ensures agent.steering.handed == old(agent.steering.handed) + late
      ensures agent.followUp.handed == old(agent.followUp.handed)
      ensures agent.steering.mode == old(agent.steering.mode) && agent.followUp.mode == old(agent.followUp.mode)
      ensures agent.steering.mode == OneAtATime ==> |late| <= 1
      ensures old(agent.aborted) ==> agent.aborted
    {
      hide Accounts, GoodTurns, TurnsTrace, MessagesOf, ContextAfter, Announce, Ready, Kept, Opening;
      ghost var h := Held();
      AccountsForOpening(r, steered, followed, h);
      ghost var replaced;
      messages, late, replaced := OpenTurn(first, pending);
      LateJoins(steered, followed, late);
      KeptAtOpening(r, h.context, replaced);
      plan := Opened(r, steered + late, followed, replaced);
    }

    /** One pass of the inner loop, up to the end of the turn. */
    method DoTurn(ghost r: Record, first: bool, pending: seq<Message>,
      ghost steered: seq<Message>, ghost followed: seq<Message>)
      returns (reply: Message, outcomes: seq<Outcome>, ghost turn: Turn)
      requires Ready() && Accounts(r, steered, followed, Held()) && MayGoOn(r, pending)
      requires pending == steered + followed && (first <==> r.turns == [])
      modifies this`context, this`newMessages, this`patience, this`skipInitialSteeringPoll, this`steeringAtPoll
      modifies agent`state, agent`log, agent`aborted, agent.steering, agent.followUp
      ensures !old(skipInitialSteeringPoll) ==> !skipInitialSteeringPoll
      ensures Ready() && Accounts(Extend(r, turn), [], [], Held())
      ensures first ==> turn.steered == steered
      ensures turn.reply == reply && turn.outcomes == outcomes && reply.Assistant?
      ensures !Failed(reply) ==> patience < old(patience) && (CallsOf(reply.content) == [] <==> outcomes == [])
    {
      hide Accounts, MayGoOn, GoodTurns, GoodTurn, TurnsTrace, MessagesOf, MessagesIn, TurnTrace, ContextAfter, LogOf,
        Announce, Ready, Extend, CallsOf, Kept, Opening;
      ghost var h := Held();
      var messages;
      ghost var late, plan;
      messages, late, plan := BeginTurn(r, first, pending, steered, followed);
      reply, outcomes, turn := TakeTurn(messages, plan, [AgentStart] + TurnsTrace(r.turns), MessagesOf(r.turns),
        Kept(r, plan.replaced));
      AccountForTurn(r, steered, followed, h, late, turn, Held());
    }

    method EndRun(ghost r: Record)
      requires Ready() && Accounts(r, [], [], Held()) && r.turns != []
      modifies agent`state, agent`log, agent`aborted, agent.steering, agent.followUp
      ensures Ready() && Settles(r, Held())
    {
      ghost var h := Held();
      Emit(AgentEnd(newMessages));
      AccountForEnd(r, h, agent.aborted);
      assert Held() == h.(log := h.log + [AgentEnd(h.messages)], aborted := agent.aborted);
    }

    /** One pass of the inner loop: the run ends here, or it has polled for steering messages. */
    method Pass(ghost r: Record, first: bool, pending: seq<Message>,
      ghost steered: seq<Message>, ghost followed: seq<Message>)
      returns (exit: Option<Exit>, hasMoreToolCalls: bool, messages: seq<Message>, ghost turn: Turn)
      requires Ready() && Accounts(r, steered, followed, Held()) && MayGoOn(r, pending)
      requires pending == steered + followed && (first <==> r.turns == []) && !skipInitialSteeringPoll
      modifies this`context, this`newMessages, this`patience, this`skipInitialSteeringPoll, this`steeringAtPoll
      modifies agent`state, agent`log, agent`aborted, agent.steering, agent.followUp
      ensures Ready() && !skipInitialSteeringPoll
      ensures first ==> turn.steered == steered
      ensures exit.Some? ==> Settles(Extend(r, turn), Held()) && (exit.value == ReplyFailed <==> Failed(turn.reply))
      ensures exit.Some? ==> exit.value != NothingLeft
      ensures exit.None? ==> Accounts(Extend(r, turn), messages, [], Held()) && patience < old(patience)
      ensures exit.None? ==> !Failed(turn.reply) && (messages == [] ==> steeringAtPoll == [])
      ensures exit.None? ==> (hasMoreToolCalls <==> GoesOn(turn.outcomes))
    {
      hide Accounts, Settles;
      hasMoreToolCalls, messages := false, [];
      var reply, outcomes;
      reply, outcomes, turn := DoTurn(r, first, pending, steered, followed);
      if Failed(reply) {
        EndRun(Extend(r, turn));
        exit := Some(ReplyFailed);
        return;
      }
      hasMoreToolCalls := |CallsOf(reply.content)| > 0 && !ShouldTerminate(outcomes);
      var stop := *;
      if stop {
        EndRun(Extend(r, turn));
        exit := Some(StoppedByHook);
        return;
      }
      exit := None;
      ghost var h := Held();
      messages := PollSteering();
      AccountForSteering(Extend(r, turn), h, messages, Held());
    }

    /** The inner loop: turns until a poll finds nothing and no batch asks to go on, or until the run ends. */
    method TakeTurns(ghost r0: Record, firstTurn: bool, pending: seq<Message>,
      ghost steered0: seq<Message>, ghost followed0: seq<Message>)
      returns (exit: Option<Exit>, ghost r: Record)
      requires Ready() && Accounts(r0, steered0, followed0, Held()) && MayGoOn(r0, pending) && !LastFailed(r0)
      requires pending == steered0 + followed0 && (firstTurn <==> r0.turns == []) && !skipInitialSteeringPoll
      modifies this`context, this`newMessages, this`patience, this`skipInitialSteeringPoll, this`steeringAtPoll
      modifies agent`state, agent`log, agent`aborted, agent.steering, agent.followUp
      ensures Ready() && !skipInitialSteeringPoll && r == r0.(turns := r.turns) && r.turns != []
      ensures r.turns[0].steered == if r0.turns == [] then steered0 else r0.turns[0].steered
      ensures exit.Some? ==> Settles(r, Held()) && exit.value != NothingLeft && (exit.value == ReplyFailed <==> LastFailed(r))
      ensures exit.None? ==> Accounts(r, [], [], Held()) && !LastFailed(r) && !LastGoesOn(r)
      ensures exit.None? ==> steeringAtPoll == [] && patience < old(patience)
    {
      hide Ready, Accounts, Settles, Announce;
      r := r0;
      ghost var steered, followed := steered0, followed0;
      var first, pendingMessages, hasMoreToolCalls := firstTurn, pending, true;
      while hasMoreToolCalls || |pendingMessages| > 0
        invariant Ready() && Accounts(r, steered, followed, Held())
        invariant pendingMessages == steered + followed && (first <==> r.turns == []) && !skipInitialSteeringPoll
        invariant r == r0.(turns := r.turns) && !LastFailed(r)
        invariant (if r.turns == [] then steered else r.turns[0].steered) ==
          if r0.turns == [] then steered0 else r0.turns[0].steered
        invariant hasMoreToolCalls || pendingMessages != [] ==> MayGoOn(r, pendingMessages)
        invariant hasMoreToolCalls || patience < old(patience)
        invariant patience <= old(patience)
        invariant !hasMoreToolCalls ==> !first && followed == [] && !LastGoesOn(r)
        invariant !hasMoreToolCalls && pendingMessages == [] ==> steeringAtPoll == []
        decreases patience
      {
        ghost var turn;
        exit, hasMoreToolCalls, pendingMessages, turn := Pass(r, first, pendingMessages, steered, followed);
        r, first := Extend(r, turn), false;
        if exit.Some? {
          return;
        }
        steered, followed := pendingMessages, [];
      }
      exit := None;
    }

    /** The whole run after its opening: turns while tools or messages are left, follow-ups when they are not. */
    method RunLoop(ghost prompts: seq<Message>, ghost start: seq<Message>) returns (exit: Exit, ghost r: Record)
      requires Ready() && agent.log == [AgentStart, TurnStart] + Announce(prompts)
      requires newMessages == prompts && context == start + prompts
      modifies this`context, this`newMessages, this`patience, this`skipInitialSteeringPoll
      modifies this`steeringAtPoll, this`followUpAtPoll
      modifies agent`state, agent`log, agent`aborted, agent.steering, agent.followUp
      ensures Ready() && Settles(r, Held()) && r.turns != []
      ensures r == Record(prompts, start, old(agent.steering.handed), old(agent.followUp.handed), r.turns)
      ensures old(skipInitialSteeringPoll) ==> r.turns[0].steered == []
      ensures exit == ReplyFailed <==> LastFailed(r)
      ensures exit == NothingLeft ==> steeringAtPoll == [] && followUpAtPoll == [] && !LastGoesOn(r)
    {
      hide Ready, Accounts, Settles, Announce;
      ghost var given := Record(prompts, start, agent.steering.handed, agent.followUp.handed, []);
      r := given;
      Await();
      ghost var h := Held();
      OpeningAccounts(given, h);
      var pendingMessages := PollSteering();
      AccountForSteering(given, h, pendingMessages, Held());
      ghost var steered, followed: seq<Message> := pendingMessages, [];
      var first := true;
      while true
        invariant Ready() && Accounts(r, steered, followed, Held()) && MayGoOn(r, pendingMessages)
        invariant pendingMessages == steered + followed && (first <==> r.turns == []) && !skipInitialSteeringPoll
        invariant r == given.(turns := r.turns) && !LastFailed(r)
        invariant old(skipInitialSteeringPoll) ==> (if r.turns == [] then steered else r.turns[0].steered) == []
        decreases patience
      {
        var ended;
        ended, r := TakeTurns(r, first, pendingMessages, steered, followed);
        first := false;
        if ended.Some? {
          return ended.value, r;
        }
        h := Held();
        var followUpMessages := PollFollowUp();
        AccountForFollowUp(r, h, followUpMessages, Held());
        if |followUpMessages| == 0 {
          EndRun(r);
          exit := NothingLeft;
          return;
        }
        pendingMessages := followUpMessages;
        steered, followed := [], followUpMessages;
      }
    }
  }
}
