/** An agent and its queues. */
module Agents {
  import opened Wrappers
  import opened AgentEvents

  datatype QueueMode = All | OneAtATime

  /** What became of a message that left the queue: handed to a run, or dropped by a clear. */
  datatype Fate = Fate(message: Message, taken: bool)

  function Left(fates: seq<Fate>): seq<Message> {
    if fates == [] then [] else Left(fates[..|fates| - 1]) + [fates[|fates| - 1].message]
  }

  /** The messages handed to runs, in the order they were handed over. */
  function Handed(fates: seq<Fate>): seq<Message> {
    if fates == [] then []
    else
      var rest := Handed(fates[..|fates| - 1]);
      var last := fates[|fates| - 1];
      if last.taken then rest + [last.message] else rest
  }

  function Marked(messages: seq<Message>, taken: bool): seq<Fate> {
    seq(|messages|, i requires 0 <= i < |messages| => Fate(messages[i], taken))
  }

  lemma {:induction false} LeaveTogether(fates: seq<Fate>, messages: seq<Message>, taken: bool)
    ensures Left(fates + Marked(messages, taken)) == Left(fates) + messages
    ensures Handed(fates + Marked(messages, taken)) == if taken then Handed(fates) + messages else Handed(fates)
  {
    hide Left, Handed;
    if messages == [] {
      assert fates + Marked(messages, taken) == fates;
    } else {
      var rest, m := messages[..|messages| - 1], messages[|messages| - 1];
      LeaveTogether(fates, rest, taken);
      assert Marked(messages, taken) == Marked(rest, taken) + [Fate(m, taken)];
      assert fates + (Marked(rest, taken) + [Fate(m, taken)]) == (fates + Marked(rest, taken)) + [Fate(m, taken)];
      OneLeaves(fates + Marked(rest, taken), Fate(m, taken));
      assert Left(fates) + rest + [m] == Left(fates) + messages;
      assert Handed(fates) + rest + [m] == Handed(fates) + messages;
    }
  }

  lemma {:induction false} OneLeaves(fates: seq<Fate>, f: Fate)
    ensures Left(fates + [f]) == Left(fates) + [f.message]
    ensures Handed(fates + [f]) == if f.taken then Handed(fates) + [f.message] else Handed(fates)
  {
    assert (fates + [f])[..|fates|] == fates;
  }

  /** As long as nothing was cleared, everything that left the queue was handed to a run. */
  lemma {:induction false} HandedUnlessCleared(fates: seq<Fate>)
    requires forall f :: f in fates ==> f.taken
    ensures Handed(fates) == Left(fates)
  {
    if fates != [] {
      HandedUnlessCleared(fates[..|fates| - 1]);
    }
  }

  class PendingMessageQueue {
    var messages: seq<Message>
    var mode: QueueMode
    ghost var arrived: seq<Message>
    ghost var fates: seq<Fate>
    ghost var handed: seq<Message>

    /** First in, first out: what arrived is what left, in that order, followed by what is still here. */
    ghost predicate Valid()
      reads this
    {
      arrived == Left(fates) + messages && handed == Handed(fates)
    }

    constructor (mode: QueueMode)
      ensures Valid() && messages == [] && this.mode == mode && arrived == [] && fates == [] && handed == []
    {
      messages := [];
      this.mode := mode;
      arrived, fates, handed := [], [], [];
    }

    method Enqueue(message: Message)
      requires Valid()
      modifies this
      ensures Valid() && mode == old(mode) && fates == old(fates) && handed == old(handed)
      ensures messages == old(messages) + [message] && arrived == old(arrived) + [message]
    {
      messages := messages + [message];
      arrived := arrived + [message];
    }

    method Drain() returns (drained: seq<Message>)
      requires Valid()
      modifies this
      ensures Valid() && mode == old(mode) && arrived == old(arrived)
      ensures drained + messages == old(messages)
      ensures drained == [] <==> old(messages) == []
      ensures mode == All ==> messages == []
      ensures mode == OneAtATime ==> |drained| <= 1
      ensures handed == old(handed) + drained
      ensures fates == old(fates) + Marked(drained, true)
    {
      if mode == All {
        drained := messages;
        messages := [];
      } else if |messages| == 0 {
        return [];
      } else {
        drained := [messages[0]];
        messages := messages[1..];
      }
      LeaveTogether(fates, drained, true);
      fates, handed := fates + Marked(drained, true), handed + drained;
    }

    method Clear()
      requires Valid()
      modifies this
      ensures Valid() && messages == [] && mode == old(mode) && arrived == old(arrived)
      ensures handed == old(handed)
      ensures fates == old(fates) + Marked(old(messages), false)
    {
      LeaveTogether(fates, messages, false);
      fates := fates + Marked(messages, false);
      messages := [];
    }
  }

  class Agent {
    const steering: PendingMessageQueue
    const followUp: PendingMessageQueue
    var state: AgentState
    var active: bool
    var isStreaming: bool
    var aborted: bool
    ghost var base: AgentState
    ghost var log: seq<Event>

    /** The state is what the reducer makes of the events of the last run, from the state it began in. */
    ghost predicate Valid()
      reads this, steering, followUp
    {
      && steering != followUp && steering.Valid() && followUp.Valid()
      && state == ReduceAll(base, log)
    }

    /** Nothing that runs of this agent care about has changed, except that a run may have been aborted. */
    twostate predicate Waited()
      reads this, steering, followUp
    {
      && steering.handed == old(steering.handed) && steering.mode == old(steering.mode)
      && followUp.handed == old(followUp.handed) && followUp.mode == old(followUp.mode)
      && base == old(base) && active == old(active) && isStreaming == old(isStreaming)
      && (old(aborted) ==> aborted)
    }

    constructor (messages: seq<Message>, steeringMode: QueueMode, followUpMode: QueueMode)
      ensures Valid() && !active && state == AgentState(messages, None, {}, None)
      ensures steering.messages == [] && steering.mode == steeringMode
      ensures followUp.messages == [] && followUp.mode == followUpMode
      ensures fresh(steering) && fresh(followUp)
    {
      steering := new PendingMessageQueue(steeringMode);
      followUp := new PendingMessageQueue(followUpMode);
      state := AgentState(messages, None, {}, None);
      active, isStreaming, aborted := false, false, false;
      base, log := AgentState(messages, None, {}, None), [];
    }

    method ProcessEvents(event: Event)
      requires Valid() && active
      modifies this`state, this`log
      ensures Valid() && log == old(log) + [event] && state == Reduce(old(state), event)
    {
      hide ReduceAll, Left, Handed;
      ReduceAllSnoc(base, log, event);
      match event {
        case MessageStart(m) => state := state.(streamingMessage := Some(m));
        case MessageUpdate(m) => state := state.(streamingMessage := Some(m));
        case MessageEnd(m) =>
          state := state.(streamingMessage := None);
          state := state.(messages := state.messages + [m]);
        case ToolStart(_, call) =>
          state := state.(pendingToolCalls := state.pendingToolCalls + {call.id});
        case ToolEnd(_, outcome) =>
          state := state.(pendingToolCalls := state.pendingToolCalls - {outcome.call.id});
        case TurnEnd(m, _) =>
          if m.Assistant? && m.errorMessage.Some? {
            state := state.(errorMessage := m.errorMessage);
          }
        case AgentEnd(_) => state := state.(streamingMessage := None);
        case _ =>
      }
      log := log + [event];
    }

    /** What callers may do while a run awaits: queue messages, clear the queues, abort. */
    method Elsewhere()
      requires Valid()
      modifies this`aborted, steering, followUp
      ensures Valid() && Waited()
    {
      var rounds: nat :| rounds >= 0;
      for i := 0 to rounds
        invariant Valid() && Waited()
      {
        var message: Message := *;
        if
        case true => steering.Enqueue(message);
        case true => followUp.Enqueue(message);
        case true => steering.Clear();
        case true => followUp.Clear();
        case true => aborted := true;
      }
    }
  }
}
