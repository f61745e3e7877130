/** What the state of an agent says. */
module AgentStates {
  // The fields that events leave, told from the events alone.
  import opened Wrappers
  import opened AgentEvents

  // ---- the streaming message ----

  predicate Streams(e: Event) { e.MessageStart? || e.MessageUpdate? }

  /** The event that decides about the streaming message: the last of its kind. */
  predicate Decides(e: Event) { Streams(e) || e.MessageEnd? || e.AgentEnd? }

  predicate LastDeciding(trace: seq<Event>, k: int) {
    0 <= k < |trace| && Decides(trace[k]) && forall j :: k < j < |trace| ==> !Decides(trace[j])
  }

  /** The streaming message is that of the last start or update, unless an end came after it. */
  lemma {:induction false} StreamingMessageIs(s: AgentState, trace: seq<Event>, k: int)
    requires LastDeciding(trace, k)
    ensures ReduceAll(s, trace).streamingMessage == if Streams(trace[k]) then Some(trace[k].message) else None
  {
    if k < |trace| - 1 {
      assert LastDeciding(trace[..|trace| - 1], k);
      StreamingMessageIs(s, trace[..|trace| - 1], k);
    }
  }

  lemma {:induction false} StreamingMessageStays(s: AgentState, trace: seq<Event>)
    requires forall j :: 0 <= j < |trace| ==> !Decides(trace[j])
    ensures ReduceAll(s, trace).streamingMessage == s.streamingMessage
  {
    if trace != [] { StreamingMessageStays(s, trace[..|trace| - 1]); }
  }

  // ---- the error message ----

  /** A turn that ends with a reply that carries an error message. */
  predicate ReportsError(e: Event) { e.TurnEnd? && e.message.Assistant? && e.message.errorMessage.Some? }

  /** The error message is that of the last turn that reports one. */
  lemma {:induction false} ErrorMessageIs(s: AgentState, trace: seq<Event>, k: nat)
    requires k < |trace| && ReportsError(trace[k]) && forall j :: k < j < |trace| ==> !ReportsError(trace[j])
    ensures ReduceAll(s, trace).errorMessage == trace[k].message.errorMessage
  {
    if k < |trace| - 1 { ErrorMessageIs(s, trace[..|trace| - 1], k); }
  }

  lemma {:induction false} ErrorMessageStays(s: AgentState, trace: seq<Event>)
    requires forall j :: 0 <= j < |trace| ==> !ReportsError(trace[j])
    ensures ReduceAll(s, trace).errorMessage == s.errorMessage
  {
    if trace != [] { ErrorMessageStays(s, trace[..|trace| - 1]); }
  }

  // ---- the pending calls ----

  /** A call with this id was started, and none with it has ended since. */
  predicate StillOpen(trace: seq<Event>, id: string) {
    exists k :: 0 <= k < |trace| && OpenFrom(trace, id, k)
  }

  predicate OpenFrom(trace: seq<Event>, id: string, k: int)
    requires 0 <= k < |trace|
  {
    && trace[k].ToolStart? && trace[k].call.id == id
    && forall j :: k < j < |trace| && trace[j].ToolEnd? ==> trace[j].outcome.call.id != id
  }

  lemma {:induction false} OpenNext(trace: seq<Event>, e: Event, id: string)
    ensures StillOpen(trace + [e], id) <==>
      (e.ToolStart? && e.call.id == id) || (StillOpen(trace, id) && !(e.ToolEnd? && e.outcome.call.id == id))
  {
    var all := trace + [e];
    assert forall k :: 0 <= k < |trace| ==> all[k] == trace[k];
    assert all[|trace|] == e;
    if StillOpen(trace, id) && !(e.ToolEnd? && e.outcome.call.id == id) {
      var k :| 0 <= k < |trace| && OpenFrom(trace, id, k);
      assert OpenFrom(all, id, k);
    }
    if e.ToolStart? && e.call.id == id { assert OpenFrom(all, id, |trace|); }
    if StillOpen(all, id) {
      var k :| 0 <= k < |all| && OpenFrom(all, id, k);
      if k < |trace| { assert OpenFrom(trace, id, k); }
    }
  }

  /** The pending ids are exactly those of the calls that are still open, when none was pending before. */
  lemma {:induction false} PendingIsOpen(s: AgentState, trace: seq<Event>, id: string)
    requires s.pendingToolCalls == {}
    ensures id in ReduceAll(s, trace).pendingToolCalls <==> StillOpen(trace, id)
  {
    if trace != [] {
      var n := |trace| - 1;
      PendingIsOpen(s, trace[..n], id);
      OpenNext(trace[..n], trace[n], id);
      assert trace == trace[..n] + [trace[n]];
    }
  }
}
