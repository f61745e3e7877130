/** The results of a turn. */
module AgentResults {
  // Which call every result message answers, told from the blocks of the reply and the events of the turn.
  import opened AgentEvents
  import opened AgentProtocol

  // ---- the calls of a reply, by position ----

  /** The number of calls among the first n blocks. */
  function CallsBefore(content: seq<Block>, n: nat): nat
    requires n <= |content|
  {
    if n == 0 then 0 else CallsBefore(content, n - 1) + if content[n - 1].Call? then 1 else 0
  }

  /** Block p is the k-th call, counting from zero. */
  predicate NthCall(content: seq<Block>, k: nat, p: int) {
    0 <= p < |content| && content[p].Call? && CallsBefore(content, p) == k
  }

  lemma {:induction false} CallsBeforePrefix(content: seq<Block>, n: nat, m: nat)
    requires n <= m <= |content|
    ensures CallsBefore(content[..m], n) == CallsBefore(content, n)
  {
    if n > 0 { CallsBeforePrefix(content, n - 1, m); }
  }

  lemma {:induction false} CountOfCalls(content: seq<Block>)
    ensures |CallsOf(content)| == CallsBefore(content, |content|)
  {
    if content != [] {
      CountOfCalls(content[..|content| - 1]);
      CallsBeforePrefix(content, |content| - 1, |content| - 1);
    }
  }

  lemma {:induction false} CallAt(content: seq<Block>, k: nat) returns (p: nat)
    requires k < |CallsOf(content)|
    ensures NthCall(content, k, p) && content[p].call == CallsOf(content)[k]
  {
    var n := |content| - 1;
    CountOfCalls(content[..n]);
    CallsBeforePrefix(content, n, n);
    if k == |CallsOf(content[..n])| {
      p := n;
    } else {
      p := CallAt(content[..n], k);
      CallsBeforePrefix(content, p, n);
    }
  }

  // ---- the ends of a batch ----

  /** Every end of a call in the trace reports the outcome in its slot. */
  predicate EndsReport(trace: seq<Event>, outcomes: seq<Outcome>) {
    forall j :: 0 <= j < |trace| && trace[j].ToolEnd? ==>
      trace[j].slot < |outcomes| && trace[j].outcome == outcomes[trace[j].slot]
  }

  predicate HasEnd(trace: seq<Event>, slot: nat) {
    exists j :: 0 <= j < |trace| && trace[j].ToolEnd? && trace[j].slot == slot
  }

  predicate NoEnds(trace: seq<Event>) { forall j :: 0 <= j < |trace| ==> !trace[j].ToolEnd? }

  lemma {:induction false} EndsConcat(a: seq<Event>, b: seq<Event>, outcomes: seq<Outcome>)
    ensures EndsReport(a + b, outcomes) <==> EndsReport(a, outcomes) && EndsReport(b, outcomes)
    ensures forall slot: nat :: HasEnd(a, slot) || HasEnd(b, slot) ==> HasEnd(a + b, slot)
  {
    assert forall j :: 0 <= j < |a| ==> (a + b)[j] == a[j];
    assert forall j :: 0 <= j < |b| ==> (a + b)[|a| + j] == b[j];
    assert forall j :: |a| <= j < |a + b| ==> (a + b)[j] == b[j - |a|];
    forall slot: nat | HasEnd(b, slot) ensures HasEnd(a + b, slot) {
      var j :| 0 <= j < |b| && b[j].ToolEnd? && b[j].slot == slot;
      assert (a + b)[|a| + j] == b[j];
    }
  }

  lemma {:induction false} NoEndsReport(trace: seq<Event>, outcomes: seq<Outcome>)
    requires NoEnds(trace)
    ensures EndsReport(trace, outcomes)
  {
  }

  lemma {:induction false} AnnounceHasNoEnds(messages: seq<Message>)
    ensures NoEnds(Announce(messages))
  {
    if messages != [] { AnnounceHasNoEnds(messages[..|messages| - 1]); }
  }

  lemma {:induction false} UpdatesHaveNoEnds(slot: nat, call: ToolCall, partials: seq<string>)
    ensures NoEnds(Updates(slot, call, partials))
  {
    if partials != [] { UpdatesHaveNoEnds(slot, call, partials[..|partials| - 1]); }
  }

  lemma {:induction false} SeenHasNoEnds(stream: seq<Chunk>, n: nat)
    requires n <= |stream|
    ensures NoEnds(Seen(stream, n))
  {
    if n > 0 { SeenHasNoEnds(stream, n - 1); }
  }

  lemma {:induction false} CallTraceEnds(slot: nat, partials: seq<string>, o: Outcome, outcomes: seq<Outcome>)
    requires slot < |outcomes| && outcomes[slot] == o
    ensures EndsReport(CallTrace(slot, partials, o), outcomes) && HasEnd(CallTrace(slot, partials, o), slot)
  {
    hide Announce, Updates;
    var start, updates, end, result :=
      [ToolStart(slot, o.call)], Updates(slot, o.call, partials), [ToolEnd(slot, o)], Announce([ResultOf(o)]);
    UpdatesHaveNoEnds(slot, o.call, partials);
    AnnounceHasNoEnds([ResultOf(o)]);
    EndsConcat(start, updates, outcomes);
    EndsConcat(start + updates, end, outcomes);
    EndsConcat(start + updates + end, result, outcomes);
    assert end[0] == ToolEnd(slot, o);
  }

  lemma {:induction false} OneByOneEnds(partials: seq<seq<string>>, outcomes: seq<Outcome>, all: seq<Outcome>)
    requires |partials| == |outcomes| && outcomes <= all
    ensures EndsReport(OneByOne(partials, outcomes), all)
    ensures forall slot :: 0 <= slot < |outcomes| ==> HasEnd(OneByOne(partials, outcomes), slot)
  {
    hide HasEnd, EndsReport, CallTrace;
    if outcomes == [] {
      NoEndsReport([], all);
    } else {
      var n := |outcomes| - 1;
      OneByOneEnds(partials[..n], outcomes[..n], all);
      CallTraceEnds(n, partials[n], outcomes[n], all);
      EndsConcat(OneByOne(partials[..n], outcomes[..n]), CallTrace(n, partials[n], outcomes[n]), all);
    }
  }

  /** A slot that was started in a batch and is not running has ended. */
  lemma {:induction false} StartedEnded(work: seq<Event>, outcomes: seq<Outcome>, slot: nat)
    requires ToolWork(work, outcomes) && Follow(InTurn([]), work).Some?
    requires var q := Follow(InTurn([]), work).value; slot < |q.calls| && slot !in q.running
    ensures HasEnd(work, slot)
  {
    if work != [] {
      var n := |work| - 1;
      assert work[n] in work;
      var before := Follow(InTurn([]), work[..n]).value;
      if work[n].ToolEnd? && work[n].slot == slot {
      } else {
        assert forall k :: 0 <= k < n ==> work[..n][k] == work[k];
        StartedEnded(work[..n], outcomes, slot);
        var j :| 0 <= j < n && work[..n][j].ToolEnd? && work[..n][j].slot == slot;
        assert work[j] == work[..n][j];
      }
    }
  }

  lemma {:induction false} BatchEnds(b: Batch, outcomes: seq<Outcome>)
    requires LawfulBatch(b, outcomes)
    ensures EndsReport(BatchTrace(b, outcomes), outcomes)
    ensures forall slot :: 0 <= slot < |outcomes| ==> HasEnd(BatchTrace(b, outcomes), slot)
  {
    hide HasEnd, EndsReport, OneByOne, Follow;
    match b
    case Sequential(partials) => OneByOneEnds(partials, outcomes, outcomes);
    case Parallel(work) =>
      forall slot | 0 <= slot < |outcomes| ensures HasEnd(work, slot) { StartedEnded(work, outcomes, slot); }
      AnnounceHasNoEnds(ResultsOf(outcomes));
      NoEndsReport(Announce(ResultsOf(outcomes)), outcomes);
      WorkReports(work, outcomes);
      EndsConcat(work, Announce(ResultsOf(outcomes)), outcomes);
  }

  lemma {:induction false} WorkReports(work: seq<Event>, outcomes: seq<Outcome>)
    requires ToolWork(work, outcomes)
    ensures EndsReport(work, outcomes)
  {
  }

  // ---- whole turns ----

  lemma {:induction false} TurnEnds(t: Turn)
    requires GoodTurn(t)
    ensures EndsReport(TurnTrace(t), t.outcomes)
    ensures forall slot :: 0 <= slot < |t.outcomes| ==> HasEnd(TurnTrace(t), slot)
  {
    hide HasEnd, EndsReport, BatchTrace, Announce, Seen, WellBegun;
    var a, b, c, d, e := [TurnStart], Announce(Injected(t)), Streamed(t.stream, t.reply),
      BatchTrace(t.batch, t.outcomes), [TurnEnd(t.reply, ResultsOf(t.outcomes))];
    BatchEnds(t.batch, t.outcomes);
    AnnounceHasNoEnds(Injected(t));
    StreamedHasNoEnds(t.stream, t.reply);
    NoEndsReport(a, t.outcomes);
    NoEndsReport(b, t.outcomes);
    NoEndsReport(c, t.outcomes);
    NoEndsReport(e, t.outcomes);
    EndsConcat(a, b, t.outcomes);
    EndsConcat(a + b, c, t.outcomes);
    EndsConcat(a + b + c, d, t.outcomes);
    EndsConcat(a + b + c + d, e, t.outcomes);
  }

  lemma {:induction false} StreamedHasNoEnds(stream: seq<Chunk>, reply: Message)
    ensures NoEnds(Streamed(stream, reply))
  {
    hide Seen, Read, Begins;
    SeenHasNoEnds(stream, Read(stream));
  }

  /** The result answers this call with what the tool call came to. */
  predicate Answer(m: Message, call: ToolCall, o: Outcome) {
    m.ToolResult? && m.callId == call.id && m.toolName == call.name && m.text == o.content && m.isError == o.isError
  }

  /**
   * The k-th result of a turn, in its end event and among the messages announced after the reply, answers the k-th
   * call block of the reply, by its id and name, with the content and error flag of every end event in slot k.
   */
  lemma {:induction false} ResultsAnswerTheirCalls(t: Turn, k: nat) returns (p: nat, j: nat)
    requires GoodTurn(t) && k < |t.outcomes|
    ensures var trace := TurnTrace(t); var last := trace[|trace| - 1];
      && last.TurnEnd? && |last.toolResults| == |t.outcomes|
      && Ended(trace) == Injected(t) + [t.reply] + last.toolResults
      && NthCall(t.reply.content, k, p)
      && j < |trace| && trace[j].ToolEnd? && trace[j].slot == k
      && Answer(last.toolResults[k], t.reply.content[p].call, trace[j].outcome)
      && forall i :: 0 <= i < |trace| && trace[i].ToolEnd? && trace[i].slot == k ==>
           trace[i].outcome == trace[j].outcome
  {
    hide BatchTrace, Announce, Streamed, Ended, WellBegun, CallsOf, CallsBefore, Follow;
    TurnFollows(t, []);
    TurnEnds(t);
    var trace := TurnTrace(t);
    assert HasEnd(trace, k);
    j :| 0 <= j < |trace| && trace[j].ToolEnd? && trace[j].slot == k;
    p := CallAt(t.reply.content, k);
    assert CallsIn(t.outcomes)[k] == CallsOf(t.reply.content)[k];
  }

  /** Unless the run was aborted, or the reply failed, every call of the reply has its result. */
  lemma {:induction false} EveryCallIsAnswered(t: Turn)
    requires GoodTurn(t) && AnswersAll(t.reply, t.outcomes) && !Failed(t.reply)
    ensures var trace := TurnTrace(t);
      |trace[|trace| - 1].toolResults| == CallsBefore(t.reply.content, |t.reply.content|)
  {
    hide BatchTrace, Announce, Streamed, WellBegun, CallsOf, CallsBefore;
    CountOfCalls(t.reply.content);
  }

  /** A reply that the token limit cut off: every call gets an error result, nothing is updated, and the run goes on. */
  lemma {:induction false} CutOffReply(t: Turn)
    requires GoodTurn(t) && t.reply.stopReason == Length
    ensures |t.outcomes| == CallsBefore(t.reply.content, |t.reply.content|)
    ensures forall k :: 0 <= k < |t.outcomes| ==>
      ResultsOf(t.outcomes)[k].isError && ResultsOf(t.outcomes)[k].text == TOKEN_LIMIT
    ensures t.batch.Sequential? && NoUpdates(t.batch.partials)
    ensures GoesOn(t.outcomes) <==> CallsBefore(t.reply.content, |t.reply.content|) > 0
  {
    hide CallsOf, CallsBefore;
    CountOfCalls(t.reply.content);
    assert t.outcomes != [] ==> t.outcomes[0] == Truncated(CallsOf(t.reply.content)[0]);
  }

  /** After a batch the run goes on exactly when some result does not ask to terminate. */
  lemma {:induction false} GoesOnMeans(outcomes: seq<Outcome>)
    ensures GoesOn(outcomes) <==> exists i :: 0 <= i < |outcomes| && !outcomes[i].terminate
  {
  }

  // ---- what is announced ----

  /** Every message is announced by a start and an end of its own, in order. */
  lemma {:induction false} AnnouncedInPairs(messages: seq<Message>, i: nat)
    requires i < |messages|
    ensures |Announce(messages)| == 2 * |messages|
    ensures Announce(messages)[2 * i] == MessageStart(messages[i])
    ensures Announce(messages)[2 * i + 1] == MessageEnd(messages[i])
  {
    var n := |messages| - 1;
    if n > 0 { AnnouncedInPairs(messages[..n], if i < n then i else 0); }
  }

  lemma {:induction false} UpdatesInOrder(slot: nat, call: ToolCall, partials: seq<string>, i: nat)
    requires i < |partials|
    ensures |Updates(slot, call, partials)| == |partials|
    ensures Updates(slot, call, partials)[i] == ToolUpdate(slot, call, partials[i])
  {
    var n := |partials| - 1;
    if n > 0 { UpdatesInOrder(slot, call, partials[..n], if i < n then i else 0); }
  }

  /** The event that a chunk of a reply that has begun is announced by. */
  predicate AnnouncesChunk(e: Event, chunk: Chunk) {
    match chunk
    case Begin(partial) => e == MessageStart(partial)
    case Delta(partial) => e == MessageUpdate(partial)
    case Finish => false
  }

  /** Before the first beginning nothing is seen; from it on every chunk is, in order. */
  lemma {:induction false} SeenFromBegin(stream: seq<Chunk>, b: nat, n: nat)
    requires n <= |stream| && b <= n && forall k :: 0 <= k < n ==> !stream[k].Finish?
    requires (forall k :: 0 <= k < b ==> !stream[k].Begin?) && (b < n ==> stream[b].Begin?)
    ensures |Seen(stream, n)| == n - b && (b < n <==> Begins(stream, n) > 0)
    ensures forall i :: 0 <= i < n - b ==> AnnouncesChunk(Seen(stream, n)[i], stream[b + i])
  {
    if n > b {
      SeenFromBegin(stream, b, n - 1);
    } else if n > 0 {
      SeenFromBegin(stream, b - 1, n - 1);
    }
  }

  /** A streamed reply: the chunks from the first beginning on, one event each, then its end with the final message;
      a reply that never began is started with the final message. */
  lemma {:induction false} StreamedChunkByChunk(stream: seq<Chunk>, reply: Message, b: nat)
    requires b <= Read(stream) && (forall k :: 0 <= k < b ==> !stream[k].Begin?)
    requires b < Read(stream) ==> stream[b].Begin?
    ensures var n, events := Read(stream), Streamed(stream, reply);
      if b == n then events == [MessageStart(reply), MessageEnd(reply)]
      else (
        && |events| == n - b + 1 && events[n - b] == MessageEnd(reply)
        && forall i :: 0 <= i < n - b ==> AnnouncesChunk(events[i], stream[b + i]))
  {
    hide Seen, Begins, AnnouncesChunk;
    SeenFromBegin(stream, b, Read(stream));
  }
}
