/** What turns and runs announce. */
module AgentProtocol {
  import opened Wrappers
  import opened AgentEvents

  function Announce(messages: seq<Message>): seq<Event> {
    if messages == [] then []
    else
      var m := messages[|messages| - 1];
      Announce(messages[..|messages| - 1]) + [MessageStart(m), MessageEnd(m)]
  }

  // ---- the streamed reply ----

  /** What a provider streams: partial messages, until it finishes or just stops. */
  datatype Chunk = Begin(partial: Message) | Delta(partial: Message) | Finish

  /** The number of chunks that are read: those before the first Finish. */
  function Read(stream: seq<Chunk>): (n: nat)
    ensures n <= |stream| && forall k :: 0 <= k < n ==> !stream[k].Finish?
    ensures n < |stream| ==> stream[n].Finish?
  {
    if stream == [] || stream[0].Finish? then 0 else 1 + Read(stream[1..])
  }

  function Begins(stream: seq<Chunk>, n: nat): nat
    requires n <= |stream|
  {
    if n == 0 then 0 else Begins(stream, n - 1) + if stream[n - 1].Begin? then 1 else 0
  }

  /** The events of the first n chunks: partials before the first Begin are ignored. */
  function Seen(stream: seq<Chunk>, n: nat): seq<Event>
    requires n <= |stream|
  {
    if n == 0 then []
    else
      Seen(stream, n - 1) + match stream[n - 1]
      case Begin(partial) => [MessageStart(partial)]
      case Delta(partial) => if Begins(stream, n - 1) > 0 then [MessageUpdate(partial)] else []
      case Finish => []
  }

  function Streamed(stream: seq<Chunk>, reply: Message): seq<Event> {
    var n := Read(stream);
    Seen(stream, n) + (if Begins(stream, n) == 0 then [MessageStart(reply)] else []) + [MessageEnd(reply)]
  }

  /** The provider's side of the protocol: at most one Begin. */
  predicate WellBegun(stream: seq<Chunk>) { Begins(stream, Read(stream)) <= 1 }

  lemma {:induction false} SeenFollows(stream: seq<Chunk>, n: nat, p: Phase)
    requires n <= |stream| && p.turn && !p.message && p.running == {}
    requires forall k :: 0 <= k < n ==> !stream[k].Finish?
    ensures Follow(p, Seen(stream, n)).Some? <==> Begins(stream, n) <= 1
    ensures Begins(stream, n) <= 1 ==> Follow(p, Seen(stream, n)).value == p.(message := Begins(stream, n) == 1)
    ensures Ended(Seen(stream, n)) == []
  {
    hide Follow, Ended, Legal, Advance;
    if n == 0 {
      NothingSeen(p);
    } else {
      SeenFollows(stream, n - 1, p);
      SeenNext(stream, n, p);
    }
  }

  lemma {:induction false} NothingSeen(p: Phase)
    requires !p.message
    ensures Follow(p, []) == Some(p) && Ended([]) == [] && p.(message := false) == p
  {
  }

  lemma {:induction false} SeenNext(stream: seq<Chunk>, n: nat, p: Phase)
    requires 0 < n <= |stream| && p.turn && !p.message && p.running == {} && !stream[n - 1].Finish?
    ensures var before, q := Follow(p, Seen(stream, n - 1)), Follow(p, Seen(stream, n));
      Begins(stream, n - 1) <= 1 && before == Some(p.(message := Begins(stream, n - 1) == 1)) ==>
        if stream[n - 1].Begin? then q == if Begins(stream, n - 1) == 0 then Some(p.(message := true)) else None
        else q == before
    ensures Follow(p, Seen(stream, n - 1)).None? && Begins(stream, n - 1) > 0 ==> Follow(p, Seen(stream, n)).None?
    ensures Ended(Seen(stream, n)) == Ended(Seen(stream, n - 1))
  {
    hide Follow, Ended;
    var before := Seen(stream, n - 1);
    match stream[n - 1] {
      case Begin(partial) =>
        FollowSnoc(p, before, MessageStart(partial));
        EndedSnoc(before, MessageStart(partial));
      case Delta(partial) =>
        if Begins(stream, n - 1) > 0 {
          FollowSnoc(p, before, MessageUpdate(partial));
          EndedSnoc(before, MessageUpdate(partial));
        } else {
          assert before + [] == before;
        }
    }
  }

  /** A reply keeps to the protocol exactly when the provider begins it at most once. */
  lemma {:induction false} ReplyFollows(stream: seq<Chunk>, reply: Message, p: Phase)
    requires p.turn && !p.message && p.running == {}
    ensures Follow(p, Streamed(stream, reply)) == if WellBegun(stream) then Some(p) else None
    ensures Ended(Streamed(stream, reply)) == [reply]
  {
    hide Follow, Ended, Seen;
    var n := Read(stream);
    var seen := Seen(stream, n);
    SeenFollows(stream, n, p);
    if Begins(stream, n) == 0 {
      assert Streamed(stream, reply) == (seen + [MessageStart(reply)]) + [MessageEnd(reply)];
      FollowSnoc(p, seen, MessageStart(reply));
      FollowSnoc(p, seen + [MessageStart(reply)], MessageEnd(reply));
      EndedSnoc(seen, MessageStart(reply));
      EndedSnoc(seen + [MessageStart(reply)], MessageEnd(reply));
    } else {
      assert Streamed(stream, reply) == seen + [MessageEnd(reply)];
      FollowSnoc(p, seen, MessageEnd(reply));
      EndedSnoc(seen, MessageEnd(reply));
    }
  }

  lemma {:induction false} AnnounceFollows(messages: seq<Message>, p: Phase)
    requires p.turn && !p.message && p.running == {}
    ensures Follow(p, Announce(messages)) == Some(p) && Ended(Announce(messages)) == messages
  {
    if messages != [] {
      var rest, m := messages[..|messages| - 1], messages[|messages| - 1];
      AnnounceFollows(rest, p);
      assert Announce(messages) == (Announce(rest) + [MessageStart(m)]) + [MessageEnd(m)];
      FollowSnoc(p, Announce(rest), MessageStart(m));
      FollowSnoc(p, Announce(rest) + [MessageStart(m)], MessageEnd(m));
      EndedSnoc(Announce(rest), MessageStart(m));
      EndedSnoc(Announce(rest) + [MessageStart(m)], MessageEnd(m));
    }
  }

  lemma {:induction false} AnnounceConcat(a: seq<Message>, b: seq<Message>)
    ensures Announce(a + b) == Announce(a) + Announce(b)
  {
    if b == [] {
      assert a + b == a;
    } else {
      AnnounceConcat(a, b[..|b| - 1]);
      assert (a + b)[..|a + b| - 1] == a + b[..|b| - 1];
    }
  }

  // ---- tool batches ----

  const TOKEN_LIMIT := "not executed: output token limit"

  function CallsOf(content: seq<Block>): seq<ToolCall> {
    if content == [] then []
    else
      var rest := CallsOf(content[..|content| - 1]);
      var last := content[|content| - 1];
      if last.Call? then rest + [last.call] else rest
  }

  function ResultOf(o: Outcome): Message { ToolResult(o.call.id, o.call.name, o.content, o.isError) }

  function ResultsOf(outcomes: seq<Outcome>): (r: seq<Message>)
    ensures |r| == |outcomes| && forall i :: 0 <= i < |r| ==> r[i] == ResultOf(outcomes[i])
  {
    seq(|outcomes|, i requires 0 <= i < |outcomes| => ResultOf(outcomes[i]))
  }

  function CallsIn(outcomes: seq<Outcome>): (r: seq<ToolCall>)
    ensures |r| == |outcomes| && forall i :: 0 <= i < |r| ==> r[i] == outcomes[i].call
  {
    seq(|outcomes|, i requires 0 <= i < |outcomes| => outcomes[i].call)
  }

  /** The outcome a call gets when the reply was cut off by the token limit: it is never executed. */
  function Truncated(call: ToolCall): Outcome { Outcome(call, TOKEN_LIMIT, false, true) }

  function AllTruncated(calls: seq<ToolCall>): (r: seq<Outcome>)
    ensures |r| == |calls| && forall i :: 0 <= i < |r| ==> r[i] == Truncated(calls[i])
  {
    seq(|calls|, i requires 0 <= i < |calls| => Truncated(calls[i]))
  }

  predicate ShouldTerminate(outcomes: seq<Outcome>) {
    |outcomes| > 0 && forall i :: 0 <= i < |outcomes| ==> outcomes[i].terminate
  }

  function Updates(slot: nat, call: ToolCall, partials: seq<string>): seq<Event> {
    if partials == [] then []
    else Updates(slot, call, partials[..|partials| - 1]) + [ToolUpdate(slot, call, partials[|partials| - 1])]
  }

  /** One call run on its own: its start, its updates, its end, its result. */
  function CallTrace(slot: nat, partials: seq<string>, o: Outcome): seq<Event> {
    [ToolStart(slot, o.call)] + Updates(slot, o.call, partials) + [ToolEnd(slot, o)] + Announce([ResultOf(o)])
  }

  /** The calls one after the other. */
  function OneByOne(partials: seq<seq<string>>, outcomes: seq<Outcome>): seq<Event>
    requires |partials| == |outcomes|
  {
    if outcomes == [] then []
    else
      var n := |outcomes| - 1;
      OneByOne(partials[..n], outcomes[..n]) + CallTrace(n, partials[n], outcomes[n])
  }

  lemma {:induction false} OneByOneSnoc(partials: seq<seq<string>>, outcomes: seq<Outcome>, seen: seq<string>, o: Outcome)
    requires |partials| == |outcomes|
    ensures OneByOne(partials + [seen], outcomes + [o]) == OneByOne(partials, outcomes) + CallTrace(|outcomes|, seen, o)
  {
    assert (partials + [seen])[..|outcomes|] == partials && (outcomes + [o])[..|outcomes|] == outcomes;
  }

  /** How a batch was run: the calls one by one, or as tasks whose events interleave, results last. */
  datatype Batch =
    | Sequential(partials: seq<seq<string>>)
    | Parallel(work: seq<Event>)

  /** No message event, and every end of a call reports its outcome. */
  predicate ToolWork(work: seq<Event>, outcomes: seq<Outcome>) {
    forall k :: 0 <= k < |work| ==> match work[k]
      case ToolStart(_, _) => true
      case ToolUpdate(_, _, _) => true
      case ToolEnd(slot, o) => slot < |outcomes| && outcomes[slot] == o
      case _ => false
  }

  predicate LawfulBatch(b: Batch, outcomes: seq<Outcome>) {
    match b
    case Sequential(partials) => |partials| == |outcomes|
    case Parallel(work) => ToolWork(work, outcomes) && Follow(InTurn([]), work) == Some(InTurn(CallsIn(outcomes)))
  }

  function BatchTrace(b: Batch, outcomes: seq<Outcome>): seq<Event>
    requires LawfulBatch(b, outcomes)
  {
    match b
    case Sequential(partials) => OneByOne(partials, outcomes)
    case Parallel(work) => work + Announce(ResultsOf(outcomes))
  }

  lemma {:induction false} UpdatesFollow(slot: nat, call: ToolCall, partials: seq<string>, p: Phase)
    requires IsRunning(p, slot, call)
    ensures Follow(p, Updates(slot, call, partials)) == Some(p) && Ended(Updates(slot, call, partials)) == []
  {
    if partials != [] {
      var rest, partial := partials[..|partials| - 1], partials[|partials| - 1];
      UpdatesFollow(slot, call, rest, p);
      FollowSnoc(p, Updates(slot, call, rest), ToolUpdate(slot, call, partial));
      EndedSnoc(Updates(slot, call, rest), ToolUpdate(slot, call, partial));
    }
  }

  lemma {:induction false} OneEvent(p: Phase, e: Event)
    ensures Follow(p, [e]) == if Legal(p, e) then Some(Advance(p, e)) else None
    ensures Ended([e]) == if e.MessageEnd? then [e.message] else []
  {
    assert [e] == [] + [e];
    FollowSnoc(p, [], e);
    EndedSnoc([], e);
  }

  lemma {:induction false} CallFollows(calls: seq<ToolCall>, partials: seq<string>, o: Outcome)
    ensures Follow(InTurn(calls), CallTrace(|calls|, partials, o)) == Some(InTurn(calls + [o.call]))
    ensures Ended(CallTrace(|calls|, partials, o)) == [ResultOf(o)]
  {
    hide Follow, Ended, Updates, Announce;
    var slot := |calls|;
    var p, q := InTurn(calls), InTurn(calls + [o.call]);
    var running := q.(running := {slot});
    var a, b := [ToolStart(slot, o.call)], Updates(slot, o.call, partials);
    var c, d := [ToolEnd(slot, o)], Announce([ResultOf(o)]);
    OneEvent(p, ToolStart(slot, o.call));
    assert {} + {slot} == {slot};
    UpdatesFollow(slot, o.call, partials, running);
    OneEvent(running, ToolEnd(slot, o));
    assert {slot} - {slot} == {};
    AnnounceFollows([ResultOf(o)], q);
    FourFollow(p, a, running, b, running, c, q, d, q);
  }

  lemma {:induction false} TwoFollow(p: Phase, a: seq<Event>, pa: Phase, b: seq<Event>, pb: Phase)
    requires Follow(p, a) == Some(pa) && Follow(pa, b) == Some(pb)
    ensures Follow(p, a + b) == Some(pb) && Ended(a + b) == Ended(a) + Ended(b)
  {
    FollowConcat(p, a, b);
    EndedConcat(a, b);
  }

  lemma {:induction false} FourFollow(p: Phase, a: seq<Event>, pa: Phase, b: seq<Event>, pb: Phase,
    c: seq<Event>, pc: Phase, d: seq<Event>, pd: Phase)
    requires Follow(p, a) == Some(pa) && Follow(pa, b) == Some(pb)
    requires Follow(pb, c) == Some(pc) && Follow(pc, d) == Some(pd)
    ensures Follow(p, a + b + c + d) == Some(pd)
    ensures Ended(a + b + c + d) == Ended(a) + Ended(b) + Ended(c) + Ended(d)
  {
    TwoFollow(p, a, pa, b, pb);
    TwoFollow(p, a + b, pb, c, pc);
    TwoFollow(p, a + b + c, pc, d, pd);
  }

  lemma {:induction false} OneByOneFollows(partials: seq<seq<string>>, outcomes: seq<Outcome>)
    requires |partials| == |outcomes|
    ensures Follow(InTurn([]), OneByOne(partials, outcomes)) == Some(InTurn(CallsIn(outcomes)))
    ensures Ended(OneByOne(partials, outcomes)) == ResultsOf(outcomes)
  {
    if outcomes != [] {
      var n := |outcomes| - 1;
      var a, b := OneByOne(partials[..n], outcomes[..n]), CallTrace(n, partials[n], outcomes[n]);
      var calls := CallsIn(outcomes[..n]);
      assert CallsIn(outcomes) == calls + [outcomes[n].call];
      assert ResultsOf(outcomes) == ResultsOf(outcomes[..n]) + [ResultOf(outcomes[n])];
      assert Follow(InTurn([]), a) == Some(InTurn(calls)) && Ended(a) == ResultsOf(outcomes[..n]) by {
        OneByOneFollows(partials[..n], outcomes[..n]);
      }
      assert Follow(InTurn(calls), b) == Some(InTurn(calls + [outcomes[n].call])) && Ended(b) == [ResultOf(outcomes[n])] by {
        CallFollows(calls, partials[n], outcomes[n]);
      }
      TwoFollow(InTurn([]), a, InTurn(calls), b, InTurn(calls + [outcomes[n].call]));
      assert OneByOne(partials, outcomes) == a + b;
    } else {
      assert CallsIn(outcomes) == [] && ResultsOf(outcomes) == [];
    }
  }

  lemma {:induction false} ToolWorkEndsNothing(work: seq<Event>, outcomes: seq<Outcome>)
    requires ToolWork(work, outcomes)
    ensures Ended(work) == []
  {
    if work != [] {
      assert work[|work| - 1] in work;
      ToolWorkEndsNothing(work[..|work| - 1], outcomes);
    }
  }

  /**
   * However a batch was run, its calls start in source order, all of them end,
   * and the result messages come in the same order with matching ids.
   */
  lemma {:induction false} BatchFollows(b: Batch, outcomes: seq<Outcome>)
    requires LawfulBatch(b, outcomes)
    ensures Follow(InTurn([]), BatchTrace(b, outcomes)) == Some(InTurn(CallsIn(outcomes)))
    ensures Ended(BatchTrace(b, outcomes)) == ResultsOf(outcomes)
  {
    match b {
      case Sequential(partials) => OneByOneFollows(partials, outcomes);
      case Parallel(work) =>
        ToolWorkEndsNothing(work, outcomes);
        AnnounceFollows(ResultsOf(outcomes), InTurn(CallsIn(outcomes)));
        FollowConcat(InTurn([]), work, Announce(ResultsOf(outcomes)));
        EndedConcat(work, Announce(ResultsOf(outcomes)));
    }
  }

  // ---- turns and runs ----

  datatype Turn = Turn(
    prompts: seq<Message>, steered: seq<Message>, followed: seq<Message>,
    stream: seq<Chunk>, reply: Message,
    batch: Batch, outcomes: seq<Outcome>,
    replaced: Option<seq<Message>>)

  predicate Failed(reply: Message) {
    reply.Assistant? && (reply.stopReason == Error || reply.stopReason == Aborted)
  }

  function Injected(t: Turn): seq<Message> { t.prompts + t.steered + t.followed }

  function MessagesIn(t: Turn): seq<Message> { Injected(t) + [t.reply] + ResultsOf(t.outcomes) }

  predicate GoesOn(outcomes: seq<Outcome>) { outcomes != [] && !ShouldTerminate(outcomes) }

  /** A batch answers a prefix of the calls of its reply, each with its own outcome; none when the reply failed. */
  predicate Answers(reply: Message, batch: Batch, outcomes: seq<Outcome>) {
    && reply.Assistant? && LawfulBatch(batch, outcomes)
    && (if Failed(reply) then batch == Sequential([]) else CallsIn(outcomes) <= CallsOf(reply.content))
    && (reply.stopReason == Length ==>
        batch.Sequential? && outcomes == AllTruncated(CallsOf(reply.content)) && NoUpdates(batch.partials))
  }

  predicate GoodTurn(t: Turn) { WellBegun(t.stream) && Answers(t.reply, t.batch, t.outcomes) }

  predicate NoUpdates(partials: seq<seq<string>>) {
    forall i :: 0 <= i < |partials| ==> partials[i] == []
  }

  predicate AnswersAll(reply: Message, outcomes: seq<Outcome>) {
    reply.Assistant? && (Failed(reply) || CallsIn(outcomes) == CallsOf(reply.content))
  }

  function TurnTrace(t: Turn): seq<Event>
    requires GoodTurn(t)
  {
    [TurnStart] + Announce(Injected(t)) + Streamed(t.stream, t.reply) + BatchTrace(t.batch, t.outcomes)
    + [TurnEnd(t.reply, ResultsOf(t.outcomes))]
  }

  lemma {:induction false} TurnTraceParts(t: Turn, pending: seq<Message>, log: seq<Event>)
    requires GoodTurn(t) && pending == t.steered + t.followed
    ensures log + [TurnStart] + Announce(t.prompts) + Announce(pending) + Streamed(t.stream, t.reply)
      + BatchTrace(t.batch, t.outcomes) + [TurnEnd(t.reply, ResultsOf(t.outcomes))] == log + TurnTrace(t)
  {
    AnnounceConcat(t.prompts, pending);
    assert Injected(t) == t.prompts + pending;
    Regroup(log, [TurnStart], Announce(t.prompts), Announce(pending), Streamed(t.stream, t.reply),
      BatchTrace(t.batch, t.outcomes), [TurnEnd(t.reply, ResultsOf(t.outcomes))]);
  }

  lemma {:induction false} Regroup(log: seq<Event>, a: seq<Event>, b: seq<Event>, c: seq<Event>, d: seq<Event>,
    e: seq<Event>, f: seq<Event>)
    ensures log + a + b + c + d + e + f == log + (a + (b + c) + d + e + f)
  {
    assert log + a + b + c == log + (a + (b + c));
    assert log + (a + (b + c)) + d == log + (a + (b + c) + d);
    assert log + (a + (b + c) + d) + e == log + (a + (b + c) + d + e);
    assert log + (a + (b + c) + d + e) + f == log + (a + (b + c) + d + e + f);
  }

  lemma {:induction false} MessageParts(t: Turn, pending: seq<Message>, done: seq<Message>)
    requires pending == t.steered + t.followed
    ensures done + t.prompts + pending + [t.reply] + ResultsOf(t.outcomes) == done + MessagesIn(t)
  {
    assert Injected(t) == t.prompts + pending;
    assert done + t.prompts + pending == done + Injected(t);
  }

  predicate GoodTurns(turns: seq<Turn>) { forall k :: 0 <= k < |turns| ==> GoodTurn(turns[k]) }

  function TurnsTrace(turns: seq<Turn>): seq<Event>
    requires GoodTurns(turns)
  {
    if turns == [] then [] else TurnsTrace(turns[..|turns| - 1]) + TurnTrace(turns[|turns| - 1])
  }

  function MessagesOf(turns: seq<Turn>): seq<Message> {
    if turns == [] then [] else MessagesOf(turns[..|turns| - 1]) + MessagesIn(turns[|turns| - 1])
  }

  function RunTrace(turns: seq<Turn>): seq<Event>
    requires GoodTurns(turns)
  {
    [AgentStart] + TurnsTrace(turns) + [AgentEnd(MessagesOf(turns))]
  }

  /** The context of the loop: what it began with, or what the last preparation replaced it by, and the turns since. */
  function ContextAfter(start: seq<Message>, turns: seq<Turn>): seq<Message> {
    if turns == [] then start
    else
      var t := turns[|turns| - 1];
      (if t.replaced.Some? then t.replaced.value else ContextAfter(start, turns[..|turns| - 1])) + MessagesIn(t)
  }

  lemma {:induction false} TurnFollows(t: Turn, calls: seq<ToolCall>)
    requires GoodTurn(t)
    ensures Follow(BetweenTurns(calls), TurnTrace(t)) == Some(BetweenTurns(CallsIn(t.outcomes)))
    ensures Ended(TurnTrace(t)) == MessagesIn(t)
  {
    var p, q := InTurn([]), InTurn(CallsIn(t.outcomes));
    var a, b := [TurnStart], Announce(Injected(t));
    var c, d := Streamed(t.stream, t.reply), BatchTrace(t.batch, t.outcomes);
    var e := TurnEnd(t.reply, ResultsOf(t.outcomes));
    assert Follow(BetweenTurns(calls), a) == Some(p) && Ended(a) == [] by { OneEvent(BetweenTurns(calls), TurnStart); }
    assert Follow(p, b) == Some(p) && Ended(b) == Injected(t) by { AnnounceFollows(Injected(t), p); }
    assert Follow(p, c) == Some(p) && Ended(c) == [t.reply] by { ReplyFollows(t.stream, t.reply, p); }
    assert Follow(p, d) == Some(q) && Ended(d) == ResultsOf(t.outcomes) by { BatchFollows(t.batch, t.outcomes); }
    assert Follow(q, [e]) == Some(BetweenTurns(CallsIn(t.outcomes))) && Ended([e]) == [] by { OneEvent(q, e); }
    TurnParts(BetweenTurns(calls), a, p, b, c, d, q, [e], BetweenTurns(CallsIn(t.outcomes)));
  }

  lemma {:induction false} TurnParts(start: Phase, a: seq<Event>, p: Phase, b: seq<Event>, c: seq<Event>,
    d: seq<Event>, q: Phase, e: seq<Event>, end: Phase)
    requires Follow(start, a) == Some(p) && Follow(p, b) == Some(p) && Follow(p, c) == Some(p)
    requires Follow(p, d) == Some(q) && Follow(q, e) == Some(end)
    requires Ended(a) == [] && Ended(e) == []
    ensures Follow(start, a + b + c + d + e) == Some(end)
    ensures Ended(a + b + c + d + e) == Ended(b) + Ended(c) + Ended(d)
  {
    FourFollow(start, a, p, b, p, c, p, d, q);
    TwoFollow(start, a + b + c + d, q, e, end);
  }

  lemma {:induction false} TurnsFollow(turns: seq<Turn>) returns (calls: seq<ToolCall>)
    requires GoodTurns(turns)
    ensures Follow(BetweenTurns([]), TurnsTrace(turns)) == Some(BetweenTurns(calls))
    ensures Ended(TurnsTrace(turns)) == MessagesOf(turns)
  {
    if turns == [] {
      calls := [];
    } else {
      var rest, t := turns[..|turns| - 1], turns[|turns| - 1];
      var before := TurnsFollow(rest);
      TurnFollows(t, before);
      FollowConcat(BetweenTurns([]), TurnsTrace(rest), TurnTrace(t));
      EndedConcat(TurnsTrace(rest), TurnTrace(t));
      calls := CallsIn(t.outcomes);
    }
  }

  /** Every run keeps to the protocol, and announces exactly the messages it hands out at its end. */
  lemma {:induction false} RunFollows(turns: seq<Turn>)
    requires GoodTurns(turns)
    ensures Follow(NOT_STARTED, RunTrace(turns)).Some? && Follow(NOT_STARTED, RunTrace(turns)).value.over
    ensures Ended(RunTrace(turns)) == MessagesOf(turns)
  {
    var end := AgentEnd(MessagesOf(turns));
    OneEvent(NOT_STARTED, AgentStart);
    var calls := TurnsFollow(turns);
    FollowConcat(NOT_STARTED, [AgentStart], TurnsTrace(turns));
    EndedConcat([AgentStart], TurnsTrace(turns));
    FollowSnoc(NOT_STARTED, [AgentStart] + TurnsTrace(turns), end);
    EndedSnoc([AgentStart] + TurnsTrace(turns), end);
  }

  predicate NeverReplaced(turns: seq<Turn>) { forall k :: 0 <= k < |turns| ==> turns[k].replaced.None? }

  /**
   * The three transcripts agree at every turn end: the messages announced so far, the run's new messages,
   * what the Agent's reducer added, and, when no preparation replaced it, what the context grew by.
   */
  lemma {:induction false} TranscriptsAgree(start: seq<Message>, s: AgentState, turns: seq<Turn>, k: nat)
    requires GoodTurns(turns) && k <= |turns|
    ensures Ended([AgentStart] + TurnsTrace(turns[..k])) == MessagesOf(turns[..k])
    ensures ReduceAll(s, [AgentStart] + TurnsTrace(turns[..k])).messages == s.messages + MessagesOf(turns[..k])
    ensures NeverReplaced(turns) ==> ContextAfter(start, turns[..k]) == start + MessagesOf(turns[..k])
  {
    var calls := TurnsFollow(turns[..k]);
    OneEvent(NOT_STARTED, AgentStart);
    EndedConcat([AgentStart], TurnsTrace(turns[..k]));
    ReducerKeepsEnded(s, [AgentStart] + TurnsTrace(turns[..k]));
    if NeverReplaced(turns) {
      ContextGrows(start, turns[..k]);
    }
  }

  lemma {:induction false} ContextGrows(start: seq<Message>, turns: seq<Turn>)
    requires NeverReplaced(turns)
    ensures ContextAfter(start, turns) == start + MessagesOf(turns)
  {
    hide MessagesIn;
    if turns == [] {
      assert start + [] == start;
    } else {
      var rest, t := turns[..|turns| - 1], turns[|turns| - 1];
      ContextGrows(start, rest);
      assert MessagesOf(turns) == MessagesOf(rest) + MessagesIn(t);
      assert ContextAfter(start, turns) == ContextAfter(start, rest) + MessagesIn(t);
      assert start + MessagesOf(rest) + MessagesIn(t) == start + (MessagesOf(rest) + MessagesIn(t));
    }
  }
}
