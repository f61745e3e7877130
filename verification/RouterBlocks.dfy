/** The blocks of a router message. */
module RouterBlocks {
  // Which blocks a message has and in what order, told from the events of the stream alone.
  import opened Strings
  import opened RouterStream
  import opened RouterRuns
  import opened RouterVerdict
  import opened RouterTexts

  /** What tells blocks apart: there is one text, one thinking, and one tool call of each id. */
  datatype Key = TextKey | ThinkingKey | ToolKey(id: string)

  function KeyOf(b: Block): Key {
    match b
    case Text(_) => TextKey
    case Thinking(_) => ThinkingKey
    case Tool(call) => ToolKey(call.id)
  }

  function KeysIn(content: seq<Block>): (keys: seq<Key>)
    ensures |keys| == |content| && forall i :: 0 <= i < |content| ==> keys[i] == KeyOf(content[i])
  {
    seq(|content|, i requires 0 <= i < |content| => KeyOf(content[i]))
  }

  function ToolKeys(calls: seq<ToolCall>): (keys: seq<Key>)
    ensures |keys| == |calls| && forall i :: 0 <= i < |calls| ==> keys[i] == ToolKey(calls[i].id)
  {
    seq(|calls|, i requires 0 <= i < |calls| => ToolKey(calls[i].id))
  }

  /** What an event speaks of, in order: a completion event tells its thinking first, its calls last. */
  function Mentions(e: Event): seq<Key> {
    match e
    case TextDelta(delta) => if delta == "" then [] else [TextKey]
    case ThinkingDelta(delta) => if delta == "" then [] else [ThinkingKey]
    case ToolCalls(calls) => ToolKeys(calls)
    case Done(text, reasoning, calls) =>
      (if reasoning == "" then [] else [ThinkingKey]) + (if text == "" then [] else [TextKey]) + ToolKeys(calls)
    case _ => []
  }

  /** Keys not seen before join at the end. */
  function Join(keys: seq<Key>, more: seq<Key>): seq<Key>
    decreases |more|
  {
    if more == [] then keys
    else Join(if more[0] in keys then keys else keys + [more[0]], more[1..])
  }

  function NoTools(keys: seq<Key>): seq<Key> {
    if keys == [] then []
    else NoTools(keys[..|keys| - 1]) + (if keys[|keys| - 1].ToolKey? then [] else [keys[|keys| - 1]])
  }

  /** In order of first mention; an error takes the tools away, and they may be mentioned again. */
  function KeysAfter(keys: seq<Key>, events: seq<Event>): seq<Key>
    decreases |events|
  {
    if events == [] then keys
    else KeysAfter(if events[0].ErrorEvent? then NoTools(keys) else Join(keys, Mentions(events[0])), events[1..])
  }

  lemma {:induction false} JoinConcat(keys: seq<Key>, a: seq<Key>, b: seq<Key>)
    ensures Join(keys, a + b) == Join(Join(keys, a), b)
    decreases |a|
  {
    if a == [] {
      assert a + b == b;
    } else {
      assert (a + b)[1..] == a[1..] + b;
      JoinConcat(if a[0] in keys then keys else keys + [a[0]], a[1..], b);
    }
  }

  lemma {:induction false} JoinOne(keys: seq<Key>, key: Key)
    ensures Join(keys, [key]) == if key in keys then keys else keys + [key]
    ensures Join(keys, []) == keys
  {
    assert [key][1..] == [];
  }

  lemma {:induction false} TextKeys(content: seq<Block>, text: string, replace: bool)
    ensures KeysIn(WithText(content, text, replace)) == Join(KeysIn(content), if text == "" then [] else [TextKey])
  {
    JoinOne(KeysIn(content), TextKey);
    var i := FindText(content);
    if i < |content| { assert KeysIn(content)[i] == TextKey; }
    assert forall k :: 0 <= k < |content| ==> (KeysIn(content)[k] == TextKey <==> content[k].Text?);
  }

  lemma {:induction false} ThinkingKeys(content: seq<Block>, text: string, replace: bool)
    ensures KeysIn(WithThinking(content, text, replace)) == Join(KeysIn(content), if text == "" then [] else [ThinkingKey])
  {
    JoinOne(KeysIn(content), ThinkingKey);
    var i := FindThinking(content);
    if i < |content| { assert KeysIn(content)[i] == ThinkingKey; }
    assert forall k :: 0 <= k < |content| ==> (KeysIn(content)[k] == ThinkingKey <==> content[k].Thinking?);
  }

  lemma {:induction false} OneToolKey(s: State, call: ToolCall)
    requires AppendTool(s, call).Ok?
    ensures KeysIn(AppendTool(s, call).value.content) == Join(KeysIn(s.content), [ToolKey(call.id)])
    ensures forall b :: b in AppendTool(s, call).value.content && b.Tool? ==> b in s.content || b.call == call
  {
    JoinOne(KeysIn(s.content), ToolKey(call.id));
    var i := FindTool(s.content, call.id);
    if i < |s.content| { assert KeysIn(s.content)[i] == ToolKey(call.id); }
    assert forall k :: 0 <= k < |s.content| ==>
      (KeysIn(s.content)[k] == ToolKey(call.id) <==> s.content[k].Tool? && s.content[k].call.id == call.id);
  }

  lemma {:induction false} ToolsKeys(s: State, calls: seq<ToolCall>)
    requires AppendTools(s, calls).Ok?
    ensures KeysIn(AppendTools(s, calls).value.content) == Join(KeysIn(s.content), ToolKeys(calls))
    ensures forall b :: b in AppendTools(s, calls).value.content && b.Tool? ==> b in s.content || b.call in calls
    decreases |calls|
  {
    hide AppendTool;
    if calls == [] {
      JoinOne(KeysIn(s.content), TextKey);
    } else {
      OneToolKey(s, calls[0]);
      ToolsKeys(AppendTool(s, calls[0]).value, calls[1..]);
      assert ToolKeys(calls) == [ToolKey(calls[0].id)] + ToolKeys(calls[1..]);
      JoinConcat(KeysIn(s.content), [ToolKey(calls[0].id)], ToolKeys(calls[1..]));
    }
  }

  lemma {:induction false} DroppedKeys(content: seq<Block>)
    ensures KeysIn(WithoutTools(content)) == NoTools(KeysIn(content))
    ensures forall b :: b in WithoutTools(content) ==> !b.Tool?
  {
    if content != [] {
      var n := |content| - 1;
      DroppedKeys(content[..n]);
      assert KeysIn(content)[..n] == KeysIn(content[..n]);
      assert KeysIn(WithoutTools(content[..n]) + [content[n]]) == KeysIn(WithoutTools(content[..n])) + [KeyOf(content[n])];
    }
  }

  /** One event: its blocks join in order, and every tool block is one of its calls or was there. */
  lemma {:induction false} StepBlocks(s: State, e: Event)
    requires Step(s, e).Ok?
    ensures var t := Step(s, e).value;
      && KeysIn(t.content) == (if e.ErrorEvent? then NoTools(KeysIn(s.content)) else Join(KeysIn(s.content), Mentions(e)))
      && forall b :: b in t.content && b.Tool? ==> b in s.content || b.call in CallsOf(e)
  {
    hide AppendTools, WithText, WithThinking, WithoutTools, Account, Join, KeysIn;
    var t := Account(s.(sawDone := s.sawDone || e.Done?), CallsOf(e)).value;
    AccountLeavesContent(s.(sawDone := s.sawDone || e.Done?), CallsOf(e));
    JoinOne(KeysIn(s.content), TextKey);
    match e {
      case TextDelta(delta) =>
        TextKeys(t.content, delta, false);
        TextToolBlocks(t.content, delta, false);
      case ThinkingDelta(delta) =>
        ThinkingKeys(t.content, delta, false);
        TextToolBlocks(t.content, delta, false);
      case ToolCalls(calls) => ToolsKeys(t, calls);
      case Done(text, reasoning, calls) =>
        var thought := WithThinking(t.content, reasoning, true);
        var told := t.(content := WithText(thought, text, true));
        ThinkingKeys(t.content, reasoning, true);
        TextKeys(thought, text, true);
        TextToolBlocks(t.content, reasoning, true);
        TextToolBlocks(thought, text, true);
        ToolsKeys(told, calls);
        var a, b := if reasoning == "" then [] else [ThinkingKey], if text == "" then [] else [TextKey];
        JoinConcat(KeysIn(s.content), a, b);
        JoinConcat(KeysIn(s.content), a + b, ToolKeys(calls));
      case ErrorEvent(_) => DroppedKeys(t.content);
      case Other =>
    }
  }

  lemma {:induction false} TextToolBlocks(content: seq<Block>, text: string, replace: bool)
    ensures forall b :: b in WithText(content, text, replace) && b.Tool? ==> b in content
    ensures forall b :: b in WithThinking(content, text, replace) && b.Tool? ==> b in content
  {
    hide FindText, FindThinking;
  }

  lemma {:induction false} EventsMakeBlocks(s: State, events: seq<Event>)
    requires StepAll(s, events).Ok?
    ensures var t := StepAll(s, events).value;
      && KeysIn(t.content) == KeysAfter(KeysIn(s.content), events)
      && forall b :: b in t.content && b.Tool? ==>
           b in s.content || exists i :: 0 <= i < |events| && b.call in CallsOf(events[i])
    decreases |events|
  {
    hide Step, KeysIn, Join, NoTools, Mentions, CallsOf;
    if events != [] {
      var counted := s.(eventCount := s.eventCount + 1);
      StepBlocks(counted, events[0]);
      var next := Step(counted, events[0]).value;
      EventsMakeBlocks(next, events[1..]);
      forall b | b in StepAll(s, events).value.content && b.Tool? && b !in s.content
        ensures exists i :: 0 <= i < |events| && b.call in CallsOf(events[i])
      {
        if b in next.content {
          assert b.call in CallsOf(events[0]);
        } else {
          var i :| 0 <= i < |events[1..]| && b.call in CallsOf(events[1..][i]);
          assert events[1..][i] == events[i + 1];
        }
      }
    }
  }

  /**
   * The blocks of every message, from the events of its stream alone: one for the text, one for the thinking and one
   * for each tool call id, in order of first mention, a tool block being one of the calls announced; tools mentioned
   * before the last error, or in a stream that broke off, are gone.
   */
  lemma {:induction false} MessageBlocks(read: string -> Reading, chunks: seq<string>)
    requires Consume(read, chunks).Ok?
    ensures var s, events := Consume(read, chunks).value, EventsIn(read, Together(chunks));
      && KeysIn(s.content) == (if Completed(events) then KeysAfter([], events) else NoTools(KeysAfter([], events)))
      && forall b :: b in s.content && b.Tool? ==> exists i :: 0 <= i < |events| && b.call in CallsOf(events[i])
  {
    hide Consume, EventsIn, Together, StepAll, WithoutTools, KeysIn, KeysAfter, Completed, CallsOf;
    var events := EventsIn(read, Together(chunks));
    var t := StreamIsItsEvents(read, chunks);
    EventsMakeBlocks(EMPTY, events);
    assert KeysIn([]) == [] by { NoKeys(); }
    DroppedKeys(t.content);
    StreamEndsAsItsEventsSay(read, chunks);
    EveryStreamKeeps(read, chunks);
    if t.stopReason == Error && !t.sawDone { NoToolsLeft(t.content); }
  }

  lemma {:induction false} NoKeys()
    ensures KeysIn([]) == []
  {
  }

  /** Without tools, taking them away changes nothing. */
  lemma {:induction false} NoToolsLeft(content: seq<Block>)
    requires !HasTools(content)
    ensures NoTools(KeysIn(content)) == KeysIn(content)
  {
    if content != [] {
      var n := |content| - 1;
      assert forall k :: 0 <= k < n ==> content[..n][k] == content[k];
      NoToolsLeft(content[..n]);
      assert KeysIn(content)[..n] == KeysIn(content[..n]);
    }
  }
}
