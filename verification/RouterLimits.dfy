/** Which router streams are read to their end. */
module RouterLimits {
  // The limits of a stream, told from its text alone.
  import opened Strings
  import opened RouterStream
  import opened RouterRuns
  import opened RouterVerdict

  // ---- the calls of a stream ----

  /** One id, one call: repeating a call is allowed, changing it is not. */
  predicate Consistent(calls: seq<ToolCall>) {
    forall i, j :: 0 <= i < |calls| && 0 <= j < |calls| && calls[i].id == calls[j].id ==> calls[i] == calls[j]
  }

  /** The calls without repeats. */
  function Once(calls: seq<ToolCall>): seq<ToolCall> {
    if calls == [] then []
    else
      var n := |calls| - 1;
      if calls[n] in calls[..n] then Once(calls[..n]) else Once(calls[..n]) + [calls[n]]
  }

  /** The calls keep to the limits: a repeated call counts once. */
  predicate CallsFit(calls: seq<ToolCall>) {
    && Consistent(calls) && |Once(calls)| <= MAX_TOOL_CALLS && ArgumentBytes(Once(calls)) <= MAX_TOOL_ARGUMENT_BYTES
  }

  function AllCalls(events: seq<Event>): seq<ToolCall> {
    if events == [] then [] else AllCalls(events[..|events| - 1]) + CallsOf(events[|events| - 1])
  }

  lemma {:induction false} OnceHas(calls: seq<ToolCall>, c: ToolCall)
    ensures c in Once(calls) <==> c in calls
  {
    if calls != [] {
      var n := |calls| - 1;
      OnceHas(calls[..n], c);
      assert calls == calls[..n] + [calls[n]];
    }
  }

  lemma {:induction false} OnceSnoc(calls: seq<ToolCall>, c: ToolCall)
    ensures Once(calls + [c]) == if c in calls then Once(calls) else Once(calls) + [c]
    ensures ArgumentBytes(Once(calls) + [c]) == ArgumentBytes(Once(calls)) + |c.arguments|
  {
    assert (calls + [c])[..|calls|] == calls;
    assert (Once(calls) + [c])[..|Once(calls)|] == Once(calls);
  }

  lemma {:induction false} FitsBefore(calls: seq<ToolCall>, more: seq<ToolCall>)
    requires CallsFit(calls + more)
    ensures CallsFit(calls)
    decreases |more|
  {
    hide Once, ArgumentBytes;
    if more == [] {
      assert calls + more == calls;
    } else {
      var n := |more| - 1;
      var before := calls + more[..n];
      assert calls + more == before + [more[n]];
      OnceSnoc(before, more[n]);
      assert Consistent(before) by { ConsistentBefore(before, more[n]); }
      FitsBefore(calls, more[..n]);
    }
  }

  lemma {:induction false} ConsistentBefore(calls: seq<ToolCall>, c: ToolCall)
    ensures Consistent(calls + [c]) <==> Consistent(calls) && forall d :: d in calls && d.id == c.id ==> d == c
  {
    var all := calls + [c];
    assert all[|calls|] == c && forall i :: 0 <= i < |calls| ==> all[i] == calls[i];
    if Consistent(all) {
      forall i, j | 0 <= i < |calls| && 0 <= j < |calls| && calls[i].id == calls[j].id ensures calls[i] == calls[j] {
        assert all[i].id == all[j].id;
      }
      forall d | d in calls && d.id == c.id ensures d == c {
        var i :| 0 <= i < |calls| && calls[i] == d;
        assert all[i].id == all[|calls|].id;
      }
    }
  }

  lemma {:induction false} SameCall(calls: seq<ToolCall>, d: ToolCall, e: ToolCall)
    requires Consistent(calls) && d in calls && e in calls && d.id == e.id
    ensures d == e
  {
  }

  // ---- accounting ----

  /** What was accounted for are the calls seen, once each. */
  predicate Knows(s: State, seen: seq<ToolCall>) {
    CallsFit(seen) && s.accounted == Once(seen) && s.argumentBytes == ArgumentBytes(Once(seen))
  }

  lemma {:induction false} AccountOneFits(s: State, seen: seq<ToolCall>, c: ToolCall)
    requires Knows(s, seen)
    ensures AccountOne(s, c).Ok? <==> CallsFit(seen + [c])
    ensures AccountOne(s, c).Ok? ==> Knows(AccountOne(s, c).value, seen + [c])
  {
    hide Once, ArgumentBytes, FindCall, Consistent;
    OnceSnoc(seen, c);
    ConsistentBefore(seen, c);
    var i := FindCall(s.accounted, c.id);
    if i < |s.accounted| {
      var d := s.accounted[i];
      OnceHas(seen, d);
      if d == c {
        forall e | e in seen && e.id == c.id ensures e == c { SameCall(seen, e, c); }
      }
    } else {
      forall d | d in seen ensures d.id != c.id {
        OnceHas(seen, d);
        var k :| 0 <= k < |s.accounted| && s.accounted[k] == d;
      }
      assert c !in seen;
    }
  }

  lemma {:induction false} AccountFits(s: State, seen: seq<ToolCall>, calls: seq<ToolCall>)
    requires Knows(s, seen)
    ensures Account(s, calls).Ok? <==> CallsFit(seen + calls)
    ensures Account(s, calls).Ok? ==> Knows(Account(s, calls).value, seen + calls)
    decreases |calls|
  {
    hide AccountOne, Knows, CallsFit;
    if calls == [] {
      assert seen + calls == seen;
      KnowsFits(s, seen);
    } else {
      var first := AccountOne(s, calls[0]);
      assert seen + calls == (seen + [calls[0]]) + calls[1..];
      AccountOneFits(s, seen, calls[0]);
      if first.Ok? {
        AccountFits(first.value, seen + [calls[0]], calls[1..]);
      } else if CallsFit(seen + calls) {
        FitsBefore(seen + [calls[0]], calls[1..]);
      }
    }
  }

  lemma {:induction false} KnowsFits(s: State, seen: seq<ToolCall>)
    requires Knows(s, seen)
    ensures CallsFit(seen)
  {
  }

  // ---- one event ----

  lemma {:induction false} ToolsLeaveBudget(s: State, calls: seq<ToolCall>)
    requires AppendTools(s, calls).Ok?
    ensures var t := AppendTools(s, calls).value;
      t.accounted == s.accounted && t.argumentBytes == s.argumentBytes && t.eventCount == s.eventCount
    decreases |calls|
  {
    hide FindTool;
    if calls != [] { ToolsLeaveBudget(AppendTool(s, calls[0]).value, calls[1..]); }
  }

  /** An event that could be accounted for is always folded into the message. */
  lemma {:induction false} HandleSucceeds(s: State, e: Event)
    requires Good(s) && forall c :: c in CallsOf(e) ==> c in s.accounted
    ensures Handle(s, e).Ok?
    ensures var t := Handle(s, e).value;
      t.accounted == s.accounted && t.argumentBytes == s.argumentBytes && t.eventCount == s.eventCount
  {
    hide Good, AppendTools, WithText, WithThinking, WithoutTools;
    match e {
      case ToolCalls(calls) =>
        AppendToolsKeep(s, calls);
        ToolsLeaveBudget(s, calls);
      case Done(text, reasoning, calls) =>
        ThinkingKeeps(s, reasoning, true);
        var u := s.(content := WithThinking(s.content, reasoning, true));
        TextKeeps(u, text, true);
        AppendToolsKeep(u.(content := WithText(u.content, text, true)), calls);
        ToolsLeaveBudget(u.(content := WithText(u.content, text, true)), calls);
      case _ =>
    }
  }

  lemma {:induction false} StepFits(s: State, seen: seq<ToolCall>, e: Event)
    requires Good(s) && Knows(s, seen)
    ensures Step(s, e).Ok? <==> CallsFit(seen + CallsOf(e))
    ensures Step(s, e).Ok? ==> Knows(Step(s, e).value, seen + CallsOf(e)) && Step(s, e).value.eventCount == s.eventCount
  {
    hide Good, Account, Handle, CallsFit, CallsOf, Once, ArgumentBytes;
    var before := s.(sawDone := s.sawDone || e.Done?);
    assert Good(before) by { SameMessage(s, before); }
    AccountFits(before, seen, CallsOf(e));
    if Account(before, CallsOf(e)).Ok? {
      AccountKeeps(before, CallsOf(e));
      HandleSucceeds(Account(before, CallsOf(e)).value, e);
    }
  }

  // ---- lines ----

  /** A line is short enough, and reads as an event or as nothing. */
  predicate GoodLine(read: string -> Reading, line: string) { |line| <= MAX_LINE_BYTES && read(line) != Bad }

  predicate LineAt(text: string, i: int, j: int) {
    && 0 <= i <= j <= |text| && '\n' !in text[i..j]
    && (i == 0 || text[i - 1] == '\n') && (j == |text| || text[j] == '\n')
  }

  predicate GoodLines(read: string -> Reading, text: string)
    decreases |text|
  {
    match Find(text, "\n", 0)
    case None => GoodLine(read, text)
    case Some(i) => GoodLine(read, text[..i]) && GoodLines(read, text[i + 1..])
  }

  lemma {:induction false} FirstNewline(text: string)
    ensures var f := Find(text, "\n", 0);
      && (f.Some? ==> f.value < |text| && text[f.value] == '\n')
      && forall k :: 0 <= k < (if f.Some? then f.value else |text|) ==> text[k] != '\n'
  {
    hide Find;
    var f := Find(text, "\n", 0);
    forall k | 0 <= k < (if f.Some? then f.value else |text|) ensures text[k] != '\n' {
      assert !StartsAt(text, "\n", k) && text[k..k + 1] == [text[k]];
    }
    if f.Some? { assert text[f.value..f.value + 1][0] == text[f.value]; }
  }

  /** The lines of a text are the stretches between its newlines. */
  lemma {:induction false} GoodLinesMeans(read: string -> Reading, text: string)
    ensures GoodLines(read, text) <==> forall i, j :: LineAt(text, i, j) ==> GoodLine(read, text[i..j])
  {
    hide GoodLines, GoodLine;
    if GoodLines(read, text) {
      forall i, j | LineAt(text, i, j) ensures GoodLine(read, text[i..j]) { LinesAreGood(read, text, i, j); }
    }
    if forall i, j :: LineAt(text, i, j) ==> GoodLine(read, text[i..j]) { AllGood(read, text); }
  }

  lemma {:induction false} LinesAreGood(read: string -> Reading, text: string, i: int, j: int)
    requires GoodLines(read, text) && LineAt(text, i, j)
    ensures GoodLine(read, text[i..j])
    decreases |text|
  {
    hide Find, GoodLine;
    FirstNewline(text);
    var f := Find(text, "\n", 0);
    if f.None? {
      assert text[0..|text|] == text;
    } else {
      LineStands(text, f.value, i, j);
      if i == 0 {
        assert text[0..j] == text[..j];
      } else {
        LinesAreGood(read, text[f.value + 1..], i - f.value - 1, j - f.value - 1);
      }
    }
  }

  lemma {:induction false} AllGood(read: string -> Reading, text: string)
    requires forall i, j :: LineAt(text, i, j) ==> GoodLine(read, text[i..j])
    ensures GoodLines(read, text)
    decreases |text|
  {
    hide Find, GoodLine;
    FirstNewline(text);
    var f := Find(text, "\n", 0);
    if f.None? {
      assert text[0..|text|] == text && LineAt(text, 0, |text|);
    } else {
      var n, rest := f.value, text[f.value + 1..];
      assert text[0..n] == text[..n] && LineAt(text, 0, n);
      forall i, j | LineAt(rest, i, j) ensures GoodLine(read, rest[i..j]) {
        assert text[i + n + 1..j + n + 1] == rest[i..j];
        assert LineAt(text, i + n + 1, j + n + 1);
      }
      AllGood(read, rest);
    }
  }

  lemma {:induction false} LineStands(text: string, n: nat, i: int, j: int)
    requires n < |text| && text[n] == '\n' && (forall k :: 0 <= k < n ==> text[k] != '\n') && LineAt(text, i, j)
    ensures if i == 0 then j == n
      else LineAt(text[n + 1..], i - n - 1, j - n - 1) && text[i..j] == text[n + 1..][i - n - 1..j - n - 1]
  {
    if i == 0 {
      NotInside(text, j, n);
    } else {
      assert i - 1 >= n;
      SliceInside(text, n + 1, i, j);
    }
  }

  lemma {:induction false} NotInside(text: string, j: nat, n: nat)
    requires j <= |text| && n < |text| && text[n] == '\n' && '\n' !in text[0..j]
    ensures j <= n
  {
    assert forall k :: 0 <= k < j ==> text[0..j][k] == text[k];
  }

  lemma {:induction false} SliceInside(text: string, m: nat, i: nat, j: nat)
    requires m <= i <= j <= |text|
    ensures text[i..j] == text[m..][i - m..j - m]
  {
  }

  lemma {:induction false} LineFits(read: string -> Reading, s: State, seen: seq<ToolCall>, line: string)
    requires Good(s) && Knows(s, seen)
    ensures var events := EventsOfLine(read, line);
      && (ProcessLine(read, s, line).Ok? <==>
          GoodLine(read, line) && s.eventCount + |events| <= MAX_EVENTS && CallsFit(seen + AllCalls(events)))
      && (ProcessLine(read, s, line).Ok? ==>
          var t := ProcessLine(read, s, line).value;
          Good(t) && Knows(t, seen + AllCalls(events)) && t.eventCount == s.eventCount + |events|)
  {
    hide Good, Step, CallsFit, Once, ArgumentBytes;
    GoodCount(s);
    KnowsFits(s, seen);
    if read(line).Read? {
      var e, counted := read(line).event, s.(eventCount := s.eventCount + 1);
      CallsOfOne(e);
      if s.eventCount < MAX_EVENTS {
        assert Good(counted) by { SameMessage(s, counted); }
        StepFits(counted, seen, e);
        if ProcessLine(read, s, line).Ok? { StepKeeps(counted, e); }
      }
    } else {
      assert seen + [] == seen && AllCalls([]) == [];
    }
  }

  lemma {:induction false} GoodCount(s: State)
    requires Good(s)
    ensures s.eventCount <= MAX_EVENTS
  {
  }

  lemma {:induction false} CallsOfOne(e: Event)
    ensures AllCalls([e]) == CallsOf(e)
  {
    assert AllCalls([e][..0]) == [];
  }

  lemma {:induction false} AllCallsConcat(a: seq<Event>, b: seq<Event>)
    ensures AllCalls(a + b) == AllCalls(a) + AllCalls(b)
  {
    hide CallsOf;
    if b == [] {
      assert a + b == a;
    } else {
      var n := |b| - 1;
      AllCallsConcat(a, b[..n]);
      assert (a + b)[..|a + b| - 1] == a + b[..n] && (a + b)[|a + b| - 1] == b[n];
    }
  }

  predicate Accepts(read: string -> Reading, s: State, text: string) {
    var all := Lines(read, s, text);
    all.Ok? && ProcessLine(read, all.value.state, all.value.buffer).Ok?
  }

  lemma {:induction false} LinesFit(read: string -> Reading, s: State, seen: seq<ToolCall>, text: string)
    requires Good(s) && Knows(s, seen)
    ensures Accepts(read, s, text) <==>
      GoodLines(read, text) && s.eventCount + |EventsIn(read, text)| <= MAX_EVENTS
      && CallsFit(seen + AllCalls(EventsIn(read, text)))
    decreases |text|
  {
    hide Good, Knows, CallsFit, Find, ProcessLine, GoodLine, EventsOfLine, AllCalls;
    var f := Find(text, "\n", 0);
    if f.None? {
      LineFits(read, s, seen, text);
    } else {
      var line, rest := text[..f.value], text[f.value + 1..];
      var first := ProcessLine(read, s, line);
      var a, b := AllCalls(EventsOfLine(read, line)), AllCalls(EventsIn(read, rest));
      AllCallsConcat(EventsOfLine(read, line), EventsIn(read, rest));
      assert seen + (a + b) == (seen + a) + b;
      LineFits(read, s, seen, line);
      if first.Ok? {
        LinesFit(read, first.value, seen + a, rest);
      } else if CallsFit(seen + (a + b)) {
        FitsBefore(seen + a, b);
      }
    }
  }

  /**
   * Which streams are read to their end, however they are cut: those whose lines are short and read as events, at most
   * 8192 of them, whose calls agree by id and, repeats counted once, are at most 128 with at most 1 MiB of arguments.
   */
  lemma {:induction false} WhichStreamsAreRead(read: string -> Reading, chunks: seq<string>)
    ensures var text := Together(chunks);
      Consume(read, chunks).Ok? <==>
        GoodLines(read, text) && |EventsIn(read, text)| <= MAX_EVENTS && CallsFit(AllCalls(EventsIn(read, text)))
  {
    hide Lines, ProcessLine, Together, EventsIn, GoodLines, CallsFit, AllCalls;
    var text := Together(chunks);
    EmptyIsGood();
    EmptyKnows();
    LinesFit(read, EMPTY, [], text);
    assert [] + AllCalls(EventsIn(read, text)) == AllCalls(EventsIn(read, text));
    OneText(read, chunks);
  }

  lemma {:induction false} EmptyKnows()
    ensures Knows(EMPTY, [])
  {
  }

  lemma {:induction false} OneText(read: string -> Reading, chunks: seq<string>)
    ensures Consume(read, chunks).Ok? <==> Accepts(read, EMPTY, Together(chunks))
  {
    hide Lines, Chunks, Together;
    ConsumeAsOne(read, chunks);
    assert "" + Together(chunks) == Together(chunks);
  }
}
