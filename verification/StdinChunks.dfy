/** Terminal input by chunks. */
module StdinChunks {
  import opened Strings
  import opened Wrappers
  import opened StdinTokens
  import opened StdinSequences
  import opened StdinCuts

  // ---- the main results ----

  /** The cut between a and b splits a marker that the held text, or what follows it, belongs to. */
  predicate Splits(h: Held, a: string, b: string) {
    match h
    case Typing(buffer) => SplitsMarker(buffer + a, b)
    case Pasting(pasted) => SplitsLaterMarker(pasted + a, b)
  }

  predicate GoodCut(h: Held, a: string, b: string) { !BadCut(Feed(h, a), b) && !Splits(h, a, b) }

  /** Chunk invariance of one cut, from any held state: it holds exactly when the cut is good. */
  lemma {:induction false} OneCut(h: Held, a: string, b: string)
    ensures Feed(h, a + b) == Then(Feed(h, a), b) <==> GoodCut(h, a, b)
    ensures !GoodCut(h, a, b) ==> Differs(Feed(h, a + b), Feed(h, a))
  {
    hide Parse, ParsePaste, SplitsMarker, SplitsLaterMarker, BadCut;
    var held := TextOf(h);
    assert held + (a + b) == held + a + b;
    match h {
      case Typing(_) => ParseInTwo(held + a, b);
      case Pasting(_) => PasteInTwo(held + a, b);
    }
    var first := Feed(h, a);
    if !GoodCut(h, a, b) {
      StillDiffers(Feed(h, a + b), first, Feed(first.held, b));
    }
  }

  /** Tokens that were delivered are not taken back. */
  lemma {:induction false} StillDiffers(whole: Parsed, first: Parsed, second: Parsed)
    requires Differs(whole, first)
    ensures whole.tokens != first.tokens + second.tokens
  {
    var k :| 0 <= k < |first.tokens| && DiffersAt(whole.tokens, first.tokens, k);
    assert (first.tokens + second.tokens)[k] == first.tokens[k];
  }

  predicate GoodCuts(h: Held, chunks: seq<string>)
    decreases |chunks|
  {
    |chunks| <= 1 ||
    (GoodCut(h, chunks[0], Together(chunks[1..])) && GoodCuts(Feed(h, chunks[0]).held, chunks[1..]))
  }

  function FeedAll(h: Held, chunks: seq<string>): Parsed
    decreases |chunks|
  {
    if chunks == [] then Parsed([], h)
    else
      var first := Feed(h, chunks[0]);
      var rest := FeedAll(first.held, chunks[1..]);
      Parsed(first.tokens + rest.tokens, rest.held)
  }

  /** Chunks give the tokens, and leave the state, of their concatenation exactly when every cut is good. */
  lemma {:induction false} ChunksGiveTheSameTokens(h: Held, chunks: seq<string>)
    requires chunks != []
    ensures FeedAll(h, chunks) == Feed(h, Together(chunks)) <==> GoodCuts(h, chunks)
    decreases |chunks|
  {
    hide Feed, GoodCut, Differs;
    var first, rest := Feed(h, chunks[0]), chunks[1..];
    if rest == [] {
      assert chunks[0] + Together(rest) == chunks[0];
      assert first.tokens + [] == first.tokens;
    } else {
      var b := Together(rest);
      OneCut(h, chunks[0], b);
      if GoodCut(h, chunks[0], b) {
        ChunksGiveTheSameTokens(first.held, rest);
        SameTail(first.tokens, FeedAll(first.held, rest), Feed(first.held, b));
      } else {
        StillDiffers(Feed(h, Together(chunks)), first, FeedAll(first.held, rest));
      }
    }
  }

  lemma {:induction false} SameTail(head: seq<Token>, p: Parsed, q: Parsed)
    ensures p == q <==> Parsed(head + p.tokens, p.held) == Parsed(head + q.tokens, q.held)
  {
    if head + p.tokens == head + q.tokens {
      assert p.tokens == (head + p.tokens)[|head|..] && q.tokens == (head + q.tokens)[|head|..];
    }
  }

  lemma {:induction false} DeliverConcat(pending: Option<nat>, a: seq<Token>, b: seq<Token>)
    ensures var first := Deliver(pending, a);
      var second := Deliver(first.pending, b);
      Deliver(pending, a + b) == Delivery(first.events + second.events, second.pending)
  {
    hide DeliverToken;
    if b == [] {
      assert a + b == a;
    } else {
      DeliverConcat(pending, a, b[..|b| - 1]);
      assert (a + b)[..|a + b| - 1] == a + b[..|b| - 1];
    }
  }

  // ---- what the listeners get ----

  /** A key that was reported in Kitty form and may be repeated is a printable character. */
  predicate Printable(pending: Option<nat>) { pending.Some? ==> pending.value >= 32 }

  lemma {:induction false} PendingIsPrintable(pending: Option<nat>, tokens: seq<Token>)
    requires Printable(pending)
    ensures Printable(Deliver(pending, tokens).pending)
  {
    if tokens != [] {
      PendingIsPrintable(pending, tokens[..|tokens| - 1]);
    }
  }

  /** So it stays over any chunks, empty ones included. */
  lemma {:induction false} ChunksKeepPrintable(input: Input, chunks: seq<string>)
    requires Printable(input.pending)
    ensures Printable(ProcessAll(input, chunks).input.pending)
    decreases |chunks|
  {
    hide Feed, Deliver;
    if chunks != [] {
      PendingIsPrintable(input.pending, Feed(input.held, chunks[0]).tokens);
      ChunksKeepPrintable(Process(input, chunks[0]).input, chunks[1..]);
    }
  }

  /** Event streams that cannot become equal, however the second one goes on. */
  predicate Apart(whole: seq<Event>, first: seq<Event>) {
    exists k :: 0 <= k < |first| && (k < |whole| ==> whole[k] != first[k])
  }

  lemma {:induction false} DeliverHead(pending: Option<nat>, tokens: seq<Token>, k: nat)
    requires k <= |tokens|
    ensures var before := Deliver(pending, tokens[..k]); var after := Deliver(before.pending, tokens[k..]);
      Deliver(pending, tokens) == Delivery(before.events + after.events, after.pending)
  {
    DeliverConcat(pending, tokens[..k], tokens[k..]);
    assert tokens[..k] + tokens[k..] == tokens;
  }

  lemma {:induction false} DeliverFirst(pending: Option<nat>, tokens: seq<Token>)
    requires tokens != []
    ensures DeliverToken(pending, tokens[0]).events <= Deliver(pending, tokens).events
  {
    hide DeliverToken;
    DeliverHead(pending, tokens, 1);
    assert tokens[..1] == [tokens[0]] && [tokens[0]][..0] == [];
    assert Deliver(pending, [tokens[0]]).events == DeliverToken(pending, tokens[0]).events;
  }

  /** A token that goes apart shows in the events: what the first chunk delivers there, the whole input does not. */
  lemma {:induction false} TokensApart(pending: Option<nat>, whole: seq<Token>, first: seq<Token>)
    requires Printable(pending) && DiffersAt(whole, first, 0)
    ensures Apart(Deliver(pending, whole).events, Deliver(pending, first).events)
  {
    hide Deliver, KittyCodepoint;
    DeliverFirst(pending, first);
    var e := Deliver(pending, first).events;
    assert e[0] == Data(first[0].text);
    if whole[0].Lost? {
      PasteEvents(pending, whole);
      assert 0 < |Deliver(pending, whole).events| ==> Deliver(pending, whole).events[0] != e[0];
    } else {
      DeliverFirst(pending, whole);
      assert Deliver(pending, whole).events[0] == Data([ESC]);
    }
  }

  /** Lost text and the opening of a paste deliver nothing; the next event is a paste. */
  lemma {:induction false} PasteEvents(pending: Option<nat>, tokens: seq<Token>)
    requires tokens != [] && tokens[0].Lost? && PasteFrom(tokens[1..])
    ensures var e := Deliver(pending, tokens).events; e != [] ==> e[0].Paste?
  {
    hide DeliverSequence;
    DeliverHead(pending, tokens, 2);
    var lost := tokens[..1];
    assert tokens[..2][..1] == lost && tokens[..2][1] == tokens[1..][0] && lost[..0] == [];
    assert Deliver(pending, lost) == Delivery([], pending);
    assert Deliver(pending, tokens[..2]) == Delivery([], None);
    if |tokens| > 2 {
      DeliverFirst(None, tokens[2..]);
      assert tokens[2..][0] == tokens[1..][1];
    }
  }

  lemma {:induction false} EventsApart(pending: Option<nat>, whole: Parsed, first: Parsed)
    requires Printable(pending) && Differs(whole, first)
    ensures Apart(Deliver(pending, whole.tokens).events, Deliver(pending, first.tokens).events)
  {
    hide Deliver, DeliverSequence, Printable, Apart;
    var k :| 0 <= k < |first.tokens| && DiffersAt(whole.tokens, first.tokens, k);
    var w, f := whole.tokens, first.tokens;
    DeliverHead(pending, w, k);
    DeliverHead(pending, f, k);
    PendingIsPrintable(pending, f[..k]);
    assert DiffersAt(w[k..], f[k..], 0) by {
      assert w[k..][1..] == w[k + 1..] && w[k..][..0] == f[k..][..0];
    }
    var before := Deliver(pending, f[..k]);
    TokensApart(before.pending, w[k..], f[k..]);
    ApartBehind(before.events, Deliver(before.pending, w[k..]).events, Deliver(before.pending, f[k..]).events);
  }

  lemma {:induction false} ApartBehind(head: seq<Event>, whole: seq<Event>, first: seq<Event>)
    requires Apart(whole, first)
    ensures Apart(head + whole, head + first)
  {
    var k :| 0 <= k < |first| && (k < |whole| ==> whole[k] != first[k]);
    assert (head + first)[|head| + k] == first[k];
  }

  lemma {:induction false} StaysApart(whole: seq<Event>, first: seq<Event>, more: seq<Event>)
    requires Apart(whole, first)
    ensures first + more != whole
  {
    var k :| 0 <= k < |first| && (k < |whole| ==> whole[k] != first[k]);
    assert (first + more)[k] == first[k];
  }

  /**
   * Feeding non-empty chunks one by one delivers the events, and leaves the state, of feeding them as one,
   * exactly when every cut is good.
   */
  lemma {:induction false} ChunksMakeNoDifference(input: Input, chunks: seq<string>)
    requires chunks != [] && Printable(input.pending) && forall k :: 0 <= k < |chunks| ==> chunks[k] != ""
    ensures ProcessAll(input, chunks) == Process(input, Together(chunks)) <==> GoodCuts(input.held, chunks)
    decreases |chunks|
  {
    hide Feed, GoodCut, DeliverSequence, Deliver, Printable, Differs;
    var first, rest := Process(input, chunks[0]), chunks[1..];
    var a, b := Feed(input.held, chunks[0]), Together(rest);
    if rest == [] {
      assert b == "" && chunks[0] + b == chunks[0];
      assert first.events + [] == first.events;
    } else {
      assert rest[0] == chunks[1] != "" && b != "";
      OneCut(input.held, chunks[0], b);
      if GoodCut(input.held, chunks[0], b) {
        DeliverConcat(input.pending, a.tokens, Feed(a.held, b).tokens);
        PendingIsPrintable(input.pending, a.tokens);
        ChunksMakeNoDifference(first.input, rest);
        SameEvents(first.events, ProcessAll(first.input, rest), Process(first.input, b));
      } else {
        EventsApart(input.pending, Feed(input.held, chunks[0] + b), a);
        StaysApart(Process(input, Together(chunks)).events, first.events, ProcessAll(first.input, rest).events);
      }
    }
  }

  lemma {:induction false} SameEvents(head: seq<Event>, p: Processed, q: Processed)
    ensures p == q <==> Processed(head + p.events, p.input) == Processed(head + q.events, q.input)
  {
    if head + p.events == head + q.events {
      assert p.events == (head + p.events)[|head|..] && q.events == (head + q.events)[|head|..];
    }
  }

  lemma {:induction false} Rejoin(s: string, i: nat, marker: string, sources: string, held: string)
    requires StartsAt(s, marker, i) && sources + held == s[i + |marker|..]
    ensures (s[..i] + marker + sources) + held == s
  {
    assert s[..i] + marker + sources + held == s[..i] + marker + (sources + held);
    assert s == s[..i] + s[i..i + |marker|] + s[i + |marker|..];
  }

  /** Conservation: the tokens, lost ones included, and what is held are exactly what was held and came in. */
  lemma {:induction false} ParseConserves(s: string)
    ensures Sources(Parse(s).tokens) + TextOf(Parse(s).held) == s
    decreases |s|, 1
  {
    hide Extract, Find, Sources;
    var f := Find(s, PASTE_START, 0);
    if f.None? {
      ExtractConserves(s);
    } else {
      var i := f.value;
      var before, rest := s[..i], s[i + |PASTE_START|..];
      BeforePasteConserves(before);
      PasteConserves(rest);
      var p := ParsePaste(rest);
      SourcesConcat(BeforePaste(before), p.tokens);
      Rejoin(s, i, PASTE_START, Sources(p.tokens), TextOf(p.held));
    }
  }

  lemma {:induction false} BeforePasteConserves(s: string)
    ensures Sources(BeforePaste(s)) == s + PASTE_START
  {
    hide Extract, Sources;
    var e := Extract(s);
    var all, lost := Sequences(e.sequences), if e.remainder == "" then [] else [Lost(e.remainder)];
    ExtractConserves(s);
    SourcesConcat(all, lost);
    SourcesConcat(all + lost, [PasteOpen]);
    SourcesOfOne(Lost(e.remainder));
    SourcesOfOne(PasteOpen);
  }

  lemma {:induction false} SourcesOfOne(t: Token)
    ensures Sources([t]) == Source(t) && Sources([]) == ""
  {
    assert [t][1..] == [];
    assert Source(t) + "" == Source(t);
  }

  lemma {:induction false} PasteConserves(s: string)
    ensures Sources(ParsePaste(s).tokens) + TextOf(ParsePaste(s).held) == s
    decreases |s|, 0
  {
    hide Find, Sources;
    var f := Find(s, PASTE_END, 0);
    SourcesOfOne(PasteOpen);
    if f.Some? {
      var i := f.value;
      var content, rest := s[..i], s[i + |PASTE_END|..];
      ParseConserves(rest);
      var p := Parse(rest);
      SourcesConcat([PasteClose(content)], p.tokens);
      SourcesOfOne(PasteClose(content));
      Rejoin(s, i, PASTE_END, Sources(p.tokens), TextOf(p.held));
    }
  }

  lemma {:induction false} FeedConserves(h: Held, s: string)
    ensures Sources(Feed(h, s).tokens) + TextOf(Feed(h, s).held) == TextOf(h) + s
  {
    hide Parse, ParsePaste, Sources;
    match h {
      case Typing(buffer) => ParseConserves(buffer + s);
      case Pasting(pasted) => PasteConserves(pasted + s);
    }
  }

  /** Every sequence is minimal, and what is lost is never empty. */
  lemma {:induction false} ParsedAreMinimal(s: string)
    ensures forall k :: 0 <= k < |Parse(s).tokens| ==>
      && (Parse(s).tokens[k].Sequence? ==> Minimal(Parse(s).tokens[k].text))
      && (Parse(s).tokens[k].Lost? ==> Parse(s).tokens[k].text != "")
    decreases |s|, 1
  {
    hide Extract, Find, Minimal;
    var f := Find(s, PASTE_START, 0);
    if f.None? {
      ExtractedAreMinimal(s);
    } else {
      ExtractedAreMinimal(s[..f.value]);
      PastedAreMinimal(s[f.value + |PASTE_START|..]);
    }
  }

  lemma {:induction false} PastedAreMinimal(s: string)
    ensures forall k :: 0 <= k < |ParsePaste(s).tokens| ==>
      && (ParsePaste(s).tokens[k].Sequence? ==> Minimal(ParsePaste(s).tokens[k].text))
      && (ParsePaste(s).tokens[k].Lost? ==> ParsePaste(s).tokens[k].text != "")
    decreases |s|, 0
  {
    hide Find, Minimal;
    var f := Find(s, PASTE_END, 0);
    if f.Some? {
      ParsedAreMinimal(s[f.value + |PASTE_END|..]);
    }
  }

  function LostLength(tokens: seq<Token>): nat {
    if tokens == [] then 0 else (if tokens[0].Lost? then |tokens[0].text| else 0) + LostLength(tokens[1..])
  }

  function Kept(tokens: seq<Token>): seq<Token> {
    if tokens == [] then [] else (if tokens[0].Lost? then [] else [tokens[0]]) + Kept(tokens[1..])
  }

  lemma {:induction false} KeptLength(tokens: seq<Token>)
    ensures |Sources(tokens)| == |Sources(Kept(tokens))| + LostLength(tokens)
    ensures Clean(tokens) ==> Kept(tokens) == tokens
    ensures (forall k :: 0 <= k < |tokens| && tokens[k].Lost? ==> tokens[k].text != "") ==>
      (LostLength(tokens) == 0 <==> Clean(tokens))
  {
    if tokens != [] {
      KeptLength(tokens[1..]);
      var rest := Kept(tokens[1..]);
      if tokens[0].Lost? {
        assert [] + rest == rest;
      } else {
        assert ([tokens[0]] + rest)[1..] == rest;
      }
      assert forall k :: 0 < k < |tokens| ==> tokens[k] == tokens[1..][k - 1];
    }
  }

  /** What reaches the listeners accounts for the whole input exactly when no paste marker interrupted a sequence. */
  lemma {:induction false} NothingLostIffClean(h: Held, s: string)
    ensures var p := Feed(h, s);
      Sources(Kept(p.tokens)) + TextOf(p.held) == TextOf(h) + s <==> Clean(p.tokens)
  {
    hide Parse, ParsePaste, Sources, Kept, LostLength;
    var p := Feed(h, s);
    FeedConserves(h, s);
    match h {
      case Typing(buffer) => ParsedAreMinimal(buffer + s);
      case Pasting(pasted) => PastedAreMinimal(pasted + s);
    }
    KeptLength(p.tokens);
  }

  /** Only a character that repeats the Kitty key reported just before it is held back. */
  lemma {:induction false} SuppressedRepeatsKittyKey(pending: Option<nat>, tokens: seq<Token>, text: string)
    requires Clean(tokens)
    requires DeliverSequence(Deliver(pending, tokens).pending, text).events == []
    ensures |text| == 1
    ensures tokens == [] ==> pending == Some(text[0] as nat)
    ensures tokens != [] ==>
      && tokens[|tokens| - 1].Sequence?
      && KittyCodepoint(tokens[|tokens| - 1].text) == Some(text[0] as nat)
  {
    if tokens != [] {
      assert !tokens[|tokens| - 1].Lost?;
    }
  }

  /** An unfinished sequence before a marker, cut inside the marker: it swallows the first part, and no paste begins. */
  lemma {:induction false} SplitMarkerSwallowed()
    ensures var a, b := [ESC, '[', '1', ESC, '['], "200~";
      && !BadCut(Parse(a), b) && SplitsMarker(a, b)
      && Parse(a + b).held == Pasting("") && Then(Parse(a), b).held == Typing("")
  {
    hide DigitsEnd, Extract, NextLength;
    var a, b := [ESC, '[', '1', ESC, '['], "200~";
    var s := a + b;
    assert PASTE_START == [ESC, '[', '2', '0', '0', '~'] && PASTE_END == [ESC, '[', '2', '0', '1', '~'];
    MarkerFourth(s);
    UnfinishedCsi();
    assert s[..3] == a[..3] == [ESC, '[', '1'] && s[3 + |PASTE_START|..] == "" && a[..3] + a[3..] == a;
    assert Find(a, PASTE_START, 0).None? && Parse(a) == Parsed(Sequences([a]), Typing(""));
    assert Completes(Extract(a[..3]).remainder, a[3..]);
    assert Feed(Typing(""), b) == Parse("" + b) == Parse(b) by { assert "" + b == b; }
    PlainRemainder(b);
    assert Find(b, PASTE_START, 0).None?;
  }

  /** The Escape key before a paste, cut inside the marker: the paste is noticed, and the key, which the whole input
      loses, is delivered. */
  lemma {:induction false} EscapeBeforePaste()
    ensures var a, b := [ESC, ESC, '['], "200~";
      && !BadCut(Parse(a), b) && SplitsMarker(a, b)
      && Parse(a + b) == Parsed([Lost([ESC]), PasteOpen], Pasting(""))
      && Then(Parse(a), b) == Parsed([Sequence([ESC]), PasteOpen], Pasting(""))
  {
    hide DigitsEnd, Extract, NextLength;
    var a, b := [ESC, ESC, '['], "200~";
    var s := a + b;
    assert PASTE_START == [ESC, '[', '2', '0', '0', '~'] && PASTE_END == [ESC, '[', '2', '0', '1', '~'];
    MarkerSecond(s);
    LoneEscape();
    MarkerAlone();
    ExtractNothing();
    assert s[..1] == a[..1] == [ESC] && s[1 + |PASTE_START|..] == "" && a[..1] + a[1..] == a;
    assert ParsePaste("") == Parsed([], Pasting(""));
    assert Find(a, PASTE_START, 0).None? && Parse(a) == Parsed([Sequence([ESC])], Typing([ESC, '[']));
    assert Completes(Extract(a[..1]).remainder, a[1..]);
    assert [ESC, '['] + b == PASTE_START && PASTE_START[..0] == "" && PASTE_START[|PASTE_START|..] == "";
    assert Parse(PASTE_START) == Parsed([PasteOpen], Pasting(""));
  }

  lemma {:induction false} MarkerSecond(s: string)
    requires s == [ESC, ESC, '[', '2', '0', '0', '~']
    ensures Find(s, PASTE_START, 0) == Some(1)
  {
    assert s[1..1 + |PASTE_START|] == PASTE_START;
    assert !StartsAt(s, PASTE_START, 0) by { assert s[0..|PASTE_START|][1] != PASTE_START[1]; }
    FindIsLeast(s, PASTE_START, 0, 1);
  }

  lemma {:induction false} MarkerAlone()
    ensures Find(PASTE_START, PASTE_START, 0) == Some(0)
  {
    assert PASTE_START[0..|PASTE_START|] == PASTE_START;
  }

  lemma {:induction false} LoneEscape()
    ensures Extract([ESC]) == Extracted([], [ESC])
    ensures var a := [ESC, ESC, '[']; NextLength(a) == Some(1) && Extract(a) == Extracted([[ESC]], [ESC, '['])
  {
    hide Extract;
    var a := [ESC, ESC, '['];
    assert [ESC] == PASTE_START[..1] && [ESC, '['] == PASTE_START[..2];
    PartialMarker([ESC]);
    PartialMarker([ESC, '[']);
    assert a[..1] == [ESC] && a[..2] == [ESC, ESC] && a[1..] == [ESC, '['];
    assert IsCompleteSequence(a[..1]) == Incomplete && IsCompleteSequence(a[..2]) == Complete;
    assert FirstComplete(a, 2) == Some(2);
    ExtractFirst(a, 1);
  }

  lemma {:induction false} MarkerFourth(s: string)
    requires s == [ESC, '[', '1', ESC, '[', '2', '0', '0', '~']
    ensures Find(s, PASTE_START, 0) == Some(3)
  {
    assert s[3..3 + |PASTE_START|] == PASTE_START;
    assert !StartsAt(s, PASTE_START, 0) by { assert s[0..|PASTE_START|][2] != PASTE_START[2]; }
    assert !StartsAt(s, PASTE_START, 1) by { assert s[1..1 + |PASTE_START|][0] != ESC; }
    assert !StartsAt(s, PASTE_START, 2) by { assert s[2..2 + |PASTE_START|][0] != ESC; }
    FindIsLeast(s, PASTE_START, 0, 3);
  }

  lemma {:induction false} PlainRemainder(s: string)
    requires ESC !in s
    ensures Extract(s).remainder == ""
  {
    hide Extract;
    ExtractedAreMinimal(s);
    RemainderIsSuffix(s);
  }

  lemma {:induction false} UnfinishedCsi()
    ensures var s := [ESC, '[', '1']; Extract(s) == Extracted([], s)
    ensures var a := [ESC, '[', '1', ESC, '[']; NextLength(a) == Some(5) && Extract(a) == Extracted([a], "")
  {
    hide Extract;
    var a := [ESC, '[', '1', ESC, '['];
    assert a[..1] == [ESC] && a[..2] == [ESC, '['] && a[..3] == [ESC, '[', '1'] && a[..4] == [ESC, '[', '1', ESC];
    assert a[..5] == a && a[5..] == "";
    assert IsCompleteSequence(a[..1]) == Incomplete;
    assert IsCompleteSequence(a[..2]) == Incomplete by { assert a[..2][2..] == ""; }
    assert IsCompleteSequence(a[..3]) == Incomplete by { assert a[..3][2..] == ['1']; }
    assert IsCompleteSequence(a[..4]) == Incomplete by { assert a[..4][2..] == ['1', ESC]; }
    assert IsCompleteSequence(a) == Complete by { assert a[2..] == ['1', ESC, '[']; }
    var f := FirstComplete(a, 1);
    assert f == Some(5);
    var s := a[..3];
    assert s[..1] == a[..1] && s[..2] == a[..2] && s[..3] == s;
    assert FirstComplete(s, 1).None?;
    ExtractFirst(a, 5);
    ExtractNothing();
    ExtractUnfinished(s);
  }
}
