/**
 * Inputs cut in two: before, inside and after a paste marker.
 * A cut changes nothing, unless it separates an ESC ESC from what would split it,
 * or leaves enough of a marker behind an unfinished sequence to complete it.
 */
module StdinCuts {
  import opened Strings
  import opened Wrappers
  import opened StdinTokens
  import opened StdinSequences

  // ---- whole chunks ----

  /** What a chunk leaves, then the next one: tokens in order, and what is held in the end. */
  function Then(first: Parsed, b: string): Parsed {
    var second := Feed(first.held, b);
    Parsed(first.tokens + second.tokens, second.held)
  }

  /** The chunk ends right after an ESC ESC whose second ESC would have begun a longer sequence with b. */
  predicate BadCut(first: Parsed, b: string) {
    && first.held == Typing("") && first.tokens != []
    && first.tokens[|first.tokens| - 1] == Sequence([ESC, ESC])
    && b != "" && b[0] in STARTERS
  }

  /** The first part of a marker completes the unfinished sequence that the whole marker would drop. */
  predicate Completes(unfinished: string, part: string) {
    unfinished != "" && NextLength(unfinished + part).Some?
  }

  /** The cut falls inside a paste marker, and its first part completes the sequence before it. */
  predicate SplitsMarker(a: string, b: string)
    decreases |a|, 1
  {
    match Find(a + b, PASTE_START, 0)
    case None => false
    case Some(i) =>
      if i + |PASTE_START| <= |a| then SplitsLaterMarker(a[i + |PASTE_START|..], b)
      else i < |a| && Completes(Extract(a[..i]).remainder, a[i..])
  }

  /** The same for text that begins inside a paste. */
  predicate SplitsLaterMarker(a: string, b: string)
    decreases |a|, 0
  {
    match Find(a + b, PASTE_END, 0)
    case None => false
    case Some(i) => i + |PASTE_END| <= |a| && SplitsMarker(a[i + |PASTE_END|..], b)
  }

  /** From token k on the two go apart: the first chunk has a sequence there, of two characters at least or a lone
      ESC; the whole input has a lone ESC there, or loses text before a paste. */
  predicate DiffersAt(whole: seq<Token>, first: seq<Token>, k: nat) {
    && k < |first| && k < |whole| && first[..k] == whole[..k]
    && first[k].Sequence? && (|first[k].text| > 1 || first[k].text == [ESC])
    && (|| (whole[k] == Sequence([ESC]) && first[k] != whole[k])
        || (whole[k].Lost? && PasteFrom(whole[k + 1..])))
  }

  /** A paste is opened, and nothing but its end can follow. */
  predicate PasteFrom(tokens: seq<Token>) {
    tokens != [] && tokens[0].PasteOpen? && (|tokens| > 1 ==> tokens[1].PasteClose?)
  }

  predicate Differs(whole: Parsed, first: Parsed) {
    exists k :: 0 <= k < |first.tokens| && DiffersAt(whole.tokens, first.tokens, k)
  }

  predicate ParsesInTwo(whole: Parsed, first: Parsed, b: string, split: bool) {
    if BadCut(first, b) || split then Differs(whole, first) else whole == Then(first, b)
  }

  lemma {:induction false} SequencesConcat(a: seq<string>, b: seq<string>)
    ensures Sequences(a + b) == Sequences(a) + Sequences(b)
  {
  }

  lemma {:induction false} SequencesPrefix(a: seq<string>, b: seq<string>, n: nat)
    requires n <= |a| && n <= |b| && a[..n] == b[..n]
    ensures Sequences(a)[..n] == Sequences(b)[..n]
  {
    assert forall k :: 0 <= k < n ==> a[k] == a[..n][k] == b[..n][k] == b[k];
  }

  /** What is left of a, with b added, is the end of a + b. */
  lemma {:induction false} RemainderThen(a: string, b: string)
    ensures var d := |a| - |Extract(a).remainder|;
      0 <= d <= |a| && (a + b)[d..] == Extract(a).remainder + b
  {
    hide Extract;
    RemainderIsSuffix(a);
  }

  /** No marker in sight: the sequences alone decide. */
  lemma {:induction false} PlainInTwo(a: string, b: string)
    requires Find(a + b, PASTE_START, 0).None?
    ensures ParsesInTwo(Parse(a + b), Parse(a), b, false)
  {
    hide Extract, Find, StartsAt;
    var x := Extract(a);
    FindInPrefix(a, b, PASTE_START);
    RemainderThen(a, b);
    FindInSuffix(a + b, PASTE_START, |a| - |x.remainder|);
    ExtractInTwo(a, b);
    SequencesConcat(x.sequences, Extract(x.remainder + b).sequences);
    if BadCut(Parse(a), b) {
      var n := |x.sequences|;
      SequencesPrefix(x.sequences, Extract(a + b).sequences, n - 1);
      assert DiffersAt(Parse(a + b).tokens, Parse(a).tokens, n - 1);
    }
  }

  lemma {:induction false} RemainderIsSuffix(s: string)
    ensures |Extract(s).remainder| <= |s| && s[|s| - |Extract(s).remainder|..] == Extract(s).remainder
    decreases |s|
  {
    if s != "" && NextLength(s).Some? {
      RemainderIsSuffix(s[NextLength(s).value..]);
    }
  }

  // ---- a paste marker in the input ----

  lemma {:induction false} PartialMarker(m: string)
    requires 0 < |m| < |PASTE_START| && m == PASTE_START[..|m|]
    ensures Extract(m) == Extracted([], m)
  {
    forall e | 1 <= e <= |m| ensures IsCompleteSequence(m[..e]) == Incomplete {
      PartialIsIncomplete(m[..e]);
    }
    assert FirstComplete(m, 1).None?;
  }

  lemma {:induction false} PartialIsIncomplete(m: string)
    requires 0 < |m| < |PASTE_START| && m == PASTE_START[..|m|]
    ensures IsCompleteSequence(m) == Incomplete
  {
    assert PASTE_START == [ESC, '[', '2', '0', '0', '~'];
    if |m| > 2 {
      var payload := m[2..];
      assert payload[|payload| - 1] == m[|m| - 1];
    }
  }

  /** Text before the marker, extracted in two steps with a cut in it or in the marker itself. */
  predicate BeforeInTwo(a: string, b: string, i: nat) {
    var x := Extract(a);
    var d := |a| - |x.remainder|;
    && 0 <= d <= i <= |a + b|
    && var rest := Extract((a + b)[d..i]);
      Extract((a + b)[..i]) == Extracted(x.sequences + rest.sequences, rest.remainder)
  }

  lemma {:induction false} CutBeforeMarker(a: string, b: string, i: nat)
    requires Find(a + b, PASTE_START, 0) == Some(i) && |a| <= i
    ensures if BadCut(Parse(a), b) then Differs(Parse(a + b), Parse(a)) else BeforeInTwo(a, b, i)
  {
    hide Extract, CutsEscapes, BadCut, Differs, InTwo, Parse, BeforeInTwo, Find;
    var c := b[..i - |a|];
    assert (a + b)[..i] == a + c;
    ExtractInTwo(a, c);
    SameCut(a, b, i);
    if CutsEscapes(Extract(a).sequences, Extract(a).remainder, c) {
      BadCutBeforeMarker(a, b, i);
    } else {
      GoodCutBeforeMarker(a, b, i);
    }
  }

  /** Whether the cut is bad shows in the text before the marker: the marker itself begins with ESC. */
  lemma {:induction false} SameCut(a: string, b: string, i: nat)
    requires Find(a + b, PASTE_START, 0) == Some(i) && |a| <= i
    ensures BadCut(Parse(a), b) <==> CutsEscapes(Extract(a).sequences, Extract(a).remainder, b[..i - |a|])
  {
    hide Extract;
    FindInPrefix(a, b, PASTE_START);
    assert (a + b)[i..i + |PASTE_START|][0] == ESC;
    assert (a + b)[i] == ESC;
    if b != "" {
      assert (a + b)[|a|] == b[0];
    }
  }

  lemma {:induction false} BadCutBeforeMarker(a: string, b: string, i: nat)
    requires Find(a + b, PASTE_START, 0) == Some(i) && |a| <= i && (a + b)[..i] == a + b[..i - |a|]
    requires InTwo(a, b[..i - |a|]) && CutsEscapes(Extract(a).sequences, Extract(a).remainder, b[..i - |a|])
    ensures Differs(Parse(a + b), Parse(a))
  {
    hide Extract;
    FindInPrefix(a, b, PASTE_START);
    var n := |Extract(a).sequences|;
    var before := BeforePaste((a + b)[..i]);
    var whole := Extract(a + b[..i - |a|]).sequences;
    assert before[n - 1] == Sequence(whole[n - 1]);
    assert Parse(a + b).tokens[n - 1] == before[n - 1];
    SequencesPrefix(Extract(a).sequences, whole, n - 1);
    assert Parse(a + b).tokens[..n - 1] == before[..n - 1] == Sequences(whole)[..n - 1];
    assert DiffersAt(Parse(a + b).tokens, Parse(a).tokens, n - 1);
  }

  lemma {:induction false} GoodCutBeforeMarker(a: string, b: string, i: nat)
    requires |a| <= i <= |a + b| && (a + b)[..i] == a + b[..i - |a|]
    requires InTwo(a, b[..i - |a|]) && !CutsEscapes(Extract(a).sequences, Extract(a).remainder, b[..i - |a|])
    ensures BeforeInTwo(a, b, i)
  {
    RemainderIsSuffix(a);
    hide Extract;
    var x := Extract(a);
    assert (a + b)[|a| - |x.remainder|..i] == x.remainder + b[..i - |a|];
  }

  /** The part of a marker that lies in the first chunk. */
  lemma {:induction false} MarkerPart(a: string, b: string, i: nat)
    requires StartsAt(a + b, PASTE_START, i) && i < |a| < i + |PASTE_START|
    ensures a[i..] == PASTE_START[..|a| - i] && a[i] == ESC
  {
    assert a[i..] == (a + b)[i..i + |PASTE_START|][..|a| - i];
    assert PASTE_START[..|a| - i][0] == ESC;
  }

  lemma {:induction false} ExtractUpToPart(before: string, m: string)
    requires Extract(before).remainder == "" && 0 < |m| < |PASTE_START| && m == PASTE_START[..|m|]
    ensures Extract(before + m) == Extracted(Extract(before).sequences, m)
  {
    hide Extract;
    ExtractInTwo(before, m);
    PartialMarker(m);
    assert "" + m == m && m[0] == ESC;
    assert Extract(before).sequences + [] == Extract(before).sequences;
  }

  lemma {:induction false} CutInMarker(a: string, b: string, i: nat)
    requires Find(a + b, PASTE_START, 0) == Some(i) && i < |a| < i + |PASTE_START|
    requires !Completes(Extract(a[..i]).remainder, a[i..])
    ensures !BadCut(Parse(a), b) && BeforeInTwo(a, b, i)
  {
    hide Extract, Find, NextLength;
    FindInPrefix(a, b, PASTE_START);
    MarkerPart(a, b, i);
    assert (a + b)[..i] == a[..i] && a == a[..i] + a[i..];
    var x := Extract(a[..i]);
    if x.remainder == "" {
      ExtractUpToPart(a[..i], a[i..]);
      ExtractNothing();
      assert (a + b)[i..i] == "";
      assert Extract(a).sequences + [] == Extract(a).sequences;
    } else {
      ExtractInTwo(a[..i], a[i..]);
      ExtractUnfinished(x.remainder + a[i..]);
      RemainderIsSuffix(a[..i]);
      RemainderIsUnfinished(a[..i]);
      ExtractUnfinished(x.remainder);
      assert x.sequences + [] == x.sequences;
      assert (a + b)[i - |x.remainder|..i] == x.remainder;
    }
  }

  lemma {:induction false} RemainderIsUnfinished(s: string)
    requires Extract(s).remainder != ""
    ensures NextLength(Extract(s).remainder).None?
  {
    ExtractedAreMinimal(s);
  }

  /** The first chunk emits a sequence where the whole input drops one. */
  lemma {:induction false} CutCompletes(a: string, b: string, i: nat)
    requires Find(a + b, PASTE_START, 0) == Some(i) && i < |a| < i + |PASTE_START|
    requires Completes(Extract(a[..i]).remainder, a[i..])
    ensures Differs(Parse(a + b), Parse(a))
  {
    hide Extract, Find, NextLength, ParsePaste;
    FindInPrefix(a, b, PASTE_START);
    assert (a + b)[..i] == a[..i] && a == a[..i] + a[i..];
    var x := Extract(a[..i]);
    ExtractInTwo(a[..i], a[i..]);
    ExtractFirst(x.remainder + a[i..], NextLength(x.remainder + a[i..]).value);
    var k := |x.sequences|;
    var rest := ParsePaste((a + b)[i + |PASTE_START|..]);
    RemainderStartsEscape(a[..i]);
    FirstIsLong(x.remainder + a[i..]);
    LostThenPaste(Sequences(x.sequences), x.remainder, rest.tokens, (a + b)[i + |PASTE_START|..]);
    assert Parse(a + b).tokens == Sequences(x.sequences) + [Lost(x.remainder)] + [PasteOpen] + rest.tokens;
    SequencesConcat(x.sequences, Extract(x.remainder + a[i..]).sequences);
    assert Parse(a).tokens[..k] == Sequences(x.sequences);
    assert DiffersAt(Parse(a + b).tokens, Parse(a).tokens, k);
  }

  lemma {:induction false} RemainderStartsEscape(s: string)
    requires Extract(s).remainder != ""
    ensures Extract(s).remainder[0] == ESC
  {
    ExtractedAreMinimal(s);
  }

  lemma {:induction false} LostThenPaste(head: seq<Token>, lost: string, tail: seq<Token>, s: string)
    requires tail == ParsePaste(s).tokens
    ensures var all := head + [Lost(lost)] + [PasteOpen] + tail;
      all[..|head|] == head && all[|head|] == Lost(lost) && PasteFrom(all[|head| + 1..])
  {
    hide Parse, Find;
    var all := head + [Lost(lost)] + [PasteOpen] + tail;
    assert all[|head| + 1..] == [PasteOpen] + tail;
  }

  lemma {:induction false} ExtractNothing()
    ensures Extract("") == Extracted([], "")
  {
  }

  lemma {:induction false} BeforePasteInTwo(a: string, b: string, i: nat)
    requires i <= |a + b| && BeforeInTwo(a, b, i)
    ensures BeforePaste((a + b)[..i]) ==
      Sequences(Extract(a).sequences) + BeforePaste((a + b)[|a| - |Extract(a).remainder|..i])
  {
    hide Extract;
    var x, rest := Extract(a), Extract((a + b)[|a| - |Extract(a).remainder|..i]);
    SequencesConcat(x.sequences, rest.sequences);
    var lost := if rest.remainder == "" then [] else [Lost(rest.remainder)];
    assert Sequences(x.sequences) + Sequences(rest.sequences) + lost + [PasteOpen] ==
      Sequences(x.sequences) + (Sequences(rest.sequences) + lost + [PasteOpen]);
  }

  lemma {:induction false} MarkerAfter(a: string, b: string, i: nat)
    requires Find(a + b, PASTE_START, 0) == Some(i) && i + |PASTE_START| > |a|
    requires BeforeInTwo(a, b, i)
    ensures Parse(a + b) == Then(Parse(a), b)
  {
    hide Extract, ParsePaste, Find, BeforePaste;
    var x := Extract(a);
    var d := |a| - |x.remainder|;
    var t := x.remainder + b;
    FindInPrefix(a, b, PASTE_START);
    RemainderThen(a, b);
    FindInSuffix(a + b, PASTE_START, d);
    BeforePasteInTwo(a, b, i);
    assert t[..i - d] == (a + b)[d..i];
    assert t[i - d + |PASTE_START|..] == (a + b)[i + |PASTE_START|..];
    var rest := ParsePaste((a + b)[i + |PASTE_START|..]);
    assert Sequences(x.sequences) + BeforePaste(t[..i - d]) + rest.tokens ==
      Sequences(x.sequences) + (BeforePaste(t[..i - d]) + rest.tokens);
  }

  /** Tokens in front change nothing, unless they could be cut themselves. */
  lemma {:induction false} Prefixed(head: seq<Token>, whole: Parsed, first: Parsed, b: string, split: bool)
    requires ParsesInTwo(whole, first, b, split)
    requires head != [] && !head[|head| - 1].Sequence?
    ensures ParsesInTwo(Parsed(head + whole.tokens, whole.held), Parsed(head + first.tokens, first.held), b, split)
  {
    hide Feed;
    var f, w := Parsed(head + first.tokens, first.held), Parsed(head + whole.tokens, whole.held);
    if first.tokens == [] {
      assert f.tokens == head;
    } else {
      assert f.tokens[|f.tokens| - 1] == first.tokens[|first.tokens| - 1];
    }
    if BadCut(first, b) || split {
      var k: nat :| DiffersAt(whole.tokens, first.tokens, k);
      DiffersBehind(head, whole.tokens, first.tokens, k);
    } else {
      var second := Feed(first.held, b);
      assert head + (first.tokens + second.tokens) == head + first.tokens + second.tokens;
    }
  }

  lemma {:induction false} DiffersBehind(head: seq<Token>, whole: seq<Token>, first: seq<Token>, k: nat)
    requires DiffersAt(whole, first, k)
    ensures DiffersAt(head + whole, head + first, |head| + k)
  {
    assert (head + first)[..|head| + k] == head + first[..k] && (head + whole)[..|head| + k] == head + whole[..k];
    assert (head + whole)[|head| + k + 1..] == whole[k + 1..];
  }

  lemma {:induction false} EndsOpen(s: string)
    ensures BeforePaste(s) != [] && BeforePaste(s)[|BeforePaste(s)| - 1] == PasteOpen
  {
  }

  /**
   * Chunk invariance: a chunk a and then a chunk b give the tokens and leave the state of a + b, exactly when
   * the cut neither separates an ESC ESC from what would split it, nor lets a part of a marker complete a sequence.
   */
  lemma {:induction false} ParseInTwo(a: string, b: string)
    ensures ParsesInTwo(Parse(a + b), Parse(a), b, SplitsMarker(a, b))
    decreases |a|, 1
  {
    hide Extract, BadCut, Differs, BeforeInTwo, BeforePaste, Then, ParsesInTwo, Find, Completes;
    var f := Find(a + b, PASTE_START, 0);
    if f.None? {
      PlainInTwo(a, b);
    } else {
      var i := f.value;
      var head, rest := BeforePaste((a + b)[..i]), (a + b)[i + |PASTE_START|..];
      if i + |PASTE_START| <= |a| {
        MarkerBefore(a, b, i);
        assert rest == a[i + |PASTE_START|..] + b;
        PasteInTwo(a[i + |PASTE_START|..], b);
        EndsOpen((a + b)[..i]);
        Prefixed(head, ParsePaste(rest), ParsePaste(a[i + |PASTE_START|..]), b, SplitsMarker(a, b));
      } else {
        MarkerNotBefore(a, b, i);
      }
    }
  }

  lemma {:induction false} MarkerNotBefore(a: string, b: string, i: nat)
    requires Find(a + b, PASTE_START, 0) == Some(i) && i + |PASTE_START| > |a|
    ensures ParsesInTwo(Parse(a + b), Parse(a), b, i < |a| && Completes(Extract(a[..i]).remainder, a[i..]))
  {
    hide Extract, BadCut, Differs, BeforeInTwo, Parse, Then, Completes;
    if |a| <= i {
      CutBeforeMarker(a, b, i);
      if !BadCut(Parse(a), b) {
        MarkerAfter(a, b, i);
      }
    } else if Completes(Extract(a[..i]).remainder, a[i..]) {
      CutCompletes(a, b, i);
    } else {
      CutInMarker(a, b, i);
      MarkerAfter(a, b, i);
    }
  }

  lemma {:induction false} MarkerBefore(a: string, b: string, i: nat)
    requires Find(a + b, PASTE_START, 0) == Some(i) && i + |PASTE_START| <= |a|
    ensures var rest := ParsePaste(a[i + |PASTE_START|..]);
      Parse(a) == Parsed(BeforePaste((a + b)[..i]) + rest.tokens, rest.held)
  {
    FindInPrefix(a, b, PASTE_START);
    assert StartsAt(a, PASTE_START, i) by {
      assert a[i..i + |PASTE_START|] == (a + b)[i..i + |PASTE_START|];
    }
    assert (a + b)[..i] == a[..i];
  }

  lemma {:induction false} PasteInTwo(a: string, b: string)
    ensures ParsesInTwo(ParsePaste(a + b), ParsePaste(a), b, SplitsLaterMarker(a, b))
    decreases |a|, 0
  {
    hide BadCut, Differs, Then, ParsesInTwo, Find, Parse;
    var f := Find(a + b, PASTE_END, 0);
    if f.Some? && f.value + |PASTE_END| <= |a| {
      var i := f.value;
      var rest, head := a[i + |PASTE_END|..], [PasteClose(a[..i])];
      EndBefore(a, b, i);
      ParseInTwo(rest, b);
      Prefixed(head, Parse(rest + b), Parse(rest), b, SplitsMarker(rest, b));
    } else {
      EndNotBefore(a, b);
    }
  }

  lemma {:induction false} EndBefore(a: string, b: string, i: nat)
    requires Find(a + b, PASTE_END, 0) == Some(i) && i + |PASTE_END| <= |a|
    ensures var rest, head := a[i + |PASTE_END|..], [PasteClose(a[..i])];
      && ParsePaste(a) == Parsed(head + Parse(rest).tokens, Parse(rest).held)
      && ParsePaste(a + b) == Parsed(head + Parse(rest + b).tokens, Parse(rest + b).held)
  {
    hide Parse;
    FindInPrefix(a, b, PASTE_END);
    assert StartsAt(a, PASTE_END, i) by {
      assert a[i..i + |PASTE_END|] == (a + b)[i..i + |PASTE_END|];
    }
    assert (a + b)[i + |PASTE_END|..] == a[i + |PASTE_END|..] + b && (a + b)[..i] == a[..i];
  }

  lemma {:induction false} EndNotBefore(a: string, b: string)
    requires var f := Find(a + b, PASTE_END, 0); f.Some? ==> f.value + |PASTE_END| > |a|
    ensures ParsesInTwo(ParsePaste(a + b), ParsePaste(a), b, false)
  {
    FindInPrefix(a, b, PASTE_END);
    assert ParsePaste(a) == Parsed([], Pasting(a));
    assert [] + ParsePaste(a + b).tokens == ParsePaste(a + b).tokens;
  }
}
