/**
 * Two texts that are wrapped to a line wider than asked, worked out step by step from their tokens on.
 * One has no-break spaces, the other a grapheme without width between ordinary spaces.
 */
module WrapOverflow {
  import opened AnsiCodes
  import opened AnsiTexts
  import opened StyledText
  import opened TextWrap
  import opened WrapFitSteps
  import opened WrapFits

  const UNDERLINE := Ansi(UNDERLINE_ON)
  const LETTER := Glyph(Grapheme("a", 1, false, false))
  const BLANK := Glyph(SPACE)
  const NO_BREAK_SPACE := Glyph(Grapheme("\U{a0}", 1, true, false))

  /** An underlined letter, a space, two no-break spaces, and a space run with a code inside. */
  const OVERFULL := [UNDERLINE, LETTER, BLANK, NO_BREAK_SPACE, NO_BREAK_SPACE, BLANK, UNDERLINE, BLANK]

  lemma {:induction false} SplitNext(items: seq<Item>, n: nat)
    requires n < |items|
    ensures SplitItems(items[..n + 1]) == SplitItem(SplitItems(items[..n]), items[n])
    ensures SplitItems(items[..0]) == SplitState([], [], [], false)
  {
    assert items[..n + 1][..n] == items[..n];
  }

  lemma {:induction false} OverfullTokens()
    ensures Tokens(OVERFULL) == [[UNDERLINE, LETTER], [BLANK], [NO_BREAK_SPACE, NO_BREAK_SPACE], [BLANK, UNDERLINE, BLANK]]
  {
    hide SplitItems;
    var t := [[UNDERLINE, LETTER], [BLANK], [NO_BREAK_SPACE, NO_BREAK_SPACE], [BLANK, UNDERLINE, BLANK]];
    assert OVERFULL[..8] == OVERFULL;
    OverfullStart();
    SplitNext(OVERFULL, 5);
    assert SplitItems(OVERFULL[..6]) == SplitState(t[..3], [BLANK], [], false);
    SplitNext(OVERFULL, 6);
    assert SplitItems(OVERFULL[..7]) == SplitState(t[..3], [BLANK], [UNDERLINE], false);
    SplitNext(OVERFULL, 7);
    assert SplitItems(OVERFULL[..8]) == SplitState(t[..3], t[3], [], false);
    assert t[3] + [] == t[3] && t[..3] + [t[3]] == t;
  }

  lemma {:induction false} OverfullStart()
    ensures SplitItems(OVERFULL[..5]) ==
      SplitState([[UNDERLINE, LETTER], [BLANK]], [NO_BREAK_SPACE, NO_BREAK_SPACE], [], true)
  {
    hide SplitItems;
    SplitNext(OVERFULL, 0);
    assert SplitItems(OVERFULL[..1]) == SplitState([], [], [UNDERLINE], false);
    SplitNext(OVERFULL, 1);
    assert SplitItems(OVERFULL[..2]) == SplitState([], [UNDERLINE, LETTER], [], true);
    SplitNext(OVERFULL, 2);
    assert SplitItems(OVERFULL[..3]) == SplitState([[UNDERLINE, LETTER]], [BLANK], [], false);
    SplitNext(OVERFULL, 3);
    assert SplitItems(OVERFULL[..4]) == SplitState([[UNDERLINE, LETTER], [BLANK]], [NO_BREAK_SPACE], [], true);
    SplitNext(OVERFULL, 4);
  }

  const UNDER := PLAIN.(attrs := {4})

  lemma {:induction false} OverfullStep1()
    ensures WrapToken(WrapState([], [], 0, PLAIN), [UNDERLINE, LETTER], 1) == WrapState([], [UNDERLINE, LETTER], 1, UNDER)
  {
    UnderlineOn(PLAIN);
    OneItem(PLAIN, UNDERLINE);
    OneItem(UNDER, LETTER);
    assert [UNDERLINE, LETTER] == [UNDERLINE] + [LETTER];
    WidthConcat([UNDERLINE], [LETTER]);
    StyleConcat(PLAIN, [UNDERLINE], [LETTER]);
  }

  lemma {:induction false} OverfullStep2(st: WrapState)
    requires st.visible == 1 && st.style == UNDER
    ensures var r := WrapToken(st, [BLANK], 1); r.current == ActiveItems(UNDER) && r.visible == 0 && r.style == UNDER
  {
    OneItem(UNDER, BLANK);
  }

  /** A pair of whitespace graphemes is added to a line that looks empty, however wide it is. */
  lemma {:induction false} PairAdded(st: WrapState, x: Item)
    requires st.visible == 0 && st.style == UNDER && x.Glyph? && x.g.width == 1 && x.g.space
    ensures var r := WrapToken(st, [x, x], 1);
      r.current == st.current + [x, x] && r.visible == 2 && r.style == UNDER
  {
    OneItem(UNDER, x);
    assert [x, x] == [x] + [x];
    WidthConcat([x], [x]);
    StyleConcat(UNDER, [x], [x]);
  }

  lemma {:induction false} OverfullStep4(st: WrapState)
    requires st.current != [] && st.visible == 2 && st.style == UNDER
    ensures TokenSticks(st, [BLANK, UNDERLINE, BLANK], 1) && Width([BLANK, UNDERLINE, BLANK]) == 2
  {
    OneItem(UNDER, BLANK);
    OneItem(UNDER, UNDERLINE);
    var t := [BLANK, UNDERLINE, BLANK];
    assert t == [BLANK] + [UNDERLINE] + [BLANK];
    WidthConcat([BLANK], [UNDERLINE]);
    WidthConcat([BLANK] + [UNDERLINE], [BLANK]);
    assert t[1] == UNDERLINE;
  }

  lemma {:induction false} WrapAppend(tokens: seq<seq<Item>>, token: seq<Item>, width: nat)
    ensures WrapTokens(tokens + [token], width) == WrapToken(WrapTokens(tokens, width), token, width)
  {
    assert (tokens + [token])[..|tokens|] == tokens;
  }

  lemma {:induction false} OverfullRun()
    ensures var st := WrapTokens([] + [[UNDERLINE, LETTER]] + [[BLANK]] + [[NO_BREAK_SPACE, NO_BREAK_SPACE]], 1);
      st.current != [] && st.visible == 2 && st.style == UNDER
  {
    var t1, t2, t3 := [UNDERLINE, LETTER], [BLANK], [NO_BREAK_SPACE, NO_BREAK_SPACE];
    OverfullStep1();
    WrapAppend([], t1, 1);
    OverfullStep2(WrapTokens([] + [t1], 1));
    WrapAppend([] + [t1], t2, 1);
    PairAdded(WrapTokens([] + [t1] + [t2], 1), NO_BREAK_SPACE);
    WrapAppend([] + [t1] + [t2], t3, 1);
  }

  lemma {:induction false} OverfullSticks()
    ensures Sticks(Tokens(OVERFULL), 1)
  {
    var read := [] + [[UNDERLINE, LETTER]] + [[BLANK]] + [[NO_BREAK_SPACE, NO_BREAK_SPACE]];
    var tokens := Tokens(OVERFULL);
    assert |tokens| == 4 && tokens[..3] == read && tokens[3] == [BLANK, UNDERLINE, BLANK] by { OverfullTokens(); }
    assert TokenSticks(WrapTokens(read, 1), [BLANK, UNDERLINE, BLANK], 1) by {
      OverfullRun();
      OverfullStep4(WrapTokens(read, 1));
    }
    assert TokenSticks(WrapTokens(tokens[..3], 1), tokens[3], 1);
  }

  /** With other whitespace than spaces the claim that every line fits is false. */
  lemma {:induction false} NoBreakSpacesOverflow()
    ensures WellFormed(OVERFULL) && GraphemesFit(OVERFULL, 1) && !LinesFit(WrapSingleLine(OVERFULL, 1), 1)
  {
    hide WrapSingleLine, Tokens, LinesFit, Sticks, Width, Process;
    OverfullSticks();
    OverfullWidth();
    UnderlineOn(PLAIN);
    WrapSingleLineFits(OVERFULL, 1);
  }

  lemma {:induction false} OverfullWidth()
    ensures Width(OVERFULL) > 1
  {
    assert OVERFULL == OVERFULL[..5] + OVERFULL[5..];
    WidthConcat(OVERFULL[..5], OVERFULL[5..]);
    OverfullStep4(WrapState([], [BLANK], 2, UNDER));
    assert OVERFULL[5..] == [BLANK, UNDERLINE, BLANK];
  }

  // ---- a grapheme without width ----

  const INVISIBLE := Glyph(Grapheme("\U{200b}", 0, false, false))

  /** An underlined letter, a space, a zero-width space, two spaces and a word of two letters. */
  const HIDDEN := [UNDERLINE, LETTER, BLANK, INVISIBLE, BLANK, BLANK, LETTER, LETTER]

  lemma {:induction false} HiddenTokens()
    ensures Tokens(HIDDEN) == [[UNDERLINE, LETTER], [BLANK], [INVISIBLE], [BLANK, BLANK], [LETTER, LETTER]]
  {
    hide SplitItems;
    var t := [[UNDERLINE, LETTER], [BLANK], [INVISIBLE], [BLANK, BLANK], [LETTER, LETTER]];
    assert HIDDEN[..8] == HIDDEN;
    HiddenStart();
    SplitNext(HIDDEN, 5);
    assert SplitItems(HIDDEN[..6]) == SplitState(t[..3], t[3], [], false);
    SplitNext(HIDDEN, 6);
    assert SplitItems(HIDDEN[..7]) == SplitState(t[..4], [LETTER], [], true);
    SplitNext(HIDDEN, 7);
    assert SplitItems(HIDDEN[..8]) == SplitState(t[..4], t[4], [], true);
    assert t[4] + [] == t[4] && t[..4] + [t[4]] == t;
  }

  lemma {:induction false} HiddenStart()
    ensures SplitItems(HIDDEN[..5]) == SplitState([[UNDERLINE, LETTER], [BLANK], [INVISIBLE]], [BLANK], [], false)
  {
    hide SplitItems;
    SplitNext(HIDDEN, 0);
    assert SplitItems(HIDDEN[..1]) == SplitState([], [], [UNDERLINE], false);
    SplitNext(HIDDEN, 1);
    assert SplitItems(HIDDEN[..2]) == SplitState([], [UNDERLINE, LETTER], [], true);
    SplitNext(HIDDEN, 2);
    assert SplitItems(HIDDEN[..3]) == SplitState([[UNDERLINE, LETTER]], [BLANK], [], false);
    SplitNext(HIDDEN, 3);
    assert SplitItems(HIDDEN[..4]) == SplitState([[UNDERLINE, LETTER], [BLANK]], [INVISIBLE], [], true);
    SplitNext(HIDDEN, 4);
  }

  /** A grapheme without width is added, and the line still looks empty. */
  lemma {:induction false} InvisibleAdded(st: WrapState)
    requires st.visible == 0 && st.style == UNDER
    ensures var r := WrapToken(st, [INVISIBLE], 1);
      r.current == st.current + [INVISIBLE] && r.visible == 0 && r.style == UNDER
  {
    OneItem(UNDER, INVISIBLE);
  }

  lemma {:induction false} WordFlushes(st: WrapState)
    requires st.current != [] && st.visible == 2 && st.style == UNDER
    ensures TokenSticks(st, [LETTER, LETTER], 1) && Width([LETTER, LETTER]) == 2
  {
    OneItem(UNDER, LETTER);
    assert [LETTER, LETTER] == [LETTER] + [LETTER];
    WidthConcat([LETTER], [LETTER]);
    assert [LETTER, LETTER][0] == LETTER;
  }

  lemma {:induction false} HiddenRun()
    ensures var st := WrapTokens([] + [[UNDERLINE, LETTER]] + [[BLANK]] + [[INVISIBLE]] + [[BLANK, BLANK]], 1);
      st.current != [] && st.visible == 2 && st.style == UNDER
  {
    hide WrapTokens, WrapToken;
    var a := [] + [[UNDERLINE, LETTER]];
    NothingRead(1);
    OverfullStep1();
    WrapAppend([], [UNDERLINE, LETTER], 1);
    OverfullStep2(WrapTokens(a, 1));
    WrapAppend(a, [BLANK], 1);
    InvisibleAdded(WrapTokens(a + [[BLANK]], 1));
    WrapAppend(a + [[BLANK]], [INVISIBLE], 1);
    PairAdded(WrapTokens(a + [[BLANK]] + [[INVISIBLE]], 1), BLANK);
    WrapAppend(a + [[BLANK]] + [[INVISIBLE]], [BLANK, BLANK], 1);
  }

  lemma {:induction false} NothingRead(width: nat)
    ensures WrapTokens([], width) == WrapState([], [], 0, PLAIN)
  {
  }

  lemma {:induction false} HiddenSticks()
    ensures Sticks(Tokens(HIDDEN), 1)
  {
    hide WrapTokens, TokenSticks, Tokens;
    var read := [] + [[UNDERLINE, LETTER]] + [[BLANK]] + [[INVISIBLE]] + [[BLANK, BLANK]];
    var tokens := Tokens(HIDDEN);
    HiddenTokens();
    assert tokens[..4] == read && tokens[4] == [LETTER, LETTER];
    HiddenRun();
    WordFlushes(WrapTokens(read, 1));
    assert TokenSticks(WrapTokens(tokens[..4], 1), tokens[4], 1);
  }

  /** With a grapheme of no width the claim is false too, although every white space is an ordinary space. */
  lemma {:induction false} InvisibleGraphemesOverflow()
    ensures WellFormed(HIDDEN) && GraphemesFit(HIDDEN, 1) && !LinesFit(WrapSingleLine(HIDDEN, 1), 1)
    ensures forall k :: 0 <= k < |HIDDEN| && HIDDEN[k].Glyph? && HIDDEN[k].g.space ==> HIDDEN[k].g.text == " "
  {
    hide WrapSingleLine, Tokens, LinesFit, Sticks;
    HiddenSticks();
    HiddenWidth();
    UnderlineOn(PLAIN);
    WrapSingleLineFits(HIDDEN, 1);
  }

  lemma {:induction false} HiddenWidth()
    ensures Width(HIDDEN) > 1
  {
    assert HIDDEN == HIDDEN[..6] + HIDDEN[6..];
    WidthConcat(HIDDEN[..6], HIDDEN[6..]);
    WordFlushes(WrapState([], [BLANK], 2, UNDER));
    assert HIDDEN[6..] == [LETTER, LETTER];
  }
}
