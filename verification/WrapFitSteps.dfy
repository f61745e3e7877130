/**
 * Why lines fit while they are built: what every token does to the line under construction,
 * and what is special about text whose only white space is spaces.
 */
module WrapFitSteps {
  import opened AnsiCodes
  import opened AnsiParams
  import opened AnsiRoundTrip
  import opened AnsiTexts
  import opened StyledText
  import opened TextWrap
  import opened WrapMeaning

  /** No single grapheme is wider than a line. */
  predicate GraphemesFit(items: seq<Item>, width: nat) {
    forall k :: 0 <= k < |items| && items[k].Glyph? ==> items[k].g.width <= width
  }

  /** No grapheme but white space is wider than a line. */
  predicate SolidFits(items: seq<Item>, width: nat) {
    forall k :: 0 <= k < |items| && items[k].Glyph? && !items[k].g.space ==> items[k].g.width <= width
  }

  predicate LinesFit(lines: seq<seq<Item>>, width: nat) {
    forall k :: 0 <= k < |lines| ==> Width(lines[k]) <= width
  }

  // ---- long words ----

  lemma {:induction false} BreakFits(word: seq<Item>, width: nat, s: Style)
    requires GraphemesFit(word, width) && Reachable(s) && WellFormed(word)
    ensures var st := BreakItems(word, width, s);
      LinesFit(st.lines, width) && Width(st.current) == st.width <= width
  {
    BreakKeepsCells(word, width, s);
    if word == [] {
      ActiveItemsRestore(s);
    } else {
      var init := word[..|word| - 1];
      var item := word[|word| - 1];
      BreakFits(init, width, s);
      BreakKeepsCells(init, width, s);
      BreakItemFits(BreakItems(init, width, s), item, width);
    }
  }

  lemma {:induction false} BreakItemFits(st: BreakState, item: Item, width: nat)
    requires LinesFit(st.lines, width) && Width(st.current) == st.width <= width
    requires Reachable(st.style) && (item.Glyph? ==> item.g.width <= width)
    ensures var st' := BreakItem(st, item, width);
      LinesFit(st'.lines, width) && Width(st'.current) == st'.width <= width
  {
    OneItem(st.style, item);
    WidthConcat(st.current, [item]);
    WidthConcat(st.current, ResetItems(st.style));
    CodesAreInvisible(PLAIN, ResetItems(st.style));
    ActiveItemsRestore(st.style);
    WidthConcat(ActiveItems(st.style), [item]);
  }

  // ---- lines that were admitted too wide ----

  /** A code is about to be put behind a piece that is too wide: the item itself, or the reset before a new piece. */
  predicate CodeBehind(st: BreakState, item: Item, width: nat) {
    st.width > width && (item.Ansi? || ResetItems(st.style) != [])
  }

  predicate BreakSticks(word: seq<Item>, width: nat, s: Style) {
    exists k :: 0 <= k < |word| && CodeBehind(BreakItems(word[..k], width, s), word[k], width)
  }

  /** What goes wrong: white space that is too wide sits on the current line, or on a piece of a word that is being
      broken, and a code is put behind it that keeps the final trim from stripping it. */
  predicate TokenSticks(st: WrapState, token: seq<Item>, width: nat) {
    && Width(token) > width && !IsWhitespace(token)
    && ((st.current != [] && st.visible > width && ResetItems(st.style) != []) || BreakSticks(token, width, st.style))
  }

  predicate Sticks(tokens: seq<seq<Item>>, width: nat) {
    exists k :: 0 <= k < |tokens| && TokenSticks(WrapTokens(tokens[..k], width), tokens[k], width)
  }

  /** Finished lines fit once trimmed; the current line fits, or fits once trimmed. */
  ghost predicate FitInv(st: WrapState, width: nat) {
    && LinesFit(TrimLines(st.wrapped), width)
    && st.visible == Width(st.current)
    && Width(TrimEnd(st.current)) <= width
    && Reachable(st.style)
  }

  lemma {:induction false} TrimWithCode(line: seq<Item>, codes: seq<Item>)
    requires OnlyCodes(codes)
    ensures Width(TrimEnd(line + codes)) == if codes == [] then Width(TrimEnd(line)) else Width(line)
  {
    WidthConcat(line, codes);
    CodesAreInvisible(PLAIN, codes);
    if codes == [] { assert line + codes == line; } else { assert TrimEnd(line + codes) == line + codes; }
  }

  lemma {:induction false} TrimAppend(lines: seq<seq<Item>>, line: seq<Item>, width: nat)
    requires LinesFit(TrimLines(lines), width)
    ensures LinesFit(TrimLines(lines + [line]), width) <==> Width(TrimEnd(line)) <= width
  {
    var all := TrimLines(lines + [line]);
    assert forall k :: 0 <= k < |lines| ==> all[k] == TrimLines(lines)[k];
    assert all[|lines|] == TrimEnd(line);
  }

  lemma {:induction false} TrimConcat(a: seq<seq<Item>>, b: seq<seq<Item>>, width: nat)
    ensures LinesFit(TrimLines(a + b), width) <==> LinesFit(TrimLines(a), width) && LinesFit(TrimLines(b), width)
  {
    assert TrimLines(a + b) == TrimLines(a) + TrimLines(b);
    FitConcat(TrimLines(a), TrimLines(b), width);
  }

  lemma {:induction false} FitConcat(a: seq<seq<Item>>, b: seq<seq<Item>>, width: nat)
    ensures LinesFit(a + b, width) <==> LinesFit(a, width) && LinesFit(b, width)
  {
    if LinesFit(a + b, width) {
      assert forall k :: 0 <= k < |a| ==> a[k] == (a + b)[k];
      assert forall k :: 0 <= k < |b| ==> b[k] == (a + b)[|a| + k];
    }
  }

  lemma {:induction false} FittingTrims(lines: seq<seq<Item>>, width: nat)
    requires LinesFit(lines, width)
    ensures LinesFit(TrimLines(lines), width)
  {
    forall k | 0 <= k < |lines| ensures Width(TrimLines(lines)[k]) <= width { TrimWidth(lines[k]); }
  }

  // ---- pieces of a word ----

  /** Finished pieces fit once trimmed, and so does the current one. */
  ghost predicate PieceInv(st: BreakState, width: nat) {
    && LinesFit(TrimLines(st.lines), width)
    && st.width == Width(st.current)
    && Width(TrimEnd(st.current)) <= width
    && Reachable(st.style)
  }

  /** Some piece does not fit, and no later step can change that. */
  ghost predicate PieceStuck(st: BreakState, width: nat) {
    && st.width == Width(st.current)
    && (!LinesFit(TrimLines(st.lines), width) || Width(TrimEnd(st.current)) > width)
  }

  lemma {:induction false} BreakItemWidth(st: BreakState, item: Item, width: nat)
    requires st.width == Width(st.current) && Reachable(st.style)
    ensures var st' := BreakItem(st, item, width); st'.width == Width(st'.current)
  {
    OneItem(st.style, item);
    WidthConcat(st.current, [item]);
    ActiveItemsRestore(st.style);
    WidthConcat(ActiveItems(st.style), [item]);
  }

  lemma {:induction false} PieceStep(st: BreakState, item: Item, width: nat)
    requires PieceInv(st, width) && (item.Ansi? ==> IsCode(item.code))
    requires item.Glyph? && !item.g.space ==> item.g.width <= width
    ensures !CodeBehind(st, item, width) ==> PieceInv(BreakItem(st, item, width), width)
    ensures CodeBehind(st, item, width) ==> PieceStuck(BreakItem(st, item, width), width)
  {
    hide ActiveItems, ResetItems, Reachable, TrimEnd;
    BreakItemWidth(st, item, width);
    OneItem(st.style, item);
    match item {
      case Ansi(code) =>
        ProcessKeepsReachable(st.style, code);
        TrimWithCode(st.current, [item]);
      case Glyph(g) =>
        if st.width + g.width > width {
          TrimWithCode(st.current, ResetItems(st.style));
          TrimAppend(st.lines, st.current + ResetItems(st.style), width);
          NewPieceTrims(st.style, item, width);
        } else {
          TrimWidth(st.current + [item]);
        }
    }
  }

  lemma {:induction false} NewPieceTrims(s: Style, item: Item, width: nat)
    requires Reachable(s) && item.Glyph? && (!item.g.space ==> item.g.width <= width)
    ensures Width(TrimEnd(ActiveItems(s) + [item])) <= width
  {
    hide ActiveItems, Reachable, TrimEnd;
    ActiveItemsRestore(s);
    OneItem(s, item);
    WidthConcat(ActiveItems(s), [item]);
    if item.g.space { AllSpaceTrims(ActiveItems(s), [item]); } else { TrimWidth(ActiveItems(s) + [item]); }
  }

  lemma {:induction false} PieceStaysStuck(st: BreakState, item: Item, width: nat)
    requires PieceStuck(st, width) && Reachable(st.style)
    ensures PieceStuck(BreakItem(st, item, width), width)
  {
    hide ActiveItems, ResetItems, Reachable, TrimEnd;
    BreakItemWidth(st, item, width);
    TrimWidth(st.current);
    match item {
      case Ansi(_) =>
        TrimWithCode(st.current, [item]);
      case Glyph(_) =>
        TrimWithCode(st.current, ResetItems(st.style));
        TrimConcat(st.lines, [st.current + ResetItems(st.style)], width);
        TrimOne(st.current + ResetItems(st.style), width);
    }
  }

  lemma {:induction false} TrimOne(line: seq<Item>, width: nat)
    ensures LinesFit(TrimLines([line]), width) <==> Width(TrimEnd(line)) <= width
  {
    assert TrimLines([line])[0] == TrimEnd(line);
  }

  /** The pieces of a word fit once trimmed exactly when no code is put behind one that is too wide. */
  lemma {:induction false} PiecesFit(word: seq<Item>, width: nat, s: Style)
    requires Reachable(s) && WellFormed(word) && SolidFits(word, width)
    ensures !BreakSticks(word, width, s) ==> PieceInv(BreakItems(word, width, s), width)
    ensures BreakSticks(word, width, s) ==> PieceStuck(BreakItems(word, width, s), width)
  {
    hide PieceInv, PieceStuck, CodeBehind, BreakItem, BreakSticks, Reachable;
    if word == [] {
      NoPieces(s, width);
    } else {
      var init, item := word[..|word| - 1], word[|word| - 1];
      PiecesFit(init, width, s);
      PieceStyle(init, width, s);
      BreakSticksStep(word, width, s);
      if BreakSticks(init, width, s) {
        PieceStaysStuck(BreakItems(init, width, s), item, width);
      } else {
        PieceStep(BreakItems(init, width, s), item, width);
      }
    }
  }

  lemma {:induction false} NoPieces(s: Style, width: nat)
    requires Reachable(s)
    ensures !BreakSticks([], width, s) && PieceInv(BreakItems([], width, s), width)
  {
    ActiveItemsRestore(s);
    TrimWidth(ActiveItems(s));
  }

  lemma {:induction false} PieceStyle(word: seq<Item>, width: nat, s: Style)
    requires Reachable(s) && WellFormed(word)
    ensures Reachable(BreakItems(word, width, s).style)
  {
    BreakKeepsCells(word, width, s);
  }

  lemma {:induction false} BreakSticksStep(word: seq<Item>, width: nat, s: Style)
    requires word != []
    ensures var last := |word| - 1; BreakSticks(word, width, s) <==>
      BreakSticks(word[..last], width, s) || CodeBehind(BreakItems(word[..last], width, s), word[last], width)
  {
    hide CodeBehind, BreakItems;
    var last := |word| - 1;
    var init := word[..last];
    assert forall k :: 0 <= k < last ==> init[..k] == word[..k] && init[k] == word[k];
    if BreakSticks(word, width, s) {
      var k :| 0 <= k < |word| && CodeBehind(BreakItems(word[..k], width, s), word[k], width);
      if k < last { assert CodeBehind(BreakItems(init[..k], width, s), init[k], width); }
    }
    if BreakSticks(init, width, s) {
      var k :| 0 <= k < |init| && CodeBehind(BreakItems(init[..k], width, s), init[k], width);
      assert CodeBehind(BreakItems(word[..k], width, s), word[k], width);
    }
  }

  // ---- tokens ----

  /** Some line does not fit, and no later token can change that. */
  ghost predicate LineStuck(st: WrapState, width: nat) {
    && st.visible == Width(st.current) && Reachable(st.style)
    && (!LinesFit(TrimLines(st.wrapped), width) || Width(TrimEnd(st.current)) > width)
  }

  lemma {:induction false} LongTokenFits(st: WrapState, token: seq<Item>, width: nat)
    requires FitInv(st, width) && SolidFits(token, width) && WellFormed(token)
    requires Width(token) > width && !IsWhitespace(token)
    ensures !TokenSticks(st, token, width) ==> FitInv(WrapLongToken(st, token, width), width)
    ensures TokenSticks(st, token, width) ==> LineStuck(WrapLongToken(st, token, width), width)
  {
    hide Reachable, BreakSticks, BreakItems, ResetItems, TrimEnd;
    PiecesFit(token, width, st.style);
    PieceStyle(token, width, st.style);
    LongTokenLines(st, token, width);
    TrimWithCode(st.current, ResetItems(st.style));
  }

  /** What breaking a token does to the lines: the current one is closed, and the pieces follow. */
  lemma {:induction false} LongTokenLines(st: WrapState, token: seq<Item>, width: nat)
    requires token != []
    ensures var b := BreakItems(token, width, st.style); var st' := WrapLongToken(st, token, width);
      && st'.current == b.current && st'.visible == Width(b.current) && st'.style == b.style
      && (LinesFit(TrimLines(st'.wrapped), width) <==>
            && LinesFit(TrimLines(st.wrapped), width) && LinesFit(TrimLines(b.lines), width)
            && (st.current != [] ==> Width(TrimEnd(st.current + ResetItems(st.style))) <= width))
  {
    hide TrimEnd, ResetItems, LinesFit, TrimLines;
    var b := BreakItems(token, width, st.style);
    LastPiece(token, width, st.style);
    var broken := BrokenLines(b);
    assert broken[..|broken| - 1] == b.lines && broken[|broken| - 1] == b.current;
    var line := st.current + ResetItems(st.style);
    var flushed := if st.current != [] then st.wrapped + [line] else st.wrapped;
    TrimConcat(flushed, b.lines, width);
    TrimConcat(st.wrapped, [line], width);
    TrimOne(line, width);
  }

  lemma {:induction false} AllSpaceTrims(line: seq<Item>, token: seq<Item>)
    requires IsWhitespace(token)
    ensures Width(TrimEnd(line + token)) <= Width(line)
  {
    var r := TrimEnd(line + token);
    if |r| > |line| {
      assert false;
    }
    assert line == r + line[|r|..];
    WidthConcat(r, line[|r|..]);
  }

  lemma {:induction false} ShortTokenFits(st: WrapState, token: seq<Item>, width: nat)
    requires FitInv(st, width) && WellFormed(token)
    requires Width(token) <= width || IsWhitespace(token)
    ensures FitInv(WrapToken(st, token, width), width)
  {
    ReachableAfter(st.style, token);
    WidthConcat(st.current, token);
    if st.visible + Width(token) > width && st.visible > 0 {
      var line := TrimEnd(st.current) + ResetItems(st.style);
      TrimAppend(st.wrapped, line, width);
      WidthConcat(TrimEnd(st.current), ResetItems(st.style));
      CodesAreInvisible(PLAIN, ResetItems(st.style));
      TrimWidth(line);
      ActiveItemsRestore(st.style);
      WidthConcat(ActiveItems(st.style), token);
      TrimWidth(ActiveItems(st.style) + token);
      TrimWidth(ActiveItems(st.style));
    } else if st.visible + Width(token) > width {
      AllSpaceTrims(st.current, token);
    } else {
      TrimWidth(st.current + token);
    }
  }

  lemma {:induction false} TrimTwice(line: seq<Item>, codes: seq<Item>)
    requires OnlyCodes(codes)
    ensures Width(TrimEnd(TrimEnd(line) + codes)) == Width(TrimEnd(line))
  {
    TrimWithCode(TrimEnd(line), codes);
    assert TrimEnd(TrimEnd(line)) == TrimEnd(line);
  }

  lemma {:induction false} StaysTooWide(st: WrapState, token: seq<Item>, width: nat)
    requires LineStuck(st, width) && WellFormed(token) && token != []
    ensures LineStuck(WrapToken(st, token, width), width)
  {
    hide TrimEnd, ResetItems, ActiveItems, Reachable, BreakItems;
    TrimWidth(st.current);
    if Width(token) > width && !IsWhitespace(token) {
      LongTokenLines(st, token, width);
      PieceStyle(token, width, st.style);
      TrimWithCode(st.current, ResetItems(st.style));
      NothingTrims();
    } else {
      ReachableAfter(st.style, token);
      WidthConcat(st.current, token);
      TrimTwice(st.current, ResetItems(st.style));
      TrimConcat(st.wrapped, [TrimEnd(st.current) + ResetItems(st.style)], width);
      TrimOne(TrimEnd(st.current) + ResetItems(st.style), width);
      ActiveItemsRestore(st.style);
      WidthConcat(ActiveItems(st.style), token);
    }
  }

  lemma {:induction false} NothingTrims()
    ensures Width(TrimEnd([])) == 0
  {
  }

  lemma {:induction false} WrapTokensFit(tokens: seq<seq<Item>>, width: nat)
    requires forall k :: 0 <= k < |tokens| ==> tokens[k] != [] && WellFormed(tokens[k]) && SolidFits(tokens[k], width)
    ensures !Sticks(tokens, width) ==> FitInv(WrapTokens(tokens, width), width)
    ensures Sticks(tokens, width) ==> LineStuck(WrapTokens(tokens, width), width)
  {
    hide FitInv, LineStuck, TokenSticks, Sticks, SolidFits, WellFormed, Reachable;
    if tokens == [] {
      NoTokens(width);
    } else {
      var last := |tokens| - 1;
      var st := WrapTokens(tokens[..last], width);
      WrapTokensFit(tokens[..last], width);
      SticksStep(tokens, width);
      if Sticks(tokens[..last], width) {
        StaysTooWide(st, tokens[last], width);
      } else {
        TokenFits(st, tokens[last], width);
      }
    }
  }

  lemma {:induction false} NoTokens(width: nat)
    ensures !Sticks([], width) && FitInv(WrapTokens([], width), width)
  {
  }

  lemma {:induction false} TokenFits(st: WrapState, token: seq<Item>, width: nat)
    requires FitInv(st, width) && SolidFits(token, width) && WellFormed(token)
    ensures !TokenSticks(st, token, width) ==> FitInv(WrapToken(st, token, width), width)
    ensures TokenSticks(st, token, width) ==> LineStuck(WrapToken(st, token, width), width)
  {
    hide FitInv, LineStuck, WrapLongToken, SolidFits, WellFormed;
    if Width(token) > width && !IsWhitespace(token) {
      LongTokenFits(st, token, width);
    } else {
      ShortTokenFits(st, token, width);
    }
  }

  lemma {:induction false} SticksStep(tokens: seq<seq<Item>>, width: nat)
    requires tokens != []
    ensures var last := |tokens| - 1; Sticks(tokens, width) <==>
      Sticks(tokens[..last], width) || TokenSticks(WrapTokens(tokens[..last], width), tokens[last], width)
  {
    hide TokenSticks, WrapTokens;
    var last := |tokens| - 1;
    var init := tokens[..last];
    assert forall k :: 0 <= k < last ==> init[..k] == tokens[..k] && init[k] == tokens[k];
    if Sticks(tokens, width) {
      var k :| 0 <= k < |tokens| && TokenSticks(WrapTokens(tokens[..k], width), tokens[k], width);
      if k < last { assert TokenSticks(WrapTokens(init[..k], width), init[k], width); }
    }
    if Sticks(init, width) {
      var k :| 0 <= k < |init| && TokenSticks(WrapTokens(init[..k], width), init[k], width);
      assert TokenSticks(WrapTokens(tokens[..k], width), tokens[k], width);
    }
  }

  lemma {:induction false} TokensFit(items: seq<Item>, width: nat)
    requires GraphemesFit(items, width)
    ensures forall k :: 0 <= k < |Tokens(items)| ==> GraphemesFit(Tokens(items)[k], width)
  {
    SplitFits(items, width);
  }

  lemma {:induction false} SplitFits(items: seq<Item>, width: nat)
    requires GraphemesFit(items, width)
    ensures var st := SplitItems(items);
      && (forall k :: 0 <= k < |st.tokens| ==> GraphemesFit(st.tokens[k], width))
      && GraphemesFit(st.current, width) && GraphemesFit(st.pending, width)
  {
    if items != [] { SplitFits(items[..|items| - 1], width); }
  }

  lemma {:induction false} TokensSolid(items: seq<Item>, width: nat)
    requires SolidFits(items, width)
    ensures forall k :: 0 <= k < |Tokens(items)| ==> SolidFits(Tokens(items)[k], width)
  {
    SplitSolid(items, width);
  }

  predicate StateSolid(st: SplitState, width: nat) {
    && (forall k :: 0 <= k < |st.tokens| ==> SolidFits(st.tokens[k], width))
    && SolidFits(st.current, width) && SolidFits(st.pending, width)
  }

  lemma {:induction false} SplitSolid(items: seq<Item>, width: nat)
    requires SolidFits(items, width)
    ensures StateSolid(SplitItems(items), width)
  {
    hide StateSolid, SplitItem;
    if items == [] {
      NothingSolid(width);
    } else {
      SplitSolid(items[..|items| - 1], width);
      SplitItemSolid(SplitItems(items[..|items| - 1]), items[|items| - 1], width);
    }
  }

  lemma {:induction false} NothingSolid(width: nat)
    ensures StateSolid(SplitItems([]), width)
  {
  }

  lemma {:induction false} SplitItemSolid(st: SplitState, item: Item, width: nat)
    requires StateSolid(st, width) && (item.Glyph? && !item.g.space ==> item.g.width <= width)
    ensures StateSolid(SplitItem(st, item), width)
  {
  }

  // ---- text whose only whitespace is the space character ----

  /** Every grapheme takes at least one column, and no other is whitespace than " ", which takes one. */
  predicate OnlySpaces(items: seq<Item>) {
    forall k :: 0 <= k < |items| && items[k].Glyph? ==>
      items[k].g.width > 0 && (items[k].g.space ==> items[k].g.text == " " && items[k].g.width == 1)
  }

  predicate HasGlyph(items: seq<Item>) { exists k :: 0 <= k < |items| && items[k].Glyph? }

  /** Two neighbouring tokens are never both whitespace. */
  predicate Alternate(tokens: seq<seq<Item>>) {
    forall k :: 0 <= k < |tokens| - 1 ==> !IsWhitespace(tokens[k]) || !IsWhitespace(tokens[k + 1])
  }

  predicate GoodTokens(tokens: seq<seq<Item>>) {
    Alternate(tokens) && forall k :: 0 <= k < |tokens| ==> HasGlyph(tokens[k])
  }

  predicate LastNotSpace(tokens: seq<seq<Item>>) { tokens == [] || !IsWhitespace(tokens[|tokens| - 1]) }

  ghost predicate SplitInv(st: SplitState) {
    && GoodTokens(st.tokens)
    && (st.current != [] ==> HasGlyph(st.current) && (st.word ==> !IsWhitespace(st.current)))
    && (st.current == [] || !st.word ==> LastNotSpace(st.tokens))
  }

  lemma {:induction false} GoodAppend(tokens: seq<seq<Item>>, token: seq<Item>)
    requires GoodTokens(tokens) && HasGlyph(token) && (LastNotSpace(tokens) || !IsWhitespace(token))
    ensures GoodTokens(tokens + [token])
  {
    var all := tokens + [token];
    forall k | 0 <= k < |all| - 1 ensures !IsWhitespace(all[k]) || !IsWhitespace(all[k + 1]) {
      assert all[k] == tokens[k];
      if k + 1 < |tokens| { assert all[k + 1] == tokens[k + 1]; }
    }
  }

  lemma {:induction false} FlushAlternates(st: SplitState)
    requires SplitInv(st)
    ensures GoodTokens(Flush(st).tokens) && (st.current == [] || st.word ==> LastNotSpace(Flush(st).tokens))
  {
    if st.current != [] { GoodAppend(st.tokens, st.current); }
  }

  /** A glyph joins the current token, or starts one of the other kind. */
  lemma {:induction false} GrowAlternates(st: SplitState, item: Item)
    requires GoodTokens(st.tokens) && item.Glyph? && (item.g.space ==> item.g.text == " ")
    requires item.g.text != " " || LastNotSpace(st.tokens)
    ensures SplitInv(st.(current := st.current + st.pending + [item], pending := [], word := item.g.text != " "))
  {
    var current := st.current + st.pending + [item];
    assert current[|current| - 1] == item;
  }

  lemma {:induction false} SplitAlternates(st: SplitState, item: Item)
    requires SplitInv(st) && (item.Glyph? ==> (item.g.space ==> item.g.text == " "))
    ensures SplitInv(SplitItem(st, item))
  {
    if item.Glyph? {
      var word := item.g.text != " ";
      FlushAlternates(st);
      if word && item.g.cjk {
        var token := st.pending + [item];
        assert token[|token| - 1] == item;
        GoodAppend(Flush(st).tokens, token);
      } else if st.current != [] && st.word != word {
        GrowAlternates(Flush(st), item);
      } else {
        GrowAlternates(st, item);
      }
    }
  }

  lemma {:induction false} SplitItemsAlternate(items: seq<Item>)
    requires OnlySpaces(items)
    ensures SplitInv(SplitItems(items))
  {
    if items != [] {
      SplitItemsAlternate(items[..|items| - 1]);
      SplitAlternates(SplitItems(items[..|items| - 1]), items[|items| - 1]);
    }
  }

  /** Whitespace tokens are never neighbours, and only a text of nothing but codes has a token without a grapheme. */
  lemma {:induction false} TokensAlternate(items: seq<Item>)
    requires OnlySpaces(items)
    ensures Alternate(Tokens(items))
    ensures |Tokens(items)| > 1 ==> forall k :: 0 <= k < |Tokens(items)| ==> HasGlyph(Tokens(items)[k])
  {
    var st := SplitItems(items);
    SplitItemsAlternate(items);
    SplitPendingCodes(items);
    if st.pending == [] || st.current != [] || st.tokens == [] {
      var more := st.current + st.pending;
      if st.current != [] {
        KeepsGlyph(st.current, st.pending);
        GoodAppend(st.tokens, more);
      } else if st.tokens == [] && more != [] {
        assert Tokens(items) == [more];
      }
    } else {
      var last := |st.tokens| - 1;
      KeepsGlyph(st.tokens[last], st.pending);
      GoodAppend(st.tokens[..last], st.tokens[last] + st.pending);
      assert Tokens(items) == st.tokens[..last] + [st.tokens[last] + st.pending];
    }
  }

  lemma {:induction false} SplitPendingCodes(items: seq<Item>)
    ensures OnlyCodes(SplitItems(items).pending)
  {
    if items != [] { SplitPendingCodes(items[..|items| - 1]); }
  }

  lemma {:induction false} KeepsGlyph(items: seq<Item>, codes: seq<Item>)
    requires HasGlyph(items) && OnlyCodes(codes)
    ensures HasGlyph(items + codes)
    ensures codes == [] ==> items + codes == items
    ensures codes != [] ==> !IsWhitespace(items + codes)
  {
    var k :| 0 <= k < |items| && items[k].Glyph?;
    assert (items + codes)[k] == items[k];
    if codes != [] { assert (items + codes)[|items|] == codes[0]; }
  }

  lemma {:induction false} GlyphWidth(items: seq<Item>)
    requires HasGlyph(items) && OnlySpaces(items)
    ensures Width(items) > 0
    decreases |items|
  {
    if !items[0].Glyph? {
      var k :| 0 <= k < |items| && items[k].Glyph?;
      assert items[1..][k - 1] == items[k];
      GlyphWidth(items[1..]);
    }
  }

  lemma {:induction false} BreakEndsVisible(word: seq<Item>, width: nat, s: Style)
    requires OnlySpaces(word)
    ensures HasGlyph(word) ==> BreakItems(word, width, s).width > 0
  {
    if word != [] {
      var init := word[..|word| - 1];
      BreakEndsVisible(init, width, s);
      if HasGlyph(word) && word[|word| - 1].Ansi? {
        var k :| 0 <= k < |word| && word[k].Glyph?;
        assert init[k] == word[k];
      }
    }
  }

  predicate PlainToken(token: seq<Item>, width: nat) {
    HasGlyph(token) && OnlySpaces(token) && GraphemesFit(token, width) && WellFormed(token)
  }

  /** Only the very first token can be a whitespace run that is too wide, and then no code has been read yet. */
  ghost predicate SpaceInv(st: WrapState, tokens: seq<seq<Item>>, width: nat) {
    && Reachable(st.style)
    && (st.visible == 0 ==> tokens == [] || IsWhitespace(tokens[|tokens| - 1]))
    && (st.visible > width ==> |tokens| == 1 && st.style == PLAIN)
    && (tokens == [] ==> st.style == PLAIN)
  }

  /** A word of graphemes that fit never has a piece that is too wide. */
  lemma {:induction false} FittingNeverSticks(word: seq<Item>, width: nat, s: Style)
    requires GraphemesFit(word, width) && Reachable(s) && WellFormed(word)
    ensures !BreakSticks(word, width, s)
  {
    hide Reachable, BreakItems;
    forall k | 0 <= k < |word| ensures !CodeBehind(BreakItems(word[..k], width, s), word[k], width) {
      BreakFits(word[..k], width, s);
    }
  }

  lemma {:induction false} SpaceStep(st: WrapState, tokens: seq<seq<Item>>, token: seq<Item>, width: nat)
    requires SpaceInv(st, tokens, width) && PlainToken(token, width)
    requires LastNotSpace(tokens) || !IsWhitespace(token)
    ensures SpaceInv(WrapToken(st, token, width), tokens + [token], width)
    ensures !TokenSticks(st, token, width)
  {
    ReachableAfter(st.style, token);
    GlyphWidth(token);
    if IsWhitespace(token) { SpaceCells(st.style, token); }
    if Width(token) > width && !IsWhitespace(token) {
      BreakFits(token, width, st.style);
      BreakKeepsCells(token, width, st.style);
      BreakEndsVisible(token, width, st.style);
      LastPiece(token, width, st.style);
      FittingNeverSticks(token, width, st.style);
    }
  }

  lemma {:induction false} SpacesNeverStick(tokens: seq<seq<Item>>, width: nat)
    requires Alternate(tokens) && forall k :: 0 <= k < |tokens| ==> PlainToken(tokens[k], width)
    ensures SpaceInv(WrapTokens(tokens, width), tokens, width) && !Sticks(tokens, width)
  {
    hide TokenSticks, WrapToken, PlainToken, Sticks, Reachable;
    if tokens == [] {
      NoTokens(width);
      PlainIsReachable();
    } else {
      var last := |tokens| - 1;
      var init := tokens[..last];
      SpacesNeverStick(init, width);
      SticksStep(tokens, width);
      if init != [] { assert init[|init| - 1] == tokens[last - 1] && tokens[last - 1 + 1] == tokens[last]; }
      SpaceStep(WrapTokens(init, width), init, tokens[last], width);
      assert tokens == init + [tokens[last]];
    }
  }

  lemma {:induction false} SplitOnlySpaces(items: seq<Item>)
    requires OnlySpaces(items)
    ensures var st := SplitItems(items);
      && (forall k :: 0 <= k < |st.tokens| ==> OnlySpaces(st.tokens[k]))
      && OnlySpaces(st.current) && OnlySpaces(st.pending)
  {
    if items != [] { SplitOnlySpaces(items[..|items| - 1]); }
  }

  /** With one token there is no line to put a code behind. */
  lemma {:induction false} OneTokenFits(tokens: seq<seq<Item>>, width: nat)
    requires |tokens| <= 1 && forall k :: 0 <= k < |tokens| ==> WellFormed(tokens[k]) && GraphemesFit(tokens[k], width)
    ensures !Sticks(tokens, width)
  {
    hide BreakSticks, WellFormed, GraphemesFit, Reachable;
    forall k | 0 <= k < |tokens| ensures !TokenSticks(WrapTokens(tokens[..k], width), tokens[k], width) {
      assert tokens[..k] == [];
      PlainIsReachable();
      FittingNeverSticks(tokens[k], width, PLAIN);
    }
  }

  lemma {:induction false} TokensOnlySpaces(items: seq<Item>)
    requires OnlySpaces(items)
    ensures forall k :: 0 <= k < |Tokens(items)| ==> OnlySpaces(Tokens(items)[k])
  {
    SplitOnlySpaces(items);
  }
}
