/** Wrapping drops white space only. */
module WrapMeaning {
  import opened AnsiCodes
  import opened AnsiParams
  import opened AnsiRoundTrip
  import opened StyledText
  import opened TextWrap

  // ---- tokens ----

  lemma {:induction false} FlattenAppend(lines: seq<seq<Item>>, line: seq<Item>)
    ensures Flatten(lines + [line]) == Flatten(lines) + line
  {
    assert (lines + [line])[..|lines|] == lines;
  }

  lemma {:induction false} FlushKeeps(st: SplitState)
    ensures Flatten(Flush(st).tokens) + Flush(st).current == Flatten(st.tokens) + st.current
  {
    FlattenAppend(st.tokens, st.current);
  }

  lemma {:induction false} SplitKeepsItems(items: seq<Item>)
    ensures ReadSoFar(SplitItems(items)) == items
  {
    if items != [] {
      var st := SplitItems(items[..|items| - 1]);
      var item := items[|items| - 1];
      SplitKeepsItems(items[..|items| - 1]);
      SplitItemKeeps(st, item);
      assert items == items[..|items| - 1] + [item];
    }
  }

  lemma {:induction false} AppendItems(a: seq<Item>, b: seq<Item>, c: seq<Item>, d: seq<Item>)
    ensures a + (b + c + d) == a + b + c + d && a + (b + c) == a + b + c
  {
  }

  /** The items a split state has read. */
  function ReadSoFar(st: SplitState): seq<Item> { Flatten(st.tokens) + st.current + st.pending }

  lemma {:induction false} SplitItemKeeps(st: SplitState, item: Item)
    ensures ReadSoFar(SplitItem(st, item)) == ReadSoFar(st) + [item]
  {
    match item
    case Ansi(_) =>
      AppendItems(Flatten(st.tokens) + st.current, st.pending, [item], []);
    case Glyph(g) =>
      if g.text != " " && g.cjk { BreakerKeeps(st, item); } else { GlyphKeeps(st, item); }
  }

  lemma {:induction false} BreakerKeeps(st: SplitState, item: Item)
    requires item.Glyph? && item.g.text != " " && item.g.cjk
    ensures ReadSoFar(SplitItem(st, item)) == ReadSoFar(st) + [item]
  {
    hide Flatten;
    var f := Flush(st);
    FlushKeeps(st);
    FlattenAppend(f.tokens, st.pending + [item]);
    AppendItems(Flatten(f.tokens), st.pending, [item], []);
    AppendItems(Flatten(st.tokens), st.current, st.pending, [item]);
    assert f.current == [];
  }

  lemma {:induction false} GlyphKeeps(st: SplitState, item: Item)
    requires item.Glyph? && (item.g.text == " " || !item.g.cjk)
    ensures ReadSoFar(SplitItem(st, item)) == ReadSoFar(st) + [item]
  {
    FlushKeeps(st);
    var ready := if st.current != [] && st.word == (item.g.text == " ") then Flush(st) else st;
    assert Flatten(ready.tokens) + ready.current == Flatten(st.tokens) + st.current;
    AppendItems(Flatten(ready.tokens), ready.current, st.pending, [item]);
    AppendItems(Flatten(st.tokens), st.current, st.pending, [item]);
  }

  lemma {:induction false} FlattenExtend(tokens: seq<seq<Item>>, more: seq<Item>)
    requires tokens != []
    ensures var last := |tokens| - 1; Flatten(tokens[last := tokens[last] + more]) == Flatten(tokens) + more
  {
    var last := |tokens| - 1;
    FlattenAppend(tokens[..last], tokens[last] + more);
    assert tokens[last := tokens[last] + more] == tokens[..last] + [tokens[last] + more];
  }

  /** Splitting into tokens loses and reorders nothing. */
  lemma {:induction false} TokensKeepItems(items: seq<Item>)
    ensures Flatten(Tokens(items)) == items
  {
    var st := SplitItems(items);
    SplitKeepsItems(items);
    if st.pending == [] || st.current != [] || st.tokens == [] {
      FlushKeeps(st.(current := st.current + st.pending));
      AppendItems(Flatten(st.tokens), st.current, st.pending, []);
    } else {
      FlattenExtend(st.tokens, st.pending);
    }
  }

  // ---- cells of lines ----

  function LinesCells(lines: seq<seq<Item>>): seq<Cell> {
    if lines == [] then [] else LinesCells(lines[..|lines| - 1]) + Cells(PLAIN, lines[|lines| - 1])
  }

  lemma {:induction false} LinesAppend(lines: seq<seq<Item>>, line: seq<Item>)
    ensures LinesCells(lines + [line]) == LinesCells(lines) + Cells(PLAIN, line)
  {
    assert (lines + [line])[..|lines|] == lines;
  }

  lemma {:induction false} LinesConcat(a: seq<seq<Item>>, b: seq<seq<Item>>)
    ensures LinesCells(a + b) == LinesCells(a) + LinesCells(b)
    decreases |b|
  {
    if b == [] {
      assert a + b == a;
    } else {
      var init := b[..|b| - 1];
      var last := b[|b| - 1];
      LinesConcat(a, init);
      assert a + b == (a + init) + [last];
      LinesAppend(a + init, last);
      AppendCells(LinesCells(a), LinesCells(init), Cells(PLAIN, last));
    }
  }

  /** The reset at the end of a line shows nothing. */
  lemma {:induction false} ResetIsInvisible(line: seq<Item>, s: Style)
    ensures Cells(PLAIN, line + ResetItems(s)) == Cells(PLAIN, line)
  {
    CellsConcat(PLAIN, line, ResetItems(s));
    CodesAreInvisible(StyleAfter(PLAIN, line), ResetItems(s));
  }

  /** A line that starts with the active codes shows what follows in the style that was active. */
  lemma {:induction false} ContinuedLine(s: Style, items: seq<Item>)
    requires Reachable(s)
    ensures Cells(PLAIN, ActiveItems(s) + items) == Cells(s, items)
    ensures StyleAfter(PLAIN, ActiveItems(s) + items) == StyleAfter(s, items)
  {
    ActiveItemsRestore(s);
    CellsConcat(PLAIN, ActiveItems(s), items);
    StyleConcat(PLAIN, ActiveItems(s), items);
    assert [] + Cells(s, items) == Cells(s, items);
  }

  // ---- long words ----

  ghost predicate BreakInv(st: BreakState, s: Style, word: seq<Item>) {
    && Reachable(st.style) && st.style == StyleAfter(s, word)
    && StyleAfter(PLAIN, st.current) == st.style
    && LinesCells(st.lines) + Cells(PLAIN, st.current) == Cells(s, word)
  }

  lemma {:induction false} BreakAdds(st: BreakState, s: Style, word: seq<Item>, item: Item, width: nat)
    requires BreakInv(st, s, word) && (item.Ansi? ==> IsCode(item.code))
    ensures BreakInv(BreakState(st.lines, st.current + [item], width, StyleAfter(st.style, [item])), s, word + [item])
  {
    StyleConcat(s, word, [item]);
    CellsConcat(s, word, [item]);
    StyleConcat(PLAIN, st.current, [item]);
    CellsConcat(PLAIN, st.current, [item]);
    OneItem(st.style, item);
    if item.Ansi? { ProcessKeepsReachable(st.style, item.code); }
    AppendCells(LinesCells(st.lines), Cells(PLAIN, st.current), Cells(st.style, [item]));
  }

  lemma {:induction false} AppendCells(a: seq<Cell>, b: seq<Cell>, c: seq<Cell>)
    ensures a + (b + c) == (a + b) + c
  {
  }

  lemma {:induction false} BreakStartsLine(st: BreakState, s: Style, word: seq<Item>, width: nat)
    requires BreakInv(st, s, word)
    ensures BreakInv(BreakState(st.lines + [st.current + ResetItems(st.style)], ActiveItems(st.style), width, st.style), s, word)
  {
    LinesAppend(st.lines, st.current + ResetItems(st.style));
    ResetIsInvisible(st.current, st.style);
    ActiveItemsRestore(st.style);
  }

  lemma {:induction false} BreakItemKeeps(st: BreakState, s: Style, word: seq<Item>, item: Item, width: nat)
    requires BreakInv(st, s, word) && (item.Ansi? ==> IsCode(item.code))
    ensures BreakInv(BreakItem(st, item, width), s, word + [item])
  {
    OneItem(st.style, item);
    if item.Ansi? {
      BreakAdds(st, s, word, item, st.width);
    } else if st.width + item.g.width > width {
      BreakStartsLine(st, s, word, 0);
      BreakAdds(BreakState(st.lines + [st.current + ResetItems(st.style)], ActiveItems(st.style), 0, st.style),
        s, word, item, item.g.width);
    } else {
      BreakAdds(st, s, word, item, st.width + item.g.width);
    }
  }

  lemma {:induction false} BreakKeepsCells(word: seq<Item>, width: nat, s: Style)
    requires Reachable(s) && WellFormed(word)
    ensures BreakInv(BreakItems(word, width, s), s, word)
  {
    hide BreakItem, BreakInv, Reachable;
    if word == [] {
      NothingBroken(s, width);
    } else {
      var init := word[..|word| - 1];
      BreakKeepsCells(init, width, s);
      BreakItemKeeps(BreakItems(init, width, s), s, init, word[|word| - 1], width);
      assert word == init + [word[|word| - 1]];
    }
  }

  lemma {:induction false} NothingBroken(s: Style, width: nat)
    requires Reachable(s)
    ensures BreakInv(BreakItems([], width, s), s, [])
  {
    ActiveItemsRestore(s);
  }

  // ---- one line ----

  lemma {:induction false} DropsTransitive(a: seq<Cell>, b: seq<Cell>, c: seq<Cell>)
    requires DropsOnlySpace(a, b) && DropsOnlySpace(b, c)
    ensures DropsOnlySpace(a, c)
    decreases |a|
  {
    if a != [] {
      if b != [] && b[0] == a[0] && DropsOnlySpace(a[1..], b[1..]) {
        if c != [] && c[0] == b[0] && DropsOnlySpace(b[1..], c[1..]) {
          DropsTransitive(a[1..], b[1..], c[1..]);
        } else {
          DropsTransitive(a[1..], b[1..], c);
        }
      } else {
        DropsTransitive(a[1..], b, c);
      }
    }
  }

  /** What the lines so far and the current line show is what was read, less some whitespace. */
  ghost predicate WrapInv(st: WrapState, read: seq<Item>) {
    && Reachable(st.style) && st.style == StyleAfter(PLAIN, read)
    && StyleAfter(PLAIN, st.current) == st.style
    && DropsOnlySpace(Cells(PLAIN, read), LinesCells(st.wrapped) + Cells(PLAIN, st.current))
  }

  /** Ending the line (trimmed or not) and starting the next one with the active codes. */
  lemma {:induction false} FlushLineKeeps(st: WrapState, read: seq<Item>, line: seq<Item>, visible: nat)
    requires WrapInv(st, read) && (line == st.current || line == TrimEnd(st.current))
    ensures WrapInv(WrapState(st.wrapped + [line + ResetItems(st.style)], ActiveItems(st.style), visible, st.style), read)
  {
    var full := Cells(PLAIN, read);
    var before := LinesCells(st.wrapped);
    ActiveItemsRestore(st.style);
    ResetIsInvisible(line, st.style);
    LinesAppend(st.wrapped, line + ResetItems(st.style));
    if line == st.current { DropsNothing(Cells(PLAIN, line)); } else { TrimDropsSpace(PLAIN, st.current); }
    DropsNothing(before);
    DropsConcat(before, before, Cells(PLAIN, st.current), Cells(PLAIN, line));
    DropsTransitive(full, before + Cells(PLAIN, st.current), before + Cells(PLAIN, line));
    assert before + Cells(PLAIN, line) + [] == before + Cells(PLAIN, line);
  }

  /** A whitespace token may be left out. */
  lemma {:induction false} SkipKeeps(st: WrapState, read: seq<Item>, token: seq<Item>)
    requires WrapInv(st, read) && IsWhitespace(token)
    ensures WrapInv(st, read + token)
  {
    StyleConcat(PLAIN, read, token);
    CellsConcat(PLAIN, read, token);
    SpaceCells(st.style, token);
    DropsAll(Cells(st.style, token));
    var shown := LinesCells(st.wrapped) + Cells(PLAIN, st.current);
    DropsConcat(Cells(PLAIN, read), shown, Cells(st.style, token), []);
    assert shown + [] == shown;
  }

  lemma {:induction false} BrokenCells(b: BreakState, s: Style, word: seq<Item>)
    requires BreakInv(b, s, word)
    ensures var broken := BrokenLines(b); var last := |broken| - 1;
      LinesCells(broken[..last]) + Cells(PLAIN, broken[last]) == Cells(s, word)
    ensures b.current != [] ==> BrokenLines(b)[|BrokenLines(b)| - 1] == b.current
  {
    var broken := BrokenLines(b);
    var last := |broken| - 1;
    if b.current != [] {
      assert broken[..last] == b.lines;
    } else {
      assert LinesCells(b.lines) + Cells(PLAIN, b.current) == LinesCells(b.lines);
    }
  }

  lemma {:induction false} LastPiece(word: seq<Item>, width: nat, s: Style)
    requires word != []
    ensures BreakItems(word, width, s).current != []
  {
  }

  lemma {:induction false} FlushedCells(st: WrapState)
    ensures var flushed := if st.current != [] then st.wrapped + [st.current + ResetItems(st.style)] else st.wrapped;
      LinesCells(flushed) == LinesCells(st.wrapped) + Cells(PLAIN, st.current)
  {
    if st.current != [] {
      LinesAppend(st.wrapped, st.current + ResetItems(st.style));
      ResetIsInvisible(st.current, st.style);
    }
  }

  /** Appending exactly the cells of the next token keeps the relation to what was read. */
  lemma {:induction false} ShowsMore(read: seq<Item>, shown: seq<Cell>, token: seq<Item>, s: Style)
    requires s == StyleAfter(PLAIN, read) && DropsOnlySpace(Cells(PLAIN, read), shown)
    ensures StyleAfter(PLAIN, read + token) == StyleAfter(s, token)
    ensures DropsOnlySpace(Cells(PLAIN, read + token), shown + Cells(s, token))
  {
    CellsConcat(PLAIN, read, token);
    StyleConcat(PLAIN, read, token);
    DropsNothing(Cells(s, token));
    DropsConcat(Cells(PLAIN, read), shown, Cells(s, token), Cells(s, token));
  }

  lemma {:induction false} AddKeeps(st: WrapState, read: seq<Item>, token: seq<Item>, visible: nat)
    requires WrapInv(st, read) && WellFormed(token)
    ensures WrapInv(WrapState(st.wrapped, st.current + token, visible, StyleAfter(st.style, token)), read + token)
  {
    ReachableAfter(st.style, token);
    StyleConcat(PLAIN, st.current, token);
    CellsConcat(PLAIN, st.current, token);
    ShowsMore(read, LinesCells(st.wrapped) + Cells(PLAIN, st.current), token, st.style);
    AppendCells(LinesCells(st.wrapped), Cells(PLAIN, st.current), Cells(st.style, token));
  }

  lemma {:induction false} LongTokenKeeps(st: WrapState, read: seq<Item>, token: seq<Item>, width: nat)
    requires WrapInv(st, read) && WellFormed(token) && token != []
    ensures WrapInv(WrapLongToken(st, token, width), read + token)
  {
    var b := BreakItems(token, width, st.style);
    var broken := BrokenLines(b);
    var last := |broken| - 1;
    var flushed := if st.current != [] then st.wrapped + [st.current + ResetItems(st.style)] else st.wrapped;
    var shown := LinesCells(st.wrapped) + Cells(PLAIN, st.current);
    assert BreakInv(b, st.style, token) by { BreakKeepsCells(token, width, st.style); }
    assert broken[last] == b.current by { LastPiece(token, width, st.style); }
    assert LinesCells(flushed + broken[..last]) + Cells(PLAIN, broken[last]) == shown + Cells(st.style, token) by {
      FlushedCells(st);
      BrokenCells(b, st.style, token);
      LinesConcat(flushed, broken[..last]);
      AppendCells(shown, LinesCells(broken[..last]), Cells(PLAIN, broken[last]));
    }
    ShowsMore(read, shown, token, st.style);
  }

  lemma {:induction false} WrapTokenKeeps(st: WrapState, read: seq<Item>, token: seq<Item>, width: nat)
    requires WrapInv(st, read) && WellFormed(token) && token != []
    ensures WrapInv(WrapToken(st, token, width), read + token)
  {
    if Width(token) > width && !IsWhitespace(token) {
      LongTokenKeeps(st, read, token, width);
    } else if st.visible + Width(token) > width && st.visible > 0 {
      var line := TrimEnd(st.current);
      FlushLineKeeps(st, read, line, 0);
      var next := WrapState(st.wrapped + [line + ResetItems(st.style)], ActiveItems(st.style), 0, st.style);
      if IsWhitespace(token) {
        SkipKeeps(next, read, token);
        SpaceCells(st.style, token);
      } else {
        AddKeeps(next, read, token, Width(token));
      }
    } else {
      AddKeeps(st, read, token, st.visible + Width(token));
    }
  }

  // ---- whole lines and whole texts ----

  lemma {:induction false} TokensAreGood(items: seq<Item>)
    requires WellFormed(items)
    ensures forall k :: 0 <= k < |Tokens(items)| ==> Tokens(items)[k] != [] && WellFormed(Tokens(items)[k])
  {
    SplitIsGood(items);
  }

  lemma {:induction false} SplitIsGood(items: seq<Item>)
    requires WellFormed(items)
    ensures var st := SplitItems(items);
      && (forall k :: 0 <= k < |st.tokens| ==> st.tokens[k] != [] && WellFormed(st.tokens[k]))
      && WellFormed(st.current) && WellFormed(st.pending)
  {
    if items != [] { SplitIsGood(items[..|items| - 1]); }
  }

  lemma {:induction false} WrapTokensKeep(tokens: seq<seq<Item>>, width: nat)
    requires forall k :: 0 <= k < |tokens| ==> tokens[k] != [] && WellFormed(tokens[k])
    ensures WrapInv(WrapTokens(tokens, width), Flatten(tokens))
  {
    if tokens != [] {
      var init := tokens[..|tokens| - 1];
      WrapTokensKeep(init, width);
      WrapTokenKeeps(WrapTokens(init, width), Flatten(init), tokens[|tokens| - 1], width);
    }
  }

  lemma {:induction false} TrimLinesDropSpace(lines: seq<seq<Item>>)
    ensures DropsOnlySpace(LinesCells(lines), LinesCells(TrimLines(lines)))
  {
    if lines != [] {
      var last := |lines| - 1;
      TrimLinesDropSpace(lines[..last]);
      TrimDropsSpace(PLAIN, lines[last]);
      DropsConcat(LinesCells(lines[..last]), LinesCells(TrimLines(lines[..last])),
        Cells(PLAIN, lines[last]), Cells(PLAIN, TrimEnd(lines[last])));
      assert TrimLines(lines)[..last] == TrimLines(lines[..last]);
    }
  }

  lemma {:induction false} OneLine(line: seq<Item>)
    ensures LinesCells([line]) == Cells(PLAIN, line)
  {
    LinesAppend([], line);
    assert [] + [line] == [line];
  }

  /** Every line of a wrapped line, drawn from the default style, shows what the line shows, less whitespace. */
  lemma {:induction false} WrapSingleLineKeepsMeaning(line: seq<Item>, width: nat)
    requires WellFormed(line)
    ensures DropsOnlySpace(Cells(PLAIN, line), LinesCells(WrapSingleLine(line, width)))
    ensures |WrapSingleLine(line, width)| > 0
  {
    if line == [] || Width(line) <= width {
      OneLine(line);
      DropsNothing(Cells(PLAIN, line));
    } else {
      var st := WrapTokens(Tokens(line), width);
      var lines := AllLines(st);
      TokensAreGood(line);
      TokensKeepItems(line);
      WrapTokensKeep(Tokens(line), width);
      LinesAppend(st.wrapped, st.current);
      assert LinesCells(lines) == LinesCells(st.wrapped) + Cells(PLAIN, st.current);
      TrimLinesDropSpace(lines);
      DropsTransitive(Cells(PLAIN, line), LinesCells(lines), LinesCells(TrimLines(lines)));
      if lines == [] { OneLine([]); assert TrimLines(lines) == []; }
    }
  }

  lemma {:induction false} JoinAppend(lines: seq<seq<Item>>, line: seq<Item>)
    ensures JoinLines(lines + [line]) == if lines == [] then line else JoinLines(lines) + [Glyph(NEWLINE)] + line
  {
    assert (lines + [line])[..|lines|] == lines;
  }

  lemma {:induction false} JoinExtend(lines: seq<seq<Item>>, item: Item)
    requires lines != []
    ensures var last := |lines| - 1; JoinLines(lines[last := lines[last] + [item]]) == JoinLines(lines) + [item]
  {
    var last := |lines| - 1;
    JoinAppend(lines[..last], lines[last] + [item]);
    JoinAppend(lines[..last], lines[last]);
    assert lines[last := lines[last] + [item]] == lines[..last] + [lines[last] + [item]];
    assert lines == lines[..last] + [lines[last]];
  }

  lemma {:induction false} SplitLinesJoin(text: seq<Item>)
    ensures JoinLines(SplitLines(text)) == text
  {
    if text != [] {
      var init := text[..|text| - 1];
      var item := text[|text| - 1];
      SplitLinesJoin(init);
      assert text == init + [item];
      if item == Glyph(NEWLINE) {
        JoinAppend(SplitLines(init), []);
      } else {
        JoinExtend(SplitLines(init), item);
      }
    }
  }

  lemma {:induction false} SplitLinesGood(text: seq<Item>)
    requires WellFormed(text)
    ensures forall k :: 0 <= k < |SplitLines(text)| ==> WellFormed(SplitLines(text)[k])
  {
    if text != [] { SplitLinesGood(text[..|text| - 1]); }
  }

  ghost predicate TextInv(st: TextState, lines: seq<seq<Item>>) {
    var read := JoinLines(lines);
    && Reachable(st.style) && st.style == StyleAfter(PLAIN, read)
    && (st.result == [] <==> lines == [])
    && DropsOnlySpace(Cells(PLAIN, read), LinesCells(st.result))
  }

  lemma {:induction false} WrapLineKeeps(st: TextState, lines: seq<seq<Item>>, line: seq<Item>, width: nat)
    requires TextInv(st, lines) && WellFormed(line)
    ensures TextInv(WrapLine(st, line, width), lines + [line])
  {
    var read := JoinLines(lines);
    var newline := if lines == [] then [] else [Glyph(NEWLINE)];
    var prefix := if st.result != [] then ActiveItems(st.style) else [];
    var wrapped := WrapSingleLine(prefix + line, width);
    JoinAppend(lines, line);
    assert JoinLines(lines + [line]) == (read + newline) + line by { if lines == [] { assert read + newline + line == line; } }
    ReachableAfter(st.style, line);
    SpaceBetween(st, lines);
    StyleConcat(PLAIN, read + newline, line);
    CellsConcat(PLAIN, read + newline, line);
    PrefixedLine(st, line);
    WrapSingleLineKeepsMeaning(prefix + line, width);
    LinesConcat(st.result, wrapped);
    DropsConcat(Cells(PLAIN, read + newline), LinesCells(st.result), Cells(st.style, line), LinesCells(wrapped));
  }

  lemma {:induction false} SpaceBetween(st: TextState, lines: seq<seq<Item>>)
    requires TextInv(st, lines)
    ensures var read := JoinLines(lines) + (if lines == [] then [] else [Glyph(NEWLINE)]);
      StyleAfter(PLAIN, read) == st.style && DropsOnlySpace(Cells(PLAIN, read), LinesCells(st.result))
  {
    var read := JoinLines(lines);
    var newline := if lines == [] then [] else [Glyph(NEWLINE)];
    StyleConcat(PLAIN, read, newline);
    CellsConcat(PLAIN, read, newline);
    SpaceCells(st.style, newline);
    DropsAll(Cells(st.style, newline));
    DropsConcat(Cells(PLAIN, read), LinesCells(st.result), Cells(st.style, newline), []);
    assert LinesCells(st.result) + [] == LinesCells(st.result);
  }

  lemma {:induction false} PrefixedLine(st: TextState, line: seq<Item>)
    requires Reachable(st.style) && WellFormed(line) && (st.result == [] ==> st.style == PLAIN)
    ensures var prefix := if st.result != [] then ActiveItems(st.style) else [];
      WellFormed(prefix + line) && Cells(PLAIN, prefix + line) == Cells(st.style, line)
  {
    if st.result != [] {
      ContinuedLine(st.style, line);
      ActiveCodesAreCodes(st.style);
    } else {
      assert [] + line == line;
    }
  }

  lemma {:induction false} ActiveCodesAreCodes(s: Style)
    requires Reachable(s)
    ensures WellFormed(ActiveItems(s))
  {
    PrintedCodes(s);
    if ActiveCodeList(s) != [] {
      ApplyActiveCodes(s);
      ParamsOfPrinted(ActiveCodeList(s));
      SgrIsCode(Join(ActiveCodeList(s)), "");
    }
  }

  lemma {:induction false} WrapLinesAppend(lines: seq<seq<Item>>, line: seq<Item>, width: nat)
    ensures WrapLines(lines + [line], width) == WrapLine(WrapLines(lines, width), line, width)
  {
    assert (lines + [line])[..|lines|] == lines;
  }

  lemma {:induction false} NothingWrapped()
    ensures TextInv(WrapLines([], 0), [])
  {
  }

  lemma {:induction false} NothingWraps(width: nat)
    ensures WrapLines(SplitLines([]), width).result == WrapText([], width)
  {
    var none: seq<Item> := [];
    assert SplitLines([]) == [none] && [none][..0] == [];
    NothingWrapped();
    assert WrapLines([none], width) == WrapLine(WrapLines([], width), none, width);
    assert [] + none == none && [] + [none] == [none];
  }

  lemma {:induction false} WrapLinesKeep(lines: seq<seq<Item>>, width: nat)
    requires forall k :: 0 <= k < |lines| ==> WellFormed(lines[k])
    ensures TextInv(WrapLines(lines, width), lines)
  {
    if lines == [] {
      NothingWrapped();
    } else {
      var init := lines[..|lines| - 1];
      var line := lines[|lines| - 1];
      assert lines == init + [line];
      WrapLinesKeep(init, width);
      WrapLinesAppend(init, line, width);
      WrapLineKeeps(WrapLines(init, width), init, line, width);
    }
  }

  /** Wrapping preserves meaning: drawing every line from the default style gives the cells of the whole text
      drawn with carried style, with only whitespace left out. */
  lemma {:induction false} WrapKeepsMeaning(text: seq<Item>, width: nat)
    requires WellFormed(text)
    ensures DropsOnlySpace(Cells(PLAIN, text), LinesCells(WrapText(text, width)))
  {
    if text == [] {
      OneLine([]);
    } else {
      SplitLinesJoin(text);
      SplitLinesGood(text);
      WrapLinesKeep(SplitLines(text), width);
    }
  }
}
