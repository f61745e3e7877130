/** How wrapped lines end. */
module WrapClosing {
  import opened AnsiCodes
  import opened AnsiParams
  import opened AnsiTexts
  import opened StyledText
  import opened TextWrap
  import opened WrapMeaning

  /** Drawn from the default style, the line ends with neither underline nor an open hyperlink. */
  ghost predicate EndsClosed(line: seq<Item>) {
    var s := StyleAfter(PLAIN, line);
    4 !in s.attrs && s.link.None?
  }

  ghost predicate AllClosed(lines: seq<seq<Item>>) { forall k :: 0 <= k < |lines| ==> EndsClosed(lines[k]) }

  lemma {:induction false} ResetCloses(line: seq<Item>, s: Style)
    requires Reachable(s) && StyleAfter(PLAIN, line) == s
    ensures EndsClosed(line + ResetItems(s))
  {
    hide Reachable, CodesFrom, GetLineEndReset, FormatClose, Process;
    var codes := LineEndCodes(s);
    assert ResetItems(s) == AsItems(codes);
    FindsLineEndCodes(s);
    ItemsProcess(s, codes);
    LineEndCloses(s);
    StyleConcat(PLAIN, line, ResetItems(s));
  }

  lemma {:induction false} TrimKeepsStyle(items: seq<Item>)
    ensures StyleAfter(PLAIN, TrimEnd(items)) == StyleAfter(PLAIN, items)
  {
    var kept := TrimEnd(items);
    var gone := items[|kept|..];
    assert items == kept + gone;
    StyleConcat(PLAIN, kept, gone);
    SpaceCells(StyleAfter(PLAIN, kept), gone);
  }

  // ---- long words ----

  lemma {:induction false} BreakItemsClose(word: seq<Item>, width: nat, s: Style)
    requires Reachable(s) && WellFormed(word)
    ensures AllClosed(BreakItems(word, width, s).lines)
  {
    hide Reachable, EndsClosed, BreakInv, ResetItems, ActiveItems, Process;
    if word != [] {
      var init := word[..|word| - 1];
      BreakItemsClose(init, width, s);
      var st := BreakItems(init, width, s);
      BreakKeepsCells(init, width, s);
      StyleOfBreak(st, s, init);
      ResetCloses(st.current, st.style);
    }
  }

  lemma {:induction false} StyleOfBreak(st: BreakState, s: Style, word: seq<Item>)
    requires BreakInv(st, s, word)
    ensures Reachable(st.style) && StyleAfter(PLAIN, st.current) == st.style
  {
  }

  // ---- one line ----

  lemma {:induction false} WrapTokenCloses(st: WrapState, read: seq<Item>, token: seq<Item>, width: nat)
    requires WrapInv(st, read) && WellFormed(token) && token != [] && AllClosed(st.wrapped)
    ensures AllClosed(WrapToken(st, token, width).wrapped)
  {
    hide Reachable, EndsClosed, ResetItems, ActiveItems, Cells, DropsOnlySpace, LinesCells, BreakItems, Width, IsWhitespace;
    ResetCloses(st.current, st.style);
    TrimKeepsStyle(st.current);
    ResetCloses(TrimEnd(st.current), st.style);
    BreakItemsClose(token, width, st.style);
    LastPiece(token, width, st.style);
  }

  lemma {:induction false} WrapTokensClose(tokens: seq<seq<Item>>, width: nat)
    requires forall k :: 0 <= k < |tokens| ==> tokens[k] != [] && WellFormed(tokens[k])
    ensures AllClosed(WrapTokens(tokens, width).wrapped)
  {
    hide AllClosed, WrapInv, WrapToken, WellFormed;
    if tokens == [] {
      NoneOpen();
    } else {
      var init := tokens[..|tokens| - 1];
      WrapTokensClose(init, width);
      WrapTokensKeep(init, width);
      WrapTokenCloses(WrapTokens(init, width), Flatten(init), tokens[|tokens| - 1], width);
    }
  }

  lemma {:induction false} NoneOpen()
    ensures AllClosed([])
  {
  }

  /** Every line but the last ends closed. */
  lemma {:induction false} WrapSingleLineCloses(line: seq<Item>, width: nat)
    requires WellFormed(line)
    ensures var lines := WrapSingleLine(line, width); AllClosed(lines[..|lines| - 1])
    ensures |WrapSingleLine(line, width)| > 0
  {
    hide WrapTokens, Tokens, WellFormed, Width, StyleAfter;
    if line != [] && Width(line) > width {
      TokensAreGood(line);
      WrapTokensClose(Tokens(line), width);
      var lines := AllLines(WrapTokens(Tokens(line), width));
      forall k | 0 <= k < |lines| - 1 ensures EndsClosed(TrimEnd(lines[k])) {
        TrimKeepsStyle(lines[k]);
      }
    }
  }

  // ---- whole texts ----

  /** Row k of a wrapped text is the last one of some input line. */
  ghost predicate LastOfItsLine(lines: seq<seq<Item>>, width: nat, k: int) {
    exists i :: 0 < i <= |lines| && k == |WrapLines(lines[..i], width).result| - 1
  }

  lemma {:induction false} WrapLinesClose(lines: seq<seq<Item>>, width: nat)
    requires forall k :: 0 <= k < |lines| ==> WellFormed(lines[k])
    ensures var rows := WrapLines(lines, width).result;
      forall k :: 0 <= k < |rows| ==> EndsClosed(rows[k]) || LastOfItsLine(lines, width, k)
  {
    hide EndsClosed, WellFormed, WrapSingleLine, Reachable, ActiveItems, StyleAfter, Cells, DropsOnlySpace, LinesCells;
    if lines != [] {
      var init, line := lines[..|lines| - 1], lines[|lines| - 1];
      WrapLinesClose(init, width);
      var before := WrapLines(init, width);
      WrapLinesKeep(init, width);
      PrefixedLine(before, line);
      var prefix := if before.result != [] then ActiveItems(before.style) else [];
      var added := WrapSingleLine(prefix + line, width);
      WrapSingleLineCloses(prefix + line, width);
      var rows := WrapLines(lines, width).result;
      assert rows == before.result + added;
      forall k | 0 <= k < |rows| ensures EndsClosed(rows[k]) || LastOfItsLine(lines, width, k) {
        if k < |before.result| {
          if LastOfItsLine(init, width, k) {
            var i :| 0 < i <= |init| && k == |WrapLines(init[..i], width).result| - 1;
            assert lines[..i] == init[..i];
          }
        } else if k < |rows| - 1 {
          assert rows[k] == added[..|added| - 1][k - |before.result|];
        } else {
          assert lines[..|lines|] == lines;
        }
      }
    }
  }

  /** Every row of a wrapped text but the last of its input line ends with neither underline nor an open hyperlink. */
  lemma {:induction false} WrapTextCloses(text: seq<Item>, width: nat)
    requires WellFormed(text)
    ensures var rows := WrapText(text, width);
      forall k :: 0 <= k < |rows| ==> EndsClosed(rows[k]) || LastOfItsLine(SplitLines(text), width, k)
  {
    hide LastOfItsLine;
    SplitLinesGood(text);
    WrapLinesClose(SplitLines(text), width);
  }
}
