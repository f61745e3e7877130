/** When wrapped lines fit. */
module WrapFits {
  import opened StyledText
  import opened TextWrap
  import opened WrapMeaning
  import opened WrapFitSteps
  import opened WrapWide

  /** No code is put behind white space that is too wide while the line is wrapped. */
  predicate LineTrims(line: seq<Item>, width: nat) { Width(line) <= width || !Sticks(Tokens(line), width) }

  /** The lines of one wrapped line fit exactly when no grapheme but white space is wider than a line, and no code
      is put behind white space that is too wide. */
  lemma {:induction false} WrapSingleLineFits(line: seq<Item>, width: nat)
    requires WellFormed(line)
    ensures LinesFit(WrapSingleLine(line, width), width) <==> SolidFits(line, width) && LineTrims(line, width)
  {
    hide Tokens, Sticks, WellFormed, SolidFits, WrapTokens;
    if !SolidFits(line, width) {
      WideLineOverflows(line, width);
    } else if Width(line) > width {
      TokensAreGood(line);
      TokensSolid(line, width);
      WrapTokensFit(Tokens(line), width);
      FinishedLinesFit(WrapTokens(Tokens(line), width), width);
    }
  }

  lemma {:induction false} FinishedLinesFit(st: WrapState, width: nat)
    ensures var lines := AllLines(st);
      LinesFit(if lines == [] then [[]] else TrimLines(lines), width) <==>
        LinesFit(TrimLines(st.wrapped), width) && Width(TrimEnd(st.current)) <= width
  {
    hide TrimEnd;
    NothingTrims();
    TrimConcat(st.wrapped, [st.current], width);
    TrimOne(st.current, width);
  }

  lemma {:induction false} SpacesTrim(line: seq<Item>, width: nat)
    requires WellFormed(line) && GraphemesFit(line, width) && OnlySpaces(line)
    ensures LineTrims(line, width)
  {
    hide Tokens, Sticks, WellFormed;
    TokensAreGood(line);
    TokensFit(line, width);
    TokensAlternate(line);
    TokensOnlySpaces(line);
    if |Tokens(line)| > 1 {
      SpacesNeverStick(Tokens(line), width);
    } else {
      OneTokenFits(Tokens(line), width);
    }
  }

  // ---- whole texts ----

  /** The line that wrapSingleLine gets to see: the input line behind the codes still active. */
  function PrefixedInput(st: TextState, line: seq<Item>): seq<Item> {
    (if st.result != [] then ActiveItems(st.style) else []) + line
  }

  predicate NoneSticks(lines: seq<seq<Item>>, width: nat) {
    lines == [] ||
    var last := |lines| - 1;
    && NoneSticks(lines[..last], width)
    && LineTrims(PrefixedInput(WrapLines(lines[..last], width), lines[last]), width)
  }

  lemma {:induction false} PrefixedInputGood(lines: seq<seq<Item>>, line: seq<Item>, width: nat)
    requires forall k :: 0 <= k < |lines| ==> WellFormed(lines[k])
    requires WellFormed(line)
    ensures var input := PrefixedInput(WrapLines(lines, width), line);
      && WellFormed(input)
      && (SolidFits(input, width) <==> SolidFits(line, width))
      && (GraphemesFit(line, width) ==> GraphemesFit(input, width))
      && (OnlySpaces(line) ==> OnlySpaces(input))
  {
    hide WrapLines, WellFormed, SolidFits, GraphemesFit, OnlySpaces, ActiveItems, OnlyCodes;
    WrapLinesKeep(lines, width);
    var st := WrapLines(lines, width);
    PrefixedLine(st, line);
    var prefix := if st.result != [] then ActiveItems(st.style) else [];
    assert OnlyCodes(prefix) by { NothingIsCodes(); }
    CodesInFront(prefix, line, width);
  }

  lemma {:induction false} NothingIsCodes()
    ensures OnlyCodes([])
  {
  }

  lemma {:induction false} CodesInFront(codes: seq<Item>, line: seq<Item>, width: nat)
    requires OnlyCodes(codes)
    ensures SolidFits(codes + line, width) <==> SolidFits(line, width)
    ensures GraphemesFit(line, width) ==> GraphemesFit(codes + line, width)
    ensures OnlySpaces(line) ==> OnlySpaces(codes + line)
  {
    hide SolidFits;
    SolidConcat(codes, line, width);
    CodesAreSolid(codes, width);
  }

  lemma {:induction false} CodesAreSolid(items: seq<Item>, width: nat)
    requires OnlyCodes(items)
    ensures SolidFits(items, width)
  {
  }

  lemma {:induction false} WrapLinesStep(lines: seq<seq<Item>>, width: nat)
    requires lines != []
    ensures var st := WrapLines(lines[..|lines| - 1], width);
      WrapLines(lines, width).result == st.result + WrapSingleLine(PrefixedInput(st, lines[|lines| - 1]), width)
  {
    hide WrapSingleLine, ActiveItems;
  }

  predicate AllSolid(lines: seq<seq<Item>>, width: nat) { forall k :: 0 <= k < |lines| ==> SolidFits(lines[k], width) }

  lemma {:induction false} WrapLinesFit(lines: seq<seq<Item>>, width: nat)
    requires forall k :: 0 <= k < |lines| ==> WellFormed(lines[k])
    ensures LinesFit(WrapLines(lines, width).result, width) <==> AllSolid(lines, width) && NoneSticks(lines, width)
  {
    hide WrapSingleLine, PrefixedInput, LinesFit, LineTrims, NoneSticks, AllSolid, SolidFits, WellFormed;
    if lines == [] {
      NothingToWrapFits(width);
    } else {
      WrapLastFits(lines[..|lines| - 1], lines[|lines| - 1], width);
      WrapLinesStep(lines, width);
      WrapLinesFit(lines[..|lines| - 1], width);
      NoneSticksStep(lines, width);
    }
  }

  lemma {:induction false} NothingToWrapFits(width: nat)
    ensures LinesFit(WrapLines([], width).result, width) && NoneSticks([], width) && AllSolid([], width)
  {
  }

  lemma {:induction false} NoneSticksStep(lines: seq<seq<Item>>, width: nat)
    requires lines != []
    ensures var init, last := lines[..|lines| - 1], lines[|lines| - 1];
      && (NoneSticks(lines, width) <==>
            NoneSticks(init, width) && LineTrims(PrefixedInput(WrapLines(init, width), last), width))
      && (AllSolid(lines, width) <==> AllSolid(init, width) && SolidFits(last, width))
  {
    hide LineTrims, PrefixedInput, WrapLines, SolidFits;
    var init := lines[..|lines| - 1];
    assert forall k :: 0 <= k < |init| ==> init[k] == lines[k];
  }

  lemma {:induction false} WrapLastFits(init: seq<seq<Item>>, last: seq<Item>, width: nat)
    requires forall k :: 0 <= k < |init| ==> WellFormed(init[k])
    requires WellFormed(last)
    ensures var st := WrapLines(init, width);
      LinesFit(st.result + WrapSingleLine(PrefixedInput(st, last), width), width) <==>
        LinesFit(st.result, width) && SolidFits(last, width) && LineTrims(PrefixedInput(st, last), width)
  {
    hide WrapSingleLine, LineTrims, PrefixedInput, LinesFit, WrapLines, WellFormed, GraphemesFit, SolidFits, OnlySpaces;
    var st := WrapLines(init, width);
    PrefixedInputGood(init, last, width);
    WrapSingleLineFits(PrefixedInput(st, last), width);
    FitConcat(st.result, WrapSingleLine(PrefixedInput(st, last), width), width);
  }

  /** Every line of a wrapped text fits exactly when no grapheme but white space is wider than a line, and in no
      input line a code is put behind white space that is too wide. */
  lemma {:induction false} WrapTextFits(text: seq<Item>, width: nat)
    requires WellFormed(text)
    ensures LinesFit(WrapText(text, width), width) <==> SolidFits(text, width) && NoneSticks(SplitLines(text), width)
  {
    hide LinesFit, NoneSticks, SolidFits, WellFormed;
    SplitLinesGood(text);
    SplitLinesSolid(text, width);
    WrapLinesFit(SplitLines(text), width);
    if text == [] { NothingWraps(width); }
  }

  lemma {:induction false} SplitLinesSolid(text: seq<Item>, width: nat)
    ensures AllSolid(SplitLines(text), width) <==> SolidFits(text, width)
  {
    if text != [] {
      var init, item := text[..|text| - 1], text[|text| - 1];
      var before := SplitLines(init);
      var last := |before| - 1;
      SplitLinesSolid(init, width);
      assert text == init + [item];
      SolidConcat(init, [item], width);
      SolidConcat(before[last], [item], width);
      SolidLast(before, before[last] + [item], width);
      assert forall k :: 0 <= k < |before| ==> (before + [[]])[k] == before[k];
    }
  }

  lemma {:induction false} SolidLast(lines: seq<seq<Item>>, line: seq<Item>, width: nat)
    requires lines != []
    ensures var last := |lines| - 1;
      AllSolid(lines[last := line], width) <==> AllSolid(lines[..last], width) && SolidFits(line, width)
    ensures var last := |lines| - 1; AllSolid(lines, width) <==> AllSolid(lines[..last], width) && SolidFits(lines[last], width)
  {
    hide SolidFits;
    var last := |lines| - 1;
    var after := lines[last := line];
    assert forall k :: 0 <= k < last ==> after[k] == lines[k] == lines[..last][k];
    assert after[last] == line;
  }

  // ---- ordinary text ----

  lemma {:induction false} SplitLinesFit(text: seq<Item>, width: nat)
    requires GraphemesFit(text, width)
    ensures forall k :: 0 <= k < |SplitLines(text)| ==> GraphemesFit(SplitLines(text)[k], width)
  {
    if text != [] { SplitLinesFit(text[..|text| - 1], width); }
  }

  predicate Ordinary(text: seq<Item>) {
    forall k :: 0 <= k < |text| && text[k] != Glyph(NEWLINE) ==> OnlySpaces([text[k]])
  }

  lemma {:induction false} SplitLinesOnlySpaces(text: seq<Item>)
    requires Ordinary(text)
    ensures forall k :: 0 <= k < |SplitLines(text)| ==> OnlySpaces(SplitLines(text)[k])
  {
    if text != [] {
      SplitLinesOnlySpaces(text[..|text| - 1]);
      var item := text[|text| - 1];
      assert [item][0] == item;
    }
  }

  lemma {:induction false} OrdinaryGraphemesFit(text: seq<Item>, width: nat)
    requires Ordinary(text) && width > 0 && SolidFits(text, width)
    ensures GraphemesFit(text, width)
  {
    forall k | 0 <= k < |text| && text[k].Glyph? ensures text[k].g.width <= width {
      if text[k] != Glyph(NEWLINE) { assert OnlySpaces([text[k]]) && [text[k]][0] == text[k]; }
    }
  }

  lemma {:induction false} OrdinaryLineTrims(lines: seq<seq<Item>>, line: seq<Item>, width: nat)
    requires forall k :: 0 <= k < |lines| ==> WellFormed(lines[k])
    requires WellFormed(line) && GraphemesFit(line, width) && OnlySpaces(line)
    ensures LineTrims(PrefixedInput(WrapLines(lines, width), line), width)
  {
    hide WrapLines, WellFormed, GraphemesFit, OnlySpaces, PrefixedInput, LineTrims, SolidFits;
    PrefixedInputGood(lines, line, width);
    SpacesTrim(PrefixedInput(WrapLines(lines, width), line), width);
  }

  lemma {:induction false} OrdinaryLinesTrim(lines: seq<seq<Item>>, width: nat)
    requires forall k :: 0 <= k < |lines| ==> WellFormed(lines[k]) && GraphemesFit(lines[k], width) && OnlySpaces(lines[k])
    ensures NoneSticks(lines, width)
  {
    hide LineTrims, PrefixedInput, WrapLines;
    if lines != [] {
      var last := |lines| - 1;
      OrdinaryLinesTrim(lines[..last], width);
      OrdinaryLineTrims(lines[..last], lines[last], width);
    }
  }

  /**
   * On lines of at least one column, text whose graphemes all take at least one column, and whose only whitespace is
   * spaces and newlines, is wrapped to lines that fit exactly when no grapheme is wider than a line. WrapOverflow shows
   * what goes wrong with other graphemes and other whitespace.
   */
  lemma {:induction false} OrdinaryTextFits(text: seq<Item>, width: nat)
    requires WellFormed(text) && Ordinary(text) && width > 0
    ensures LinesFit(WrapText(text, width), width) <==> SolidFits(text, width)
  {
    hide LinesFit, NoneSticks, SolidFits, WellFormed, OnlySpaces, GraphemesFit, Ordinary, SplitLines;
    WrapTextFits(text, width);
    if SolidFits(text, width) {
      OrdinaryGraphemesFit(text, width);
      SplitLinesGood(text);
      SplitLinesFit(text, width);
      SplitLinesOnlySpaces(text);
      OrdinaryLinesTrim(SplitLines(text), width);
    }
  }
}
