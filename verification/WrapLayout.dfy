/** Where wrapped lines are broken. */
module WrapLayout {
  // Rows are stretches of the line, broken only where the next token, or grapheme of a broken word, is too much.
  import opened AnsiCodes
  import opened AnsiParams
  import opened AnsiTexts
  import opened StyledText
  import opened TextWrap
  import opened WrapMeaning
  import opened WrapBreaks

  // ---- told from the line and the rows ----

  /** The items [from, to) of a line. */
  datatype Span = Span(from: nat, to: nat)

  function StyleAt(line: seq<Item>, p: nat): Style
    requires p <= |line|
  {
    StyleAfter(PLAIN, line[..p])
  }

  /** The row shows the stretch in the styles it has in the line, less white space at its end. */
  ghost predicate Drawn(row: seq<Item>, line: seq<Item>, sp: Span) {
    && sp.from <= sp.to <= |line|
    && var cells, shown := Cells(StyleAt(line, sp.from), line[sp.from..sp.to]), Cells(PLAIN, row);
      shown <= cells && forall k :: |shown| <= k < |cells| ==> cells[k].g.space
  }

  /** What would have to join a row that ends at p: the next token, or inside a word the next item. */
  function Unit(line: seq<Item>, p: nat): seq<Item>
    requires p < |line|
  {
    if p == 0 || Boundary(line, p) then line[p..TokenEnd(line, p)] else [line[p]]
  }

  /** With what comes next the row would be too wide. */
  predicate Full(line: seq<Item>, sp: Span, width: nat) {
    sp.from <= sp.to < |line| && Width(line[sp.from..sp.to]) + Width(Unit(line, sp.to)) > width
  }

  /** The next row begins where one ended, or behind one token of white space. */
  predicate Follows(line: seq<Item>, to: nat, from: nat) {
    && to <= from <= |line|
    && (from == to
        || ((to == 0 || Boundary(line, to)) && from == TokenEnd(line, to) && IsWhitespace(line[to..from])))
  }

  /** A style is active where a row begins, and the row before it was followed by white space. */
  ghost predicate StyledGap(line: seq<Item>, from: nat) {
    0 < from <= |line| && IsSpaceItem(line[from - 1]) && ActiveItems(StyleAt(line, from)) != []
  }

  /** Why a row may be without graphemes: the next one is wider than a line by itself, or active codes stood alone. */
  ghost predicate MayBeBare(line: seq<Item>, sp: Span, width: nat) {
    && sp.from <= sp.to <= |line|
    && ((sp.to < |line| && line[sp.to].Glyph? && line[sp.to].g.width > width) || StyledGap(line, sp.from))
  }

  predicate IsBare(line: seq<Item>, sp: Span) { sp.from <= sp.to <= |line| && OnlyCodes(line[sp.from..sp.to]) }

  // ---- a row under construction ----

  /** The current row holds the stretch [start, pos) so far. */
  ghost predicate Here(current: seq<Item>, style: Style, visible: nat, line: seq<Item>, start: nat, pos: nat) {
    && start <= pos <= |line| && style == StyleAt(line, pos) && Reachable(style)
    && StyleAfter(PLAIN, current) == style && Cells(PLAIN, current) == Cells(StyleAt(line, start), line[start..pos])
    && visible == Width(line[start..pos]) == Width(current)
  }

  lemma {:induction false} HereFresh(style: Style, line: seq<Item>, pos: nat)
    requires pos <= |line| && style == StyleAt(line, pos) && Reachable(style)
    ensures Here(ActiveItems(style), style, 0, line, pos, pos)
  {
    ActiveItemsRestore(style);
    assert line[pos..pos] == [];
  }

  /** More items join the row. */
  lemma {:induction false} HereMore(current: seq<Item>, style: Style, visible: nat, line: seq<Item>, start: nat,
    pos: nat, to: nat)
    requires Here(current, style, visible, line, start, pos) && pos <= to <= |line| && WellFormed(line)
    ensures var more := line[pos..to];
      Here(current + more, StyleAfter(style, more), visible + Width(more), line, start, to)
  {
    hide Process, Reachable, Cells, Width, StyleAfter;
    var more := line[pos..to];
    assert line[..to] == line[..pos] + more && line[start..to] == line[start..pos] + more;
    assert line[..pos] == line[..start] + line[start..pos];
    StyleConcat(PLAIN, line[..pos], more);
    StyleConcat(PLAIN, line[..start], line[start..pos]);
    CellsConcat(StyleAt(line, start), line[start..pos], more);
    WidthConcat(line[start..pos], more);
    StyleConcat(PLAIN, current, more);
    CellsConcat(PLAIN, current, more);
    WidthConcat(current, more);
    assert WellFormed(more);
    ReachableAfter(style, more);
  }

  /** The row is closed: what it shows is drawn, with a reset behind it, trimmed or not. */
  lemma {:induction false} HereDrawn(current: seq<Item>, style: Style, visible: nat, line: seq<Item>, start: nat,
    pos: nat)
    requires Here(current, style, visible, line, start, pos)
    ensures Drawn(current + ResetItems(style), line, Span(start, pos))
    ensures Drawn(TrimEnd(current) + ResetItems(style), line, Span(start, pos))
    ensures Drawn(current, line, Span(start, pos))
  {
    hide Cells, ResetItems, TrimEnd, Reachable, StyleAfter;
    ResetIsInvisible(current, style);
    ResetIsInvisible(TrimEnd(current), style);
    TrimCells(PLAIN, current);
  }

  lemma {:induction false} TrimCells(s: Style, items: seq<Item>)
    ensures var cells, shown := Cells(s, items), Cells(s, TrimEnd(items));
      shown <= cells && forall k :: |shown| <= k < |cells| ==> cells[k].g.space
  {
    hide Cells, TrimEnd, StyleAfter;
    var kept := TrimEnd(items);
    var gone := items[|kept|..];
    assert items == kept + gone;
    CellsConcat(s, kept, gone);
    SpaceCells(StyleAfter(s, kept), gone);
    forall k | |Cells(s, kept)| <= k < |Cells(s, items)| ensures Cells(s, items)[k].g.space {
      assert Cells(s, items)[k] == Cells(StyleAfter(s, kept), gone)[k - |Cells(s, kept)|];
    }
  }

  lemma {:induction false} TrimmedDrawn(row: seq<Item>, line: seq<Item>, sp: Span)
    requires Drawn(row, line, sp)
    ensures Drawn(TrimEnd(row), line, sp)
  {
    hide Cells, TrimEnd, StyleAfter;
    TrimCells(PLAIN, row);
  }

  // ---- rows that are finished ----

  /** Every row is drawn, full, and not without graphemes for nothing. */
  ghost predicate RowsTold(rows: seq<seq<Item>>, spans: seq<Span>, line: seq<Item>, width: nat) {
    && |rows| == |spans|
    && forall j :: 0 <= j < |rows| ==>
         Drawn(rows[j], line, spans[j]) && Full(line, spans[j], width)
         && (IsBare(line, spans[j]) ==> MayBeBare(line, spans[j], width))
  }

  /** The rows follow each other from position `first` on, and the next begins at `start`. */
  predicate Chained(spans: seq<Span>, line: seq<Item>, first: nat, start: nat) {
    if spans == [] then start == first
    else
      && spans[0].from == first && Follows(line, spans[|spans| - 1].to, start)
      && forall j :: 0 <= j < |spans| - 1 ==> Follows(line, spans[j].to, spans[j + 1].from)
  }

  lemma {:induction false} RowsNext(rows: seq<seq<Item>>, spans: seq<Span>, line: seq<Item>, width: nat,
    row: seq<Item>, sp: Span)
    requires RowsTold(rows, spans, line, width) && Drawn(row, line, sp) && Full(line, sp, width)
    requires IsBare(line, sp) ==> MayBeBare(line, sp, width)
    ensures RowsTold(rows + [row], spans + [sp], line, width)
  {
    hide Drawn, Full, IsBare, MayBeBare;
  }

  lemma {:induction false} RowsConcat(a: seq<seq<Item>>, x: seq<Span>, b: seq<seq<Item>>, y: seq<Span>,
    line: seq<Item>, width: nat)
    requires RowsTold(a, x, line, width) && RowsTold(b, y, line, width)
    ensures RowsTold(a + b, x + y, line, width)
  {
    hide Drawn, Full, IsBare, MayBeBare;
  }

  lemma {:induction false} ChainNext(spans: seq<Span>, line: seq<Item>, first: nat, sp: Span, start: nat)
    requires Chained(spans, line, first, sp.from) && Follows(line, sp.to, start)
    ensures Chained(spans + [sp], line, first, start)
  {
    hide Follows;
    var all := spans + [sp];
    assert forall j :: 0 <= j < |spans| ==> all[j] == spans[j];
  }

  lemma {:induction false} ChainConcat(x: seq<Span>, y: seq<Span>, line: seq<Item>, first: nat, middle: nat, start: nat)
    requires Chained(x, line, first, middle) && Chained(y, line, middle, start)
    ensures Chained(x + y, line, first, start)
  {
    hide Follows;
    var all := x + y;
    assert forall j :: 0 <= j < |x| ==> all[j] == x[j];
    assert forall j :: 0 <= j < |y| ==> all[|x| + j] == y[j];
  }

  // ---- long words ----

  /** The stretch [a, end) is a token that is wider than a line. */
  predicate LongToken(line: seq<Item>, a: nat, end: nat, width: nat) {
    && a < end <= |line| && (a == 0 || Boundary(line, a)) && TokenEnd(line, a) == end
    && Width(line[a..end]) > width
  }

  ghost predicate PiecesTold(st: BreakState, spans: seq<Span>, start: nat, line: seq<Item>, a: nat, pos: nat, width: nat) {
    && RowsTold(st.lines, spans, line, width) && Chained(spans, line, a, start) && a <= start
    && Here(st.current, st.style, st.width, line, start, pos)
    && (IsBare(line, Span(start, pos)) ==> start == a)
  }

  lemma {:induction false} CodesHaveNoWidth(line: seq<Item>, from: nat, to: nat)
    requires from <= to <= |line| && OnlyCodes(line[from..to])
    ensures Width(line[from..to]) == 0
  {
    CodesAreInvisible(PLAIN, line[from..to]);
  }

  lemma {:induction false} OneMore(line: seq<Item>, pos: nat, s: Style)
    requires pos < |line|
    ensures line[pos..pos + 1] == [line[pos]]
    ensures Width([line[pos]]) == if line[pos].Glyph? then line[pos].g.width else 0
    ensures StyleAfter(s, [line[pos]]) == if line[pos].Ansi? then Process(s, line[pos].code) else s
  {
    OneItem(s, line[pos]);
  }

  lemma {:induction false} BareNext(line: seq<Item>, start: nat, pos: nat)
    requires start <= pos < |line|
    ensures IsBare(line, Span(start, pos + 1)) <==> IsBare(line, Span(start, pos)) && line[pos].Ansi?
  {
    assert line[start..pos + 1] == line[start..pos] + [line[pos]];
    assert line[start..pos + 1][pos - start] == line[pos];
    assert forall k :: 0 <= k < pos - start ==> line[start..pos + 1][k] == line[start..pos][k];
  }

  /** A piece is closed in front of a grapheme that is too much for it. */
  lemma {:induction false} PieceCloses(st: BreakState, spans: seq<Span>, start: nat, line: seq<Item>, a: nat, pos: nat,
      end: nat, width: nat)
    requires PiecesTold(st, spans, start, line, a, pos, width) && LongToken(line, a, end, width) && a <= pos < end
    requires line[pos].Glyph? && st.width + line[pos].g.width > width
    ensures var sp := Span(start, pos);
      RowsTold(st.lines + [st.current + ResetItems(st.style)], spans + [sp], line, width)
      && Chained(spans + [sp], line, a, pos)
  {
    hide Boundary, Reachable, Cells, Process, ResetItems, ActiveItems, StyleAfter, Drawn, RowsTold, Chained;
    var sp := Span(start, pos);
    HereDrawn(st.current, st.style, st.width, line, start, pos);
    OneMore(line, pos, st.style);
    assert pos > a ==> !Boundary(line, pos);
    if pos == a { assert line[start..pos] == [] && Width([]) == 0; }
    assert Full(line, sp, width);
    if IsBare(line, sp) { CodesHaveNoWidth(line, start, pos); }
    RowsNext(st.lines, spans, line, width, st.current + ResetItems(st.style), sp);
    ChainNext(spans, line, a, sp, pos);
  }

  lemma {:induction false} PieceStep(st: BreakState, spans: seq<Span>, start: nat, line: seq<Item>, a: nat, pos: nat,
      end: nat, width: nat) returns (spans': seq<Span>, start': nat)
    requires PiecesTold(st, spans, start, line, a, pos, width) && LongToken(line, a, end, width) && a <= pos < end
    requires WellFormed(line)
    ensures PiecesTold(BreakItem(st, line[pos], width), spans', start', line, a, pos + 1, width)
  {
    hide Boundary, Reachable, Cells, Process, ResetItems, ActiveItems, StyleAfter, Drawn, RowsTold, Chained, WellFormed;
    spans', start' := spans, start;
    var item := line[pos];
    OneMore(line, pos, st.style);
    BareNext(line, start, pos);
    if item.Glyph? && st.width + item.g.width > width {
      PieceCloses(st, spans, start, line, a, pos, end, width);
      spans', start' := spans + [Span(start, pos)], pos;
      HereFresh(st.style, line, pos);
      HereMore(ActiveItems(st.style), st.style, 0, line, pos, pos, pos + 1);
      BareNext(line, pos, pos);
    } else {
      HereMore(st.current, st.style, st.width, line, start, pos, pos + 1);
    }
  }

  lemma {:induction false} PiecesAreTold(line: seq<Item>, a: nat, pos: nat, end: nat, width: nat)
    returns (spans: seq<Span>, start: nat)
    requires LongToken(line, a, end, width) && a <= pos <= end && WellFormed(line) && Reachable(StyleAt(line, a))
    ensures PiecesTold(BreakItems(line[a..pos], width, StyleAt(line, a)), spans, start, line, a, pos, width)
  {
    hide PiecesTold, BreakItem, BreakItems, Boundary, TokenEnd, Width, Reachable, WellFormed, StyleAfter;
    if pos == a {
      spans, start := [], a;
      NoPieceTold(line, a, width);
    } else {
      var s := StyleAt(line, a);
      spans, start := PiecesAreTold(line, a, pos - 1, end, width);
      assert line[a..pos] == line[a..pos - 1] + [line[pos - 1]];
      BreakNext(line[a..pos - 1], line[pos - 1], width, s);
      spans, start := PieceStep(BreakItems(line[a..pos - 1], width, s), spans, start, line, a, pos - 1, end, width);
    }
  }

  lemma {:induction false} BreakNext(word: seq<Item>, item: Item, width: nat, s: Style)
    ensures BreakItems(word + [item], width, s) == BreakItem(BreakItems(word, width, s), item, width)
  {
    assert (word + [item])[..|word|] == word;
  }

  lemma {:induction false} NoPieceTold(line: seq<Item>, a: nat, width: nat)
    requires a <= |line| && Reachable(StyleAt(line, a))
    ensures PiecesTold(BreakItems(line[a..a], width, StyleAt(line, a)), [], a, line, a, a, width)
  {
    assert line[a..a] == [];
    HereFresh(StyleAt(line, a), line, a);
  }

  // ---- tokens ----

  ghost predicate LinesTold(st: WrapState, spans: seq<Span>, start: nat, line: seq<Item>, pos: nat, width: nat) {
    && RowsTold(st.wrapped, spans, line, width) && Chained(spans, line, 0, start)
    && Here(st.current, st.style, st.visible, line, start, pos)
    && (st.current == [] ==> start == pos)
    && (IsBare(line, Span(start, pos)) ==>
          start == pos && (st.current == [] || (st.current == ActiveItems(st.style) && StyledGap(line, start))))
  }

  /** The stretch [a, end) is a token with a grapheme. */
  predicate IsToken(line: seq<Item>, a: nat, end: nat) {
    a < end <= |line| && (a == 0 || Boundary(line, a)) && TokenEnd(line, a) == end && HasGlyph(line[a..end])
  }

  lemma {:induction false} NotBare(line: seq<Item>, start: nat, a: nat, end: nat)
    requires start <= a < end <= |line| && HasGlyph(line[a..end])
    ensures !IsBare(line, Span(start, end))
  {
    var k :| 0 <= k < end - a && line[a..end][k].Glyph?;
    assert line[start..end][a - start + k] == line[a..end][k];
  }

  /** The current line, if there is one, is closed in front of a token that has to be broken. */
  lemma {:induction false} LineCloses(st: WrapState, spans: seq<Span>, start: nat, line: seq<Item>, a: nat, end: nat,
    width: nat)
    returns (spans': seq<Span>)
    requires LinesTold(st, spans, start, line, a, width) && IsToken(line, a, end) && Width(line[a..end]) > width
    ensures var flushed := if st.current != [] then st.wrapped + [st.current + ResetItems(st.style)] else st.wrapped;
      RowsTold(flushed, spans', line, width) && Chained(spans', line, 0, a)
  {
    hide Boundary, Reachable, Cells, Process, ResetItems, ActiveItems, StyleAfter, Drawn, RowsTold, Chained;
    spans' := spans;
    if st.current != [] {
      var sp := Span(start, a);
      spans' := spans + [sp];
      HereDrawn(st.current, st.style, st.visible, line, start, a);
      RowsNext(st.wrapped, spans, line, width, st.current + ResetItems(st.style), sp);
      ChainNext(spans, line, 0, sp, a);
    }
  }

  lemma {:induction false} LongTokenTold(st: WrapState, spans: seq<Span>, start: nat, line: seq<Item>, a: nat,
    end: nat, width: nat)
    returns (spans': seq<Span>, start': nat)
    requires LinesTold(st, spans, start, line, a, width) && IsToken(line, a, end) && Width(line[a..end]) > width
    requires WellFormed(line)
    ensures LinesTold(WrapLongToken(st, line[a..end], width), spans', start', line, end, width)
  {
    hide Boundary, Reachable, Cells, Process, ResetItems, ActiveItems, StyleAfter, Drawn, RowsTold, Chained, WellFormed,
      HasGlyph, Width;
    var token := line[a..end];
    var flushed := if st.current != [] then st.wrapped + [st.current + ResetItems(st.style)] else st.wrapped;
    var closed := LineCloses(st, spans, start, line, a, end, width);
    var pieces;
    pieces, start' := PiecesAreTold(line, a, end, end, width);
    spans' := closed + pieces;
    var b := BreakItems(token, width, st.style);
    LastPiece(token, width, st.style);
    var broken := BrokenLines(b);
    assert broken[..|broken| - 1] == b.lines && broken[|broken| - 1] == b.current;
    RowsConcat(flushed, closed, b.lines, pieces, line, width);
    ChainConcat(closed, pieces, line, 0, a, start');
    NotBare(line, a, a, end);
  }

  lemma {:induction false} ShortTokenTold(st: WrapState, spans: seq<Span>, start: nat, line: seq<Item>, a: nat,
    end: nat, width: nat)
    returns (spans': seq<Span>, start': nat)
    requires LinesTold(st, spans, start, line, a, width) && IsToken(line, a, end)
    requires Width(line[a..end]) <= width || IsWhitespace(line[a..end])
    requires WellFormed(line)
    ensures LinesTold(WrapToken(st, line[a..end], width), spans', start', line, end, width)
  {
    hide Boundary, Reachable, Cells, Process, ResetItems, ActiveItems, StyleAfter, Drawn, RowsTold, Chained, WellFormed,
      HasGlyph, Width, TrimEnd;
    var token := line[a..end];
    spans', start' := spans, start;
    if st.visible + Width(token) > width && st.visible > 0 {
      var sp := Span(start, a);
      HereDrawn(st.current, st.style, st.visible, line, start, a);
      if IsBare(line, sp) { CodesHaveNoWidth(line, start, a); }
      RowsNext(st.wrapped, spans, line, width, TrimEnd(st.current) + ResetItems(st.style), sp);
      spans' := spans + [sp];
      if IsWhitespace(token) {
        start' := end;
        ChainNext(spans, line, 0, sp, end);
        SpaceCells(st.style, token);
        SameStyle(line, a, end);
        HereFresh(st.style, line, end);
        assert token[end - a - 1] == line[end - 1];
      } else {
        start' := a;
        ChainNext(spans, line, 0, sp, a);
        HereFresh(st.style, line, a);
        HereMore(ActiveItems(st.style), st.style, 0, line, a, a, end);
        NotBare(line, a, a, end);
      }
    } else {
      HereMore(st.current, st.style, st.visible, line, start, a, end);
      NotBare(line, start, a, end);
    }
  }

  lemma {:induction false} SameStyle(line: seq<Item>, a: nat, end: nat)
    requires a <= end <= |line| && IsWhitespace(line[a..end])
    ensures StyleAt(line, end) == StyleAt(line, a)
  {
    assert line[..end] == line[..a] + line[a..end];
    StyleConcat(PLAIN, line[..a], line[a..end]);
    SpaceCells(StyleAt(line, a), line[a..end]);
  }

  lemma {:induction false} TokensTold(line: seq<Item>, k: nat, width: nat) returns (spans: seq<Span>, start: nat)
    requires WellFormed(line) && HasGlyph(line) && k <= |Tokens(line)|
    ensures Offset(Tokens(line), k) <= |line|
    ensures LinesTold(WrapTokens(Tokens(line)[..k], width), spans, start, line, Offset(Tokens(line), k), width)
  {
    hide LinesTold, Tokens, WrapToken, HasGlyph, WellFormed, Offset, Boundary;
    var tokens := Tokens(line);
    if k == 0 {
      spans, start := [], 0;
      NoTokenTold(line, width);
      FirstOffset(tokens);
      assert tokens[..0] == [];
    } else {
      spans, start := TokensTold(line, k - 1, width);
      TokenSpan(line, k - 1);
      var a, end := Offset(tokens, k - 1), Offset(tokens, k);
      var st := WrapTokens(tokens[..k - 1], width);
      assert tokens[..k][..k - 1] == tokens[..k - 1] && tokens[..k][k - 1] == line[a..end];
      if Width(line[a..end]) > width && !IsWhitespace(line[a..end]) {
        spans, start := LongTokenTold(st, spans, start, line, a, end, width);
        assert WrapToken(st, line[a..end], width) == WrapLongToken(st, line[a..end], width) by {
          LongIsLong(st, line[a..end], width);
        }
      } else {
        spans, start := ShortTokenTold(st, spans, start, line, a, end, width);
      }
    }
  }

  lemma {:induction false} LongIsLong(st: WrapState, token: seq<Item>, width: nat)
    requires Width(token) > width && !IsWhitespace(token)
    ensures WrapToken(st, token, width) == WrapLongToken(st, token, width)
  {
  }

  lemma {:induction false} NoTokenTold(line: seq<Item>, width: nat)
    ensures LinesTold(WrapTokens([], width), [], 0, line, 0, width)
  {
    PlainIsReachable();
    assert line[..0] == [] && line[0..0] == [];
  }

  // ---- whole lines ----

  /** The rows lie one behind the other in the line; all but the last are full. */
  ghost predicate LaidOut(rows: seq<seq<Item>>, spans: seq<Span>, line: seq<Item>, width: nat) {
    && |rows| == |spans| > 0 && Chained(spans, line, 0, |line|)
    && (forall j :: 0 <= j < |rows| ==> Drawn(rows[j], line, spans[j]))
    && (forall j :: 0 <= j < |rows| - 1 ==>
          Full(line, spans[j], width) && (IsBare(line, spans[j]) ==> MayBeBare(line, spans[j], width)))
    && (IsBare(line, spans[|rows| - 1]) ==> OnlyCodes(line) || MayBeBare(line, spans[|rows| - 1], width))
  }

  /**
   * A line that fits is one row. A wider one is broken only where it must be: each row but the last would be too wide
   * with the next token, the white space dropped behind it, or inside a broken word the next grapheme.
   */
  lemma {:induction false} WrapSingleLineLaysOut(line: seq<Item>, width: nat) returns (spans: seq<Span>)
    requires WellFormed(line)
    ensures LaidOut(WrapSingleLine(line, width), spans, line, width)
    ensures Width(line) <= width ==> WrapSingleLine(line, width) == [line]
  {
    hide Tokens, Cells, Boundary, WrapTokens, Drawn, StyleAfter, TrimEnd, Width;
    if line == [] || Width(line) <= width {
      spans := [Span(0, |line|)];
      WholeLineDrawn(line);
    } else {
      WideHasGlyph(line, width);
      var start;
      spans, start := TokensTold(line, |Tokens(line)|, width);
      TokensKeepItems(line);
      AllTokens(Tokens(line));
      var st := WrapTokens(Tokens(line), width);
      spans := FinishedRows(st, spans, start, line, width);
    }
  }

  lemma {:induction false} AllTokens(tokens: seq<seq<Item>>)
    ensures tokens[..|tokens|] == tokens && Offset(tokens, |tokens|) == |Flatten(tokens)|
  {
    assert tokens[..|tokens|] == tokens;
  }

  lemma {:induction false} WholeLineDrawn(line: seq<Item>)
    ensures LaidOut([line], [Span(0, |line|)], line, 0)
    ensures forall width :: LaidOut([line], [Span(0, |line|)], line, width)
    ensures line == [] ==> Width(line) == 0
  {
    assert line[..0] == [] && line[0..|line|] == line;
  }

  lemma {:induction false} WideHasGlyph(line: seq<Item>, width: nat)
    requires Width(line) > width
    ensures HasGlyph(line)
  {
    if !HasGlyph(line) { CodesAreInvisible(PLAIN, line); }
  }

  lemma {:induction false} FinishedRows(st: WrapState, spans: seq<Span>, start: nat, line: seq<Item>, width: nat)
    returns (all: seq<Span>)
    requires line != [] && LinesTold(st, spans, start, line, |line|, width)
    ensures AllLines(st) != [] && LaidOut(TrimLines(AllLines(st)), all, line, width)
  {
    hide Boundary, Reachable, Cells, Process, ResetItems, ActiveItems, StyleAfter, Drawn, Width, TrimEnd, Full, Follows;
    var rows := AllLines(st);
    all := spans;
    if st.current != [] {
      var sp := Span(start, |line|);
      HereDrawn(st.current, st.style, st.visible, line, start, |line|);
      all := spans + [sp];
      NothingFollows(line);
      ChainNext(spans, line, 0, sp, |line|);
    }
    forall j | 0 <= j < |rows| ensures Drawn(TrimEnd(rows[j]), line, all[j]) {
      assert Drawn(rows[j], line, all[j]);
      TrimmedDrawn(rows[j], line, all[j]);
    }
  }

  lemma {:induction false} NothingFollows(line: seq<Item>)
    ensures Follows(line, |line|, |line|)
  {
  }

  // ---- whole texts ----

  function Concat(groups: seq<seq<seq<Item>>>): seq<seq<Item>> {
    if groups == [] then [] else Concat(groups[..|groups| - 1]) + groups[|groups| - 1]
  }

  /** An input line as it is wrapped: behind the codes still active from the lines before it. */
  function InputLine(lines: seq<seq<Item>>, i: nat): seq<Item>
    requires i < |lines|
  {
    if i == 0 then lines[0] else ActiveItems(StyleAfter(PLAIN, JoinLines(lines[..i]))) + lines[i]
  }

  ghost predicate GroupTold(rows: seq<seq<Item>>, line: seq<Item>, width: nat) {
    && (exists spans :: LaidOut(rows, spans, line, width))
    && (Width(line) <= width ==> rows == [line])
  }

  lemma {:induction false} WrapLinesLayOut(lines: seq<seq<Item>>, width: nat) returns (groups: seq<seq<seq<Item>>>)
    requires forall k :: 0 <= k < |lines| ==> WellFormed(lines[k])
    ensures |groups| == |lines| && Concat(groups) == WrapLines(lines, width).result
    ensures forall i :: 0 <= i < |lines| ==> GroupTold(groups[i], InputLine(lines, i), width)
  {
    hide WellFormed, GroupTold, InputLine, WrapLine;
    groups := [];
    if lines != [] {
      var n := |lines| - 1;
      var before := WrapLinesLayOut(lines[..n], width);
      var rows := NextGroup(lines, width);
      groups := before + [rows];
      assert groups[..n] == before;
      forall i | 0 <= i < n ensures GroupTold(groups[i], InputLine(lines, i), width) { EarlierLine(lines, n, i); }
    }
  }

  lemma {:induction false} EarlierLine(lines: seq<seq<Item>>, n: nat, i: nat)
    requires i < n <= |lines|
    ensures InputLine(lines[..n], i) == InputLine(lines, i)
  {
    assert lines[..n][..i] == lines[..i];
  }

  lemma {:induction false} NextGroup(lines: seq<seq<Item>>, width: nat) returns (rows: seq<seq<Item>>)
    requires lines != [] && forall k :: 0 <= k < |lines| ==> WellFormed(lines[k])
    ensures WrapLines(lines, width).result == WrapLines(lines[..|lines| - 1], width).result + rows
    ensures GroupTold(rows, InputLine(lines, |lines| - 1), width)
  {
    hide WellFormed, WrapSingleLine, ActiveItems, StyleAfter, GroupTold, InputLine;
    var init, line := lines[..|lines| - 1], lines[|lines| - 1];
    var st := WrapLines(init, width);
    WrapLinesKeep(init, width);
    PrefixedLine(st, line);
    InputIs(lines, st, line);
    rows := WrapSingleLine(InputLine(lines, |lines| - 1), width);
    GroupIsTold(InputLine(lines, |lines| - 1), width);
  }

  lemma {:induction false} InputIs(lines: seq<seq<Item>>, st: TextState, line: seq<Item>)
    requires lines != [] && line == lines[|lines| - 1] && TextInv(st, lines[..|lines| - 1])
    ensures (if st.result != [] then ActiveItems(st.style) else []) + line == InputLine(lines, |lines| - 1)
  {
    hide ActiveItems, StyleAfter;
    assert [] + line == line;
  }

  lemma {:induction false} GroupIsTold(line: seq<Item>, width: nat)
    requires WellFormed(line)
    ensures GroupTold(WrapSingleLine(line, width), line, width)
  {
    hide WrapSingleLine, LaidOut, Width;
    var spans := WrapSingleLineLaysOut(line, width);
  }

  /** The same for every input line of a text: the rows of the text are those of its lines, in order. */
  lemma {:induction false} WrapTextLaysOut(text: seq<Item>, width: nat) returns (groups: seq<seq<seq<Item>>>)
    requires WellFormed(text)
    ensures |groups| == |SplitLines(text)| && Concat(groups) == WrapText(text, width)
    ensures forall i :: 0 <= i < |groups| ==> GroupTold(groups[i], InputLine(SplitLines(text), i), width)
  {
    hide GroupTold, InputLine;
    SplitLinesGood(text);
    groups := WrapLinesLayOut(SplitLines(text), width);
    if text == [] { NothingWraps(width); }
  }
}
