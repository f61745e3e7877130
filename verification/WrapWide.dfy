/** Graphemes wider than a line. */
module WrapWide {
  import opened AnsiCodes
  import opened StyledText
  import opened TextWrap
  import opened WrapMeaning
  import opened WrapFitSteps

  /** Some cell is no white space and wider than a line. */
  predicate WideCell(cells: seq<Cell>, width: nat) {
    exists k :: 0 <= k < |cells| && !cells[k].g.space && cells[k].g.width > width
  }

  lemma {:induction false} WideConcat(a: seq<Cell>, b: seq<Cell>, width: nat)
    ensures WideCell(a + b, width) <==> WideCell(a, width) || WideCell(b, width)
  {
    assert forall k :: 0 <= k < |a| ==> (a + b)[k] == a[k];
    assert forall k :: 0 <= k < |b| ==> (a + b)[|a| + k] == b[k];
    if WideCell(a + b, width) {
      var k :| 0 <= k < |a + b| && !(a + b)[k].g.space && (a + b)[k].g.width > width;
      assert if k < |a| then !a[k].g.space && a[k].g.width > width
        else !b[k - |a|].g.space && b[k - |a|].g.width > width;
    }
  }

  lemma {:induction false} WideOne(cell: Cell, width: nat)
    ensures WideCell([cell], width) <==> !cell.g.space && cell.g.width > width
    ensures !WideCell([], width)
  {
    assert [cell][0] == cell;
  }

  /** A wide cell is a wide grapheme of the items, and makes them wide. */
  lemma {:induction false} WideItems(s: Style, items: seq<Item>, width: nat)
    ensures WideCell(Cells(s, items), width) <==> !SolidFits(items, width)
    ensures WideCell(Cells(s, items), width) ==> Width(items) > width
    decreases |items|
  {
    hide WideCell, Process;
    if items == [] {
      NoWideCells(width);
    } else {
      var rest := items[1..];
      assert SolidFits(items, width) <==> SolidFits([items[0]], width) && SolidFits(rest, width) by {
        assert items == [items[0]] + rest;
        SolidConcat([items[0]], rest, width);
      }
      match items[0]
      case Ansi(code) => WideItems(Process(s, code), rest, width);
      case Glyph(g) =>
        WideItems(s, rest, width);
        WideConcat([Cell(g, s)], Cells(s, rest), width);
        WideOne(Cell(g, s), width);
    }
  }

  lemma {:induction false} NoWideCells(width: nat)
    ensures !WideCell([], width)
  {
  }

  lemma {:induction false} SolidConcat(a: seq<Item>, b: seq<Item>, width: nat)
    ensures SolidFits(a + b, width) <==> SolidFits(a, width) && SolidFits(b, width)
  {
    assert forall k :: 0 <= k < |a| ==> (a + b)[k] == a[k];
    assert forall k :: 0 <= k < |b| ==> (a + b)[|a| + k] == b[k];
  }

  /** Leaving out white space leaves out no wide cell. */
  lemma {:induction false} WideSurvives(full: seq<Cell>, kept: seq<Cell>, width: nat)
    requires DropsOnlySpace(full, kept) && WideCell(full, width)
    ensures WideCell(kept, width)
    decreases |full|
  {
    hide WideCell;
    NoWideCells(width);
    WideOne(full[0], width);
    WideConcat([full[0]], full[1..], width);
    assert full == [full[0]] + full[1..];
    if kept != [] && kept[0] == full[0] && DropsOnlySpace(full[1..], kept[1..]) {
      WideConcat([kept[0]], kept[1..], width);
      assert kept == [kept[0]] + kept[1..];
      if WideCell(full[1..], width) { WideSurvives(full[1..], kept[1..], width); }
    } else {
      WideSurvives(full[1..], kept, width);
    }
  }

  lemma {:induction false} WideLine(lines: seq<seq<Item>>, width: nat)
    requires WideCell(LinesCells(lines), width)
    ensures !LinesFit(lines, width)
  {
    hide WideCell;
    if lines == [] {
      NoWideCells(width);
    } else {
      var init, line := lines[..|lines| - 1], lines[|lines| - 1];
      WideConcat(LinesCells(init), Cells(PLAIN, line), width);
      WideItems(PLAIN, line, width);
      assert lines == init + [line];
      FitConcat(init, [line], width);
      assert LinesFit([line], width) ==> Width([line][0]) <= width;
      if WideCell(LinesCells(init), width) { WideLine(init, width); }
    }
  }

  lemma {:induction false} WideLineOverflows(line: seq<Item>, width: nat)
    requires WellFormed(line) && !SolidFits(line, width)
    ensures Width(line) > width && !LinesFit(WrapSingleLine(line, width), width)
  {
    hide WideCell, WrapSingleLine, SolidFits;
    WrapSingleLineKeepsMeaning(line, width);
    WideItems(PLAIN, line, width);
    WideSurvives(Cells(PLAIN, line), LinesCells(WrapSingleLine(line, width)), width);
    WideLine(WrapSingleLine(line, width), width);
  }

  /** A grapheme that is no white space and wider than a line leaves some wrapped line too wide, whatever the text. */
  lemma {:induction false} WideGraphemesOverflow(text: seq<Item>, width: nat)
    requires WellFormed(text) && !SolidFits(text, width)
    ensures !LinesFit(WrapText(text, width), width)
  {
    hide WideCell, WrapText, SolidFits;
    WrapKeepsMeaning(text, width);
    WideItems(PLAIN, text, width);
    WideSurvives(Cells(PLAIN, text), LinesCells(WrapText(text, width)), width);
    WideLine(WrapText(text, width), width);
  }

  const IDEOGRAPH := Glyph(Grapheme("\U{4e16}", 2, false, true))

  /** Such texts have no other peculiarity: one ideograph on a line one column wide. */
  lemma {:induction false} IdeographOverflows()
    ensures WellFormed([IDEOGRAPH]) && OnlySpaces([IDEOGRAPH]) && !LinesFit(WrapText([IDEOGRAPH], 1), 1)
  {
    hide WrapText, LinesFit;
    assert [IDEOGRAPH][0] == IDEOGRAPH;
    WideGraphemesOverflow([IDEOGRAPH], 1);
  }
}
