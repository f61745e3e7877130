/** Splicing an overlay into a line. */
module Overlay {
  import opened Arithmetic
  import opened AnsiCodes
  import opened AnsiParams
  import opened AnsiRoundTrip
  import opened StyledText

  // ---- sliceWithWidth ----

  datatype Slice = Slice(text: seq<Item>, width: nat, col: nat, pending: seq<Item>, done: bool)

  function SliceItem(st: Slice, item: Item, startCol: nat, endCol: nat, strict: bool): Slice {
    if st.done then st
    else
      match item
      case Ansi(_) =>
        if startCol <= st.col < endCol then st.(text := st.text + [item])
        else if st.col < startCol then st.(pending := st.pending + [item])
        else st
      case Glyph(g) =>
        var taken := startCol <= st.col < endCol && (!strict || st.col + g.width <= endCol);
        var st' := if taken then st.(text := st.text + st.pending + [item], pending := [], width := st.width + g.width) else st;
        st'.(col := st.col + g.width, done := st.col + g.width >= endCol)
  }

  function SliceItems(line: seq<Item>, startCol: nat, endCol: nat, strict: bool): Slice {
    if line == [] then Slice([], 0, 0, [], false)
    else SliceItem(SliceItems(line[..|line| - 1], startCol, endCol, strict), line[|line| - 1], startCol, endCol, strict)
  }

  function SliceWithWidth(line: seq<Item>, startCol: nat, length: nat, strict: bool): Slice {
    if length == 0 then Slice([], 0, 0, [], true) else SliceItems(line, startCol, startCol + length, strict)
  }

  // ---- extractSegments ----

  datatype Segments = Segments(
    before: seq<Item>, beforeWidth: nat, after: seq<Item>, afterWidth: nat,
    col: nat, pending: seq<Item>, started: bool, style: Style, done: bool)

  /** The columns kept before the overlay end at beforeEnd, those after it are [afterStart, afterStart + afterLen). */
  datatype Cut = Cut(beforeEnd: nat, afterStart: nat, afterLen: int)

  function SegmentItem(st: Segments, item: Item, cut: Cut, strict: bool): Segments {
    if st.done then st
    else
      var afterEnd := cut.afterStart + cut.afterLen;
      match item
      case Ansi(code) =>
        var st' := st.(style := Process(st.style, code));
        if st.col < cut.beforeEnd then st'.(pending := st.pending + [item])
        else if cut.afterStart <= st.col < afterEnd && st.started then st'.(after := st.after + [item])
        else st'
      case Glyph(g) =>
        var end := st.col + g.width;
        var st' :=
          if st.col < cut.beforeEnd && end <= cut.beforeEnd then
            st.(before := st.before + st.pending + [item], pending := [], beforeWidth := st.beforeWidth + g.width)
          else if cut.afterStart <= st.col < afterEnd && (!strict || end <= afterEnd) then
            st.(after := st.after + (if st.started then [] else ActiveItems(st.style)) + [item],
                started := true, afterWidth := st.afterWidth + g.width)
          else st;
        st'.(col := end, done := if cut.afterLen <= 0 then end >= cut.beforeEnd else end >= afterEnd)
  }

  function ExtractSegments(line: seq<Item>, cut: Cut, strict: bool): Segments {
    if line == [] then Segments([], 0, [], 0, 0, [], false, PLAIN, false)
    else SegmentItem(ExtractSegments(line[..|line| - 1], cut, strict), line[|line| - 1], cut, strict)
  }

  // ---- compositeLineAt ----

  const RESET_SGR := [ESC, '['] + "0" + "m"
  const RESET_LINK := OSC8 + ";" + [BEL]
  const RESET := [Ansi(RESET_SGR), Ansi(RESET_LINK)]

  function Spaces(n: int): (items: seq<Item>)
    ensures n >= 0 ==> |items| == n
    ensures forall k :: 0 <= k < |items| ==> items[k] == Glyph(SPACE)
  {
    if n <= 0 then [] else seq(n, k => Glyph(SPACE))
  }

  /** The columns left for the base line after the overlay, less those it fills. */
  function AfterPad(startCol: nat, overlayWidth: nat, totalWidth: nat, b: Segments, o: Slice): int {
    Max(0, Max(0, totalWidth - Max(startCol, b.beforeWidth) - Max(overlayWidth, o.width)) - b.afterWidth)
  }

  /** Three padded pieces, the first two closed with a reset. */
  function Lay(x: seq<Item>, padX: int, y: seq<Item>, padY: int, z: seq<Item>, padZ: int): seq<Item> {
    (x + Spaces(padX) + RESET) + (y + Spaces(padY) + RESET) + (z + Spaces(padZ))
  }

  function Assemble(startCol: nat, overlayWidth: nat, totalWidth: nat, b: Segments, o: Slice): seq<Item> {
    Lay(b.before, startCol - b.beforeWidth, o.text, overlayWidth - o.width,
        b.after, AfterPad(startCol, overlayWidth, totalWidth, b, o))
  }

  /** The composed line before the final width check. */
  function Splice(base: seq<Item>, overlay: seq<Item>, startCol: nat, overlayWidth: nat, totalWidth: nat): seq<Item> {
    var afterStart := startCol + overlayWidth;
    var b := ExtractSegments(base, Cut(startCol, afterStart, totalWidth - afterStart), true);
    var o := SliceWithWidth(overlay, 0, overlayWidth, true);
    Assemble(startCol, overlayWidth, totalWidth, b, o)
  }

  function CompositeLineAt(base: seq<Item>, overlay: seq<Item>, startCol: nat, overlayWidth: nat, totalWidth: nat)
    : seq<Item>
  {
    var result := Splice(base, overlay, startCol, overlayWidth, totalWidth);
    if Width(result) <= totalWidth then result else SliceWithWidth(result, 0, totalWidth, true).text
  }

  // ---- widths ----

  lemma {:induction false} SpacesWidth(n: int)
    ensures Width(Spaces(n)) == Max(0, n)
  {
    if n > 0 {
      SpacesWidth(n - 1);
      assert Spaces(n)[1..] == Spaces(n - 1);
    }
  }

  ghost predicate SliceInv(st: Slice, startCol: nat, endCol: nat) {
    && Width(st.text) == st.width && OnlyCodes(st.pending)
    && st.width <= Max(0, st.col - startCol) && st.width <= Max(0, endCol - startCol)
  }

  lemma {:induction false} SliceItemFits(st: Slice, item: Item, startCol: nat, endCol: nat)
    requires SliceInv(st, startCol, endCol)
    ensures SliceInv(SliceItem(st, item, startCol, endCol, true), startCol, endCol)
  {
    OneItem(PLAIN, item);
    WidthConcat(st.text, [item]);
    WidthConcat(st.text, st.pending);
    WidthConcat(st.text + st.pending, [item]);
    CodesAreInvisible(PLAIN, st.pending);
  }

  lemma {:induction false} SliceFits(line: seq<Item>, startCol: nat, endCol: nat)
    ensures SliceInv(SliceItems(line, startCol, endCol, true), startCol, endCol)
  {
    if line != [] {
      SliceFits(line[..|line| - 1], startCol, endCol);
      SliceItemFits(SliceItems(line[..|line| - 1], startCol, endCol, true), line[|line| - 1], startCol, endCol);
    }
  }

  ghost predicate SegmentsInv(st: Segments, cut: Cut) {
    && Width(st.before) == st.beforeWidth <= cut.beforeEnd && st.beforeWidth <= st.col
    && Width(st.after) == st.afterWidth && OnlyCodes(st.pending)
    && st.afterWidth <= Max(0, st.col - cut.afterStart) && st.afterWidth <= Max(0, cut.afterLen)
    && Reachable(st.style)
  }

  lemma {:induction false} SegmentItemFits(st: Segments, item: Item, cut: Cut)
    requires SegmentsInv(st, cut) && (item.Ansi? ==> IsCode(item.code)) && cut.beforeEnd <= cut.afterStart
    ensures SegmentsInv(SegmentItem(st, item, cut, true), cut)
  {
    if item.Ansi? {
      ProcessKeepsReachable(st.style, item.code);
      AppendOne(st.after, [], item);
    } else if st.col < cut.beforeEnd && st.col + item.g.width <= cut.beforeEnd {
      AppendOne(st.before, st.pending, item);
    } else {
      AppendOne(st.after, if st.started then [] else ActiveItems(st.style), item);
    }
  }

  lemma {:induction false} AppendOne(items: seq<Item>, codes: seq<Item>, item: Item)
    requires OnlyCodes(codes)
    ensures Width(items + codes + [item]) == Width(items) + (if item.Glyph? then item.g.width else 0)
    ensures codes == [] ==> items + codes + [item] == items + [item]
  {
    WidthConcat(items, codes);
    WidthConcat(items + codes, [item]);
    CodesAreInvisible(PLAIN, codes);
    OneItem(PLAIN, item);
    if codes == [] { assert items + codes == items; }
  }

  lemma {:induction false} SegmentsFit(line: seq<Item>, cut: Cut)
    requires WellFormed(line) && cut.beforeEnd <= cut.afterStart
    ensures SegmentsInv(ExtractSegments(line, cut, true), cut)
  {
    if line != [] {
      SegmentsFit(line[..|line| - 1], cut);
      SegmentItemFits(ExtractSegments(line[..|line| - 1], cut, true), line[|line| - 1], cut);
    }
  }

  lemma {:induction false} PieceWidth(text: seq<Item>, pad: nat)
    ensures Width(text + Spaces(pad) + RESET) == Width(text + Spaces(pad)) == Width(text) + pad
  {
    WidthConcat(text, Spaces(pad));
    WidthConcat(text + Spaces(pad), RESET);
    SpacesWidth(pad);
    CodesAreInvisible(PLAIN, RESET);
  }

  lemma {:induction false} AssembledWidth(startCol: nat, overlayWidth: nat, totalWidth: nat, b: Segments, o: Slice)
    requires Width(b.before) == b.beforeWidth <= startCol && Width(o.text) == o.width <= overlayWidth
    requires Width(b.after) == b.afterWidth <= Max(0, totalWidth - startCol - overlayWidth)
    ensures Width(Assemble(startCol, overlayWidth, totalWidth, b, o)) == Max(totalWidth, startCol + overlayWidth)
  {
    var pad := AfterPad(startCol, overlayWidth, totalWidth, b, o);
    assert pad == Max(0, totalWidth - startCol - overlayWidth) - b.afterWidth;
    var x := b.before + Spaces(startCol - b.beforeWidth) + RESET;
    var y := o.text + Spaces(overlayWidth - o.width) + RESET;
    PieceWidth(b.before, startCol - b.beforeWidth);
    PieceWidth(o.text, overlayWidth - o.width);
    PieceWidth(b.after, pad);
    WidthConcat(x, y);
    WidthConcat(x + y, b.after + Spaces(pad));
  }

  /** The spliced line is exactly as wide as the terminal, unless the overlay itself reaches past it. */
  lemma {:induction false} SpliceWidth(base: seq<Item>, overlay: seq<Item>, startCol: nat, overlayWidth: nat, totalWidth: nat)
    requires WellFormed(base)
    ensures Width(Splice(base, overlay, startCol, overlayWidth, totalWidth)) == Max(totalWidth, startCol + overlayWidth)
  {
    var cut := Cut(startCol, startCol + overlayWidth, totalWidth - (startCol + overlayWidth));
    SegmentsFit(base, cut);
    SliceFits(overlay, 0, overlayWidth);
    AssembledWidth(startCol, overlayWidth, totalWidth, ExtractSegments(base, cut, true),
      SliceWithWidth(overlay, 0, overlayWidth, true));
  }

  /** The final truncation fires exactly when the overlay reaches past the terminal, and the composited line never
      overflows; when it does not fire the line is exactly totalWidth wide. */
  lemma {:induction false} CompositeWidth(base: seq<Item>, overlay: seq<Item>, startCol: nat, overlayWidth: nat, totalWidth: nat)
    requires WellFormed(base)
    ensures var result := CompositeLineAt(base, overlay, startCol, overlayWidth, totalWidth);
      && Width(result) <= totalWidth
      && (startCol + overlayWidth <= totalWidth ==>
            Width(result) == totalWidth && result == Splice(base, overlay, startCol, overlayWidth, totalWidth))
    ensures Width(Splice(base, overlay, startCol, overlayWidth, totalWidth)) > totalWidth <==>
      startCol + overlayWidth > totalWidth
  {
    SpliceWidth(base, overlay, startCol, overlayWidth, totalWidth);
    SliceFits(Splice(base, overlay, startCol, overlayWidth, totalWidth), 0, totalWidth);
  }
}
