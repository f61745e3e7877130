/** A composited line, by its cells. */
module OverlayCells {
  import opened Arithmetic
  import opened AnsiCodes
  import opened AnsiRoundTrip
  import opened StyledText
  import opened Overlay
  import opened OverlaySpots

  lemma {:induction false} ResetMakesPlain(s: Style, col: int)
    ensures StyleAfter(s, RESET) == PLAIN && Spots(s, RESET, col) == [] && Width(RESET) == 0
  {
    CodesShowNothing(s, RESET, col);
    SgrIsCode("0", "");
    assert ParseOsc8(RESET_LINK) == CloseLink;
    assert RESET == [Ansi(RESET_SGR)] + [Ansi(RESET_LINK)];
    StyleConcat(s, [Ansi(RESET_SGR)], [Ansi(RESET_LINK)]);
    OneItem(s, Ansi(RESET_SGR));
    OneItem(Process(s, RESET_SGR), Ansi(RESET_LINK));
  }

  // ---- pieces ----

  /** Blanks, one per column. */
  predicate BlankRun(spots: seq<Spot>, from: int, to: int) {
    |spots| == to - from && forall k :: 0 <= k < |spots| ==> spots[k].col == from + k && spots[k].cell.g == SPACE
  }

  function EndCol(spots: seq<Spot>, from: int): int { if spots == [] then from else EndOf(spots[|spots| - 1]) }

  /** `part`, and blanks behind it up to column `to`. */
  predicate Filled(shown: seq<Spot>, part: seq<Spot>, from: int, to: int) {
    part <= shown && BlankRun(shown[|part|..], EndCol(part, from), to)
  }

  lemma {:induction false} SpacesSpots(s: Style, n: nat, col: int)
    ensures BlankRun(Spots(s, Spaces(n), col), col, col + n) && StyleAfter(s, Spaces(n)) == s
  {
    if n > 0 {
      SpacesSpots(s, n - 1, col + 1);
      assert Spaces(n)[1..] == Spaces(n - 1);
    }
  }

  lemma {:induction false} SpotsEnd(s: Style, items: seq<Item>, col: int)
    ensures EndCol(Spots(s, items, col), col) == col + Width(items)
    decreases |items|
  {
    hide Process;
    if items != [] {
      match items[0]
      case Ansi(code) => SpotsEnd(Process(s, code), items[1..], col);
      case Glyph(g) => SpotsEnd(s, items[1..], col + g.width);
    }
  }

  /** A piece of a line, padded with spaces and closed with a reset: what follows starts in the default style. */
  lemma {:induction false} PieceShows(text: seq<Item>, pad: nat, col: int)
    ensures var shown := Spots(PLAIN, text + Spaces(pad), col); var closed := text + Spaces(pad) + RESET;
      && Filled(shown, Spots(PLAIN, text, col), col, col + Width(text) + pad)
      && Spots(PLAIN, closed, col) == shown && StyleAfter(PLAIN, closed) == PLAIN && Width(closed) == Width(text) + pad
  {
    hide Process, Spots, StyleAfter, Width;
    var s, end := StyleAfter(PLAIN, text), col + Width(text);
    SpotsConcat(PLAIN, text, Spaces(pad), col);
    SpacesSpots(s, pad, end);
    SpotsEnd(PLAIN, text, col);
    PieceWidth(text, pad);
    SpotsConcat(PLAIN, text + Spaces(pad), RESET, col);
    StyleConcat(PLAIN, text + Spaces(pad), RESET);
    ResetMakesPlain(StyleAfter(PLAIN, text + Spaces(pad)), col + Width(text + Spaces(pad)));
    var part, shown := Spots(PLAIN, text, col), Spots(PLAIN, text + Spaces(pad), col);
    assert shown[|part|..] == Spots(s, Spaces(pad), end);
    assert shown + [] == shown;
  }

  lemma {:induction false} PiecesJoin(x: seq<Item>, y: seq<Item>, z: seq<Item>)
    requires StyleAfter(PLAIN, x) == PLAIN && StyleAfter(PLAIN, y) == PLAIN
    ensures Spots(PLAIN, x + y + z, 0) ==
      Spots(PLAIN, x, 0) + Spots(PLAIN, y, Width(x)) + Spots(PLAIN, z, Width(x) + Width(y))
  {
    hide Spots, StyleAfter, Width;
    SpotsConcat(PLAIN, x, y, 0);
    StyleConcat(PLAIN, x, y);
    WidthConcat(x, y);
    SpotsConcat(PLAIN, x + y, z, 0);
  }

  // ---- the composited line ----

  /** The same spots, moved as one so that the first begins in column `at`. */
  function MovedTo(spots: seq<Spot>, at: int): seq<Spot> {
    seq(|spots|, k requires 0 <= k < |spots| => Spot(spots[k].col - spots[0].col + at, spots[k].cell))
  }

  lemma {:induction false} SpotsMove(s: Style, items: seq<Item>, col: int, shift: int)
    ensures Spots(s, items, col + shift) ==
      seq(|Spots(s, items, col)|, k requires 0 <= k < |Spots(s, items, col)| =>
        Spot(Spots(s, items, col)[k].col + shift, Spots(s, items, col)[k].cell))
    decreases |items|
  {
    hide Process;
    if items != [] {
      match items[0]
      case Ansi(code) => SpotsMove(Process(s, code), items[1..], col, shift);
      case Glyph(g) => SpotsMove(s, items[1..], col + g.width, shift);
    }
  }

  lemma {:induction false} Moved(items: seq<Item>, from: int, at: int)
    requires FirstCol(Spots(PLAIN, items, from), from) == from
    ensures Spots(PLAIN, items, at) == MovedTo(Spots(PLAIN, items, from), at)
  {
    hide Spots;
    SpotsMove(PLAIN, items, from, at - from);
  }

  /** Three parts: the base, the overlay from startCol on, and the base again behind it, each filled up with blanks. */
  predicate Parts(x: seq<Spot>, y: seq<Spot>, z: seq<Spot>, base: seq<Spot>, overlay: seq<Spot>,
      startCol: nat, overlayWidth: nat, totalWidth: nat)
  {
    var afterStart := startCol + overlayWidth;
    var end := Max(totalWidth, afterStart);
    && Filled(x, Within(base, 0, startCol), 0, startCol)
    && Filled(y, MovedTo(Within(overlay, 0, overlayWidth), startCol), startCol, afterStart)
    && Filled(z, MovedTo(Within(base, afterStart, end), afterStart), afterStart, end)
  }

  lemma {:induction false} LayShows(x: seq<Item>, padX: nat, y: seq<Item>, padY: nat, z: seq<Item>, padZ: nat)
    returns (a: seq<Spot>, b: seq<Spot>, c: seq<Spot>)
    ensures var p := Width(x) + padX; var q := p + Width(y) + padY;
      && Spots(PLAIN, Lay(x, padX, y, padY, z, padZ), 0) == a + b + c
      && Filled(a, Spots(PLAIN, x, 0), 0, p) && Filled(b, Spots(PLAIN, y, p), p, q)
      && Filled(c, Spots(PLAIN, z, q), q, q + Width(z) + padZ)
  {
    hide Spots, StyleAfter, Width, Filled;
    var p := Width(x) + padX;
    var q := p + Width(y) + padY;
    PieceShows(x, padX, 0);
    PieceShows(y, padY, p);
    PieceShows(z, padZ, q);
    PiecesJoin(x + Spaces(padX) + RESET, y + Spaces(padY) + RESET, z + Spaces(padZ));
    a, b, c := Spots(PLAIN, x + Spaces(padX), 0), Spots(PLAIN, y + Spaces(padY), p), Spots(PLAIN, z + Spaces(padZ), q);
  }

  lemma {:induction false} OverlaySlice(overlay: seq<Item>, overlayWidth: nat, startCol: nat)
    ensures var o := SliceWithWidth(overlay, 0, overlayWidth, true);
      Spots(PLAIN, o.text, startCol) == MovedTo(Within(Spots(PLAIN, overlay, 0), 0, overlayWidth), startCol)
  {
    hide Within;
    KeptFromStart(overlay, overlayWidth);
    NothingWithin(Spots(PLAIN, overlay, 0), 0);
    if overlayWidth > 0 {
      SliceFromStart(overlay, overlayWidth);
      Moved(SliceItems(overlay, 0, overlayWidth, true).text, 0, startCol);
    }
  }

  lemma {:induction false} NothingWithin(spots: seq<Spot>, col: int)
    ensures Within(spots, col, col) == []
  {
    if spots != [] { NothingWithin(spots[..|spots| - 1], col); }
  }

  lemma {:induction false} BaseSegments(base: seq<Item>, startCol: nat, afterStart: nat, totalWidth: nat)
    requires WellFormed(base) && startCol <= afterStart
    ensures var b := ExtractSegments(base, Cut(startCol, afterStart, totalWidth - afterStart), true);
      var spots := Spots(PLAIN, base, 0);
      && Spots(PLAIN, b.before, 0) == Within(spots, 0, startCol)
      && Spots(PLAIN, b.after, afterStart) == MovedTo(Within(spots, afterStart, Max(totalWidth, afterStart)), afterStart)
  {
    hide Spots, Within;
    var cut := Cut(startCol, afterStart, totalWidth - afterStart);
    SegmentsShow(base, cut);
    var behind := Within(Spots(PLAIN, base, 0), afterStart, Max(totalWidth, afterStart));
    Moved(ExtractSegments(base, cut, true).after, FirstCol(behind, afterStart), afterStart);
  }

  lemma {:induction false} SpliceShows(base: seq<Item>, overlay: seq<Item>, startCol: nat, overlayWidth: nat, totalWidth: nat)
    returns (x: seq<Spot>, y: seq<Spot>, z: seq<Spot>)
    requires WellFormed(base)
    ensures Spots(PLAIN, Splice(base, overlay, startCol, overlayWidth, totalWidth), 0) == x + y + z
    ensures Parts(x, y, z, Spots(PLAIN, base, 0), Spots(PLAIN, overlay, 0), startCol, overlayWidth, totalWidth)
  {
    hide Spots, Within, Width, Filled, ExtractSegments, SliceWithWidth, MovedTo, Lay;
    var afterStart := startCol + overlayWidth;
    var cut := Cut(startCol, afterStart, totalWidth - afterStart);
    var b, o := ExtractSegments(base, cut, true), SliceWithWidth(overlay, 0, overlayWidth, true);
    SegmentsFit(base, cut);
    OverlayFits(overlay, overlayWidth);
    BaseSegments(base, startCol, afterStart, totalWidth);
    OverlaySlice(overlay, overlayWidth, startCol);
    x, y, z := LayShows(b.before, startCol - b.beforeWidth, o.text, overlayWidth - o.width,
      b.after, AfterPad(startCol, overlayWidth, totalWidth, b, o));
  }

  lemma {:induction false} OverlayFits(overlay: seq<Item>, overlayWidth: nat)
    ensures var o := SliceWithWidth(overlay, 0, overlayWidth, true); Width(o.text) == o.width <= overlayWidth
  {
    SliceFits(overlay, 0, overlayWidth);
  }

  /**
   * What a composited line shows, for graphemes of any width. Before the overlay it is the base's graphemes that end
   * before it, in place; under it the overlay's that lie inside its width; behind it the base's that begin and end
   * there, moved as one to the overlay's end. Everything else is blank, the columns of cut graphemes included. An
   * overlay that reaches past the terminal is cut there, as one more strict slice.
   */
  lemma {:induction false} CompositeShows(base: seq<Item>, overlay: seq<Item>, startCol: nat, overlayWidth: nat, totalWidth: nat)
    returns (x: seq<Spot>, y: seq<Spot>, z: seq<Spot>)
    requires WellFormed(base)
    ensures Parts(x, y, z, Spots(PLAIN, base, 0), Spots(PLAIN, overlay, 0), startCol, overlayWidth, totalWidth)
    ensures Spots(PLAIN, CompositeLineAt(base, overlay, startCol, overlayWidth, totalWidth), 0) ==
      if startCol + overlayWidth <= totalWidth then x + y + z else Within(x + y + z, 0, totalWidth)
  {
    hide Spots, Within, Width, Splice, SliceItems, Parts;
    x, y, z := SpliceShows(base, overlay, startCol, overlayWidth, totalWidth);
    CompositeWidth(base, overlay, startCol, overlayWidth, totalWidth);
    if startCol + overlayWidth > totalWidth {
      if totalWidth == 0 {
        NothingWithin(x + y + z, 0);
        NothingShown(0);
      } else {
        SliceFromStart(Splice(base, overlay, startCol, overlayWidth, totalWidth), totalWidth);
      }
    }
  }

  /** The base behind an overlay keeps its columns exactly when no grapheme straddles the overlay's end, or nothing
      is kept there. */
  lemma {:induction false} BaseKeepsItsColumns(base: seq<Item>, afterStart: nat, to: nat)
    ensures var spots := Spots(PLAIN, base, 0); var kept := Within(spots, afterStart, to);
      MovedTo(kept, afterStart) == kept <==> kept == [] || NoneStraddles(spots, afterStart)
  {
    hide Spots, Within, NoneStraddles, Width;
    FirstBehind(base, afterStart, to);
    var kept := Within(Spots(PLAIN, base, 0), afterStart, to);
    if kept != [] {
      assert MovedTo(kept, afterStart)[0].col == afterStart;
      if kept[0].col == afterStart {
        assert forall k :: 0 <= k < |kept| ==> MovedTo(kept, afterStart)[k] == kept[k];
      }
    }
  }

  const WIDE := Grapheme("\U{4e16}", 2, false, true)
  const NARROW := Grapheme("a", 1, false, false)

  /** A two-column grapheme that begins under an overlay one column wide: the letter behind it moves one column left. */
  lemma {:induction false} CutGraphemeMovesTheRest()
    ensures var kept := Within(Spots(PLAIN, [Glyph(WIDE), Glyph(NARROW)], 0), 1, 3);
      kept == [Spot(2, Cell(NARROW, PLAIN))] && MovedTo(kept, 1) == [Spot(1, Cell(NARROW, PLAIN))]
  {
    hide Spots, StyleAfter, Width, Within;
    var wide, letter := [Glyph(WIDE)], [Glyph(WIDE), Glyph(NARROW)];
    assert letter == wide + [Glyph(NARROW)] && wide == [] + wide;
    NothingShown(0);
    NothingStyled();
    OneItem(PLAIN, Glyph(WIDE));
    KeptNext([], Glyph(WIDE), 1, 3);
    KeptNext(wide, Glyph(NARROW), 1, 3);
    assert Within(Spots(PLAIN, wide, 0), 1, 3) == [];
    assert Within(Spots(PLAIN, letter, 0), 1, 3) == [] + [Spot(2, Cell(NARROW, PLAIN))];
  }

  lemma {:induction false} NothingStyled()
    ensures StyleAfter(PLAIN, []) == PLAIN && Within([], 1, 3) == []
  {
  }
}
