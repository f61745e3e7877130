/**
 * What slices and segments of a line show, and in which columns,
 * for graphemes of any width.
 */
module OverlaySpots {
  import opened Arithmetic
  import opened AnsiCodes
  import opened AnsiParams
  import opened AnsiRoundTrip
  import opened AnsiTexts
  import opened StyledText
  import opened Overlay

  /** A cell and the column it begins in. */
  datatype Spot = Spot(col: int, cell: Cell)

  function EndOf(p: Spot): int { p.col + p.cell.g.width }

  /** What a line shows when it is drawn from column `col` on in style `s`. */
  function Spots(s: Style, items: seq<Item>, col: int): seq<Spot>
    decreases |items|
  {
    if items == [] then []
    else
      match items[0]
      case Ansi(code) => Spots(Process(s, code), items[1..], col)
      case Glyph(g) => [Spot(col, Cell(g, s))] + Spots(s, items[1..], col + g.width)
  }

  /** The grapheme begins in one of the columns [from, to), and ends there. */
  predicate Inside(p: Spot, from: int, to: int) { from <= p.col < to && EndOf(p) <= to }

  function Within(spots: seq<Spot>, from: int, to: int): seq<Spot> {
    if spots == [] then []
    else
      var last := spots[|spots| - 1];
      Within(spots[..|spots| - 1], from, to) + (if Inside(last, from, to) then [last] else [])
  }

  function FirstCol(spots: seq<Spot>, otherwise: int): int { if spots == [] then otherwise else spots[0].col }

  lemma {:induction false} SpotsConcat(s: Style, a: seq<Item>, b: seq<Item>, col: int)
    ensures Spots(s, a + b, col) == Spots(s, a, col) + Spots(StyleAfter(s, a), b, col + Width(a))
    decreases |a|
  {
    hide Process;
    if a == [] {
      assert a + b == b;
    } else {
      assert (a + b)[1..] == a[1..] + b;
      if a[0].Ansi? {
        SpotsConcat(Process(s, a[0].code), a[1..], b, col);
      } else {
        SpotsConcat(s, a[1..], b, col + a[0].g.width);
      }
    }
  }

  lemma {:induction false} OneSpot(s: Style, item: Item, col: int)
    ensures Spots(s, [item], col) == if item.Ansi? then [] else [Spot(col, Cell(item.g, s))]
  {
    assert [item][1..] == [];
  }

  lemma {:induction false} SpotsNext(s: Style, items: seq<Item>, item: Item, col: int)
    ensures Spots(s, items + [item], col) ==
      Spots(s, items, col) + (if item.Ansi? then [] else [Spot(col + Width(items), Cell(item.g, StyleAfter(s, items)))])
    ensures StyleAfter(s, items + [item]) == if item.Ansi? then Process(StyleAfter(s, items), item.code) else StyleAfter(s, items)
    ensures Width(items + [item]) == Width(items) + (if item.Ansi? then 0 else item.g.width)
  {
    SpotsConcat(s, items, [item], col);
    OneSpot(StyleAfter(s, items), item, col + Width(items));
    StyleConcat(s, items, [item]);
    WidthConcat(items, [item]);
    OneItem(StyleAfter(s, items), item);
  }

  lemma {:induction false} NothingShown(col: int)
    ensures Spots(PLAIN, [], col) == [] && Width([]) == 0
  {
  }

  lemma {:induction false} CodesShowNothing(s: Style, items: seq<Item>, col: int)
    requires OnlyCodes(items)
    ensures Spots(s, items, col) == [] && Width(items) == 0
    decreases |items|
  {
    CodesAreInvisible(s, items);
    if items != [] { CodesShowNothing(Process(s, items[0].code), items[1..], col); }
  }

  lemma {:induction false} WithinNext(spots: seq<Spot>, p: Spot, from: int, to: int)
    ensures Within(spots + [p], from, to) == Within(spots, from, to) + (if Inside(p, from, to) then [p] else [])
    ensures Within(spots + [], from, to) == Within(spots, from, to)
  {
    assert (spots + [p])[..|spots|] == spots && spots + [] == spots;
  }

  // ---- slices ----

  /** The codes before the first grapheme of a slice: those in front of its first column, and those at or behind it. */
  datatype Lead = Lead(early: seq<Item>, late: seq<Item>, col: nat, begun: bool)

  function LeadItem(lead: Lead, item: Item, startCol: nat): Lead {
    match item
    case Ansi(_) =>
      if lead.begun then lead
      else if lead.col < startCol then lead.(early := lead.early + [item])
      else lead.(late := lead.late + [item])
    case Glyph(g) => lead.(col := lead.col + g.width, begun := lead.begun || lead.col >= startCol)
  }

  function LeadOf(line: seq<Item>, startCol: nat): Lead {
    if line == [] then Lead([], [], 0, false)
    else LeadItem(LeadOf(line[..|line| - 1], startCol), line[|line| - 1], startCol)
  }

  /** The codes have the same effect in the order a slice has them, late ones first, as in the order of the line. */
  predicate OrderIndifferent(lead: Lead) {
    StyleAfter(PLAIN, lead.late + lead.early) == StyleAfter(PLAIN, lead.early + lead.late)
  }

  /** The codes kept in front: in the order of the line, and in the order of the slice. */
  function Told(lead: Lead): seq<Item> { lead.early + lead.late }
  function Printed(lead: Lead): seq<Item> { lead.late + lead.early }

  lemma {:induction false} LeadIsCodes(line: seq<Item>, startCol: nat)
    ensures var lead := LeadOf(line, startCol);
      && OnlyCodes(lead.early) && OnlyCodes(lead.late) && lead.col == Width(line)
      && (lead.col < startCol ==> lead.late == [])
      && (!lead.begun ==> StyleAfter(PLAIN, Told(lead)) == StyleAfter(PLAIN, line))
  {
    hide Process, StyleAfter, Spots, Width;
    if line == [] {
      NothingShown(0);
      assert Told(LeadOf(line, startCol)) == [];
    } else {
      var init, item := line[..|line| - 1], line[|line| - 1];
      LeadIsCodes(init, startCol);
      var lead := LeadOf(init, startCol);
      assert line == init + [item];
      SpotsNext(PLAIN, init, item, 0);
      SpotsNext(PLAIN, Told(lead), item, 0);
      assert lead.early + (lead.late + [item]) == Told(lead) + [item];
      assert lead.late == [] ==> lead.early + [item] + lead.late == Told(lead) + [item];
    }
  }

  /** No grapheme of the range was met: the codes so far wait on both sides. */
  ghost predicate Waiting(st: Slice, lead: Lead) {
    !lead.begun && st.text == lead.late && st.pending == lead.early
  }

  /** `body` was kept behind the leading codes. */
  ghost predicate Running(st: Slice, lead: Lead, kept: seq<Spot>, body: seq<Item>) {
    && lead.begun && kept != [] && st.text == Printed(lead) + body && body != [] && body[0].Glyph?
    && kept == Spots(StyleAfter(PLAIN, Told(lead)), body, kept[0].col)
  }

  ghost predicate SliceInRun(st: Slice, read: seq<Item>, startCol: nat, kept: seq<Spot>, body: seq<Item>) {
    var lead := LeadOf(read, startCol);
    && Running(st, lead, kept, body)
    && (!st.done ==>
          && StyleAfter(PLAIN, Told(lead) + body) == StyleAfter(PLAIN, read)
          && kept[0].col + Width(body) == st.col && st.pending == [])
  }

  ghost predicate SliceTold(st: Slice, read: seq<Item>, startCol: nat, endCol: nat, body: seq<Item>) {
    var kept := Within(Spots(PLAIN, read, 0), startCol, endCol);
    && (if kept == [] then body == [] && OnlyCodes(st.text) && (!st.done ==> Waiting(st, LeadOf(read, startCol)))
        else startCol <= kept[0].col && SliceInRun(st, read, startCol, kept, body))
    && (if st.done then Width(read) >= endCol else st.col == Width(read) < endCol)
  }

  /** One more item: what it adds to the spots of the line, and to those kept. */
  lemma {:induction false} KeptNext(read: seq<Item>, item: Item, from: int, to: int)
    ensures var spots := Spots(PLAIN, read, 0);
      Within(Spots(PLAIN, read + [item], 0), from, to) == Within(spots, from, to) +
        (if item.Glyph? && Inside(Spot(Width(read), Cell(item.g, StyleAfter(PLAIN, read))), from, to)
         then [Spot(Width(read), Cell(item.g, StyleAfter(PLAIN, read)))] else [])
  {
    hide Process, StyleAfter, Width;
    var spots := Spots(PLAIN, read, 0);
    SpotsNext(PLAIN, read, item, 0);
    if item.Glyph? {
      WithinNext(spots, Spot(Width(read), Cell(item.g, StyleAfter(PLAIN, read))), from, to);
    } else {
      assert spots + [] == spots;
    }
  }

  lemma {:induction false} LeadNext(read: seq<Item>, item: Item, startCol: nat)
    ensures LeadOf(read + [item], startCol) == LeadItem(LeadOf(read, startCol), item, startCol)
  {
    assert (read + [item])[..|read|] == read;
  }

  /** Past the end of the range nothing changes. */
  lemma {:induction false} SlicePast(st: Slice, read: seq<Item>, item: Item, startCol: nat, endCol: nat, body: seq<Item>)
    requires SliceTold(st, read, startCol, endCol, body) && st.done
    ensures SliceTold(st, read + [item], startCol, endCol, body)
  {
    hide Process, Spots, StyleAfter, Width, Within, LeadOf;
    KeptNext(read, item, startCol, endCol);
    LeadNext(read, item, startCol);
    SpotsNext(PLAIN, read, item, 0);
    var kept := Within(Spots(PLAIN, read, 0), startCol, endCol);
    assert kept + [] == kept;
  }

  /** Before the first grapheme of the range. */
  lemma {:induction false} SliceWaits(st: Slice, read: seq<Item>, item: Item, startCol: nat, endCol: nat)
    requires SliceTold(st, read, startCol, endCol, []) && !st.done && startCol < endCol
    requires Within(Spots(PLAIN, read, 0), startCol, endCol) == []
    ensures var st' := SliceItem(st, item, startCol, endCol, true);
      SliceTold(st', read + [item], startCol, endCol,
        if item.Glyph? && startCol <= st.col && st.col + item.g.width <= endCol then [item] else [])
  {
    hide Process, Spots, StyleAfter, Width, Within, LeadOf;
    KeptNext(read, item, startCol, endCol);
    LeadNext(read, item, startCol);
    LeadIsCodes(read, startCol);
    SpotsNext(PLAIN, read, item, 0);
    var lead := LeadOf(read, startCol);
    if item.Glyph? && startCol <= st.col && st.col + item.g.width <= endCol {
      var told := StyleAfter(PLAIN, Told(lead));
      OneSpot(told, item, st.col);
      SpotsNext(PLAIN, Told(lead), item, 0);
      assert Width([item]) == item.g.width by { OneItem(told, item); }
    }
  }

  /** Behind it. */
  lemma {:induction false} SliceRuns(st: Slice, read: seq<Item>, item: Item, startCol: nat, endCol: nat, body: seq<Item>)
    requires SliceTold(st, read, startCol, endCol, body) && !st.done && startCol < endCol
    requires Within(Spots(PLAIN, read, 0), startCol, endCol) != []
    ensures var st' := SliceItem(st, item, startCol, endCol, true);
      SliceTold(st', read + [item], startCol, endCol,
        if item.Ansi? || st.col + item.g.width <= endCol then body + [item] else body)
  {
    hide Process, Spots, StyleAfter, Width, Within, LeadOf;
    var kept := Within(Spots(PLAIN, read, 0), startCol, endCol);
    var lead := LeadOf(read, startCol);
    var told := StyleAfter(PLAIN, Told(lead));
    KeptNext(read, item, startCol, endCol);
    LeadNext(read, item, startCol);
    SpotsNext(PLAIN, read, item, 0);
    SpotsNext(told, body, item, kept[0].col);
    StyleConcat(PLAIN, Told(lead), body);
    SpotsNext(PLAIN, Told(lead) + body, item, 0);
    assert Told(lead) + (body + [item]) == Told(lead) + body + [item];
    assert st.text + [] + [item] == Printed(lead) + (body + [item]);
    assert st.text + [item] == Printed(lead) + (body + [item]);
    assert kept + [] == kept;
  }

  lemma {:induction false} SliceTells(line: seq<Item>, startCol: nat, endCol: nat) returns (body: seq<Item>)
    requires startCol < endCol
    ensures SliceTold(SliceItems(line, startCol, endCol, true), line, startCol, endCol, body)
  {
    hide SliceTold, SliceItem, Within, Spots;
    if line == [] {
      body := [];
      NothingTold(startCol, endCol);
    } else {
      var init, item := line[..|line| - 1], line[|line| - 1];
      assert line == init + [item];
      body := SliceTells(init, startCol, endCol);
      var st := SliceItems(init, startCol, endCol, true);
      var kept := Within(Spots(PLAIN, init, 0), startCol, endCol);
      if st.done {
        SlicePast(st, init, item, startCol, endCol, body);
        DoneStays(st, item, startCol, endCol);
      } else if kept == [] {
        NoBody(st, init, startCol, endCol, body);
        SliceWaits(st, init, item, startCol, endCol);
        body := if item.Glyph? && startCol <= st.col && st.col + item.g.width <= endCol then [item] else [];
      } else {
        SliceRuns(st, init, item, startCol, endCol, body);
        body := if item.Ansi? || st.col + item.g.width <= endCol then body + [item] else body;
      }
    }
  }

  lemma {:induction false} NothingTold(startCol: nat, endCol: nat)
    requires startCol < endCol
    ensures SliceTold(SliceItems([], startCol, endCol, true), [], startCol, endCol, [])
  {
  }

  lemma {:induction false} DoneStays(st: Slice, item: Item, startCol: nat, endCol: nat)
    requires st.done
    ensures SliceItem(st, item, startCol, endCol, true) == st
  {
  }

  lemma {:induction false} NoBody(st: Slice, read: seq<Item>, startCol: nat, endCol: nat, body: seq<Item>)
    requires SliceTold(st, read, startCol, endCol, body) && Within(Spots(PLAIN, read, 0), startCol, endCol) == []
    ensures body == []
  {
  }

  /** The graphemes and their columns, styles aside. */
  function Bare(spots: seq<Spot>): (r: seq<(int, Grapheme)>)
    ensures |r| == |spots|
  {
    seq(|spots|, k requires 0 <= k < |spots| => (spots[k].col, spots[k].cell.g))
  }

  lemma {:induction false} BareSpots(s: Style, t: Style, items: seq<Item>, col: int)
    ensures Bare(Spots(s, items, col)) == Bare(Spots(t, items, col))
    decreases |items|
  {
    hide Process;
    if items != [] {
      match items[0]
      case Ansi(code) => BareSpots(Process(s, code), Process(t, code), items[1..], col);
      case Glyph(g) =>
        BareSpots(s, t, items[1..], col + g.width);
        BareFirst(Spot(col, Cell(g, s)), Spots(s, items[1..], col + g.width));
        BareFirst(Spot(col, Cell(g, t)), Spots(t, items[1..], col + g.width));
    }
  }

  lemma {:induction false} BareFirst(p: Spot, spots: seq<Spot>)
    ensures Bare([p] + spots) == [(p.col, p.cell.g)] + Bare(spots)
  {
  }

  /**
   * A strict slice shows the graphemes that lie inside its columns, one behind the other as they stood. It shows
   * their styles exactly when it makes no difference that the codes at its first column come before the earlier ones.
   */
  lemma {:induction false} SliceShows(line: seq<Item>, startCol: nat, endCol: nat)
    requires startCol < endCol
    ensures var text := SliceItems(line, startCol, endCol, true).text;
      var kept := Within(Spots(PLAIN, line, 0), startCol, endCol);
      var shown := Spots(PLAIN, text, FirstCol(kept, startCol));
      && Bare(shown) == Bare(kept)
      && (shown == kept <==> kept == [] || OrderIndifferent(LeadOf(line, startCol)))
  {
    hide Spots, Within, SliceItems, LeadOf, StyleAfter, Width, Bare;
    var st := SliceItems(line, startCol, endCol, true);
    var kept := Within(Spots(PLAIN, line, 0), startCol, endCol);
    var body := SliceTells(line, startCol, endCol);
    if kept == [] {
      CodesShowNothing(PLAIN, st.text, startCol);
    } else {
      var lead, col := LeadOf(line, startCol), kept[0].col;
      var told, printed := StyleAfter(PLAIN, Told(lead)), StyleAfter(PLAIN, Printed(lead));
      LeadIsCodes(line, startCol);
      SpotsConcat(PLAIN, Printed(lead), body, col);
      CodesShowNothing(PLAIN, Printed(lead), col);
      assert [] + Spots(printed, body, col) == Spots(printed, body, col);
      BareSpots(told, printed, body, col);
      FirstSpotStyle(told, body, col);
      FirstSpotStyle(printed, body, col);
    }
  }

  lemma {:induction false} FirstSpotStyle(s: Style, items: seq<Item>, col: int)
    requires items != [] && items[0].Glyph?
    ensures Spots(s, items, col) != [] && Spots(s, items, col)[0] == Spot(col, Cell(items[0].g, s))
  {
  }

  /** From the first column on nothing comes before, and a slice shows exactly what the line shows there. */
  lemma {:induction false} SliceFromStart(line: seq<Item>, endCol: nat)
    requires endCol > 0
    ensures Spots(PLAIN, SliceItems(line, 0, endCol, true).text, 0) == Within(Spots(PLAIN, line, 0), 0, endCol)
  {
    hide Spots, Within, SliceItems;
    SliceShows(line, 0, endCol);
    NothingEarly(line);
    KeptFromStart(line, endCol);
  }

  lemma {:induction false} NothingEarly(line: seq<Item>)
    ensures LeadOf(line, 0).early == [] && OrderIndifferent(LeadOf(line, 0))
  {
    hide StyleAfter;
    if line != [] { NothingEarly(line[..|line| - 1]); }
    var late := LeadOf(line, 0).late;
    assert late + [] == [] + late;
  }

  /** What is kept from column 0 on begins in column 0. */
  lemma {:induction false} KeptFromStart(line: seq<Item>, endCol: nat)
    ensures FirstCol(Within(Spots(PLAIN, line, 0), 0, endCol), 0) == 0
    ensures Within(Spots(PLAIN, line, 0), 0, endCol) == [] ==> Width(line) > endCol || Spots(PLAIN, line, 0) == [] || endCol == 0
  {
    hide Process, StyleAfter;
    if line != [] {
      var init, item := line[..|line| - 1], line[|line| - 1];
      assert line == init + [item];
      KeptFromStart(init, endCol);
      KeptNext(init, item, 0, endCol);
      SpotsNext(PLAIN, init, item, 0);
      NoSpotsNoWidth(PLAIN, init, 0);
    }
  }

  lemma {:induction false} NoSpotsNoWidth(s: Style, items: seq<Item>, col: int)
    ensures Spots(s, items, col) == [] ==> Width(items) == 0
    decreases |items|
  {
    if items != [] && items[0].Ansi? { NoSpotsNoWidth(Process(s, items[0].code), items[1..], col); }
  }

  const ON := Ansi(UNDERLINE_ON)
  const OFF := Ansi(UNDERLINE_OFF)
  const LETTER := Glyph(Grapheme("a", 1, false, false))
  const HALF_UNDERLINED := [ON, LETTER, OFF, LETTER]

  /** A line whose underline ends before its second column: sliced from there, the second letter is underlined. */
  lemma {:induction false} SliceMayRestyle()
    ensures WellFormed(HALF_UNDERLINED) && Within(Spots(PLAIN, HALF_UNDERLINED, 0), 1, 2) != []
    ensures !OrderIndifferent(LeadOf(HALF_UNDERLINED, 1))
  {
    hide Process, StyleAfter, Spots, Within, LeadOf, Width;
    UnderlineSwitches();
    HalfLead();
    HalfKept();
  }

  lemma {:induction false} HalfLead()
    ensures LeadOf(HALF_UNDERLINED, 1) == Lead([ON], [OFF], 2, true)
  {
    hide LeadOf;
    NothingLeads(1);
    assert HALF_UNDERLINED == [] + [ON] + [LETTER] + [OFF] + [LETTER];
    LeadNext([], ON, 1);
    LeadNext([] + [ON], LETTER, 1);
    LeadNext([] + [ON] + [LETTER], OFF, 1);
    LeadNext([] + [ON] + [LETTER] + [OFF], LETTER, 1);
  }

  lemma {:induction false} NothingLeads(startCol: nat)
    ensures LeadOf([], startCol) == Lead([], [], 0, false)
  {
  }

  lemma {:induction false} HalfKept()
    ensures Within(Spots(PLAIN, HALF_UNDERLINED, 0), 1, 2) != []
  {
    hide Process, StyleAfter, Spots, Within, Width;
    assert HALF_UNDERLINED == [] + [ON] + [LETTER] + [OFF] + [LETTER];
    NothingShown(0);
    SpotsNext(PLAIN, [], ON, 0);
    SpotsNext(PLAIN, [] + [ON], LETTER, 0);
    SpotsNext(PLAIN, [] + [ON] + [LETTER], OFF, 0);
    KeptNext([] + [ON] + [LETTER] + [OFF], LETTER, 1, 2);
  }

  lemma {:induction false} UnderlineSwitches()
    ensures IsCode(UNDERLINE_ON) && IsCode(UNDERLINE_OFF)
    ensures StyleAfter(PLAIN, [Ansi(UNDERLINE_OFF)] + [Ansi(UNDERLINE_ON)]) != StyleAfter(PLAIN, [Ansi(UNDERLINE_ON)] + [Ansi(UNDERLINE_OFF)])
  {
    hide Process, StyleAfter;
    var on, off := Ansi(UNDERLINE_ON), Ansi(UNDERLINE_OFF);
    UnderlineOn(PLAIN);
    UnderlineOff(PLAIN, "");
    var underlined, plain := Process(PLAIN, UNDERLINE_ON), Process(PLAIN, UNDERLINE_OFF);
    UnderlineOff(underlined, "");
    UnderlineOn(plain);
    OneItem(PLAIN, on);
    OneItem(PLAIN, off);
    OneItem(underlined, off);
    OneItem(plain, on);
    StyleConcat(PLAIN, [on], [off]);
    StyleConcat(PLAIN, [off], [on]);
    assert 4 in Process(plain, UNDERLINE_ON).attrs && 4 !in Process(underlined, UNDERLINE_OFF).attrs;
  }

  // ---- the two segments of the base line ----

  /** What was kept behind the overlay ends where the line was read to, in the style it has there. */
  ghost predicate Continues(st: Segments, behind: seq<Spot>, afterStart: nat)
    requires behind != []
  {
    && afterStart <= st.col && StyleAfter(PLAIN, st.after) == st.style
    && behind[0].col + Width(st.after) == st.col
  }

  /** Codes stay with the graphemes before the cut; those behind it continue in the style they had, from the first one on. */
  ghost predicate Segmented(st: Segments, read: seq<Item>, cut: Cut) {
    var spots := Spots(PLAIN, read, 0);
    var afterEnd := cut.afterStart + Max(0, cut.afterLen);
    var behind := Within(spots, cut.afterStart, afterEnd);
    && Spots(PLAIN, st.before, 0) == Within(spots, 0, cut.beforeEnd)
    && Spots(PLAIN, st.after, FirstCol(behind, cut.afterStart)) == behind
    && (cut.afterLen <= 0 ==> behind == [])
    && (if st.done then Width(read) >= (if cut.afterLen <= 0 then cut.beforeEnd else afterEnd)
        else
          && st.col == Width(read) && (if cut.afterLen <= 0 then st.col < cut.beforeEnd || st.col == 0 else st.col < afterEnd)
          && st.style == StyleAfter(PLAIN, read) && Reachable(st.style)
          && (st.col < cut.beforeEnd ==> st.before + st.pending == read && OnlyCodes(st.pending))
          && (st.started <==> behind != [])
          && (st.started ==> Continues(st, behind, cut.afterStart))
          && (!st.started ==> st.after == []))
  }

  predicate Next(st: Segments, item: Item, cut: Cut) {
    !st.done && cut.beforeEnd <= cut.afterStart && (item.Ansi? ==> IsCode(item.code))
  }

  lemma {:induction false} SegmentPast(st: Segments, read: seq<Item>, item: Item, cut: Cut)
    requires Segmented(st, read, cut) && st.done && cut.beforeEnd <= cut.afterStart
    ensures Segmented(st, read + [item], cut)
  {
    hide Process, Spots, StyleAfter, Width, Within;
    var afterEnd := cut.afterStart + Max(0, cut.afterLen);
    KeptNext(read, item, 0, cut.beforeEnd);
    KeptNext(read, item, cut.afterStart, afterEnd);
    SpotsNext(PLAIN, read, item, 0);
    var x, y := Within(Spots(PLAIN, read, 0), 0, cut.beforeEnd), Within(Spots(PLAIN, read, 0), cut.afterStart, afterEnd);
    assert x + [] == x && y + [] == y;
  }

  lemma {:induction false} SegmentCode(st: Segments, read: seq<Item>, item: Item, cut: Cut)
    requires Segmented(st, read, cut) && Next(st, item, cut) && item.Ansi?
    ensures Segmented(SegmentItem(st, item, cut, true), read + [item], cut)
  {
    hide Process, Spots, StyleAfter, Width, Within, Reachable;
    var afterEnd := cut.afterStart + Max(0, cut.afterLen);
    ProcessKeepsReachable(st.style, item.code);
    KeptNext(read, item, 0, cut.beforeEnd);
    KeptNext(read, item, cut.afterStart, afterEnd);
    SpotsNext(PLAIN, read, item, 0);
    var x, y := Within(Spots(PLAIN, read, 0), 0, cut.beforeEnd), Within(Spots(PLAIN, read, 0), cut.afterStart, afterEnd);
    assert x + [] == x && y + [] == y;
    SpotsNext(PLAIN, st.after, item, FirstCol(y, cut.afterStart));
    assert st.before + (st.pending + [item]) == st.before + st.pending + [item];
  }

  lemma {:induction false} GlyphBefore(st: Segments, read: seq<Item>, item: Item, cut: Cut)
    requires Segmented(st, read, cut) && Next(st, item, cut) && item.Glyph?
    requires st.col < cut.beforeEnd && st.col + item.g.width <= cut.beforeEnd
    ensures Segmented(SegmentItem(st, item, cut, true), read + [item], cut)
  {
    hide Process, Spots, StyleAfter, Width, Within, Reachable;
    var afterEnd := cut.afterStart + Max(0, cut.afterLen);
    KeptNext(read, item, 0, cut.beforeEnd);
    KeptNext(read, item, cut.afterStart, afterEnd);
    SpotsNext(PLAIN, read, item, 0);
    SpotsConcat(PLAIN, st.before, st.pending, 0);
    CodesShowNothing(StyleAfter(PLAIN, st.before), st.pending, 0 + Width(st.before));
    var y := Within(Spots(PLAIN, read, 0), cut.afterStart, afterEnd);
    assert y + [] == y;
    assert Spots(PLAIN, st.before, 0) + [] == Spots(PLAIN, st.before, 0);
  }

  /** A grapheme under the overlay, or cut at a border, is in neither segment. */
  lemma {:induction false} GlyphSkipped(st: Segments, read: seq<Item>, item: Item, cut: Cut)
    requires Segmented(st, read, cut) && Next(st, item, cut) && item.Glyph?
    requires st.col >= cut.beforeEnd || st.col + item.g.width > cut.beforeEnd
    requires !(cut.afterStart <= st.col && st.col + item.g.width <= cut.afterStart + cut.afterLen && cut.afterLen > 0)
    ensures Segmented(SegmentItem(st, item, cut, true), read + [item], cut)
  {
    hide Process, Spots, StyleAfter, Width, Within, Reachable;
    var afterEnd := cut.afterStart + Max(0, cut.afterLen);
    KeptNext(read, item, 0, cut.beforeEnd);
    KeptNext(read, item, cut.afterStart, afterEnd);
    SpotsNext(PLAIN, read, item, 0);
    var x, y := Within(Spots(PLAIN, read, 0), 0, cut.beforeEnd), Within(Spots(PLAIN, read, 0), cut.afterStart, afterEnd);
    assert x + [] == x && y + [] == y;
  }

  /** The part behind the overlay after one more grapheme. */
  lemma {:induction false} AfterGrows(st: Segments, item: Item, col: int)
    requires item.Glyph? && Reachable(st.style)
    requires if st.started then StyleAfter(PLAIN, st.after) == st.style else st.after == []
    ensures var after := st.after + (if st.started then [] else ActiveItems(st.style)) + [item];
      && Spots(PLAIN, after, col) == Spots(PLAIN, st.after, col) + [Spot(col + Width(st.after), Cell(item.g, st.style))]
      && StyleAfter(PLAIN, after) == st.style && Width(after) == Width(st.after) + item.g.width
  {
    hide Process, Reachable, ActiveItems;
    var front := st.after + (if st.started then [] else ActiveItems(st.style));
    ActiveItemsRestore(st.style);
    assert front == if st.started then st.after else ActiveItems(st.style);
    CodesShowNothing(PLAIN, ActiveItems(st.style), col);
    SpotsNext(PLAIN, front, item, col);
  }

  lemma {:induction false} GlyphAfter(st: Segments, read: seq<Item>, item: Item, cut: Cut)
    requires Segmented(st, read, cut) && Next(st, item, cut) && item.Glyph?
    requires st.col >= cut.beforeEnd || st.col + item.g.width > cut.beforeEnd
    requires cut.afterStart <= st.col && st.col + item.g.width <= cut.afterStart + cut.afterLen && cut.afterLen > 0
    ensures Segmented(SegmentItem(st, item, cut, true), read + [item], cut)
  {
    hide Process, Spots, StyleAfter, Width, Within, Reachable, ActiveItems;
    var afterEnd := cut.afterStart + Max(0, cut.afterLen);
    KeptNext(read, item, 0, cut.beforeEnd);
    KeptNext(read, item, cut.afterStart, afterEnd);
    SpotsNext(PLAIN, read, item, 0);
    var x, y := Within(Spots(PLAIN, read, 0), 0, cut.beforeEnd), Within(Spots(PLAIN, read, 0), cut.afterStart, afterEnd);
    assert x + [] == x;
    AfterGrows(st, item, if y == [] then st.col else y[0].col);
    NothingShown(st.col);
  }

  lemma {:induction false} SegmentStep(st: Segments, read: seq<Item>, item: Item, cut: Cut)
    requires Segmented(st, read, cut) && cut.beforeEnd <= cut.afterStart && (item.Ansi? ==> IsCode(item.code))
    ensures Segmented(SegmentItem(st, item, cut, true), read + [item], cut)
  {
    hide Segmented;
    if st.done {
      SegmentPast(st, read, item, cut);
    } else if item.Ansi? {
      SegmentCode(st, read, item, cut);
    } else if st.col < cut.beforeEnd && st.col + item.g.width <= cut.beforeEnd {
      GlyphBefore(st, read, item, cut);
    } else if cut.afterStart <= st.col && st.col + item.g.width <= cut.afterStart + cut.afterLen && cut.afterLen > 0 {
      GlyphAfter(st, read, item, cut);
    } else {
      GlyphSkipped(st, read, item, cut);
    }
  }

  /**
   * The segments before and behind an overlay show the graphemes that lie inside their columns, with their styles;
   * those behind it one after the other, from whatever column the first of them begins in.
   */
  lemma {:induction false} SegmentsShow(line: seq<Item>, cut: Cut)
    requires WellFormed(line) && cut.beforeEnd <= cut.afterStart
    ensures Segmented(ExtractSegments(line, cut, true), line, cut)
  {
    hide Segmented, SegmentItem;
    if line == [] {
      NoSegments(cut);
    } else {
      var init := line[..|line| - 1];
      SegmentsShow(init, cut);
      SegmentStep(ExtractSegments(init, cut, true), init, line[|line| - 1], cut);
      assert line == init + [line[|line| - 1]];
    }
  }

  lemma {:induction false} NoSegments(cut: Cut)
    ensures Segmented(ExtractSegments([], cut, true), [], cut)
  {
    PlainIsReachable();
  }

  // ---- what is behind an overlay may move ----

  predicate Straddles(p: Spot, col: int) { p.col < col < EndOf(p) }

  predicate NoneStraddles(spots: seq<Spot>, col: int) { forall k :: 0 <= k < |spots| ==> !Straddles(spots[k], col) }

  lemma {:induction false} StraddlesNext(spots: seq<Spot>, p: Spot, col: int)
    ensures NoneStraddles(spots + [p], col) <==> NoneStraddles(spots, col) && !Straddles(p, col)
  {
    assert forall k :: 0 <= k < |spots| ==> (spots + [p])[k] == spots[k];
    assert (spots + [p])[|spots|] == p;
  }

  /** How far the line was read, when nothing or something behind column `col` was met. */
  predicate MetBehind(spots: seq<Spot>, kept: seq<Spot>, width: nat, col: nat, to: nat) {
    if kept == [] then if NoneStraddles(spots, col) then width <= col || width > to else width > col
    else width >= col && (kept[0].col == col <==> NoneStraddles(spots, col))
  }

  /**
   * The first grapheme behind column `col` begins there exactly when none straddles it. Whatever is kept behind an
   * overlay is put from that column on, so it keeps its place exactly then.
   */
  lemma {:induction false} FirstBehind(line: seq<Item>, col: nat, to: nat)
    ensures var spots := Spots(PLAIN, line, 0); MetBehind(spots, Within(spots, col, to), Width(line), col, to)
  {
    hide Process, StyleAfter, NoneStraddles;
    if line == [] {
      NoStraddler(col);
    } else {
      var init, item := line[..|line| - 1], line[|line| - 1];
      assert line == init + [item];
      FirstBehind(init, col, to);
      KeptNext(init, item, col, to);
      SpotsNext(PLAIN, init, item, 0);
      var spots := Spots(PLAIN, init, 0);
      if item.Glyph? {
        StraddlesNext(spots, Spot(Width(init), Cell(item.g, StyleAfter(PLAIN, init))), col);
      } else {
        assert spots + [] == spots;
      }
    }
  }

  lemma {:induction false} NoStraddler(col: nat)
    ensures NoneStraddles([], col)
  {
  }
}
