/** Text and what it looks like. */
module StyledText {
  import opened AnsiCodes
  import opened AnsiParams
  import opened AnsiRoundTrip

  /** A grapheme cluster: its visible width, whether trimming strips it, and whether lines may break around it. */
  datatype Grapheme = Grapheme(text: string, width: nat, space: bool, cjk: bool)

  datatype Item = Ansi(code: string) | Glyph(g: Grapheme)

  datatype Cell = Cell(g: Grapheme, style: Style)

  const SPACE := Grapheme(" ", 1, true, false)
  const NEWLINE := Grapheme("\n", 0, true, false)

  /** Every code is one that extractAnsiCode finds. */
  predicate WellFormed(items: seq<Item>) {
    forall k :: 0 <= k < |items| && items[k].Ansi? ==> IsCode(items[k].code)
  }

  function StyleAfter(s: Style, items: seq<Item>): Style
    decreases |items|
  {
    if items == [] then s
    else StyleAfter(if items[0].Ansi? then Process(s, items[0].code) else s, items[1..])
  }

  function Cells(s: Style, items: seq<Item>): seq<Cell>
    decreases |items|
  {
    if items == [] then []
    else
      match items[0]
      case Ansi(code) => Cells(Process(s, code), items[1..])
      case Glyph(g) => [Cell(g, s)] + Cells(s, items[1..])
  }

  function Width(items: seq<Item>): nat
    decreases |items|
  {
    if items == [] then 0 else (if items[0].Glyph? then items[0].g.width else 0) + Width(items[1..])
  }

  lemma {:induction false} StyleConcat(s: Style, a: seq<Item>, b: seq<Item>)
    ensures StyleAfter(s, a + b) == StyleAfter(StyleAfter(s, a), b)
    decreases |a|
  {
    hide Process;
    if a == [] {
      assert a + b == b;
    } else {
      StyleConcat(if a[0].Ansi? then Process(s, a[0].code) else s, a[1..], b);
      assert (a + b)[1..] == a[1..] + b;
    }
  }

  lemma {:induction false} CellsConcat(s: Style, a: seq<Item>, b: seq<Item>)
    ensures Cells(s, a + b) == Cells(s, a) + Cells(StyleAfter(s, a), b)
    decreases |a|
  {
    hide Process;
    if a == [] {
      assert a + b == b;
    } else {
      CellsConcat(if a[0].Ansi? then Process(s, a[0].code) else s, a[1..], b);
      assert (a + b)[1..] == a[1..] + b;
    }
  }

  lemma {:induction false} WidthConcat(a: seq<Item>, b: seq<Item>)
    ensures Width(a + b) == Width(a) + Width(b)
    decreases |a|
  {
    if a == [] {
      assert a + b == b;
    } else {
      WidthConcat(a[1..], b);
      assert (a + b)[1..] == a[1..] + b;
    }
  }

  lemma {:induction false} OneItem(s: Style, item: Item)
    ensures StyleAfter(s, [item]) == if item.Ansi? then Process(s, item.code) else s
    ensures Cells(s, [item]) == if item.Ansi? then [] else [Cell(item.g, s)]
    ensures Width([item]) == if item.Ansi? then 0 else item.g.width
  {
    assert [item][1..] == [];
  }

  lemma {:induction false} ReachableAfter(s: Style, items: seq<Item>)
    requires Reachable(s) && WellFormed(items)
    ensures Reachable(StyleAfter(s, items))
    decreases |items|
  {
    if items != [] {
      if items[0].Ansi? { ProcessKeepsReachable(s, items[0].code); }
      ReachableAfter(if items[0].Ansi? then Process(s, items[0].code) else s, items[1..]);
    }
  }

  // ---- the codes a tracker prints ----

  predicate OnlyCodes(items: seq<Item>) { forall k :: 0 <= k < |items| ==> items[k].Ansi? }

  function AsItems(codes: seq<string>): (items: seq<Item>)
    ensures |items| == |codes| && OnlyCodes(items)
  {
    seq(|codes|, k requires 0 <= k < |codes| => Ansi(codes[k]))
  }

  /** getActiveCodes, as the codes that a later scan of the line will find. */
  function ActiveItems(s: Style): (items: seq<Item>)
    ensures OnlyCodes(items)
  {
    AsItems(CodesFrom(GetActiveCodes(s), 0))
  }

  /** getLineEndReset: underline off and hyperlink closed. */
  function ResetItems(s: Style): (items: seq<Item>)
    ensures OnlyCodes(items)
    ensures items == [] <==> GetLineEndReset(s) == ""
  {
    (if 4 in s.attrs then [Ansi([ESC, '[', '2', '4', 'm'])] else []) +
    (if s.link.Some? then [Ansi(FormatClose(s.link.value.terminator))] else [])
  }

  lemma {:induction false} CodesAreInvisible(s: Style, items: seq<Item>)
    requires OnlyCodes(items)
    ensures Cells(s, items) == [] && Width(items) == 0
    decreases |items|
  {
    if items != [] { CodesAreInvisible(Process(s, items[0].code), items[1..]); }
  }

  lemma {:induction false} ItemsProcess(s: Style, codes: seq<string>)
    ensures StyleAfter(s, AsItems(codes)) == ProcessAll(s, codes)
    decreases |codes|
  {
    if codes != [] {
      ItemsProcess(Process(s, codes[0]), codes[1..]);
      assert AsItems(codes)[1..] == AsItems(codes[1..]);
    }
  }

  /** Starting a line with the active codes continues in the style that was active. */
  lemma {:induction false} ActiveItemsRestore(s: Style)
    requires Reachable(s)
    ensures StyleAfter(PLAIN, ActiveItems(s)) == s && Cells(PLAIN, ActiveItems(s)) == [] && Width(ActiveItems(s)) == 0
  {
    ItemsProcess(PLAIN, CodesFrom(GetActiveCodes(s), 0));
    TrackerRoundTrip(s);
    CodesAreInvisible(PLAIN, ActiveItems(s));
  }

  // ---- trimming, and what may be lost ----

  predicate IsSpaceItem(item: Item) { item.Glyph? && item.g.space }

  /** String.trimEnd: a code at the end stops it. */
  function TrimEnd(items: seq<Item>): (r: seq<Item>)
    ensures |r| <= |items| && r == items[..|r|]
    ensures forall k :: |r| <= k < |items| ==> IsSpaceItem(items[k])
    ensures r != [] ==> !IsSpaceItem(r[|r| - 1])
  {
    if items != [] && IsSpaceItem(items[|items| - 1]) then TrimEnd(items[..|items| - 1]) else items
  }

  /** token.trim() === "". */
  predicate IsWhitespace(items: seq<Item>) { forall k :: 0 <= k < |items| ==> IsSpaceItem(items[k]) }

  /** `kept` is `full` with some whitespace cells left out, everything else in place with its style. */
  predicate DropsOnlySpace(full: seq<Cell>, kept: seq<Cell>)
    decreases |full|
  {
    if full == [] then kept == []
    else
      || (kept != [] && kept[0] == full[0] && DropsOnlySpace(full[1..], kept[1..]))
      || (full[0].g.space && DropsOnlySpace(full[1..], kept))
  }

  lemma {:induction false} DropsNothing(cells: seq<Cell>)
    ensures DropsOnlySpace(cells, cells)
    decreases |cells|
  {
    if cells != [] { DropsNothing(cells[1..]); }
  }

  lemma {:induction false} DropsAll(cells: seq<Cell>)
    requires forall k :: 0 <= k < |cells| ==> cells[k].g.space
    ensures DropsOnlySpace(cells, [])
    decreases |cells|
  {
    if cells != [] { DropsAll(cells[1..]); }
  }

  lemma {:induction false} DropsConcat(a: seq<Cell>, a': seq<Cell>, b: seq<Cell>, b': seq<Cell>)
    requires DropsOnlySpace(a, a') && DropsOnlySpace(b, b')
    ensures DropsOnlySpace(a + b, a' + b')
    decreases |a|
  {
    if a == [] {
      assert a + b == b && a' + b' == b';
    } else {
      assert (a + b)[1..] == a[1..] + b && (a + b)[0] == a[0];
      if a' != [] && a'[0] == a[0] && DropsOnlySpace(a[1..], a'[1..]) {
        assert (a' + b')[1..] == a'[1..] + b' && (a' + b')[0] == a'[0];
        DropsConcat(a[1..], a'[1..], b, b');
      } else {
        DropsConcat(a[1..], a', b, b');
      }
    }
  }

  lemma {:induction false} SpaceCells(s: Style, items: seq<Item>)
    requires IsWhitespace(items)
    ensures forall k :: 0 <= k < |Cells(s, items)| ==> Cells(s, items)[k].g.space
    ensures StyleAfter(s, items) == s
    decreases |items|
  {
    if items != [] { SpaceCells(s, items[1..]); }
  }

  lemma {:induction false} TrimDropsSpace(s: Style, items: seq<Item>)
    ensures DropsOnlySpace(Cells(s, items), Cells(s, TrimEnd(items)))
  {
    var kept := TrimEnd(items);
    var gone := items[|kept|..];
    assert items == kept + gone;
    CellsConcat(s, kept, gone);
    SpaceCells(StyleAfter(s, kept), gone);
    DropsNothing(Cells(s, kept));
    DropsAll(Cells(StyleAfter(s, kept), gone));
    DropsConcat(Cells(s, kept), Cells(s, kept), Cells(StyleAfter(s, kept), gone), []);
    assert Cells(s, kept) + [] == Cells(s, kept);
  }

  lemma {:induction false} TrimWidth(items: seq<Item>)
    ensures Width(TrimEnd(items)) <= Width(items)
  {
    var kept := TrimEnd(items);
    assert items == kept + items[|kept|..];
    WidthConcat(kept, items[|kept|..]);
  }
}
