/** The word wrapper. */
module TextWrap {
  import opened AnsiCodes
  import opened StyledText

  // ---- splitIntoTokensWithAnsi ----

  datatype SplitState = SplitState(tokens: seq<seq<Item>>, current: seq<Item>, pending: seq<Item>, word: bool)

  function Flush(st: SplitState): SplitState {
    if st.current == [] then st else st.(tokens := st.tokens + [st.current], current := [])
  }

  function SplitItem(st: SplitState, item: Item): SplitState {
    match item
    case Ansi(_) => st.(pending := st.pending + [item])
    case Glyph(g) =>
      var isSpace := g.text == " ";
      if !isSpace && g.cjk then
        var flushed := Flush(st);
        flushed.(tokens := flushed.tokens + [st.pending + [item]], pending := [])
      else
        var ready := if st.current != [] && st.word == isSpace then Flush(st) else st;
        ready.(current := ready.current + st.pending + [item], pending := [], word := !isSpace)
  }

  function SplitItems(items: seq<Item>): SplitState {
    if items == [] then SplitState([], [], [], false)
    else SplitItem(SplitItems(items[..|items| - 1]), items[|items| - 1])
  }

  /** Codes left over at the end go to the last token. */
  function FinishSplit(st: SplitState): seq<seq<Item>> {
    var last := |st.tokens| - 1;
    if st.pending == [] || st.current != [] || st.tokens == [] then
      Flush(st.(current := st.current + st.pending)).tokens
    else st.tokens[last := st.tokens[last] + st.pending]
  }

  function Tokens(items: seq<Item>): seq<seq<Item>> { FinishSplit(SplitItems(items)) }

  function Flatten(lines: seq<seq<Item>>): seq<Item> {
    if lines == [] then [] else Flatten(lines[..|lines| - 1]) + lines[|lines| - 1]
  }

  // ---- breakLongWord ----

  datatype BreakState = BreakState(lines: seq<seq<Item>>, current: seq<Item>, width: nat, style: Style)

  function BreakItem(st: BreakState, item: Item, width: nat): BreakState {
    match item
    case Ansi(code) => st.(current := st.current + [item], style := Process(st.style, code))
    case Glyph(g) =>
      if st.width + g.width > width then
        BreakState(st.lines + [st.current + ResetItems(st.style)], ActiveItems(st.style) + [item], g.width, st.style)
      else st.(current := st.current + [item], width := st.width + g.width)
  }

  function BreakItems(word: seq<Item>, width: nat, style: Style): BreakState {
    if word == [] then BreakState([], ActiveItems(style), 0, style)
    else BreakItem(BreakItems(word[..|word| - 1], width, style), word[|word| - 1], width)
  }

  function BrokenLines(st: BreakState): (lines: seq<seq<Item>>)
    ensures |lines| > 0
  {
    if st.current != [] then st.lines + [st.current] else if st.lines != [] then st.lines else [[]]
  }

  // ---- wrapSingleLine ----

  datatype WrapState = WrapState(wrapped: seq<seq<Item>>, current: seq<Item>, visible: nat, style: Style)

  function WrapLongToken(st: WrapState, token: seq<Item>, width: nat): WrapState {
    var flushed := if st.current != [] then st.wrapped + [st.current + ResetItems(st.style)] else st.wrapped;
    var b := BreakItems(token, width, st.style);
    var broken := BrokenLines(b);
    var last := |broken| - 1;
    WrapState(flushed + broken[..last], broken[last], Width(broken[last]), b.style)
  }

  function WrapToken(st: WrapState, token: seq<Item>, width: nat): WrapState {
    var tokenWidth := Width(token);
    if tokenWidth > width && !IsWhitespace(token) then WrapLongToken(st, token, width)
    else
      var style := StyleAfter(st.style, token);
      if st.visible + tokenWidth > width && st.visible > 0 then
        var wrapped := st.wrapped + [TrimEnd(st.current) + ResetItems(st.style)];
        if IsWhitespace(token) then WrapState(wrapped, ActiveItems(st.style), 0, style)
        else WrapState(wrapped, ActiveItems(st.style) + token, tokenWidth, style)
      else WrapState(st.wrapped, st.current + token, st.visible + tokenWidth, style)
  }

  function WrapTokens(tokens: seq<seq<Item>>, width: nat): WrapState {
    if tokens == [] then WrapState([], [], 0, PLAIN)
    else WrapToken(WrapTokens(tokens[..|tokens| - 1], width), tokens[|tokens| - 1], width)
  }

  function TrimLines(lines: seq<seq<Item>>): (r: seq<seq<Item>>)
    ensures |r| == |lines|
  {
    seq(|lines|, k requires 0 <= k < |lines| => TrimEnd(lines[k]))
  }

  /** All lines of a finished state, before trailing whitespace is trimmed. */
  function AllLines(st: WrapState): seq<seq<Item>> {
    if st.current != [] then st.wrapped + [st.current] else st.wrapped
  }

  function WrapSingleLine(line: seq<Item>, width: nat): seq<seq<Item>> {
    if line == [] then [[]]
    else if Width(line) <= width then [line]
    else
      var lines := AllLines(WrapTokens(Tokens(line), width));
      if lines == [] then [[]] else TrimLines(lines)
  }

  // ---- wrapTextWithAnsi ----

  /** text.split("\n"). */
  function SplitLines(text: seq<Item>): (lines: seq<seq<Item>>)
    ensures |lines| > 0
  {
    if text == [] then [[]]
    else
      var before := SplitLines(text[..|text| - 1]);
      var last := |before| - 1;
      if text[|text| - 1] == Glyph(NEWLINE) then before + [[]]
      else before[last := before[last] + [text[|text| - 1]]]
  }

  function JoinLines(lines: seq<seq<Item>>): seq<Item> {
    if |lines| == 0 then []
    else if |lines| == 1 then lines[0]
    else JoinLines(lines[..|lines| - 1]) + [Glyph(NEWLINE)] + lines[|lines| - 1]
  }

  datatype TextState = TextState(result: seq<seq<Item>>, style: Style)

  function WrapLine(st: TextState, line: seq<Item>, width: nat): TextState {
    var prefix := if st.result != [] then ActiveItems(st.style) else [];
    TextState(st.result + WrapSingleLine(prefix + line, width), StyleAfter(st.style, line))
  }

  function WrapLines(lines: seq<seq<Item>>, width: nat): TextState {
    if lines == [] then TextState([], PLAIN)
    else WrapLine(WrapLines(lines[..|lines| - 1], width), lines[|lines| - 1], width)
  }

  function WrapText(text: seq<Item>, width: nat): seq<seq<Item>> {
    if text == [] then [[]] else WrapLines(SplitLines(text), width).result
  }
}
