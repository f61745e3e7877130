/** The loops of the text utilities. */
module TextUtils {
  import opened AnsiCodes
  import opened AnsiTracker
  import opened StyledText
  import opened TextWrap
  import opened Overlay

  /** Splits text into runs of spaces and words, codes staying with the grapheme they precede. */
  method SplitIntoTokensWithAnsi(text: seq<Item>) returns (tokens: seq<seq<Item>>)
    ensures tokens == Tokens(text)
  {
    tokens := [];
    var current, pending := [], [];
    var word := false;
    for i := 0 to |text|
      invariant SplitState(tokens, current, pending, word) == SplitItems(text[..i])
    {
      assert text[..i + 1][..i] == text[..i];
      match text[i]
      case Ansi(_) => pending := pending + [text[i]];
      case Glyph(g) =>
        var isSpace := g.text == " ";
        if !isSpace && g.cjk {
          if current != [] {
            tokens := tokens + [current];
            current := [];
          }
          tokens := tokens + [pending + [text[i]]];
          pending := [];
        } else {
          if current != [] && word == isSpace {
            tokens := tokens + [current];
            current := [];
          }
          current := current + pending + [text[i]];
          pending := [];
          word := !isSpace;
        }
    }
    assert text[..|text|] == text;
    ghost var st := SplitItems(text);
    if pending != [] {
      if current != [] || tokens == [] {
        current := current + pending;
      } else {
        tokens := tokens[|tokens| - 1 := tokens[|tokens| - 1] + pending];
      }
    } else {
      assert current + pending == current;
    }
    if current != [] {
      tokens := tokens + [current];
    }
  }

  /** The active codes as items a later scan will find. */
  method ActiveItemsOf(tracker: AnsiCodeTracker) returns (items: seq<Item>)
    ensures items == ActiveItems(tracker.Now())
  {
    var text := tracker.GetActiveCodes();
    var codes: seq<string> := [];
    var i := 0;
    while i < |text|
      invariant 0 <= i <= |text|
      invariant codes + CodesFrom(text, i) == CodesFrom(text, 0)
    {
      var length := ExtractAnsiCode(text, i);
      if length > 0 {
        var code := text[i..i + length];
        ConsMoves(codes, code, CodesFrom(text, i + length));
        codes := codes + [code];
        i := i + length;
      } else {
        i := i + 1;
      }
    }
    assert codes + [] == codes;
    items := AsItems(codes);
  }

  lemma {:induction false} ConsMoves(a: seq<string>, x: string, b: seq<string>)
    ensures a + ([x] + b) == (a + [x]) + b
  {
  }

  method ResetItemsOf(tracker: AnsiCodeTracker) returns (items: seq<Item>)
    ensures items == ResetItems(tracker.Now())
  {
    items := [];
    if tracker.underline {
      items := items + [Ansi([ESC, '[', '2', '4', 'm'])];
    }
    if tracker.activeHyperlink.Some? {
      items := items + [Ansi(FormatClose(tracker.activeHyperlink.value.terminator))];
    }
    assert tracker.underline <==> 4 in tracker.Flags();
  }

  method UpdateTracker(items: seq<Item>, tracker: AnsiCodeTracker)
    modifies tracker
    ensures tracker.Now() == StyleAfter(old(tracker.Now()), items)
  {
    var i := 0;
    assert items[0..] == items;
    while i < |items|
      invariant 0 <= i <= |items|
      invariant StyleAfter(tracker.Now(), items[i..]) == StyleAfter(old(tracker.Now()), items)
    {
      assert items[i..][1..] == items[i + 1..];
      if items[i].Ansi? {
        tracker.Process(items[i].code);
      }
      i := i + 1;
    }
  }

  /** Breaks an over-long word into lines of at most `width` columns; the last one stays open. */
  method BreakLongWord(word: seq<Item>, width: nat, tracker: AnsiCodeTracker) returns (lines: seq<seq<Item>>)
    modifies tracker
    ensures var b := BreakItems(word, width, old(tracker.Now())); lines == BrokenLines(b) && tracker.Now() == b.style
  {
    hide Process, ActiveItems, ResetItems;
    lines := [];
    var current := ActiveItemsOf(tracker);
    var currentWidth: nat := 0;
    for i := 0 to |word|
      invariant BreakState(lines, current, currentWidth, tracker.Now()) == BreakItems(word[..i], width, old(tracker.Now()))
    {
      assert word[..i + 1][..i] == word[..i];
      match word[i]
      case Ansi(code) =>
        current := current + [word[i]];
        tracker.Process(code);
      case Glyph(g) =>
        if currentWidth + g.width > width {
          var reset := ResetItemsOf(tracker);
          lines := lines + [current + reset];
          current := ActiveItemsOf(tracker);
          currentWidth := 0;
        }
        current := current + [word[i]];
        currentWidth := currentWidth + g.width;
    }
    assert word[..|word|] == word;
    if current != [] {
      lines := lines + [current];
    } else if lines == [] {
      lines := [[]];
    }
  }

  /** Adds one token to the line being built, or closes that line first. */
  method AddToken(wrapped: seq<seq<Item>>, current: seq<Item>, visible: nat, tracker: AnsiCodeTracker,
      token: seq<Item>, width: nat)
    returns (wrapped': seq<seq<Item>>, current': seq<Item>, visible': nat)
    modifies tracker
    ensures WrapState(wrapped', current', visible', tracker.Now()) ==
      WrapToken(WrapState(wrapped, current, visible, old(tracker.Now())), token, width)
  {
    wrapped', current', visible' := wrapped, current, visible;
    var tokenWidth := Width(token);
    var isWhitespace := IsWhitespace(token);
    if tokenWidth > width && !isWhitespace {
      if current != [] {
        var reset := ResetItemsOf(tracker);
        wrapped' := wrapped + [current + reset];
      }
      var broken := BreakLongWord(token, width, tracker);
      wrapped' := wrapped' + broken[..|broken| - 1];
      current' := broken[|broken| - 1];
      visible' := Width(current');
      return;
    }
    if visible + tokenWidth > width && visible > 0 {
      var reset := ResetItemsOf(tracker);
      wrapped' := wrapped + [TrimEnd(current) + reset];
      var codes := ActiveItemsOf(tracker);
      if isWhitespace {
        current', visible' := codes, 0;
      } else {
        current', visible' := codes + token, tokenWidth;
      }
    } else {
      current', visible' := current + token, visible + tokenWidth;
    }
    UpdateTracker(token, tracker);
  }

  method WrapOneLine(line: seq<Item>, width: nat) returns (lines: seq<seq<Item>>)
    ensures lines == WrapSingleLine(line, width)
  {
    if line == [] {
      return [[]];
    }
    if Width(line) <= width {
      return [line];
    }
    var tracker := new AnsiCodeTracker();
    var tokens := SplitIntoTokensWithAnsi(line);
    var wrapped: seq<seq<Item>> := [];
    var current: seq<Item> := [];
    var visible := 0;
    for i := 0 to |tokens|
      invariant WrapState(wrapped, current, visible, tracker.Now()) == WrapTokens(tokens[..i], width)
    {
      assert tokens[..i + 1][..i] == tokens[..i];
      wrapped, current, visible := AddToken(wrapped, current, visible, tracker, tokens[i], width);
    }
    assert tokens[..|tokens|] == tokens;
    if current != [] {
      wrapped := wrapped + [current];
    }
    lines := if wrapped == [] then [[]] else TrimLines(wrapped);
  }

  /** Wraps text line by line, carrying the style over newlines. */
  method WrapTextWithAnsi(text: seq<Item>, width: nat) returns (result: seq<seq<Item>>)
    ensures result == WrapText(text, width)
  {
    hide WrapSingleLine, ActiveItems, StyleAfter, SplitLines;
    if text == [] {
      return [[]];
    }
    var inputLines := SplitLines(text);
    var tracker := new AnsiCodeTracker();
    result := [];
    for i := 0 to |inputLines|
      invariant TextState(result, tracker.Now()) == WrapLines(inputLines[..i], width)
    {
      assert inputLines[..i + 1][..i] == inputLines[..i];
      var prefix: seq<Item> := [];
      if result != [] {
        prefix := ActiveItemsOf(tracker);
      }
      var lines := WrapOneLine(prefix + inputLines[i], width);
      result := result + lines;
      UpdateTracker(inputLines[i], tracker);
    }
    assert inputLines[..|inputLines|] == inputLines;
  }

  /** The part of a line in columns [startCol, startCol + length). */
  method SliceColumns(line: seq<Item>, startCol: nat, length: nat, strict: bool) returns (text: seq<Item>, width: nat)
    ensures var st := SliceWithWidth(line, startCol, length, strict); text == st.text && width == st.width
  {
    text, width := [], 0;
    if length == 0 {
      return;
    }
    var endCol := startCol + length;
    var currentCol: nat := 0;
    var pending: seq<Item> := [];
    var i := 0;
    while i < |line|
      invariant 0 <= i <= |line|
      invariant SliceItems(line[..i], startCol, endCol, strict) == Slice(text, width, currentCol, pending, false)
    {
      assert line[..i + 1][..i] == line[..i];
      match line[i] {
        case Ansi(_) =>
          if startCol <= currentCol < endCol {
            text := text + [line[i]];
          } else if currentCol < startCol {
            pending := pending + [line[i]];
          }
        case Glyph(g) =>
          var inRange := startCol <= currentCol < endCol;
          var fits := !strict || currentCol + g.width <= endCol;
          if inRange && fits {
            text := text + pending + [line[i]];
            pending := [];
            width := width + g.width;
          }
          currentCol := currentCol + g.width;
          if currentCol >= endCol {
            SliceStops(line, i + 1, startCol, endCol, strict);
            return;
          }
      }
      i := i + 1;
    }
    assert line[..|line|] == line;
  }

  /** Once a slice is done, the rest of the line changes nothing. */
  lemma {:induction false} SliceStops(line: seq<Item>, n: nat, startCol: nat, endCol: nat, strict: bool)
    requires n <= |line| && SliceItems(line[..n], startCol, endCol, strict).done
    ensures SliceItems(line, startCol, endCol, strict) == SliceItems(line[..n], startCol, endCol, strict)
  {
    if n == |line| {
      assert line[..n] == line;
    } else {
      var init := line[..|line| - 1];
      assert init[..n] == line[..n];
      SliceStops(init, n, startCol, endCol, strict);
    }
  }

  lemma {:induction false} SegmentsStop(line: seq<Item>, n: nat, cut: Cut, strict: bool)
    requires n <= |line| && ExtractSegments(line[..n], cut, strict).done
    ensures ExtractSegments(line, cut, strict) == ExtractSegments(line[..n], cut, strict)
  {
    if n == |line| {
      assert line[..n] == line;
    } else {
      var init := line[..|line| - 1];
      assert init[..n] == line[..n];
      SegmentsStop(init, n, cut, strict);
    }
  }

  /** The columns before and after an overlay, in one pass. */
  method SplitAround(line: seq<Item>, cut: Cut, strict: bool) returns (st: Segments)
    ensures st == ExtractSegments(line, cut, strict)
  {
    st := Segments([], 0, [], 0, 0, [], false, PLAIN, false);
    var i := 0;
    while i < |line|
      invariant 0 <= i <= |line|
      invariant st == ExtractSegments(line[..i], cut, strict)
    {
      assert line[..i + 1][..i] == line[..i];
      st := SegmentItem(st, line[i], cut, strict);
      i := i + 1;
      if st.done {
        SegmentsStop(line, i, cut, strict);
        return;
      }
    }
    assert line[..|line|] == line;
  }
}
