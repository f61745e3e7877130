/** Where tokens end. */
module WrapBreaks {
  import opened StyledText
  import opened TextWrap
  import opened WrapMeaning

  // ---- told from the items ----

  predicate IsBlank(item: Item) { item.Glyph? && item.g.text == " " }

  /** A grapheme that lines may break around. */
  predicate IsBreaker(item: Item) { item.Glyph? && item.g.text != " " && item.g.cjk }

  /** Neighbouring graphemes that are never in one token. */
  predicate Apart(a: Item, b: Item) { IsBreaker(a) || IsBreaker(b) || IsBlank(a) != IsBlank(b) }

  /** The next grapheme from p on is the one at q. */
  predicate NextGlyph(items: seq<Item>, p: int, q: int) {
    0 <= p <= q < |items| && items[q].Glyph? && forall k :: p <= k < q ==> items[k].Ansi?
  }

  /** A token ends at p: right behind a grapheme, when the next one is of another kind or either is a breaker. Codes
      between them go with the next. */
  predicate Boundary(items: seq<Item>, p: int) {
    && 0 < p < |items| && items[p - 1].Glyph?
    && exists q :: p <= q < |items| && NextGlyph(items, p, q) && Apart(items[p - 1], items[q])
  }

  /** The end of the token that begins at p. */
  function TokenEnd(items: seq<Item>, p: nat): (r: nat)
    requires p < |items|
    ensures p < r <= |items| && (r < |items| ==> Boundary(items, r))
    ensures forall q :: p < q < r ==> !Boundary(items, q)
    decreases |items| - p
  {
    if p + 1 == |items| || Boundary(items, p + 1) then p + 1 else TokenEnd(items, p + 1)
  }

  lemma {:induction false} TokenEndIs(items: seq<Item>, p: nat, r: nat)
    requires p < r <= |items| && (r == |items| || Boundary(items, r))
    requires forall q :: p < q < r ==> !Boundary(items, q)
    ensures TokenEnd(items, p) == r
  {
  }

  // ---- what the splitter does ----

  /** The positions at which the tokens end. */
  function Ends(tokens: seq<seq<Item>>): set<int> {
    if tokens == [] then {} else Ends(tokens[..|tokens| - 1]) + {|Flatten(tokens)|}
  }

  lemma {:induction false} EndsNext(tokens: seq<seq<Item>>, token: seq<Item>)
    ensures Ends(tokens + [token]) == Ends(tokens) + {|Flatten(tokens)| + |token|}
  {
    assert (tokens + [token])[..|tokens|] == tokens;
    FlattenAppend(tokens, token);
  }

  function Init(tokens: seq<seq<Item>>): seq<seq<Item>> { if tokens == [] then [] else tokens[..|tokens| - 1] }

  /** The ends that are decided: those behind which a grapheme was read. */
  function Decided(st: SplitState): set<int> { if st.current != [] then Ends(st.tokens) else Ends(Init(st.tokens)) }

  /** What is known of the last grapheme read, which stands right before the pending codes. */
  predicate LastGlyph(st: SplitState, read: seq<Item>) {
    var n := |read| - |st.pending|;
    && 0 <= n && read[n..] == st.pending && OnlyCodes(st.pending)
    && (st.current == [] && st.tokens == [] ==> n == 0)
    && (st.current != [] || st.tokens != [] ==> n > 0 && read[n - 1].Glyph?)
    && (st.current != [] ==> IsBlank(read[n - 1]) == !st.word && !IsBreaker(read[n - 1]))
    && (st.current == [] && st.tokens != [] ==> IsBreaker(read[n - 1]))
  }

  predicate HasGlyph(items: seq<Item>) { exists k :: 0 <= k < |items| && items[k].Glyph? }

  predicate TokensHaveGlyphs(tokens: seq<seq<Item>>) { forall k :: 0 <= k < |tokens| ==> HasGlyph(tokens[k]) }

  ghost predicate SplitTold(st: SplitState, read: seq<Item>) {
    && ReadSoFar(st) == read && LastGlyph(st, read)
    && (forall p :: Boundary(read, p) <==> p in Decided(st))
    && TokensHaveGlyphs(st.tokens) && (st.current != [] ==> HasGlyph(st.current))
  }

  lemma {:induction false} RightBehind(read: seq<Item>, n: nat, p: int)
    requires n <= |read| && OnlyCodes(read[n..]) && (n > 0 ==> read[n - 1].Glyph?)
    requires 0 < p <= |read| && read[p - 1].Glyph? && forall k :: p <= k < |read| ==> read[k].Ansi?
    ensures p == n
  {
    assert forall k :: n <= k < |read| ==> read[k] == read[n..][k - n];
  }

  /** One more grapheme decides whether a token ended behind the last one; nothing else changes. */
  lemma {:induction false} BoundaryNext(read: seq<Item>, item: Item, n: nat, p: int)
    requires n <= |read| && OnlyCodes(read[n..]) && (n > 0 ==> read[n - 1].Glyph?)
    ensures Boundary(read + [item], p) <==>
      Boundary(read, p) || (p == n > 0 && item.Glyph? && Apart(read[n - 1], item))
  {
    hide Apart;
    var all := read + [item];
    assert forall k :: 0 <= k < |read| ==> all[k] == read[k];
    if Boundary(read, p) {
      var q :| p <= q < |read| && NextGlyph(read, p, q) && Apart(read[p - 1], read[q]);
      assert NextGlyph(all, p, q) && Apart(all[p - 1], all[q]);
    }
    if Boundary(all, p) {
      var q :| p <= q < |all| && NextGlyph(all, p, q) && Apart(all[p - 1], all[q]);
      if q < |read| {
        assert NextGlyph(read, p, q) && Apart(read[p - 1], read[q]);
      } else {
        RightBehind(read, n, p);
      }
    }
    if p == n > 0 && item.Glyph? && Apart(read[n - 1], item) {
      assert forall k :: n <= k < |read| ==> read[k] == read[n..][k - n];
      assert NextGlyph(all, n, |read|) && Apart(all[n - 1], all[|read|]);
    }
  }

  lemma {:induction false} GlyphAtEnd(items: seq<Item>, item: Item)
    requires item.Glyph?
    ensures HasGlyph(items + [item])
  {
    assert (items + [item])[|items|] == item;
  }

  lemma {:induction false} FlushTold(st: SplitState, read: seq<Item>)
    requires SplitTold(st, read)
    ensures Ends(Flush(st).tokens) == Decided(st) + (if st.current == [] && st.tokens == [] then {} else {|read| - |st.pending|})
    ensures TokensHaveGlyphs(Flush(st).tokens)
  {
    hide Boundary, HasGlyph, LastGlyph, Flatten, Ends;
    EndsNext(st.tokens, st.current);
    if st.current == [] && st.tokens != [] { LastEnd(st.tokens); }
    assert |ReadSoFar(st)| == |Flatten(st.tokens)| + |st.current| + |st.pending|;
  }

  lemma {:induction false} LastEnd(tokens: seq<seq<Item>>)
    requires tokens != []
    ensures Ends(tokens) == Ends(Init(tokens)) + {|Flatten(tokens)|}
  {
  }

  lemma {:induction false} CodeTold(st: SplitState, read: seq<Item>, item: Item)
    requires SplitTold(st, read) && item.Ansi?
    ensures SplitTold(SplitItem(st, item), read + [item])
  {
    hide Flatten, Apart, Boundary, Ends;
    SplitItemKeeps(st, item);
    var n := |read| - |st.pending|;
    forall p ensures Boundary(read + [item], p) <==> p in Decided(st) { BoundaryNext(read, item, n, p); }
    assert (read + [item])[n..] == st.pending + [item];
  }

  lemma {:induction false} BreakerTold(st: SplitState, read: seq<Item>, item: Item)
    requires SplitTold(st, read) && IsBreaker(item)
    ensures SplitTold(SplitItem(st, item), read + [item])
  {
    hide Flatten, Boundary, Ends;
    SplitItemKeeps(st, item);
    FlushTold(st, read);
    var n := |read| - |st.pending|;
    var token := st.pending + [item];
    GlyphAtEnd(st.pending, item);
    forall p ensures Boundary(read + [item], p) <==> p in Ends(Flush(st).tokens) { BoundaryNext(read, item, n, p); }
    assert Init(Flush(st).tokens + [token]) == Flush(st).tokens;
  }

  lemma {:induction false} ApartFromLast(st: SplitState, read: seq<Item>, item: Item)
    requires LastGlyph(st, read) && item.Glyph? && !IsBreaker(item) && |read| > |st.pending|
    ensures Apart(read[|read| - |st.pending| - 1], item) <==> st.current == [] || st.word == IsBlank(item)
  {
  }

  lemma {:induction false} GlyphTold(st: SplitState, read: seq<Item>, item: Item)
    requires SplitTold(st, read) && item.Glyph? && !IsBreaker(item)
    ensures SplitTold(SplitItem(st, item), read + [item])
  {
    hide Flatten, Boundary, Ends, Apart, HasGlyph;
    SplitItemKeeps(st, item);
    FlushTold(st, read);
    var n := |read| - |st.pending|;
    if n > 0 { ApartFromLast(st, read, item); }
    var ready := if st.current != [] && st.word == IsBlank(item) then Flush(st) else st;
    GlyphAtEnd(ready.current + st.pending, item);
    forall p ensures Boundary(read + [item], p) <==> p in Ends(ready.tokens) { BoundaryNext(read, item, n, p); }
  }

  lemma {:induction false} SplitTells(items: seq<Item>)
    ensures SplitTold(SplitItems(items), items)
  {
    hide SplitTold, SplitItem;
    if items == [] {
      NothingSplit();
    } else {
      var init, item := items[..|items| - 1], items[|items| - 1];
      SplitTells(init);
      assert items == init + [item];
      if item.Ansi? {
        CodeTold(SplitItems(init), init, item);
      } else if IsBreaker(item) {
        BreakerTold(SplitItems(init), init, item);
      } else {
        GlyphTold(SplitItems(init), init, item);
      }
    }
  }

  lemma {:induction false} NothingSplit()
    ensures SplitTold(SplitItems([]), [])
  {
  }

  /** The tokens end exactly at the boundaries of the text, and at its end. */
  lemma {:induction false} TokensEndAtBoundaries(items: seq<Item>)
    ensures forall p :: Boundary(items, p) <==> p in Ends(Init(Tokens(items)))
    ensures HasGlyph(items) ==> TokensHaveGlyphs(Tokens(items))
  {
    hide Boundary, Flatten, Ends;
    var st := SplitItems(items);
    SplitTells(items);
    var more := st.current + st.pending;
    if st.pending == [] || st.current != [] || st.tokens == [] {
      if more != [] {
        assert Init(st.tokens + [more]) == st.tokens;
        if st.current != [] { GlyphsStay(st.current, st.pending); } else { NoGlyphs(items, st); }
      }
    } else {
      var last := |st.tokens| - 1;
      assert Tokens(items) == Init(st.tokens) + [st.tokens[last] + st.pending];
      assert Init(Tokens(items)) == Init(st.tokens);
      GlyphsStay(st.tokens[last], st.pending);
    }
  }

  lemma {:induction false} GlyphsStay(items: seq<Item>, codes: seq<Item>)
    requires HasGlyph(items)
    ensures HasGlyph(items + codes)
  {
    var k :| 0 <= k < |items| && items[k].Glyph?;
    assert (items + codes)[k] == items[k];
  }

  lemma {:induction false} NoGlyphs(items: seq<Item>, st: SplitState)
    requires SplitTold(st, items) && st.current == [] && st.tokens == []
    ensures !HasGlyph(items)
  {
    assert items[0..] == items;
  }

  // ---- tokens by their positions ----

  function Offset(tokens: seq<seq<Item>>, k: nat): nat
    requires k <= |tokens|
  {
    |Flatten(tokens[..k])|
  }

  lemma {:induction false} OffsetNext(tokens: seq<seq<Item>>, k: nat)
    requires k < |tokens|
    ensures Offset(tokens, k + 1) == Offset(tokens, k) + |tokens[k]|
    ensures Flatten(tokens[..k + 1]) == Flatten(tokens[..k]) + tokens[k]
    ensures Offset(tokens, 0) == 0 && Offset(tokens, |tokens|) == |Flatten(tokens)|
  {
    assert tokens[..k + 1] == tokens[..k] + [tokens[k]];
    FlattenAppend(tokens[..k], tokens[k]);
    assert tokens[..|tokens|] == tokens;
  }

  /** No token ends inside token k, and one ends right before it. */
  lemma {:induction false} EndsAround(tokens: seq<seq<Item>>, k: nat, p: int)
    requires k < |tokens|
    ensures p in Ends(tokens) ==> p <= Offset(tokens, k) || p >= Offset(tokens, k + 1)
    ensures p in Ends(tokens) ==> p <= Offset(tokens, |tokens|)
    ensures k > 0 ==> Offset(tokens, k) in Ends(Init(tokens))
    ensures Offset(tokens, k + 1) in Ends(tokens)
  {
    hide Flatten;
    var n := |tokens| - 1;
    var init := tokens[..n];
    LastEnd(tokens);
    assert tokens[..|tokens|] == tokens;
    OffsetNext(tokens, n);
    assert forall j :: 0 <= j <= n ==> init[..j] == tokens[..j];
    if k < n {
      EndsAround(init, k, p);
      EndsAround(init, k, Offset(init, k + 1));
      assert init[..|init|] == tokens[..n];
      if k > 0 { EndsInInit(init, k); }
    } else if n > 0 {
      EndsAround(init, n - 1, p);
      assert init[..|init|] == tokens[..n];
    }
  }

  lemma {:induction false} EndsInInit(tokens: seq<seq<Item>>, k: nat)
    requires 0 < k < |tokens| && Offset(tokens, k) in Ends(Init(tokens))
    ensures Offset(tokens, k) in Ends(tokens)
  {
    LastEnd(tokens);
  }

  lemma {:induction false} TokenAt(items: seq<Item>, tokens: seq<seq<Item>>, k: nat)
    requires Flatten(tokens) == items && k < |tokens|
    ensures Offset(tokens, k) <= Offset(tokens, k + 1) <= |items|
    ensures items[..Offset(tokens, k)] == Flatten(tokens[..k])
    ensures items[Offset(tokens, k)..Offset(tokens, k + 1)] == tokens[k]
    decreases |tokens|
  {
    var n := |tokens| - 1;
    OffsetNext(tokens, n);
    OffsetNext(tokens, k);
    assert tokens[..|tokens|] == tokens;
    if k < n {
      var init := tokens[..n];
      TokenAt(Flatten(init), init, k);
      assert init[..k] == tokens[..k] && init[..k + 1] == tokens[..k + 1];
      assert items[..|Flatten(init)|] == Flatten(init);
    }
  }

  /** Token k of a text with graphemes is the stretch from its beginning to the next end, and holds a grapheme. */
  lemma {:induction false} TokenSpan(items: seq<Item>, k: nat)
    requires HasGlyph(items) && k < |Tokens(items)|
    ensures var a, b := Offset(Tokens(items), k), Offset(Tokens(items), k + 1);
      && a < b <= |items| && items[a..b] == Tokens(items)[k] && items[..a] == Flatten(Tokens(items)[..k])
      && (a == 0 || Boundary(items, a)) && TokenEnd(items, a) == b && HasGlyph(items[a..b])
      && (b == |items| <==> k == |Tokens(items)| - 1)
  {
    hide Tokens, Boundary, Ends, Flatten;
    var tokens := Tokens(items);
    var a, b := Offset(tokens, k), Offset(tokens, k + 1);
    TokensKeepItems(items);
    TokensEndAtBoundaries(items);
    TokenAt(items, tokens, k);
    OffsetNext(tokens, k);
    SomeGlyph(tokens[k]);
    FirstOffset(tokens);
    EndsAround(tokens, k, a);
    LastEnd(tokens);
    var n := |tokens| - 1;
    if k < n {
      EndsAround(tokens, k + 1, a);
      OffsetNext(tokens, k + 1);
      SomeGlyph(tokens[k + 1]);
      TokenAt(items, tokens, k + 1);
    } else {
      assert tokens[..|tokens|] == tokens;
    }
    forall q | a < q < b ensures !Boundary(items, q) { EndsAround(tokens, k, q); }
    TokenEndIs(items, a, b);
  }

  lemma {:induction false} SomeGlyph(items: seq<Item>)
    requires HasGlyph(items)
    ensures items != []
  {
  }

  lemma {:induction false} FirstOffset(tokens: seq<seq<Item>>)
    ensures Offset(tokens, 0) == 0
  {
  }
}
