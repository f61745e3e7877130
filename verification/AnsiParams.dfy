/**
 * The parameters of a printed style: joined and split again,
 * they have the effects of the codes they were printed from.
 */
module AnsiParams {
  import opened AnsiCodes
  import opened Strings
  import opened Wrappers

  // ---- splitting and joining parameters ----

  lemma {:induction false} FirstSemicolon(a: string, b: string)
    ensures IndexOf(a + ";" + b, ';', 0) == IndexOf(a, ';', 0)
  {
    var i := IndexOf(a, ';', 0);
    var s := a + ";" + b;
    assert forall k :: 0 <= k < |a| ==> s[k] == a[k];
    assert s[|a|] == ';';
    assert s[i] == ';';
  }

  lemma {:induction false} DropInFirst(a: string, b: string, n: nat)
    requires n <= |a|
    ensures (a + ";" + b)[n..] == a[n..] + ";" + b && (a + ";" + b)[..n] == a[..n]
  {
  }

  lemma {:induction false} SplitAt(s: string, head: string, tail: string)
    requires |head| < |s| && IndexOf(s, ';', 0) == |head|
    requires s[..|head|] == head && s[|head| + 1..] == tail
    ensures Split(s) == [head] + Split(tail)
  {
  }

  lemma {:induction false} SplitAtSemicolon(a: string, b: string)
    ensures Split(a + ";" + b) == Split(a) + Split(b)
    decreases |a|
  {
    var i := IndexOf(a, ';', 0);
    FirstSemicolon(a, b);
    DropInFirst(a, b, i);
    if i == |a| {
      assert (a + ";" + b)[..i] == a && (a + ";" + b)[i + 1..] == b;
      SplitAt(a + ";" + b, a, b);
    } else {
      var tail := a[i + 1..];
      SplitAtSemicolon(tail, b);
      DropInFirst(a, b, i + 1);
      SplitAt(a + ";" + b, a[..i], tail + ";" + b);
      SplitAt(a, a[..i], tail);
      ConcatAssociates(a[..i], Split(tail), Split(b));
    }
  }

  lemma {:induction false} ConcatAssociates(x: string, y: seq<string>, z: seq<string>)
    ensures [x] + (y + z) == [x] + y + z
  {
  }

  function Flat(codes: seq<string>): seq<string> {
    if codes == [] then [] else Split(codes[0]) + Flat(codes[1..])
  }

  lemma {:induction false} SplitJoin(codes: seq<string>)
    requires |codes| > 0
    ensures Split(Join(codes)) == Flat(codes)
    decreases |codes|
  {
    if |codes| == 1 {
      assert Flat(codes[1..]) == [];
    } else {
      SplitAtSemicolon(codes[0], Join(codes[1..]));
      SplitJoin(codes[1..]);
    }
  }

  lemma {:induction false} FlatOfDigits(parts: seq<string>)
    requires DigitParts(parts)
    ensures Flat(parts) == parts
    decreases |parts|
  {
    if parts != [] {
      FlatOfDigits(parts[1..]);
      assert IndexOf(parts[0], ';', 0) == |parts[0]|;
    }
  }

  lemma {:induction false} FlatConcat(a: seq<string>, b: seq<string>)
    ensures Flat(a + b) == Flat(a) + Flat(b)
    decreases |a|
  {
    if a == [] {
      assert a + b == b;
    } else {
      FlatConcat(a[1..], b);
      assert (a + b)[1..] == a[1..] + b;
    }
  }

  lemma {:induction false} DigitPartsFlat(codes: seq<string>)
    requires forall k :: 0 <= k < |codes| ==> AllParams(codes[k])
    ensures DigitParts(Flat(codes))
    decreases |codes|
  {
    if codes != [] {
      SplitDigits(codes[0]);
      DigitPartsFlat(codes[1..]);
    }
  }

  lemma {:induction false} JoinParams(codes: seq<string>)
    requires forall k :: 0 <= k < |codes| ==> AllParams(codes[k])
    ensures AllParams(Join(codes))
    decreases |codes|
  {
    if |codes| > 1 { JoinParams(codes[1..]); }
  }

  lemma {:induction false} DecimalRoundTrip(n: nat)
    ensures DigitsValue(Decimal(n)) == n
  {
    var s := Decimal(n);
    var digit := ('0' as int + n % 10) as char;
    assert s[|s| - 1] == digit && (digit - '0') as int == n % 10;
    if n >= 10 {
      DecimalRoundTrip(n / 10);
      assert s[..|s| - 1] == Decimal(n / 10);
    } else {
      assert s[..|s| - 1] == "";
    }
  }

  // ---- the styles a tracker can reach ----

  /** "31", or "38;5;N", or "38;2;R;G;B", with 38 in any spelling of that number (48 for backgrounds). */
  predicate IsColour(c: string, fg: bool) {
    AllParams(c) && c != "" && c != "0" &&
    (SplitDigits(c);
     var parts := Split(c);
     && Join(parts) == c
     && (|| (|parts| == 1 && ParseInt(c).Some? && c == Decimal(ParseInt(c).value)
             && (if fg then IsFg(ParseInt(c).value) else IsBg(ParseInt(c).value)))
         || (|parts| > 1 && ExtendedLength(parts) == |parts|
             && ParseInt(parts[0]) == Some(if fg then 38 else 48))))
  }

  predicate IsLink(link: Link) {
    IsCode(FormatLink(link)) && ParseOsc8(FormatLink(link)) == OpenLink(link)
  }

  predicate ColourOk(colour: Option<string>, fg: bool) { colour.Some? ==> IsColour(colour.value, fg) }

  predicate Reachable(s: Style) {
    && (forall n :: n in s.attrs ==> IsAttribute(n))
    && ColourOk(s.fg, true) && ColourOk(s.bg, false)
    && (s.link.Some? ==> IsLink(s.link.value))
  }

  // ---- applying printed parameters ----

  predicate IsAttributeCode(c: string) {
    AllDigits(c) && ParseInt(c).Some? && IsAttribute(ParseInt(c).value) && c == Decimal(ParseInt(c).value)
  }

  /** A code the tracker prints: one SGR number other than 38 and 48, or a whole colour. */
  predicate IsPrinted(c: string) {
    IsColour(c, true) || IsColour(c, false) || IsAttributeCode(c)
  }

  lemma {:induction false} AttributeParts(c: string)
    requires IsAttributeCode(c)
    ensures AllParams(c) && Split(c) == [c] && c != "0"
  {
    DecimalRoundTrip(0);
    assert IndexOf(c, ';', 0) == |c|;
  }

  lemma {:induction false} PrintedParts(c: string)
    requires IsPrinted(c)
    ensures AllParams(c) && DigitParts(Split(c)) && c != ""
  {
    if IsAttributeCode(c) { AttributeParts(c); }
    SplitDigits(c);
  }

  /** Parameters that are consumed together: one number other than 38 and 48, or one whole extended colour. */
  predicate OneUnit(parts: seq<string>) {
    DigitParts(parts) &&
    if |parts| == 1 then ParseInt(parts[0]) != Some(38) && ParseInt(parts[0]) != Some(48)
    else |parts| > 1 && ExtendedLength(parts) == |parts|
  }

  lemma {:induction false} PrintedIsOneUnit(c: string)
    requires IsPrinted(c)
    ensures OneUnit(Split(c))
  {
    PrintedParts(c);
    if IsAttributeCode(c) { AttributeParts(c); }
  }

  lemma {:induction false} UnitIsAtomic(s: Style, parts: seq<string>, rest: seq<string>)
    requires OneUnit(parts) && DigitParts(rest)
    ensures DigitParts(parts + rest) && ApplyParts(s, parts + rest) == ApplyParts(ApplyParts(s, parts), rest)
  {
    var n := |parts|;
    assert (parts + rest)[n..] == rest && (parts + rest)[..n] == parts && parts[n..] == [] && parts[..n] == parts;
    assert ExtendedLength(parts + rest) == if n == 1 then 0 else n;
  }

  lemma {:induction false} UnitEffect(s: Style, parts: seq<string>)
    requires OneUnit(parts)
    ensures ApplyParts(s, parts) ==
      if |parts| == 1 then (if ParseInt(parts[0]).Some? then ApplyCode(s, ParseInt(parts[0]).value) else s)
      else if ParseInt(parts[0]) == Some(38) then s.(fg := Some(Join(parts)))
      else s.(bg := Some(Join(parts)))
  {
    assert parts[|parts|..] == [] && parts[..|parts|] == parts;
  }

  lemma {:induction false} AttributeEffect(s: Style, c: string)
    requires IsAttributeCode(c)
    ensures DigitParts(Split(c)) && ApplyParts(s, Split(c)) == ApplyCode(s, ParseInt(c).value)
  {
    AttributeParts(c);
    UnitEffect(s, Split(c));
  }

  lemma {:induction false} ColourEffect(s: Style, c: string, fg: bool)
    requires IsColour(c, fg)
    ensures DigitParts(Split(c))
    ensures ApplyParts(s, Split(c)) == if fg then s.(fg := Some(c)) else s.(bg := Some(c))
  {
    SplitDigits(c);
    UnitEffect(s, Split(c));
  }

  function Effect(s: Style, c: string): Style {
    if DigitParts(Split(c)) then ApplyParts(s, Split(c)) else s
  }

  /** Applying a list of printed codes, one after the other. */
  function ApplyAll(s: Style, codes: seq<string>): Style
    decreases |codes|
  {
    if codes == [] then s else ApplyAll(Effect(s, codes[0]), codes[1..])
  }

  predicate AllPrinted(codes: seq<string>) { forall k :: 0 <= k < |codes| ==> IsPrinted(codes[k]) }

  lemma {:induction false} ApplyFlat(s: Style, codes: seq<string>)
    requires AllPrinted(codes)
    ensures DigitParts(Flat(codes)) && ApplyParts(s, Flat(codes)) == ApplyAll(s, codes)
    decreases |codes|
  {
    if codes != [] {
      PrintedParts(codes[0]);
      PrintedIsOneUnit(codes[0]);
      ApplyFlat(Effect(s, codes[0]), codes[1..]);
      UnitIsAtomic(s, Split(codes[0]), Flat(codes[1..]));
    }
  }

  lemma {:induction false} ApplyAllConcat(s: Style, a: seq<string>, b: seq<string>)
    ensures ApplyAll(s, a + b) == ApplyAll(ApplyAll(s, a), b)
    decreases |a|
  {
    if a == [] {
      assert a + b == b;
    } else {
      ApplyAllConcat(Effect(s, a[0]), a[1..], b);
      assert (a + b)[1..] == a[1..] + b;
    }
  }

  lemma {:induction false} ApplySingle(s: Style, c: string)
    ensures ApplyAll(s, [c]) == Effect(s, c)
  {
    assert [c][1..] == [];
  }

  /** Printing one more attribute sets it, when it is on. */
  lemma {:induction false} ApplyOneMore(s: Style, done: seq<string>, on: bool, n: nat)
    requires IsAttribute(n) && AllPrinted(done)
    ensures AllPrinted(done + If(on, Decimal(n)))
    ensures ApplyAll(s, done + If(on, Decimal(n))) == if on then ApplyCode(ApplyAll(s, done), n) else ApplyAll(s, done)
  {
    ApplyAllConcat(s, done, If(on, Decimal(n)));
    DecimalRoundTrip(n);
    if on {
      ApplySingle(ApplyAll(s, done), Decimal(n));
      AttributeEffect(ApplyAll(s, done), Decimal(n));
    }
  }

  function Below(a: Attrs, k: nat): Attrs { set n | n in a && n < k }

  lemma {:induction false} BelowStep(a: Attrs, k: nat)
    requires k in a ==> IsAttribute(k)
    ensures PLAIN.(attrs := Below(a, k + 1)) ==
      if k in a then ApplyCode(PLAIN.(attrs := Below(a, k)), k) else PLAIN.(attrs := Below(a, k))
  {
  }

  lemma {:induction false} ApplyAttributes(a: Attrs, k: nat)
    requires forall n :: n in a ==> IsAttribute(n)
    ensures AllPrinted(Attributes(a, k)) && ApplyAll(PLAIN, Attributes(a, k)) == PLAIN.(attrs := Below(a, k))
  {
    if k > 0 {
      var done := Attributes(a, k - 1);
      ApplyAttributes(a, k - 1);
      BelowStep(a, k - 1);
      if k - 1 in a {
        assert AllPrinted(done + If(true, Decimal(k - 1))) &&
          ApplyAll(PLAIN, done + If(true, Decimal(k - 1))) == ApplyCode(ApplyAll(PLAIN, done), k - 1) by {
          ApplyOneMore(PLAIN, done, true, k - 1);
        }
      } else {
        assert done + If(false, Decimal(k - 1)) == done;
      }
    }
  }

  /** An optional colour, printed after the codes that are already there. */
  lemma {:induction false} ApplyColour(done: seq<string>, s: Style, colour: Option<string>, fg: bool)
    requires AllPrinted(done) && ApplyAll(PLAIN, done) == s
    requires if fg then s.fg == None else s.bg == None
    requires colour.Some? ==> IsColour(colour.value, fg)
    ensures AllPrinted(done + OptionalCode(colour))
    ensures ApplyAll(PLAIN, done + OptionalCode(colour)) == if fg then s.(fg := colour) else s.(bg := colour)
  {
    ApplyAllConcat(PLAIN, done, OptionalCode(colour));
    if colour.Some? {
      ColourEffect(s, colour.value, fg);
      ApplySingle(s, colour.value);
    }
  }

  lemma {:induction false} ApplyColours(done: seq<string>, t: Style)
    requires Reachable(t) && AllPrinted(done)
    requires ApplyAll(PLAIN, done) == t.(fg := None, bg := None, link := None)
    ensures var codes := done + OptionalCode(t.fg) + OptionalCode(t.bg);
      AllPrinted(codes) && ApplyAll(PLAIN, codes) == t.(link := None)
  {
    var s := t.(fg := None, bg := None, link := None);
    ApplyColour(done, s, t.fg, true);
    ApplyColour(done + OptionalCode(t.fg), s.(fg := t.fg), t.bg, false);
  }

  lemma {:induction false} ApplyActiveCodes(t: Style)
    requires Reachable(t)
    ensures AllPrinted(ActiveCodeList(t)) && ApplyAll(PLAIN, ActiveCodeList(t)) == t.(link := None)
  {
    ApplyAttributes(t.attrs, 10);
    assert Below(t.attrs, 10) == t.attrs;
    ApplyColours(Attributes(t.attrs, 10), t);
  }
}
