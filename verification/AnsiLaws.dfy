/** What escape codes do to a style. */
module AnsiLaws {
  // Laws over the code strings themselves, for every style.
  import opened Strings
  import opened Wrappers
  import opened AnsiCodes
  import opened AnsiParams
  import opened AnsiRoundTrip

  function Sgr(params: string): string { [ESC, '['] + params + "m" }

  lemma {:induction false} SgrProcess(s: Style, params: string)
    requires AllParams(params)
    ensures DigitParts(Split(params))
    ensures Process(s, Sgr(params)) == if params == "" || params == "0" then Reset(s) else ApplyParts(s, Split(params))
  {
    SplitDigits(params);
    SgrIsCode(params, "");
  }

  predicate IsNumber(d: string) { d != "" && AllDigits(d) }

  lemma {:induction false} NumberAlone(s: Style, d: string)
    requires IsNumber(d)
    ensures AllParams(d) && Split(d) == [d]
    ensures Process(s, Sgr(d)) == ApplyCode(s, DigitsValue(d))
  {
    hide ApplyCode;
    assert IndexOf(d, ';', 0) == |d|;
    SgrProcess(s, d);
    if d == "0" {
      assert DigitsValue("0") == 0 by { assert "0"[..0] == ""; }
      ResetCode(s);
    } else {
      assert [d][1..] == [];
      assert ExtendedLength([d]) == 0;
    }
  }

  lemma {:induction false} ResetCode(s: Style)
    ensures ApplyCode(s, 0) == Reset(s)
  {
  }

  /** `ESC[m` and every spelling of `ESC[0m` leave the hyperlink and nothing else. */
  lemma {:induction false} ResetLaw(s: Style, d: string)
    requires d == "" || (IsNumber(d) && DigitsValue(d) == 0)
    ensures Process(s, Sgr(d)) == Style({}, None, None, s.link)
  {
    if d == "" { SgrProcess(s, d); } else { NumberAlone(s, d); }
  }

  /** 1 bold, 2 dim, 3 italic, 4 underline, 5 blink, 7 inverse, 8 hidden, 9 strikethrough are added to the others. */
  lemma {:induction false} AttributeOn(s: Style, d: string)
    requires IsNumber(d) && DigitsValue(d) in {1, 2, 3, 4, 5, 7, 8, 9}
    ensures Process(s, Sgr(d)) == s.(attrs := s.attrs + {DigitsValue(d)})
  {
    NumberAlone(s, d);
  }

  /** 23 to 25 and 27 to 29 switch one attribute off, 22 bold and dim, 21 bold; all other attributes and colours stay. */
  lemma {:induction false} AttributeOff(s: Style, d: string)
    requires IsNumber(d) && DigitsValue(d) in {21, 22, 23, 24, 25, 27, 28, 29}
    ensures var n := DigitsValue(d);
      Process(s, Sgr(d)) == s.(attrs := s.attrs - (if n == 21 then {1} else if n == 22 then {1, 2} else {n - 20}))
  {
    NumberAlone(s, d);
  }

  /** 39 clears the foreground and 49 the background, and nothing else. */
  lemma {:induction false} DefaultColours(s: Style, d: string)
    requires IsNumber(d)
    ensures DigitsValue(d) == 39 ==> Process(s, Sgr(d)) == s.(fg := None)
    ensures DigitsValue(d) == 49 ==> Process(s, Sgr(d)) == s.(bg := None)
  {
    NumberAlone(s, d);
  }

  /** 30 to 37 and 90 to 97 set the foreground, 40 to 47 and 100 to 107 the background, to the number itself. */
  lemma {:induction false} BasicColours(s: Style, d: string)
    requires IsNumber(d)
    ensures 30 <= DigitsValue(d) <= 37 || 90 <= DigitsValue(d) <= 97 ==>
      Process(s, Sgr(d)) == s.(fg := Some(Decimal(DigitsValue(d))))
    ensures 40 <= DigitsValue(d) <= 47 || 100 <= DigitsValue(d) <= 107 ==>
      Process(s, Sgr(d)) == s.(bg := Some(Decimal(DigitsValue(d))))
  {
    NumberAlone(s, d);
  }

  /** Every other number changes nothing, 38 and 48 without a colour included. */
  lemma {:induction false} OtherNumbers(s: Style, d: string)
    requires IsNumber(d)
    requires var n := DigitsValue(d);
      n == 6 || 10 <= n <= 20 || n == 26 || n == 38 || n == 48 || 50 <= n <= 89 || 98 <= n <= 99 || n > 107
    ensures Process(s, Sgr(d)) == s
  {
    NumberAlone(s, d);
    assert s.(attrs := s.attrs) == s;
  }

  /** 38;5;N and 38;2;R;G;B set the foreground, with 48 the background, to the text of the parameters. */
  lemma {:induction false} ExtendedColours(s: Style, d: string, rest: seq<string>)
    requires IsNumber(d) && (DigitsValue(d) == 38 || DigitsValue(d) == 48) && DigitParts(rest)
    requires (|rest| == 2 && rest[0] == "5") || (|rest| == 4 && rest[0] == "2")
    ensures var colour := Join([d] + rest);
      AllParams(colour) && OneUnit(Split(colour)) &&
      Process(s, Sgr(colour)) == if DigitsValue(d) == 38 then s.(fg := Some(colour)) else s.(bg := Some(colour))
  {
    var parts := [d] + rest;
    JoinParams(parts);
    SplitJoin(parts);
    FlatOfDigits(parts);
    SgrProcess(s, Join(parts));
    UnitEffect(s, parts);
    assert Join(parts)[|d|] == ';' by { assert Join(parts) == d + ";" + Join(parts[1..]); }
    assert '0' != ';';
  }

  /** Parameters that act together: one number, or one whole extended colour. */
  predicate IsUnit(u: string) { u != "" && AllParams(u) && OneUnit(Split(u)) }

  /** The parameters of one code act from left to right. */
  lemma {:induction false} LeftToRight(s: Style, u: string, rest: string)
    requires IsUnit(u) && rest != "" && AllParams(rest)
    ensures Process(s, Sgr(u + ";" + rest)) == Process(Process(s, Sgr(u)), Sgr(rest))
  {
    hide ApplyParts, Split;
    SgrProcess(s, u + ";" + rest);
    SgrProcess(s, u);
    SgrProcess(Process(s, Sgr(u)), rest);
    SplitAtSemicolon(u, rest);
    UnitIsAtomic(s, Split(u), Split(rest));
    ZeroResets(s);
    ZeroResets(Process(s, Sgr(u)));
    assert (u + ";" + rest)[|u|] == ';';
  }

  lemma {:induction false} ZeroResets(s: Style)
    ensures DigitParts(Split("0")) && ApplyParts(s, Split("0")) == Reset(s)
  {
    NumberAlone(s, "0");
    assert DigitsValue("0") == 0 by { assert "0"[..0] == ""; }
    assert ["0"][1..] == [];
  }

  /** An empty parameter, and a 38 or 48 that no colour follows, are passed over. */
  lemma {:induction false} PassedOver(s: Style, d: string, rest: string)
    requires rest != "" && AllParams(rest)
    requires d == "" || (IsNumber(d) && (DigitsValue(d) == 38 || DigitsValue(d) == 48))
    requires DigitParts([d] + Split(rest)) ==> ExtendedLength([d] + Split(rest)) == 0
    ensures Process(s, Sgr(d + ";" + rest)) == Process(s, Sgr(rest))
  {
    hide Split, ApplyParts, ExtendedLength, Process, DigitsValue;
    SgrProcess(s, rest);
    ZeroResets(s);
    SplitOne(d);
    SplitAtSemicolon(d, rest);
    SgrProcess(s, d + ";" + rest);
    assert (d + ";" + rest)[|d|] == ';';
    FirstPassedOver(s, [d] + Split(rest));
    assert ([d] + Split(rest))[1..] == Split(rest);
  }

  lemma {:induction false} FirstPassedOver(s: Style, parts: seq<string>)
    requires parts != [] && DigitParts(parts) && ExtendedLength(parts) == 0
    requires parts[0] == "" || DigitsValue(parts[0]) == 38 || DigitsValue(parts[0]) == 48
    ensures ApplyParts(s, parts) == ApplyParts(s, parts[1..])
  {
    hide ExtendedLength, DigitsValue;
    assert s.(attrs := s.attrs) == s;
  }

  lemma {:induction false} SplitOne(d: string)
    requires AllDigits(d)
    ensures Split(d) == [d]
  {
    assert IndexOf(d, ';', 0) == |d|;
  }

  // ---- hyperlinks and other codes ----

  predicate IsTerminator(t: string) { t == [BEL] || t == ST }

  lemma {:induction false} LinkBody(body: string, terminator: string)
    requires IsTerminator(terminator)
    ensures var code := OSC8 + body + terminator;
      OSC8 <= code && Osc8Body(code) == body && (EndsWithBel(code) <==> terminator == [BEL])
  {
    var code := OSC8 + body + terminator;
    assert code[|code| - 1] == terminator[|terminator| - 1];
    assert code[4..|code| - |terminator|] == body;
  }

  lemma {:induction false} FirstSeparator(params: string, url: string)
    requires ';' !in params
    ensures var body := params + ";" + url;
      IndexOf(body, ';', 0) == |params| && body[..|params|] == params && body[|params| + 1..] == url
  {
    var body := params + ";" + url;
    assert forall k :: 0 <= k < |params| ==> body[k] == params[k];
    assert body[|params|] == ';';
  }

  /** An OSC 8 code with a target opens that hyperlink, one without closes it; the rest of the style stays. */
  lemma {:induction false} LinkLaw(s: Style, params: string, url: string, terminator: string)
    requires ';' !in params && IsTerminator(terminator)
    ensures Process(s, OSC8 + params + ";" + url + terminator) ==
      s.(link := if url == "" then None else Some(Link(params, url, terminator)))
  {
    var body := params + ";" + url;
    assert OSC8 + params + ";" + url + terminator == OSC8 + body + terminator;
    LinkBody(body, terminator);
    FirstSeparator(params, url);
  }

  /** A code that is no hyperlink and does not end in "m" changes nothing. */
  lemma {:induction false} OtherCodes(s: Style, code: string)
    requires !(OSC8 <= code) && (code == "" || code[|code| - 1] != 'm')
    ensures Process(s, code) == s
  {
  }
}
