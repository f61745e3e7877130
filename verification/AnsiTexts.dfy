/** Codes found in a text, and codes that end a line. */
module AnsiTexts {
  import opened AnsiCodes
  import opened AnsiParams
  import opened AnsiRoundTrip
  import opened Strings
  import opened Wrappers

  // ---- every code a scan finds is one the round trip is proved for ----

  /** A terminator is found just as well when nothing follows it. */
  lemma {:induction false} TerminatorInPrefix(s: string, j: nat)
    requires j <= |s| && FindTerminator(s, j) > 0
    ensures var r := FindTerminator(s, j); FindTerminator(s[..r], j) == r
    decreases |s| - j
  {
    var r := FindTerminator(s, j);
    if !BelAt(s, j) && !StAt(s, j) {
      TerminatorInPrefix(s, j + 1);
      assert !BelAt(s[..r], j) && !StAt(s[..r], j);
    }
  }

  lemma {:induction false} CodeStandsAlone(s: string)
    requires CodeLength(s, 0) > 0
    ensures IsCode(s[..CodeLength(s, 0)])
  {
    var n := CodeLength(s, 0);
    var code := s[..n];
    if s[1] == '[' {
      FinalAt(code, 2, n - 1);
    } else {
      TerminatorInPrefix(s, 2);
    }
  }

  lemma {:induction false} FoundCodeIsCode(s: string, i: nat)
    requires i <= |s| && CodeLength(s, i) > 0
    ensures IsCode(s[i..i + CodeLength(s, i)])
  {
    hide CodeLength, IsCode;
    CodesShift(s[..i], s[i..], 0);
    assert s[..i] + s[i..] == s;
    CodeStandsAlone(s[i..]);
    assert s[i..][..CodeLength(s, i)] == s[i..i + CodeLength(s, i)];
  }

  /** No text leads the tracker out of the states the round trip is proved for. */
  lemma {:induction false} TextKeepsReachable(s: Style, text: string, i: nat)
    requires i <= |text| && Reachable(s)
    ensures Reachable(ProcessAll(s, CodesFrom(text, i)))
    decreases |text| - i
  {
    hide Process, Reachable, CodeLength, IsCode;
    var n := CodeLength(text, i);
    if i < |text| && n > 0 {
      var code := text[i..i + n];
      FoundCodeIsCode(text, i);
      ProcessKeepsReachable(s, code);
      TextKeepsReachable(Process(s, code), text, i + n);
      assert ([code] + CodesFrom(text, i + n))[1..] == CodesFrom(text, i + n);
    } else if i < |text| {
      TextKeepsReachable(s, text, i + 1);
    }
  }

  /** The round trip for every text: whatever codes it holds, the codes printed for the state they leave
      restore exactly that state on a cleared tracker. */
  lemma {:induction false} TextRoundTrip(text: string)
    ensures var s := ProcessAll(PLAIN, CodesFrom(text, 0));
      Reachable(s) && ProcessAll(PLAIN, CodesFrom(GetActiveCodes(s), 0)) == s
  {
    hide Reachable, ProcessAll, CodesFrom, GetActiveCodes;
    PlainIsReachable();
    TextKeepsReachable(PLAIN, text, 0);
    TrackerRoundTrip(ProcessAll(PLAIN, CodesFrom(text, 0)));
  }

  lemma {:induction false} PlainIsReachable()
    ensures Reachable(PLAIN)
  {
  }

  // ---- getLineEndReset ----

  const UNDERLINE_OFF := [ESC, '[', '2', '4', 'm']

  lemma {:induction false} UnderlineOff(s: Style, rest: string)
    ensures CodeLength(UNDERLINE_OFF + rest, 0) == |UNDERLINE_OFF| && IsCode(UNDERLINE_OFF)
    ensures Process(s, UNDERLINE_OFF) == s.(attrs := s.attrs - {4})
  {
    assert UNDERLINE_OFF == [ESC, '['] + "24" + "m";
    SgrIsCode("24", rest);
    assert IndexOf("24", ';', 0) == 2 by { assert IndexOf("24", ';', 2) == 2; }
    assert Split("24") == ["24"];
    assert DigitsValue("24") == 24 by { assert "24"[..1] == "2" && "2"[..0] == ""; }
    assert ApplyParts(s, ["24"]) == ApplyCode(s, 24) by { assert ["24"][1..] == []; }
  }

  const UNDERLINE_ON := [ESC, '['] + "4" + "m"

  lemma {:induction false} UnderlineOn(s: Style)
    ensures IsCode(UNDERLINE_ON) && Process(s, UNDERLINE_ON) == s.(attrs := s.attrs + {4})
  {
    SgrIsCode("4", "");
    assert Decimal(4) == "4";
    DecimalRoundTrip(4);
    AttributeEffect(s, "4");
  }

  lemma {:induction false} CloseIsCode(terminator: string)
    requires terminator == [BEL] || terminator == ST
    ensures IsCode(FormatClose(terminator)) && ParseOsc8(FormatClose(terminator)) == CloseLink
  {
    var code := FormatClose(terminator);
    assert code[0] == ESC && code[1] == ']' && code[2] == '8' && code[3] == ';' && code[4] == ';' && code[5] == terminator[0];
    assert FindTerminator(code, 5) == |code|;
    assert FindTerminator(code, 4) == |code|;
    assert FindTerminator(code, 3) == |code|;
    assert OSC8 <= code && Osc8Body(code) == [';'];
  }

  /** The codes found in a line-end reset. */
  function LineEndCodes(s: Style): seq<string> {
    If(4 in s.attrs, UNDERLINE_OFF) + (if s.link.Some? then [FormatClose(s.link.value.terminator)] else [])
  }

  lemma {:induction false} LinkTerminator(s: Style)
    requires Reachable(s) && s.link.Some?
    ensures s.link.value.terminator == [BEL] || s.link.value.terminator == ST
  {
  }

  lemma {:induction false} FindsLineEndCodes(s: Style)
    requires Reachable(s)
    ensures CodesFrom(GetLineEndReset(s), 0) == LineEndCodes(s)
  {
    hide Reachable, FormatClose, CodeLength;
    var text := GetLineEndReset(s);
    var under := if 4 in s.attrs then UNDERLINE_OFF else "";
    var close := if s.link.Some? then FormatClose(s.link.value.terminator) else "";
    if s.link.Some? {
      LinkTerminator(s);
      CloseIsCode(s.link.value.terminator);
      OneCode(text, under, close);
    } else {
      assert CodesFrom(text, |text|) == [];
    }
    if 4 in s.attrs {
      UnderlineOff(s, close);
      assert text[0..|under|] == UNDERLINE_OFF;
    }
  }

  /** The line-end reset switches underline off and closes the hyperlink, and does nothing else. */
  lemma {:induction false} LineEndCloses(s: Style)
    requires Reachable(s)
    ensures ProcessAll(s, CodesFrom(GetLineEndReset(s), 0)) == s.(attrs := s.attrs - {4}, link := None)
  {
    hide FormatClose, CodesFrom, GetLineEndReset;
    FindsLineEndCodes(s);
    UnderlineOff(s, "");
    var open := s.(attrs := s.attrs - {4});
    var first := If(4 in s.attrs, UNDERLINE_OFF);
    assert ProcessAll(s, first) == open by {
      if 4 in s.attrs { assert first[1..] == []; }
    }
    if s.link.Some? {
      LinkTerminator(s);
      CloseIsCode(s.link.value.terminator);
      var last := [FormatClose(s.link.value.terminator)];
      assert last[1..] == [];
      ProcessConcat(s, first, last);
    } else {
      ProcessConcat(s, first, []);
    }
  }
}
