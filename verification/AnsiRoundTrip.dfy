/** Printing a style restores it. */
module AnsiRoundTrip {
  import opened AnsiCodes
  import opened Strings
  import opened Wrappers
  import opened AnsiParams

  // ---- finding the printed codes again ----

  lemma {:induction false} FinalAt(s: string, j: nat, k: nat)
    requires j <= k < |s| && IsCsiFinal(s[k]) && forall i :: j <= i < k ==> !IsCsiFinal(s[i])
    ensures FindFinal(s, j) == k
  {
  }

  lemma {:induction false} NonParamAt(s: string, j: nat, k: nat)
    requires j <= k < |s| && !IsParam(s[k]) && forall i :: j <= i < k ==> IsParam(s[i])
    ensures FindNonParam(s, j) == k
  {
  }

  lemma {:induction false} SgrIsCode(params: string, rest: string)
    requires AllParams(params)
    ensures var code := [ESC, '['] + params + "m";
      && CodeLength(code + rest, 0) == |code| && IsCode(code)
      && SgrParams(code, 0) == Some(params) && ParseOsc8(code) == NotOsc8
  {
    var code := [ESC, '['] + params + "m";
    assert forall i :: 0 <= i < |params| ==> code[i + 2] == params[i];
    FinalAt(code, 2, |params| + 2);
    assert forall i :: 0 <= i < |code| ==> (code + rest)[i] == code[i];
    FinalAt(code + rest, 2, |params| + 2);
    NonParamAt(code, 2, |params| + 2);
    assert code[2..|params| + 2] == params;
  }

  lemma {:induction false} CodesShift(a: string, b: string, i: nat)
    requires i <= |b|
    ensures CodeLength(a + b, |a| + i) == CodeLength(b, i)
  {
    if i + 1 < |b| && b[i] == ESC {
      assert (a + b)[|a| + i] == b[i] && (a + b)[|a| + i + 1] == b[i + 1];
      FinalShift(a, b, i + 2);
      TerminatorShift(a, b, i + 2);
    }
  }

  lemma {:induction false} FinalShift(a: string, b: string, j: nat)
    requires j <= |b|
    ensures FindFinal(a + b, |a| + j) == |a| + FindFinal(b, j)
    decreases |b| - j
  {
    if j < |b| { FinalShift(a, b, j + 1); }
  }

  lemma {:induction false} TerminatorShift(a: string, b: string, j: nat)
    requires j <= |b|
    ensures FindTerminator(a + b, |a| + j) == if FindTerminator(b, j) == 0 then 0 else |a| + FindTerminator(b, j)
    decreases |b| - j
  {
    if j < |b| {
      TerminatorShift(a, b, j + 1);
      assert BelAt(a + b, |a| + j) == BelAt(b, j) && StAt(a + b, |a| + j) == StAt(b, j);
    }
  }

  lemma {:induction false} OneCode(s: string, a: string, code: string)
    requires s == a + code && IsCode(code)
    ensures CodesFrom(s, |a|) == [code]
  {
    CodesShift(a, code, 0);
    assert s[|a|..|a| + |code|] == code;
    assert CodesFrom(s, |s|) == [];
  }

  /** The codes found in a printed style are the SGR code and the link code that were printed. */
  lemma {:induction false} PrintedCodes(t: Style)
    requires Reachable(t)
    ensures CodesFrom(GetActiveCodes(t), 0) ==
      If(ActiveCodeList(t) != [], SgrCode(ActiveCodeList(t))) +
      (if t.link.Some? then [FormatLink(t.link.value)] else [])
  {
    var sgr := SgrCode(ActiveCodeList(t));
    var link := if t.link.Some? then FormatLink(t.link.value) else "";
    var s := GetActiveCodes(t);
    if sgr != "" {
      ApplyActiveCodes(t);
      ParamsOfPrinted(ActiveCodeList(t));
      SgrIsCode(Join(ActiveCodeList(t)), link);
      assert s[0..|sgr|] == sgr;
    }
    if t.link.Some? { OneCode(s, sgr, link); } else { assert CodesFrom(s, |s|) == []; }
  }

  lemma {:induction false} ParamsOfPrinted(codes: seq<string>)
    requires AllPrinted(codes)
    ensures AllParams(Join(codes)) && (codes != [] ==> Join(codes) != "" && Join(codes) != "0")
    decreases |codes|
  {
    forall k | 0 <= k < |codes| ensures AllParams(codes[k]) && codes[k] != "" && codes[k] != "0" { PrintedParts(codes[k]); }
    JoinParams(codes);
  }

  lemma {:induction false} SgrRestores(t: Style)
    requires Reachable(t) && ActiveCodeList(t) != []
    ensures Process(PLAIN, SgrCode(ActiveCodeList(t))) == t.(link := None)
  {
    var codes := ActiveCodeList(t);
    ApplyActiveCodes(t);
    ParamsOfPrinted(codes);
    SgrIsCode(Join(codes), "");
    SplitJoin(codes);
    ApplyFlat(PLAIN, codes);
    assert SgrCode(codes) == [ESC, '['] + Join(codes) + "m";
  }

  lemma {:induction false} SgrPartRestores(t: Style)
    requires Reachable(t)
    ensures ProcessAll(PLAIN, If(ActiveCodeList(t) != [], SgrCode(ActiveCodeList(t)))) == t.(link := None)
  {
    var codes := ActiveCodeList(t);
    if codes != [] {
      SgrRestores(t);
      assert [SgrCode(codes)][1..] == [];
    } else {
      ApplyActiveCodes(t);
    }
  }

  lemma {:induction false} LinkPartRestores(t: Style)
    requires Reachable(t) && t.link.Some?
    ensures ProcessAll(t.(link := None), [FormatLink(t.link.value)]) == t
  {
    assert [FormatLink(t.link.value)][1..] == [];
  }

  /** Processing the codes of getActiveCodes on a cleared tracker restores exactly the state that printed them. */
  lemma {:induction false} TrackerRoundTrip(t: Style)
    requires Reachable(t)
    ensures ProcessAll(PLAIN, CodesFrom(GetActiveCodes(t), 0)) == t
  {
    PrintedCodes(t);
    SgrPartRestores(t);
    if t.link.Some? { LinkPartRestores(t); }
    ProcessConcat(PLAIN, If(ActiveCodeList(t) != [], SgrCode(ActiveCodeList(t))),
      if t.link.Some? then [FormatLink(t.link.value)] else []);
  }

  lemma {:induction false} ProcessConcat(s: Style, a: seq<string>, b: seq<string>)
    ensures ProcessAll(s, a + b) == ProcessAll(ProcessAll(s, a), b)
    decreases |a|
  {
    if a == [] {
      assert a + b == b;
    } else {
      ProcessConcat(Process(s, a[0]), a[1..], b);
      assert (a + b)[1..] == a[1..] + b;
    }
  }

  // ---- every state the tracker can be in is one of those ----

  lemma {:induction false} SingleColour(n: nat, fg: bool)
    requires if fg then IsFg(n) else IsBg(n)
    ensures IsColour(Decimal(n), fg)
  {
    DecimalRoundTrip(n);
    DecimalRoundTrip(0);
    var c := Decimal(n);
    assert IndexOf(c, ';', 0) == |c|;
  }

  lemma {:induction false} ExtendedColour(parts: seq<string>, fg: bool)
    requires DigitParts(parts) && |parts| > 1 && ExtendedLength(parts) == |parts|
    requires ParseInt(parts[0]) == Some(if fg then 38 else 48)
    ensures IsColour(Join(parts), fg)
  {
    SplitJoin(parts);
    FlatOfDigits(parts);
    JoinParams(parts);
    assert IndexOf("", ';', 0) == 0 && IndexOf("0", ';', 0) == 1;
  }

  lemma {:induction false} CodeKeepsReachable(s: Style, code: nat)
    requires Reachable(s)
    ensures Reachable(ApplyCode(s, code))
  {
    if IsFg(code) { SingleColour(code, true); }
    if IsBg(code) { SingleColour(code, false); }
  }

  lemma {:induction false} StepKeepsReachable(s: Style, parts: seq<string>)
    requires Reachable(s) && DigitParts(parts) && parts != []
    ensures Reachable(StepParts(s, parts).0)
  {
    var n := ExtendedLength(parts);
    var code := ParseInt(parts[0]);
    if n > 0 {
      assert ColourOk(Some(Join(parts[..n])), code == Some(38)) by {
        ExtendedColour(parts[..n], code == Some(38));
      }
    } else if code.Some? {
      CodeKeepsReachable(s, code.value);
    }
  }

  lemma {:induction false} PartsKeepReachable(s: Style, parts: seq<string>)
    requires Reachable(s) && DigitParts(parts)
    ensures Reachable(ApplyParts(s, parts))
    decreases |parts|
  {
    if parts != [] {
      StepKeepsReachable(s, parts);
      var (s', n) := StepParts(s, parts);
      PartsKeepReachable(s', parts[n..]);
    }
  }

  lemma {:induction false} TerminatorEnds(s: string, j: nat)
    requires j <= |s| && FindTerminator(s, j) > 0
    ensures var r := FindTerminator(s, j);
      (r >= j + 1 && s[r - 1] == BEL) || (r >= j + 2 && s[r - 2] == ESC && s[r - 1] == '\\')
    decreases |s| - j
  {
    if !BelAt(s, j) && !StAt(s, j) { TerminatorEnds(s, j + 1); }
  }

  lemma {:induction false} LinkCodePieces(code: string)
    requires IsCode(code) && OSC8 <= code
    ensures code == OSC8 + Osc8Body(code) + (if EndsWithBel(code) then [BEL] else ST)
  {
    assert code[0] == OSC8[0] && code[1] == OSC8[1] && code[2] == OSC8[2] && code[3] == OSC8[3];
    assert FindTerminator(code, 2) == FindTerminator(code, 4) == |code|;
    TerminatorEnds(code, 4);
  }

  /** A hyperlink is stored so that printing it gives back the code it came from. */
  lemma {:induction false} LinkRoundTrip(code: string)
    requires IsCode(code) && ParseOsc8(code).OpenLink?
    ensures FormatLink(ParseOsc8(code).link) == code
  {
    LinkCodePieces(code);
    var body := Osc8Body(code);
    var sep := IndexOf(body, ';', 0);
    assert body == body[..sep] + ";" + body[sep + 1..];
    Regroup(OSC8, body[..sep], ";", body[sep + 1..], if EndsWithBel(code) then [BEL] else ST);
  }

  lemma {:induction false} Regroup(a: string, b: string, c: string, d: string, e: string)
    ensures a + b + c + d + e == a + (b + c + d) + e
  {
  }

  lemma {:induction false} SgrKeepsReachable(s: Style, params: string)
    requires Reachable(s) && AllParams(params)
    ensures DigitParts(Split(params)) && Reachable(ApplyParts(s, Split(params)))
  {
    SplitDigits(params);
    PartsKeepReachable(s, Split(params));
  }

  /** No code that text can contain leads out of the states the round trip is proved for. */
  lemma {:induction false} ProcessKeepsReachable(s: Style, code: string)
    requires Reachable(s) && IsCode(code)
    ensures Reachable(Process(s, code))
  {
    match ParseOsc8(code)
    case OpenLink(_) => LinkRoundTrip(code);
    case CloseLink =>
    case NotOsc8 =>
      if SgrParams(code, 0).Some? { SgrKeepsReachable(s, SgrParams(code, 0).value); }
  }
}
