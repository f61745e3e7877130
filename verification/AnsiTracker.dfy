/** The style tracker as an object. */
module AnsiTracker {
  import opened AnsiCodes
  import opened AnsiParams
  import opened AnsiTexts
  import opened Strings
  import opened Wrappers

  /** Scans for the end of the escape code at `pos`; 0 when there is none. */
  method ExtractAnsiCode(str: string, pos: nat) returns (length: nat)
    ensures length == CodeLength(str, pos)
  {
    if pos >= |str| || str[pos] != ESC || pos + 1 >= |str| {
      return 0;
    }
    var next := str[pos + 1];
    var j := pos + 2;
    if next == '[' {
      while j < |str| && !IsCsiFinal(str[j])
        invariant pos + 2 <= j <= |str| && FindFinal(str, pos + 2) == FindFinal(str, j)
      {
        j := j + 1;
      }
      return if j < |str| then j + 1 - pos else 0;
    }
    if next == ']' || next == '_' {
      while j < |str|
        invariant pos + 2 <= j <= |str| && FindTerminator(str, pos + 2) == FindTerminator(str, j)
      {
        if BelAt(str, j) {
          return j + 1 - pos;
        }
        if StAt(str, j) {
          return j + 2 - pos;
        }
        j := j + 1;
      }
    }
    return 0;
  }

  lemma {:induction false} CodesStep(s: Style, text: string, i: nat)
    requires i < |text|
    ensures var n := CodeLength(text, i);
      ProcessAll(s, CodesFrom(text, i)) ==
        if n > 0 then ProcessAll(AnsiCodes.Process(s, text[i..i + n]), CodesFrom(text, i + n))
        else ProcessAll(s, CodesFrom(text, i + 1))
  {
    var n := CodeLength(text, i);
    if n > 0 {
      assert ([text[i..i + n]] + CodesFrom(text, i + n))[1..] == CodesFrom(text, i + n);
    }
  }

  class AnsiCodeTracker {
    var bold: bool
    var dim: bool
    var italic: bool
    var underline: bool
    var blink: bool
    var inverse: bool
    var hidden: bool
    var strikethrough: bool
    var fgColor: Option<string>
    var bgColor: Option<string>
    var activeHyperlink: Option<Link>

    function Flag(n: nat): bool
      reads this
    {
      match n
      case 1 => bold case 2 => dim case 3 => italic case 4 => underline
      case 5 => blink case 7 => inverse case 8 => hidden case 9 => strikethrough
      case _ => false
    }

    ghost function Flags(): Attrs
      reads this
    {
      set n: nat | n < 10 && Flag(n)
    }

    ghost function Now(): Style
      reads this
    {
      Style(Flags(), fgColor, bgColor, activeHyperlink)
    }

    constructor ()
      ensures Now() == PLAIN
    {
      bold, dim, italic, underline := false, false, false, false;
      blink, inverse, hidden, strikethrough := false, false, false, false;
      fgColor, bgColor, activeHyperlink := None, None, None;
    }

    method ResetSgr()
      modifies this
      ensures Now() == Reset(old(Now()))
    {
      bold, dim, italic, underline := false, false, false, false;
      blink, inverse, hidden, strikethrough := false, false, false, false;
      fgColor, bgColor := None, None;
    }

    method Clear()
      modifies this
      ensures Now() == PLAIN
    {
      ResetSgr();
      activeHyperlink := None;
    }

    method SwitchAttribute(code: nat)
      modifies this
      ensures fgColor == old(fgColor) && bgColor == old(bgColor) && activeHyperlink == old(activeHyperlink)
      ensures Flags() == ApplyAttribute(old(Flags()), code)
    {
      match code
      case 1 => bold := true;
      case 2 => dim := true;
      case 3 => italic := true;
      case 4 => underline := true;
      case 5 => blink := true;
      case 7 => inverse := true;
      case 8 => hidden := true;
      case 9 => strikethrough := true;
      case 21 => bold := false;
      case 22 =>
        bold := false;
        dim := false;
      case 23 => italic := false;
      case 24 => underline := false;
      case 25 => blink := false;
      case 27 => inverse := false;
      case 28 => hidden := false;
      case 29 => strikethrough := false;
      case _ =>
    }

    method ProcessCode(code: nat)
      modifies this
      ensures Now() == ApplyCode(old(Now()), code)
    {
      if code == 0 {
        ResetSgr();
      } else if code == 39 {
        fgColor := None;
      } else if code == 49 {
        bgColor := None;
      } else if IsFg(code) {
        fgColor := Some(Decimal(code));
      } else if IsBg(code) {
        bgColor := Some(Decimal(code));
      } else {
        SwitchAttribute(code);
      }
    }

    /** One parameter, or one whole extended colour; returns how many parameters were used. */
    method ProcessNext(parts: seq<string>, i: nat) returns (n: nat)
      requires DigitParts(parts) && i < |parts|
      modifies this
      ensures (Now(), n) == StepParts(old(Now()), parts[i..])
    {
      ghost var rest := parts[i..];
      assert rest[0] == parts[i] && |rest| == |parts| - i && (forall k :: 0 <= k < |rest| ==> rest[k] == parts[i + k]);
      var code := ParseInt(parts[i]);
      var isColour := code == Some(38) || code == Some(48);
      n := 1;
      if isColour && i + 2 < |parts| && parts[i + 1] == "5" {
        n := 3;
      } else if isColour && i + 4 < |parts| && parts[i + 1] == "2" {
        n := 5;
      }
      assert ExtendedLength(rest) == if n > 1 then n else 0;
      if n > 1 {
        var colour := Some(Join(parts[i..i + n]));
        assert parts[i..i + n] == rest[..n];
        if code == Some(38) {
          fgColor := colour;
        } else {
          bgColor := colour;
        }
        assert Flags() == old(Flags());
      } else if code.Some? {
        ProcessCode(code.value);
      }
    }

    method ProcessParts(parts: seq<string>)
      requires DigitParts(parts)
      modifies this
      ensures Now() == ApplyParts(old(Now()), parts)
    {
      var i := 0;
      while i < |parts|
        invariant 0 <= i <= |parts|
        invariant ApplyParts(Now(), parts[i..]) == ApplyParts(old(Now()), parts)
      {
        var n := ProcessNext(parts, i);
        assert parts[i..][n..] == parts[i + n..];
        i := i + n;
      }
    }

    method Process(ansiCode: string)
      modifies this
      ensures Now() == AnsiCodes.Process(old(Now()), ansiCode)
    {
      match ParseOsc8(ansiCode)
      case CloseLink => activeHyperlink := None;
      case OpenLink(link) => activeHyperlink := Some(link);
      case NotOsc8 =>
        if ansiCode == "" || ansiCode[|ansiCode| - 1] != 'm' {
          return;
        }
        match SgrParams(ansiCode, 0)
        case None =>
        case Some(params) =>
          if params == "" || params == "0" {
            ResetSgr();
          } else {
            SplitDigits(params);
            ProcessParts(Split(params));
          }
    }

    /** Feeds the code at `i`, or skips one character. */
    method FeedAt(text: string, i: nat) returns (next: nat)
      requires i < |text|
      modifies this
      ensures i < next <= |text|
      ensures ProcessAll(Now(), CodesFrom(text, next)) == ProcessAll(old(Now()), CodesFrom(text, i))
    {
      hide CodesFrom, ProcessAll, CodeLength;
      CodesStep(Now(), text, i);
      var length := ExtractAnsiCode(text, i);
      next := i + 1;
      if length > 0 {
        next := i + length;
        Process(text[i..next]);
      }
    }

    /** Feeds every code found in a text. */
    method UpdateFromText(text: string)
      modifies this
      ensures Now() == ProcessAll(old(Now()), CodesFrom(text, 0))
    {
      var i := 0;
      while i < |text|
        invariant 0 <= i <= |text|
        invariant ProcessAll(Now(), CodesFrom(text, i)) == ProcessAll(old(Now()), CodesFrom(text, 0))
      {
        i := FeedAt(text, i);
      }
    }

    method GetActiveCodes() returns (result: string)
      ensures result == AnsiCodes.GetActiveCodes(Now())
    {
      var codes := [];
      for n := 0 to 10
        invariant codes == Attributes(Flags(), n)
      {
        if Flag(n) {
          codes := codes + [Decimal(n)];
        }
      }
      if fgColor.Some? && fgColor.value != "" {
        codes := codes + [fgColor.value];
      }
      if bgColor.Some? && bgColor.value != "" {
        codes := codes + [bgColor.value];
      }
      assert codes == ActiveCodeList(Now());
      result := if |codes| > 0 then [ESC, '['] + Join(codes) + "m" else "";
      if activeHyperlink.Some? {
        result := result + FormatLink(activeHyperlink.value);
      }
    }

    method GetLineEndReset() returns (result: string)
      ensures result == AnsiCodes.GetLineEndReset(Now())
      ensures Reachable(Now()) ==>
        ProcessAll(Now(), CodesFrom(result, 0)) == Now().(attrs := Now().attrs - {4}, link := None)
    {
      hide ProcessAll, CodesFrom, Reachable;
      result := "";
      if underline {
        result := result + [ESC, '[', '2', '4', 'm'];
      }
      if activeHyperlink.Some? {
        result := result + FormatClose(activeHyperlink.value.terminator);
      }
      assert underline <==> 4 in Flags();
      if Reachable(Now()) { LineEndCloses(Now()); }
    }
  }
}
