/** The forms of terminal input. */
module StdinForms {
  // Where each kind of sequence ends, told from its own text.
  import opened Strings
  import opened Wrappers
  import opened StdinTokens
  import opened StdinSequences

  predicate FinalByte(c: char) { '\U{40}' <= c <= '\U{7e}' }

  /** A control sequence ends at its first final byte. */
  predicate CsiForm(t: string) {
    && |t| >= 3 && t[0] == ESC && t[1] == '[' && t[2] != 'M' && t[2] != '<'
    && FinalByte(t[|t| - 1]) && forall i :: 2 <= i < |t| - 1 ==> !FinalByte(t[i])
  }

  predicate Digits(s: string) { s != "" && AllDigits(s) }

  /** A mouse report: three numbers and the letter for press or release. */
  ghost predicate MouseForm(t: string) { exists b, x, y, end :: MouseParts(t, b, x, y, end) }

  predicate MouseParts(t: string, b: string, x: string, y: string, end: char) {
    && Digits(b) && Digits(x) && Digits(y) && (end == 'M' || end == 'm')
    && t == [ESC, '[', '<'] + b + [';'] + x + [';'] + y + [end]
  }

  /** The old mouse report: three bytes, whatever they are. */
  predicate OldMouseForm(t: string) { |t| == 6 && t[0] == ESC && t[1] == '[' && t[2] == 'M' }

  /** ESC \ ends at i. */
  predicate TerminatorAt(t: string, i: int) { 0 < i < |t| && t[i - 1] == ESC && t[i] == '\\' }

  predicate OscEnd(t: string, i: int) { TerminatorAt(t, i) || (0 <= i < |t| && t[i] == '\U{7}') }

  /** An operating system command ends at its first bell or terminator. */
  predicate OscForm(t: string) {
    && |t| >= 3 && t[0] == ESC && t[1] == ']'
    && OscEnd(t, |t| - 1) && forall i :: 2 <= i < |t| - 1 ==> !OscEnd(t, i)
  }

  /** A device control string or an application program command ends at its first terminator; a bell belongs to it. */
  predicate StringForm(t: string) {
    && |t| >= 3 && t[0] == ESC && (t[1] == 'P' || t[1] == '_')
    && TerminatorAt(t, |t| - 1) && forall i :: 2 <= i < |t| - 1 ==> !TerminatorAt(t, i)
  }

  ghost predicate EscapeForm(t: string) {
    || (|t| == 2 && t[0] == ESC && t[1] !in STARTERS)
    || (|t| == 3 && t[0] == ESC && t[1] == 'O')
    || CsiForm(t) || MouseForm(t) || OldMouseForm(t) || OscForm(t) || StringForm(t)
  }

  ghost predicate Form(t: string) { (|t| == 1 && t[0] != ESC) || EscapeForm(t) }

  /** Complete, and not before. */
  predicate First(t: string) {
    IsCompleteSequence(t) == Complete && forall e :: 1 <= e < |t| ==> IsCompleteSequence(t[..e]) != Complete
  }

  // ---- mouse reports ----

  lemma {:induction false} ReportParts(t: string)
    requires |t| >= 3 && t[0] == ESC && t[1] == '[' && MouseReport(t[2..])
    ensures MouseForm(t)
  {
    hide DigitsEnd, AllDigits, MouseParts;
    var p := t[2..];
    var b := DigitsEnd(p, 1);
    var x := DigitsEnd(p, b + 1);
    var y := DigitsEnd(p, x + 1);
    assert MouseParts(t, p[1..b], p[b + 1..x], p[x + 1..y], p[y]) by { PartsOf(t, p, b, x, y); }
  }

  lemma {:induction false} PartsOf(t: string, p: string, b: nat, x: nat, y: nat)
    requires |t| >= 3 && t[0] == ESC && t[1] == '[' && p == t[2..] && 1 < b && b + 1 < x && x + 1 < y == |p| - 1
    requires p[0] == '<' && p[b] == ';' && p[x] == ';' && (p[y] == 'M' || p[y] == 'm')
    requires AllDigits(p[1..b]) && AllDigits(p[b + 1..x]) && AllDigits(p[x + 1..y])
    ensures MouseParts(t, p[1..b], p[b + 1..x], p[x + 1..y], p[y])
  {
    hide AllDigits;
    assert p[x..] == [';'] + p[x + 1..y] + [p[y]];
    assert p[b..] == [';'] + p[b + 1..x] + p[x..];
    assert t == [ESC, '[', '<'] + p[1..b] + p[b..];
  }

  /** A number between two separators, up to the end of the text. */
  lemma {:induction false} NumberPart(p: string, i: nat, c: char, digits: string, rest: string)
    requires i < |p| && p[i..] == [c] + digits + rest && AllDigits(digits) && rest != "" && !IsDigit(rest[0])
    ensures |p| == i + 1 + |digits| + |rest| && p[i] == c
    ensures DigitsEnd(p, i + 1) == i + 1 + |digits| && p[i + 1 + |digits|..] == rest
  {
    hide DigitsEnd, AllDigits;
    assert p[i..][0] == p[i];
    DigitsInPlace(p, i, [c], digits, rest);
  }

  lemma {:induction false} PartsReport(t: string, b: string, x: string, y: string, end: char)
    requires MouseParts(t, b, x, y, end)
    ensures |t| >= 3 && t[0] == ESC && t[1] == '[' && MouseReport(t[2..])
  {
    hide DigitsEnd, AllDigits, MouseReport;
    var p, last := t[2..], [';'] + y + [end];
    var rest := [';'] + x + last;
    assert p[0..] == ['<'] + b + rest;
    ReportOfParts(p, b, x, y, end, rest, last);
  }

  lemma {:induction false} LastPart(p: string, i: nat, y: string, end: char)
    requires i < |p| && p[i..] == [';'] + y + [end] && Digits(y) && !IsDigit(end)
    ensures p[i] == ';' && i + 1 < DigitsEnd(p, i + 1) == |p| - 1 && p[|p| - 1] == end
  {
    hide DigitsEnd, AllDigits;
    NumberPart(p, i, ';', y, [end]);
    assert p[|p| - 1] == p[|p| - 1..][0];
  }

  lemma {:induction false} LastTwoParts(p: string, i: nat, x: string, y: string, end: char, last: string)
    requires i < |p| && p[i..] == [';'] + x + last && last == [';'] + y + [end]
    requires Digits(x) && Digits(y) && !IsDigit(end)
    ensures var j := DigitsEnd(p, i + 1);
      p[i] == ';' && i + 1 < j < |p| && p[j] == ';' && j + 1 < DigitsEnd(p, j + 1) == |p| - 1 && p[|p| - 1] == end
  {
    hide DigitsEnd, AllDigits;
    NumberPart(p, i, ';', x, last);
    LastPart(p, i + 1 + |x|, y, end);
  }

  lemma {:induction false} ReportOfParts(p: string, b: string, x: string, y: string, end: char, rest: string,
    last: string)
    requires Digits(b) && Digits(x) && Digits(y) && (end == 'M' || end == 'm')
    requires last == [';'] + y + [end] && rest == [';'] + x + last && p[0..] == ['<'] + b + rest
    ensures MouseReport(p)
  {
    hide DigitsEnd, AllDigits, MouseReport;
    var i := 1 + |b|;
    NumberPart(p, 0, '<', b, rest);
    LastTwoParts(p, i, x, y, end, last);
    ReportAt(p, i, DigitsEnd(p, i + 1), |p| - 1);
  }

  lemma {:induction false} ReportAt(p: string, b: nat, x: nat, y: nat)
    requires 1 < b && b + 1 < x && x + 1 < y == |p| - 1
    requires p[0] == '<' && p[b] == ';' && p[x] == ';' && (p[y] == 'M' || p[y] == 'm')
    requires DigitsEnd(p, 1) == b && DigitsEnd(p, b + 1) == x && DigitsEnd(p, x + 1) == y
    ensures MouseReport(p)
  {
    hide DigitsEnd;
  }

  /** The letter of a mouse report is its first. */
  lemma {:induction false} NoEarlierLetter(t: string, b: string, x: string, y: string, end: char, i: nat)
    requires MouseParts(t, b, x, y, end) && 2 <= i < |t| - 1
    ensures t[i] != 'M' && t[i] != 'm'
  {
    hide DigitsValue;
    var k, l := 3 + |b|, 4 + |b| + |x|;
    if 3 <= i < k {
      assert t[i] == b[i - 3];
    } else if k < i < l {
      assert t[i] == x[i - k - 1];
    } else if l < i {
      assert t[i] == y[i - l - 1];
    }
  }

  // ---- the first complete prefix ----

  lemma {:induction false} MouseIsFirst(t: string)
    requires MouseForm(t)
    ensures First(t) && |t| >= 3 && t[2] == '<'
  {
    hide MouseReport;
    var b, x, y, end :| MouseParts(t, b, x, y, end);
    PartsReport(t, b, x, y, end);
    assert t[2] == '<' && t[|t| - 1] == end;
    forall e | 1 <= e < |t| ensures IsCompleteSequence(t[..e]) != Complete {
      if e >= 3 {
        NoEarlierLetter(t, b, x, y, end, e - 1);
        ReportEnds(t[..e]);
        assert t[..e][e - 1] == t[e - 1];
      }
    }
  }

  lemma {:induction false} ReportEnds(t: string)
    requires |t| >= 3 && t[0] == ESC && t[1] == '[' && t[2] == '<'
    ensures IsCompleteSequence(t) == Complete ==> t[|t| - 1] == 'M' || t[|t| - 1] == 'm'
  {
    hide DigitsEnd;
    assert t[2..][0] == '<';
  }

  lemma {:induction false} FormIsFirst(t: string)
    requires EscapeForm(t)
    ensures First(t)
  {
    hide MouseReport, DigitsEnd;
    if MouseForm(t) {
      MouseIsFirst(t);
    } else if OscForm(t) || StringForm(t) {
      StringIsFirst(t);
    } else if CsiForm(t) {
      forall e | 3 <= e < |t| ensures IsCompleteSequence(t[..e]) != Complete {
        assert t[..e][2..][e - 3] == t[e - 1];
      }
      assert t[2..][0] == t[2];
    }
  }

  lemma {:induction false} StringIsFirst(t: string)
    requires OscForm(t) || StringForm(t)
    ensures First(t)
  {
    hide MouseReport, DigitsEnd, CompleteCsi;
    forall e | 3 <= e < |t| ensures IsCompleteSequence(t[..e]) != Complete {
      assert t[..e][e - 1] == t[e - 1] && t[..e][e - 2] == t[e - 2];
      assert if OscForm(t) then !OscEnd(t, e - 1) else !TerminatorAt(t, e - 1);
    }
  }

  lemma {:induction false} FixedLength(t: string)
    requires |t| >= 2 && t[0] == ESC
    requires (|t| == 2 && t[1] !in STARTERS) || (|t| == 3 && t[1] == 'O') || OldMouseForm(t)
    ensures IsCompleteSequence(t) == Complete
  {
  }

  lemma {:induction false} FirstIsForm(t: string)
    requires t != "" && t[0] == ESC && First(t)
    ensures EscapeForm(t)
  {
    hide MouseReport, DigitsEnd, MouseForm;
    assert |t| >= 2;
    if |t| > 2 && t[1] !in STARTERS { FixedLength(t[..2]); }
    if t[1] == '[' {
      if |t| > 2 && t[2] == 'M' {
        if |t| > 6 { FixedLength(t[..6]); }
      } else {
        CompleteCsiForm(t);
      }
    } else if t[1] == 'O' {
      if |t| > 3 { FixedLength(t[..3]); }
    } else if t[1] in STARTERS {
      FirstStringForm(t);
    }
  }

  lemma {:induction false} CompleteCsiForm(t: string)
    requires |t| >= 2 && t[0] == ESC && t[1] == '[' && First(t) && (|t| > 2 ==> t[2] != 'M')
    ensures CsiForm(t) || MouseForm(t)
  {
    hide MouseReport, DigitsEnd, MouseForm;
    var p := t[2..];
    assert |t| > 2 && p[0] == t[2] && p[|p| - 1] == t[|t| - 1];
    if t[2] == '<' {
      ReportParts(t);
    } else {
      forall i | 2 <= i < |t| - 1 ensures !FinalByte(t[i]) {
        var q := t[..i + 1];
        assert IsCompleteSequence(q) != Complete;
        assert q[2..][0] == t[2] && q[2..][i - 2] == t[i];
      }
    }
  }

  lemma {:induction false} FirstStringForm(t: string)
    requires |t| >= 2 && t[0] == ESC && (t[1] == ']' || t[1] == 'P' || t[1] == '_') && First(t)
    ensures OscForm(t) || StringForm(t)
  {
    hide MouseReport, DigitsEnd, CompleteCsi;
    assert |t| > 2;
    forall i | 2 <= i < |t| - 1 ensures if t[1] == ']' then !OscEnd(t, i) else !TerminatorAt(t, i) {
      var q := t[..i + 1];
      assert IsCompleteSequence(q) != Complete;
      assert q[i] == t[i] && q[i - 1] == t[i - 1];
    }
  }

  // ---- what is extracted ----

  /**
   * The first sequence of an input is its first prefix of one of the forms, and none when no prefix has a form;
   * only an Escape before the beginning of another sequence is taken on its own.
   */
  lemma {:induction false} FirstSequence(s: string, n: nat)
    requires s != ""
    ensures NextLength(s) == Some(n) <==> if SplitsEscapes(s) then n == 1 else n <= |s| && Form(s[..n])
  {
    hide IsCompleteSequence, EscapeForm;
    if s[0] == ESC {
      FirstEscapeSequence(s, n);
    } else if n == 0 {
      FormsBegin("");
      assert s[..0] == "";
    } else if n <= |s| {
      assert s[..n][0] == s[0];
      NotAnEscape(s[..n]);
    }
  }

  lemma {:induction false} NotAnEscape(t: string)
    requires t != "" && t[0] != ESC
    ensures Form(t) <==> |t| == 1
  {
  }

  lemma {:induction false} FirstEscapeSequence(s: string, n: nat)
    requires s != "" && s[0] == ESC
    ensures NextLength(s) == Some(n) <==> if SplitsEscapes(s) then n == 1 else n <= |s| && Form(s[..n])
  {
    hide IsCompleteSequence, EscapeForm;
    var e := FirstComplete(s, 1);
    if e.Some? {
      var t := s[..e.value];
      assert forall k :: 1 <= k < |t| ==> t[..k] == s[..k];
      FirstIsForm(t);
    }
    if n <= |s| && Form(s[..n]) {
      var t := s[..n];
      FormsBegin(t);
      FormIsFirst(t);
      assert forall k :: 1 <= k < |t| ==> t[..k] == s[..k];
    }
    if SplitsEscapes(s) {
      assert s[..2] == [ESC, ESC];
      assert IsCompleteSequence(s[..1]) == Incomplete && IsCompleteSequence(s[..2]) == Complete by {
        Escapes(s[..1], s[..2]);
      }
    }
  }

  lemma {:induction false} Escapes(one: string, two: string)
    requires one == [ESC] && two == [ESC, ESC]
    ensures IsCompleteSequence(one) == Incomplete && IsCompleteSequence(two) == Complete
  {
  }

  lemma {:induction false} FormsBegin(t: string)
    ensures Form(t) ==> t != "" && (t[0] == ESC ==> EscapeForm(t) && |t| >= 2)
  {
  }

  /** A sequence is taken as it is, whatever comes behind it, unless it is the first half of a split ESC ESC. */
  lemma {:induction false} FormsAreExtracted(t: string, rest: string)
    requires Form(t) && !SplitsEscapes(t + rest)
    ensures Extract(t + rest) == Extracted([t] + Extract(rest).sequences, Extract(rest).remainder)
  {
    hide EscapeForm, NextLength, Extract;
    FormsBegin(t);
    assert (t + rest)[..|t|] == t && (t + rest)[|t|..] == rest;
    FirstSequence(t + rest, |t|);
    ExtractFirst(t + rest, |t|);
  }

  /** What is extracted has one of the forms, or is an Escape before the beginning of another sequence. */
  lemma {:induction false} ExtractedAreForms(s: string, k: nat)
    requires k < |Extract(s).sequences|
    ensures Form(Extract(s).sequences[k]) || Extract(s).sequences[k] == [ESC]
    decreases |s|
  {
    hide EscapeForm, NextLength;
    var n := NextLength(s).value;
    FirstSequence(s, n);
    if k > 0 {
      ExtractedAreForms(s[n..], k - 1);
    } else if SplitsEscapes(s) {
      assert s[..1] == [ESC];
    }
  }

  /** What is held back is the beginning of a sequence that has no form yet. */
  lemma {:induction false} RemainderHasNoForm(s: string, n: nat)
    requires n <= |Extract(s).remainder|
    ensures !Form(Extract(s).remainder[..n])
    decreases |s|
  {
    hide EscapeForm, NextLength;
    if s != "" {
      if NextLength(s).None? {
        FirstSequence(s, 1);
        FirstSequence(s, n);
      } else {
        RemainderHasNoForm(s[NextLength(s).value..], n);
      }
    } else {
      FormsBegin(Extract(s).remainder[..n]);
    }
  }
}
