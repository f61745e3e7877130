/** Where escape codes end. */
module AnsiForms {
  import opened AnsiCodes

  /** A control sequence that is known: it ends at its first m, G, K, H or J. */
  predicate ControlCode(t: string) {
    && |t| >= 3 && t[0] == ESC && t[1] == '[' && t[|t| - 1] in {'m', 'G', 'K', 'H', 'J'}
    && forall i :: 2 <= i < |t| - 1 ==> t[i] !in {'m', 'G', 'K', 'H', 'J'}
  }

  predicate EndsString(t: string, i: int) { 0 < i < |t| && (t[i] == BEL || (t[i - 1] == ESC && t[i] == '\\')) }

  /** An operating system or application program command: it ends at its first bell or ESC \. */
  predicate StringCode(t: string) {
    && |t| >= 3 && t[0] == ESC && (t[1] == ']' || t[1] == '_')
    && EndsString(t, |t| - 1) && forall i :: 2 <= i < |t| - 1 ==> !EndsString(t, i)
  }

  predicate CodeForm(t: string) { ControlCode(t) || StringCode(t) }

  lemma {:induction false} TerminatorMeans(s: string, j: nat)
    requires j <= |s|
    ensures var r := FindTerminator(s, j);
      if r > 0 then j < r <= |s| && (BelAt(s, r - 1) || (r >= j + 2 && StAt(s, r - 2)))
      else forall k :: j <= k ==> !BelAt(s, k) && !StAt(s, k)
    ensures var r := FindTerminator(s, j);
      r > 0 ==> forall k :: j <= k ==> (k < r - 1 ==> !BelAt(s, k)) && (k + 1 < r - 1 ==> !StAt(s, k))
    decreases |s| - j
  {
    if j < |s| && !BelAt(s, j) && !StAt(s, j) { TerminatorMeans(s, j + 1); }
  }

  /** A code of n characters begins at a position exactly when the text there has one of the two forms. */
  lemma {:induction false} CodesHaveTheForm(s: string, pos: nat, n: nat)
    requires 0 < n && pos + n <= |s|
    ensures CodeLength(s, pos) == n <==> CodeForm(s[pos..pos + n])
  {
    hide FindFinal, FindTerminator;
    var t := s[pos..pos + n];
    assert forall i :: 0 <= i < n ==> t[i] == s[pos + i];
    if pos + 1 < |s| && s[pos] == ESC {
      if s[pos + 1] == '[' {
        ControlEnds(s, pos, n);
      } else if s[pos + 1] == ']' || s[pos + 1] == '_' {
        StringEnds(s, pos, n);
      }
    }
  }

  lemma {:induction false} ControlEnds(s: string, pos: nat, n: nat)
    requires 0 < n && pos + n <= |s| && pos + 1 < |s| && s[pos] == ESC && s[pos + 1] == '['
    ensures FindFinal(s, pos + 2) < |s| && FindFinal(s, pos + 2) + 1 - pos == n <==> CodeForm(s[pos..pos + n])
  {
    hide FindFinal;
    var t, f := s[pos..pos + n], FindFinal(s, pos + 2);
    assert forall i :: 0 <= i < n ==> t[i] == s[pos + i];
    if f < |s| && f + 1 - pos == n {
      assert t[n - 1] == s[f];
    }
    if CodeForm(t) {
      assert t[1] == '[' && IsCsiFinal(s[pos + (n - 1)]);
      NoEarlierFinal(s, pos, n);
    }
  }

  lemma {:induction false} NoEarlierFinal(s: string, pos: nat, n: nat)
    requires pos + n <= |s| && ControlCode(s[pos..pos + n])
    ensures forall j :: pos + 2 <= j < pos + n - 1 ==> !IsCsiFinal(s[j])
  {
    forall j | pos + 2 <= j < pos + n - 1 ensures !IsCsiFinal(s[j]) {
      assert s[pos..pos + n][j - pos] == s[j];
    }
  }

  lemma {:induction false} NoEarlierEnd(s: string, pos: nat, n: nat)
    requires pos + n <= |s| && StringCode(s[pos..pos + n])
    ensures forall j :: pos + 2 <= j < pos + n - 1 ==> !BelAt(s, j) && !StAt(s, j - 1)
  {
    var t := s[pos..pos + n];
    forall j | pos + 2 <= j < pos + n - 1 ensures !BelAt(s, j) && !StAt(s, j - 1) {
      assert !EndsString(t, j - pos) && t[j - pos] == s[j] && t[j - pos - 1] == s[j - 1];
    }
  }

  lemma {:induction false} StringEnds(s: string, pos: nat, n: nat)
    requires 0 < n && pos + n <= |s| && pos + 1 < |s| && s[pos] == ESC && (s[pos + 1] == ']' || s[pos + 1] == '_')
    ensures FindTerminator(s, pos + 2) > 0 && FindTerminator(s, pos + 2) - pos == n <==> CodeForm(s[pos..pos + n])
  {
    hide FindTerminator, CodeForm;
    var t, r := s[pos..pos + n], FindTerminator(s, pos + 2);
    assert n > 1 ==> t[1] == s[pos + 1];
    if r > 0 && r - pos == n { FoundEnd(s, pos, n); }
    if CodeForm(t) {
      assert StringCode(t) by { StringByIntroducer(t); }
      EndFound(s, pos, n);
    }
  }

  lemma {:induction false} StringByIntroducer(t: string)
    requires CodeForm(t) && (|t| > 1 ==> t[1] == ']' || t[1] == '_')
    ensures StringCode(t)
  {
  }

  lemma {:induction false} FoundEnd(s: string, pos: nat, n: nat)
    requires 0 < n && pos + n <= |s| && pos + 1 < |s| && s[pos] == ESC && (s[pos + 1] == ']' || s[pos + 1] == '_')
    requires FindTerminator(s, pos + 2) == pos + n
    ensures CodeForm(s[pos..pos + n])
  {
    hide FindTerminator;
    TerminatorMeans(s, pos + 2);
    var t := s[pos..pos + n];
    assert t[0] == s[pos] && t[1] == s[pos + 1] && t[n - 1] == s[pos + n - 1] && t[n - 2] == s[pos + n - 2];
    assert EndsString(t, n - 1);
    forall i | 2 <= i < n - 1 ensures !EndsString(t, i) {
      assert !BelAt(s, pos + i) && (i > 2 ==> !StAt(s, pos + i - 1));
      assert t[i] == s[pos + i] && t[i - 1] == s[pos + i - 1];
    }
  }

  lemma {:induction false} EndFound(s: string, pos: nat, n: nat)
    requires pos + n <= |s| && StringCode(s[pos..pos + n])
    ensures FindTerminator(s, pos + 2) == pos + n
  {
    hide FindTerminator, StringCode;
    assert n >= 3 by { CodeIsLong(s[pos..pos + n]); }
    TerminatorMeans(s, pos + 2);
    LastEnds(s, pos, n, s[pos..pos + n]);
    NoEarlierEnd(s, pos, n);
    var r := FindTerminator(s, pos + 2);
    assert r > 0;
    assert pos + n <= r;
  }

  lemma {:induction false} CodeIsLong(t: string)
    requires StringCode(t)
    ensures |t| >= 3
  {
  }

  lemma {:induction false} LastEnds(s: string, pos: nat, n: nat, t: string)
    requires pos + n <= |s| && t == s[pos..pos + n] && StringCode(t)
    ensures BelAt(s, pos + n - 1) || (n >= 4 && StAt(s, pos + n - 2))
  {
    assert t[n - 1] == s[pos + n - 1] && t[n - 2] == s[pos + n - 2];
  }

  // ---- codes that end in "m" but set nothing ----

  /** A control sequence whose parameters are not just digits and semicolons changes nothing. */
  lemma {:induction false} NotAStyle(s: Style, body: string, k: nat)
    requires ESC !in body && 'm' !in body && k < |body| && !IsParam(body[k])
    ensures Process(s, [ESC, '['] + body + "m") == s
  {
    var code := [ESC, '['] + body + "m";
    assert code[1] == '[' && !(OSC8 <= code) by { assert OSC8[1] == ']'; }
    assert code[2 + k] == body[k];
    forall i | 1 <= i < |code| ensures code[i] != ESC {
      assert code[i] == if i == 1 then '[' else if i < 2 + |body| then body[i - 2] else 'm';
    }
    assert forall i :: 0 <= i < |body| ==> code[2 + i] == body[i];
    assert FindNonParam(code, 2) <= 2 + k && code[FindNonParam(code, 2)] != 'm' by { StopsInside(code, body, k); }
    NoMatch(code, 1);
  }

  lemma {:induction false} StopsInside(code: string, body: string, k: nat)
    requires |code| == |body| + 3 && (forall i :: 0 <= i < |body| ==> code[2 + i] == body[i])
    requires 'm' !in body && k < |body| && !IsParam(body[k])
    ensures FindNonParam(code, 2) <= 2 + k && code[FindNonParam(code, 2)] != 'm'
  {
    var j := FindNonParam(code, 2);
    assert code[2 + k] == body[k];
    assert code[j] == body[j - 2];
  }

  lemma {:induction false} NoMatch(s: string, i: nat)
    requires i <= |s| && forall k :: i <= k < |s| ==> s[k] != ESC
    ensures SgrParams(s, i).None?
    decreases |s| - i
  {
    if i < |s| { NoMatch(s, i + 1); }
  }
}
