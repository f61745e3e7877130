/** Single sequences and markers, in one piece or cut in two. */
module StdinSequences {
  import opened Strings
  import opened Wrappers
  import opened StdinTokens

  // ---- one sequence at a time ----

  lemma {:induction false} FirstCompleteOfPrefix(a: string, b: string, k: nat)
    requires a != "" && a[0] == ESC && FirstComplete(a, k).Some?
    ensures FirstComplete(a + b, k) == FirstComplete(a, k)
  {
    var e := FirstComplete(a, k).value;
    assert forall j :: k <= j <= e ==> (a + b)[..j] == a[..j];
    assert IsCompleteSequence((a + b)[..e]) == Complete;
  }

  /** A chunk ends badly when its last sequence is ESC ESC and the next character begins a longer one. */
  predicate CutsEscapes(sequences: seq<string>, remainder: string, b: string) {
    && remainder == "" && sequences != [] && sequences[|sequences| - 1] == [ESC, ESC]
    && b != "" && b[0] in STARTERS
  }

  lemma {:induction false} NextOfPrefix(a: string, b: string)
    requires a != "" && NextLength(a).Some?
    ensures if a == [ESC, ESC] && b != "" && b[0] in STARTERS
      then NextLength(a) == Some(2) && NextLength(a + b) == Some(1)
      else NextLength(a + b) == NextLength(a)
  {
    if a[0] == ESC {
      var e := FirstComplete(a, 1);
      FirstCompleteOfPrefix(a, b, 1);
      if e == Some(2) {
        assert a[..2] == [ESC, a[1]];
        if |a| == 2 {
          assert a == [ESC, a[1]];
        }
      }
    }
  }

  predicate InTwo(a: string, b: string) {
    var x := Extract(a);
    var y := Extract(x.remainder + b);
    if CutsEscapes(x.sequences, x.remainder, b) then
      && |x.sequences| <= |Extract(a + b).sequences|
      && Extract(a + b).sequences[|x.sequences| - 1] == [ESC]
      && Extract(a + b).sequences[..|x.sequences| - 1] == x.sequences[..|x.sequences| - 1]
    else Extract(a + b) == Extracted(x.sequences + y.sequences, y.remainder)
  }

  /** Extracting from a and then from the rest with b added is extracting from a + b, unless the cut splits ESC ESC. */
  lemma {:induction false} ExtractInTwo(a: string, b: string)
    ensures InTwo(a, b)
    decreases |a|
  {
    hide InTwo;
    if a == "" || NextLength(a).None? {
      InTwoAtOnce(a, b);
    } else {
      var n := NextLength(a).value;
      NextOfPrefix(a, b);
      if a == [ESC, ESC] {
        InTwoEscapes(b);
      } else {
        ExtractInTwo(a[n..], b);
        ExtractTail(a, b, n);
      }
    }
  }

  lemma {:induction false} InTwoAtOnce(a: string, b: string)
    requires a == "" || NextLength(a).None?
    ensures InTwo(a, b)
  {
    assert a == "" ==> a + b == b;
    assert [] + Extract(a + b).sequences == Extract(a + b).sequences;
  }

  lemma {:induction false} InTwoEscapes(b: string)
    ensures InTwo([ESC, ESC], b)
  {
    var a := [ESC, ESC];
    EscapesAreOne();
    assert "" + b == b;
    if b != "" && b[0] in STARTERS {
      NextOfPrefix(a, b);
      assert (a + b)[..1] == [ESC];
    } else {
      NextOfPrefix(a, b);
      assert (a + b)[2..] == b && (a + b)[..2] == a;
    }
  }

  lemma {:induction false} EscapesAreOne()
    ensures NextLength([ESC, ESC]) == Some(2) && Extract([ESC, ESC]) == Extracted([[ESC, ESC]], "")
  {
    var a := [ESC, ESC];
    assert a[..1] == [ESC] && a[..2] == a && a[2..] == "";
    assert IsCompleteSequence(a[..1]) == Incomplete && IsCompleteSequence(a[..2]) == Complete;
    assert FirstComplete(a, 2) == Some(2);
    assert FirstComplete(a, 1) == Some(2);
  }

  lemma {:induction false} ExtractFirst(s: string, n: nat)
    requires s != "" && NextLength(s) == Some(n)
    ensures Extract(s) == Extracted([s[..n]] + Extract(s[n..]).sequences, Extract(s[n..]).remainder)
  {
  }

  lemma {:induction false} ExtractUnfinished(s: string)
    requires s != "" && NextLength(s).None?
    ensures Extract(s) == Extracted([], s)
  {
  }

  lemma {:induction false} ExtractTail(a: string, b: string, n: nat)
    requires a != "" && a != [ESC, ESC] && NextLength(a) == NextLength(a + b) == Some(n)
    requires InTwo(a[n..], b)
    ensures InTwo(a, b)
  {
    hide Extract, NextLength;
    assert (a + b)[n..] == a[n..] + b && (a + b)[..n] == a[..n];
    ExtractFirst(a, n);
    ExtractFirst(a + b, n);
    var tail := Extract(a[n..]);
    if tail.sequences == [] && tail.remainder == "" {
      NothingLeft(a[n..]);
      assert a[..n] == a;
    }
    Tails(a[..n], tail.sequences, Extract(a[n..] + b).sequences, Extract(tail.remainder + b).sequences);
  }

  lemma {:induction false} Tails(first: string, tail: seq<string>, whole: seq<string>, more: seq<string>)
    ensures tail != [] ==> ([first] + tail)[|tail|] == tail[|tail| - 1]
    ensures 0 < |tail| <= |whole| ==> ([first] + whole)[|tail|] == whole[|tail| - 1]
    ensures 0 < |tail| <= |whole| && tail[..|tail| - 1] == whole[..|tail| - 1] ==>
      ([first] + tail)[..|tail|] == ([first] + whole)[..|tail|]
    ensures [first] + (tail + more) == [first] + tail + more
  {
    var n := |tail|;
    if 0 < n <= |whole| {
      assert ([first] + tail)[..n] == [first] + tail[..n - 1] && ([first] + whole)[..n] == [first] + whole[..n - 1];
    }
  }

  /** What is extracted first from text that begins with ESC has a second character, or is the lone ESC. */
  lemma {:induction false} FirstIsLong(s: string)
    requires s != "" && s[0] == ESC && NextLength(s).Some?
    ensures NextLength(s).value > 1 || s[..NextLength(s).value] == [ESC]
  {
  }

  lemma {:induction false} NothingLeft(s: string)
    requires Extract(s) == Extracted([], "")
    ensures s == ""
  {
  }

  lemma {:induction false} SourcesConcat(a: seq<Token>, b: seq<Token>)
    ensures Sources(a + b) == Sources(a) + Sources(b)
  {
    hide Source;
    if a == [] {
      assert a + b == b && "" + Sources(b) == Sources(b);
    } else {
      SourcesConcat(a[1..], b);
      assert (a + b)[1..] == a[1..] + b && (a + b)[0] == a[0];
      assert Source(a[0]) + (Sources(a[1..]) + Sources(b)) == Source(a[0]) + Sources(a[1..]) + Sources(b);
    }
  }

  /** The sequences and the remainder are the input, cut into pieces. */
  lemma {:induction false} ExtractConserves(s: string)
    ensures Sources(Sequences(Extract(s).sequences)) + Extract(s).remainder == s
    decreases |s|
  {
    if s != "" && NextLength(s).Some? {
      var n := NextLength(s).value;
      var rest := Extract(s[n..]);
      ExtractConserves(s[n..]);
      assert Extract(s) == Extracted([s[..n]] + rest.sequences, rest.remainder);
      SourcesStep(s[..n], rest.sequences);
      Reassemble(s, n, Sources(Sequences(rest.sequences)), rest.remainder);
    } else {
      assert Sequences([]) == [];
    }
  }

  lemma {:induction false} Reassemble(s: string, n: nat, middle: string, end: string)
    requires n <= |s| && middle + end == s[n..]
    ensures s[..n] + middle + end == s
  {
    assert s[..n] + middle + end == s[..n] + (middle + end);
  }

  lemma {:induction false} SourcesStep(first: string, rest: seq<string>)
    ensures Sources(Sequences([first] + rest)) == first + Sources(Sequences(rest))
  {
    assert Sequences([first] + rest)[1..] == Sequences(rest);
  }

  /** A complete sequence that becomes complete with its last character; ESC alone is the one emitted early. */
  predicate Minimal(t: string) {
    || (|t| == 1 && t[0] != ESC)
    || t == [ESC]
    || (|t| > 1 && IsCompleteSequence(t) == Complete
        && forall k :: 0 <= k < |t| ==> IsCompleteSequence(t[..k]) != Complete)
  }

  lemma {:induction false} ExtractedAreMinimal(s: string)
    ensures forall k :: 0 <= k < |Extract(s).sequences| ==> Minimal(Extract(s).sequences[k])
    ensures Extract(s).remainder != "" ==>
      Extract(s).remainder[0] == ESC && FirstComplete(Extract(s).remainder, 1).None?
    decreases |s|
  {
    if s != "" && NextLength(s).Some? {
      var n := NextLength(s).value;
      ExtractedAreMinimal(s[n..]);
      assert Minimal(s[..n]) by {
        if s[0] == ESC && n != 1 {
          assert forall k :: 0 <= k < n ==> s[..n][..k] == s[..k];
          assert IsCompleteSequence(s[..0]) != Complete;
        }
      }
    }
  }

  // ---- finding markers ----

  lemma {:induction false} FindIsLeast(s: string, p: string, i: nat, j: nat)
    requires i <= j && StartsAt(s, p, j) && forall k :: i <= k < j ==> !StartsAt(s, p, k)
    ensures Find(s, p, i) == Some(j)
  {
  }

  /** A marker inside a is found in a + b at the same place. */
  lemma {:induction false} FindInPrefix(a: string, b: string, p: string)
    ensures Find(a, p, 0).Some? ==> Find(a + b, p, 0) == Find(a, p, 0)
    ensures Find(a, p, 0).None? && Find(a + b, p, 0).Some? ==> Find(a + b, p, 0).value + |p| > |a|
  {
    forall k: nat | k + |p| <= |a| ensures StartsAt(a + b, p, k) <==> StartsAt(a, p, k) {
      assert (a + b)[k..k + |p|] == a[k..k + |p|];
    }
    var f := Find(a, p, 0);
    if f.Some? {
      FindIsLeast(a + b, p, 0, f.value);
    }
  }

  /** Dropping d characters before the first marker moves it by d. */
  lemma {:induction false} FindInSuffix(s: string, p: string, d: nat)
    requires d <= |s| && (Find(s, p, 0).Some? ==> d <= Find(s, p, 0).value)
    ensures var f := Find(s, p, 0);
      Find(s[d..], p, 0) == if f.Some? then Some(f.value - d) else None
  {
    var f := Find(s, p, 0);
    forall k: nat ensures StartsAt(s[d..], p, k) <==> StartsAt(s, p, d + k) {
      if d + k + |p| <= |s| {
        assert s[d..][k..k + |p|] == s[d + k..d + k + |p|];
      }
    }
    if f.Some? {
      FindIsLeast(s[d..], p, 0, f.value - d);
    }
  }

  /** A paste never contains the end marker. */
  lemma {:induction false} PastesEndAtFirstMarker(s: string)
    ensures forall k :: 0 <= k < |Parse(s).tokens| && Parse(s).tokens[k].PasteClose? ==>
      Find(Parse(s).tokens[k].content, PASTE_END, 0).None?
    ensures Parse(s).held.Pasting? ==> Find(Parse(s).held.pasted, PASTE_END, 0).None?
    decreases |s|, 1
  {
    var f := Find(s, PASTE_START, 0);
    if f.Some? {
      PasteEndsAtFirstMarker(s[f.value + |PASTE_START|..]);
    }
  }

  lemma {:induction false} PasteEndsAtFirstMarker(s: string)
    ensures forall k :: 0 <= k < |ParsePaste(s).tokens| && ParsePaste(s).tokens[k].PasteClose? ==>
      Find(ParsePaste(s).tokens[k].content, PASTE_END, 0).None?
    ensures ParsePaste(s).held.Pasting? ==> Find(ParsePaste(s).held.pasted, PASTE_END, 0).None?
    decreases |s|, 0
  {
    var f := Find(s, PASTE_END, 0);
    if f.Some? {
      var content := s[..f.value];
      FindInPrefix(content, s[f.value..], PASTE_END);
      assert content + s[f.value..] == s;
      PastesEndAtFirstMarker(s[f.value + |PASTE_END|..]);
    }
  }
}
