/** Keys that are reported twice. */
module StdinKeys {
  // What a Kitty terminal's report of a printable key looks like, and which characters are held back after one.
  import opened Strings
  import opened Wrappers
  import opened StdinTokens

  // ---- the reports ----

  predicate KittyParts(s: string, a: string, b: string, c: string, n: nat) {
    && Number(a, n)
    && (b == "" || (b[0] == ':' && AllDigits(b[1..])))
    && (c == "" || (|c| > 1 && c[0] == ':' && AllDigits(c[1..])))
    && s == [ESC, '['] + a + b + c + ['u']
  }

  /** ESC [ number, optionally a colon and maybe digits, optionally a colon and digits, u; never a control code. */
  ghost predicate KittyKey(s: string, n: nat) { n >= 32 && exists a, b, c :: KittyParts(s, a, b, c, n) }

  lemma {:induction false} KittyKeys(s: string, n: nat)
    ensures KittyCodepoint(s) == Some(n) <==> KittyKey(s, n)
  {
    if KittyCodepoint(s) == Some(n) { ReportedKey(s, n); }
    if KittyKey(s, n) {
      var a, b, c :| KittyParts(s, a, b, c, n);
      KeyReported(s, a, b, c, n);
    }
  }

  lemma {:induction false} ReportedKey(s: string, n: nat)
    requires KittyCodepoint(s) == Some(n)
    ensures KittyKey(s, n)
  {
    hide KittyParts;
    var a, b, c := ReportedParts(s, n);
    assert n >= 32;
  }

  lemma {:induction false} ReportedParts(s: string, n: nat) returns (x: string, y: string, z: string)
    requires KittyCodepoint(s) == Some(n)
    ensures KittyParts(s, x, y, z, n)
  {
    hide DigitsEnd, DigitsValue, AllDigits;
    var body := s[2..|s| - 1];
    var a := DigitsEnd(body, 0);
    var b := if a < |body| && body[a] == ':' then DigitsEnd(body, a + 1) else a;
    x, y, z := body[..a], body[a..b], body[b..];
    assert body[0..a] == body[..a];
    SameText(s, body, a, b);
    assert a < b ==> body[a..b][1..] == body[a + 1..b];
    assert b < |body| ==> body[b..][1..] == body[b + 1..|body|];
  }

  lemma {:induction false} SameText(s: string, body: string, a: nat, b: nat)
    requires |s| >= 4 && s[..2] == [ESC, '['] && s[|s| - 1] == 'u' && body == s[2..|s| - 1] && a <= b <= |body|
    ensures s == [ESC, '['] + body[..a] + body[a..b] + body[b..] + ['u']
  {
    assert body[..a] + body[a..b] == body[..b];
    assert body[..b] + body[b..] == body;
    assert s[2..] == body + ['u'];
    assert s == s[..2] + s[2..];
    Grouped(s[..2], body[..a], body[a..b], body[b..], "u");
  }

  lemma {:induction false} Grouped(a: string, b: string, c: string, d: string, e: string)
    ensures a + (b + c + d + e) == a + b + c + d + e
  {
  }

  lemma {:induction false} BodyParts(body: string, a: string, b: string, c: string)
    requires body == a + b + c && a != "" && AllDigits(a)
    requires b == "" || (b[0] == ':' && AllDigits(b[1..]))
    requires c == "" || (|c| > 1 && c[0] == ':' && AllDigits(c[1..]))
    ensures DigitsEnd(body, 0) == |a| && body[..|a|] == a
    ensures b != "" ==> body[|a|] == ':' && DigitsEnd(body, |a| + 1) == |a| + |b|
    ensures c != "" ==> body[|a| + |b|] == ':' && DigitsEnd(body, |a| + |b| + 1) == |body|
  {
    hide DigitsEnd;
    assert body[0..|a|] == a;
    DigitsEndAt(body, 0, |a|);
    if b != "" {
      assert body[|a| + 1..|a| + |b|] == b[1..];
      DigitsEndAt(body, |a| + 1, |a| + |b|);
    }
    if c != "" {
      assert body[|a| + |b| + 1..|body|] == c[1..];
      DigitsEndAt(body, |a| + |b| + 1, |body|);
    }
  }

  lemma {:induction false} KeyReported(s: string, a: string, b: string, c: string, n: nat)
    requires KittyParts(s, a, b, c, n) && n >= 32
    ensures KittyCodepoint(s) == Some(n)
  {
    hide DigitsEnd, DigitsValue, AllDigits, KittyCodepoint;
    var body := a + b + c;
    BodyParts(body, a, b, c);
    BodyInside(s, body);
    if b == "" && c != "" {
      CodepointOf(s, body, |a|, |body|, n);
    } else {
      CodepointOf(s, body, |a|, |a| + |b|, n);
    }
  }

  lemma {:induction false} CodepointOf(s: string, body: string, a: nat, b: nat, n: nat)
    requires |s| == |body| + 3 && s[2..|s| - 1] == body && s[..2] == [ESC, '['] && s[|s| - 1] == 'u'
    requires 0 < a <= b <= |body| && DigitsEnd(body, 0) == a && Number(body[..a], n) && n >= 32
    requires if a == b then b == |body| else body[a] == ':' && DigitsEnd(body, a + 1) == b
    requires b < |body| ==> body[b] == ':' && b + 1 < DigitsEnd(body, b + 1) == |body|
    ensures KittyCodepoint(s) == Some(n)
  {
    hide DigitsEnd, DigitsValue, AllDigits;
  }

  lemma {:induction false} BodyInside(s: string, body: string)
    requires s == [ESC, '['] + body + ['u']
    ensures |s| == |body| + 3 && s[2..|s| - 1] == body && s[..2] == [ESC, '['] && s[|s| - 1] == 'u'
  {
  }

  // ---- what is held back ----

  /** The last token that was not lost; -1 when there is none. */
  predicate LastKept(tokens: seq<Token>, j: int) {
    && -1 <= j < |tokens| && (j >= 0 ==> !tokens[j].Lost?)
    && forall i :: j < i < |tokens| ==> tokens[i].Lost?
  }

  /** The key that was reported last, if its report is the last that came: lost input does not count. */
  lemma {:induction false} PendingIsTheLastReport(pending: Option<nat>, tokens: seq<Token>, j: int)
    requires LastKept(tokens, j)
    ensures Deliver(pending, tokens).pending ==
      if j < 0 then pending else if tokens[j].Sequence? then KittyCodepoint(tokens[j].text) else None
  {
    if tokens != [] {
      var n := |tokens| - 1;
      if j < n { PendingIsTheLastReport(pending, tokens[..n], j); }
    }
  }

  /** Each sequence is delivered, but a single character that repeats the key whose report came just before it;
      a paste is delivered at its end; lost input is not. */
  lemma {:induction false} DeliveredNext(pending: Option<nat>, tokens: seq<Token>, j: int, t: Token)
    requires LastKept(tokens, j)
    ensures var reported := if j < 0 then pending else if tokens[j].Sequence? then KittyCodepoint(tokens[j].text) else None;
      Deliver(pending, tokens + [t]).events == Deliver(pending, tokens).events + match t
        case Sequence(text) => if |text| == 1 && reported == Some(text[0] as nat) then [] else [Data(text)]
        case PasteClose(content) => [Paste(content)]
        case Lost(_) => []
        case PasteOpen => []
  {
    hide KittyCodepoint;
    PendingIsTheLastReport(pending, tokens, j);
    assert (tokens + [t])[..|tokens|] == tokens;
  }
}
