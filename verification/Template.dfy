/** Prompt templates in one pass. */
module Template {
  import opened Strings
  import opened Wrappers

  const ARGUMENTS := "$ARGUMENTS"

  datatype Meaning =
    | Literal
    | AllArguments
    | Slice(start: nat, length: Option<nat>)
    | WithDefault(number: nat, default: string)
    | Positional(number: nat)

  /** A stretch of the template and what it stands for. */
  datatype Piece = Piece(source: string, meaning: Meaning)

  // ---- expansion ----

  function Join(args: seq<string>): string {
    if args == [] then "" else if |args| == 1 then args[0] else Join(args[..|args| - 1]) + " " + args[|args| - 1]
  }

  /** The number-th argument, counting from one; None where there is none. */
  function Argument(args: seq<string>, number: nat): Option<string> {
    if 0 < number <= |args| then Some(args[number - 1]) else None
  }

  function Selected(args: seq<string>, start: nat, length: Option<nat>): seq<string> {
    var from := if start == 0 then 0 else start - 1;
    if from >= |args| then []
    else if length.None? || from + length.value >= |args| then args[from..]
    else args[from..from + length.value]
  }

  function Expand(p: Piece, args: seq<string>): string {
    match p.meaning
    case Literal => p.source
    case AllArguments => Join(args)
    case Slice(start, length) => Join(Selected(args, start, length))
    case WithDefault(number, default) =>
      var argument := Argument(args, number);
      if argument.Some? && argument.value != "" then argument.value else default
    case Positional(number) =>
      var argument := Argument(args, number);
      if argument.Some? then argument.value else ""
  }

  // ---- the template, cut into pieces without looking at any argument ----

  predicate CharAt(s: string, i: nat, c: char) { i < |s| && s[i] == c }

  /** `${@:start}` or `${@:start:length}` at i, where "${@:" was seen. */
  function SliceAt(s: string, i: nat): (r: Option<Piece>)
    requires i + 4 <= |s|
    ensures r.Some? ==> 0 < |r.value.source| <= |s| - i && s[i..i + |r.value.source|] == r.value.source
  {
    var a := DigitsEnd(s, i + 4);
    if a == i + 4 then None
    else if CharAt(s, a, ':') then
      var b := DigitsEnd(s, a + 1);
      if b > a + 1 && CharAt(s, b, '}')
      then Some(Piece(s[i..b + 1], Slice(DigitsValue(s[i + 4..a]), Some(DigitsValue(s[a + 1..b])))))
      else None
    else if CharAt(s, a, '}') then Some(Piece(s[i..a + 1], Slice(DigitsValue(s[i + 4..a]), None)))
    else None
  }

  /** `${number:-default}` at i, where "${" was seen. */
  function DefaultAt(s: string, i: nat): (r: Option<Piece>)
    requires i + 2 <= |s|
    ensures r.Some? ==> 0 < |r.value.source| <= |s| - i && s[i..i + |r.value.source|] == r.value.source
  {
    var a := DigitsEnd(s, i + 2);
    if a == i + 2 || !StartsAt(s, ":-", a) then None
    else
      var end := Find(s, "}", a + 2);
      if end.Some? then Some(Piece(s[i..end.value + 1], WithDefault(DigitsValue(s[i + 2..a]), s[a + 2..end.value])))
      else None
  }

  function BracedAt(s: string, i: nat): (r: Option<Piece>)
    ensures r.Some? ==> 0 < |r.value.source| <= |s| - i && s[i..i + |r.value.source|] == r.value.source
  {
    if !StartsAt(s, "${", i) then None
    else if StartsAt(s, "${@:", i) then SliceAt(s, i)
    else DefaultAt(s, i)
  }

  function PieceAt(s: string, i: nat): (p: Piece)
    requires i < |s|
    ensures 0 < |p.source| <= |s| - i && s[i..i + |p.source|] == p.source
  {
    if s[i] != '$' then Piece([s[i]], Literal)
    else if StartsAt(s, ARGUMENTS, i) then Piece(ARGUMENTS, AllArguments)
    else if StartsAt(s, "$@", i) then Piece("$@", AllArguments)
    else
      var braced := BracedAt(s, i);
      var end := DigitsEnd(s, i + 1);
      if braced.Some? then braced.value
      else if end > i + 1 then Piece(s[i..end], Positional(DigitsValue(s[i + 1..end])))
      else Piece("$", Literal)
  }

  function PiecesFrom(s: string, i: nat): seq<Piece>
    requires i <= |s|
    decreases |s| - i
  {
    if i == |s| then []
    else
      var p := PieceAt(s, i);
      [p] + PiecesFrom(s, i + |p.source|)
  }

  function Sources(pieces: seq<Piece>): string {
    if pieces == [] then "" else pieces[0].source + Sources(pieces[1..])
  }

  function Expansion(pieces: seq<Piece>, args: seq<string>): string {
    if pieces == [] then "" else Expand(pieces[0], args) + Expansion(pieces[1..], args)
  }

  // ---- what the pieces are ----

  /** The pieces are the template, cut up: nothing is skipped, nothing is read twice. */
  lemma {:induction false} PiecesMakeTheTemplate(s: string, i: nat)
    requires i <= |s|
    ensures Sources(PiecesFrom(s, i)) == s[i..]
    decreases |s| - i
  {
    hide PieceAt;
    if i < |s| {
      var p := PieceAt(s, i);
      PiecesMakeTheTemplate(s, i + |p.source|);
      assert PiecesFrom(s, i)[1..] == PiecesFrom(s, i + |p.source|);
      assert s[i..] == s[i..i + |p.source|] + s[i + |p.source|..];
    }
  }

  /** The forms a placeholder can take, read off its own text. */
  ghost predicate WellFormed(p: Piece) {
    match p.meaning
    case Literal => |p.source| == 1
    case AllArguments => p.source == ARGUMENTS || p.source == "$@"
    case Slice(start, length) => SliceForm(p.source, start, length)
    case WithDefault(number, default) => DefaultForm(p.source, number, default)
    case Positional(number) =>
      && |p.source| > 1 && p.source[0] == '$' && AllDigits(p.source[1..])
      && DigitsValue(p.source[1..]) == number
  }

  ghost predicate SliceForm(source: string, start: nat, length: Option<nat>) {
    if length.None? then exists a :: Number(a, start) && source == "${@:" + a + "}"
    else exists a, b :: Number(a, start) && Number(b, length.value) && source == "${@:" + a + ":" + b + "}"
  }

  ghost predicate DefaultForm(source: string, number: nat, default: string) {
    && '}' !in default
    && exists n :: Number(n, number) && source == "${" + n + ":-" + default + "}"
  }

  lemma {:induction false} SliceIsWellFormed(s: string, i: nat)
    requires StartsAt(s, "${@:", i) && SliceAt(s, i).Some?
    ensures WellFormed(SliceAt(s, i).value) && SliceAt(s, i).value.meaning.Slice?
  {
    hide DigitsEnd, DigitsValue;
    var a := DigitsEnd(s, i + 4);
    var p, start := SliceAt(s, i).value, s[i + 4..a];
    assert Number(start, p.meaning.start);
    if p.meaning.length.Some? {
      var b := DigitsEnd(s, a + 1);
      assert Number(s[a + 1..b], p.meaning.length.value);
      FiveParts(s, i, i + 4, a, a + 1, b, b + 1);
      assert p.source == "${@:" + start + ":" + s[a + 1..b] + "}";
    } else {
      FiveParts(s, i, i + 4, a, a + 1, a + 1, a + 1);
      assert p.source == "${@:" + start + "}";
    }
  }

  lemma {:induction false} FiveParts(s: string, i: nat, a: nat, b: nat, c: nat, d: nat, e: nat)
    requires i <= a <= b <= c <= d <= e <= |s|
    ensures s[i..e] == s[i..a] + s[a..b] + s[b..c] + s[c..d] + s[d..e]
    ensures c == b + 1 ==> s[b..c] == [s[b]]
    ensures e == d + 1 ==> s[d..e] == [s[d]]
    ensures d == e == c ==> s[i..e] == s[i..a] + s[a..b] + s[b..c]
  {
  }

  lemma {:induction false} DefaultIsWellFormed(s: string, i: nat)
    requires StartsAt(s, "${", i) && DefaultAt(s, i).Some?
    ensures WellFormed(DefaultAt(s, i).value) && DefaultAt(s, i).value.meaning.WithDefault?
  {
    hide DigitsEnd, DigitsValue, Find, AllDigits;
    var a := DigitsEnd(s, i + 2);
    var end := Find(s, "}", a + 2).value;
    var p, n, default := DefaultAt(s, i).value, s[i + 2..a], s[a + 2..end];
    assert Number(n, p.meaning.number);
    FiveParts(s, i, i + 2, a, a + 2, end, end + 1);
    assert p.source == "${" + n + ":-" + default + "}";
    NoBraceBefore(s, a + 2, end);
  }

  lemma {:induction false} NoBraceBefore(s: string, from: nat, end: nat)
    requires Find(s, "}", from) == Some(end)
    ensures '}' !in s[from..end]
  {
    hide Find;
    forall k | 0 <= k < end - from ensures s[from..end][k] != '}' {
      assert !StartsAt(s, "}", from + k);
      assert s[from + k..from + k + 1] == [s[from + k]];
    }
  }

  /** Every piece has one of the documented forms, or is a single character that stands for itself. */
  lemma {:induction false} PiecesAreWellFormed(s: string, i: nat)
    requires i <= |s|
    ensures forall k :: 0 <= k < |PiecesFrom(s, i)| ==> WellFormed(PiecesFrom(s, i)[k])
    decreases |s| - i
  {
    if i < |s| {
      PieceIsWellFormed(s, i);
      PiecesAreWellFormed(s, i + |PieceAt(s, i).source|);
    }
  }

  lemma {:induction false} PieceIsWellFormed(s: string, i: nat)
    requires i < |s|
    ensures WellFormed(PieceAt(s, i))
  {
    hide DigitsValue, SliceAt, DefaultAt, SliceForm, DefaultForm;
    if BracedAt(s, i).Some? {
      if StartsAt(s, "${@:", i) {
        SliceIsWellFormed(s, i);
      } else {
        DefaultIsWellFormed(s, i);
      }
    }
  }

  // ---- every placeholder is found ----

  lemma {:induction false} FindFirst(s: string, c: char, i: nat, j: nat)
    requires i <= j < |s| && s[j] == c && c !in s[i..j]
    ensures Find(s, [c], i) == Some(j)
    decreases j - i
  {
    assert s[i..i + 1] == [s[i]];
    if i < j {
      assert s[i..j][0] == s[i] && s[i..j][1..] == s[i + 1..j];
      FindFirst(s, c, i + 1, j);
    }
  }

  lemma {:induction false} StartsWithChar(s: string, p: string, i: nat, k: nat)
    requires k < |p|
    ensures StartsAt(s, p, i) ==> i + k < |s| && s[i + k] == p[k]
  {
    if StartsAt(s, p, i) { assert s[i..i + |p|][k] == s[i + k]; }
  }

  /** The second character tells which forms a "$" may begin. */
  lemma {:induction false} SecondCharacter(s: string, i: nat)
    requires i + 1 < |s|
    ensures StartsAt(s, ARGUMENTS, i) ==> s[i + 1] == 'A'
    ensures StartsAt(s, "$@", i) ==> s[i + 1] == '@'
    ensures StartsAt(s, "${", i) ==> s[i] == '$' && s[i + 1] == '{'
  {
    StartsWithChar(s, ARGUMENTS, i, 1);
    StartsWithChar(s, "$@", i, 1);
    StartsWithChar(s, "${", i, 0);
    StartsWithChar(s, "${", i, 1);
  }

  lemma {:induction false} OpenSliceFound(s: string, i: nat, digits: string, start: nat, source: string)
    requires Number(digits, start) && source == "${@:" + digits + "}"
    requires i + |source| <= |s| && s[i..i + |source|] == source
    ensures SliceAt(s, i) == Some(Piece(source, Slice(start, None)))
  {
    hide DigitsEnd, DigitsValue;
    DigitsInPlace(s, i, "${@:", digits, "}");
  }

  lemma {:induction false} SliceFound(s: string, i: nat, digits: string, start: nat, more: string, length: nat, source: string)
    requires Number(digits, start) && Number(more, length) && source == "${@:" + digits + ":" + more + "}"
    requires i + |source| <= |s| && s[i..i + |source|] == source
    ensures SliceAt(s, i) == Some(Piece(source, Slice(start, Some(length))))
  {
    hide DigitsEnd, DigitsValue, AllDigits;
    SliceInPlace(s, i, digits, more, source);
  }

  lemma {:induction false} SliceInPlace(s: string, i: nat, digits: string, more: string, source: string)
    requires AllDigits(digits) && AllDigits(more) && source == "${@:" + digits + ":" + more + "}"
    requires i + |source| <= |s| && s[i..i + |source|] == source
    ensures var a := i + 4 + |digits|; var b := a + 1 + |more|;
      && s[i + 4..a] == digits && DigitsEnd(s, i + 4) == a && CharAt(s, a, ':') && s[a + 1..b] == more
      && DigitsEnd(s, a + 1) == b && CharAt(s, b, '}') && b + 1 == i + |source|
  {
    hide DigitsEnd, AllDigits;
    var rest := ":" + more + "}";
    assert source == "${@:" + digits + rest && rest[0] == ':';
    DigitsInPlace(s, i, "${@:", digits, rest);
    DigitsInPlace(s, i + 4 + |digits|, ":", more, "}");
  }

  lemma {:induction false} DefaultFound(s: string, i: nat, digits: string, number: nat, default: string, source: string)
    requires Number(digits, number) && '}' !in default && source == "${" + digits + ":-" + default + "}"
    requires i + |source| <= |s| && s[i..i + |source|] == source
    ensures DefaultAt(s, i) == Some(Piece(source, WithDefault(number, default)))
    ensures !StartsAt(s, "${@:", i)
  {
    hide DigitsEnd, DigitsValue, Find, AllDigits, StartsAt;
    var a := i + 2 + |digits|;
    var end := a + 2 + |default|;
    assert s[i + 2..a] == digits && DigitsEnd(s, i + 2) == a && StartsAt(s, ":-", a) && s[a + 2..end] == default
        && Find(s, "}", a + 2) == Some(end) && end + 1 == i + |source| by {
      DefaultInPlace(s, i, digits, default, source);
    }
    assert s[i + 2] == digits[0] && IsDigit(digits[0]) by { FirstDigit(s, i + 2, a, digits); }
    StartsWithChar(s, "${@:", i, 2);
  }

  lemma {:induction false} FirstDigit(s: string, i: nat, a: nat, digits: string)
    requires i <= a <= |s| && s[i..a] == digits && digits != "" && AllDigits(digits)
    ensures s[i] == digits[0] && IsDigit(digits[0])
  {
    assert s[i..a][0] == s[i];
  }

  lemma {:induction false} DefaultInPlace(s: string, i: nat, digits: string, default: string, source: string)
    requires AllDigits(digits) && '}' !in default && source == "${" + digits + ":-" + default + "}"
    requires i + |source| <= |s| && s[i..i + |source|] == source
    ensures var a := i + 2 + |digits|; var end := a + 2 + |default|;
      && s[i + 2..a] == digits && DigitsEnd(s, i + 2) == a && StartsAt(s, ":-", a) && s[a + 2..end] == default
      && Find(s, "}", a + 2) == Some(end) && end + 1 == i + |source|
  {
    hide DigitsEnd, Find, AllDigits;
    var rest := ":-" + default + "}";
    assert source == "${" + digits + rest && rest[0] == ':';
    DigitsInPlace(s, i, "${", digits, rest);
    var a := i + 2 + |digits|;
    PartsInPlace(s, a, ":-", default, "}");
    var end := a + 2 + |default|;
    assert s[end] == s[end..end + 1][0] == '}';
    FindFirst(s, '}', a + 2, end);
  }

  lemma {:induction false} BracedFound(s: string, i: nat, p: Piece)
    requires WellFormed(p) && (p.meaning.Slice? || p.meaning.WithDefault?)
    requires i + |p.source| <= |s| && s[i..i + |p.source|] == p.source
    ensures PieceAt(s, i) == p
  {
    hide SliceAt, DefaultAt, DigitsEnd, Find, DigitsValue, Number;
    Opening(s, i, p);
    SecondCharacter(s, i);
    match p.meaning
    case Slice(start, length) =>
      if length.None? {
        var a :| Number(a, start) && p.source == "${@:" + a + "}";
        OpenSliceFound(s, i, a, start, p.source);
      } else {
        var a, b :| Number(a, start) && Number(b, length.value) && p.source == "${@:" + a + ":" + b + "}";
        SliceFound(s, i, a, start, b, length.value, p.source);
      }
    case WithDefault(number, default) =>
      var n :| Number(n, number) && p.source == "${" + n + ":-" + default + "}";
      DefaultFound(s, i, n, number, default, p.source);
  }

  lemma {:induction false} Opening(s: string, i: nat, p: Piece)
    requires WellFormed(p) && (p.meaning.Slice? || p.meaning.WithDefault?)
    requires i + |p.source| <= |s| && s[i..i + |p.source|] == p.source
    ensures StartsAt(s, "${", i) && (p.meaning.Slice? ==> StartsAt(s, "${@:", i))
  {
    hide Number;
    var here := s[i..i + |p.source|];
    assert |p.source| >= 2 && p.source[..2] == "${" && s[i..i + 2] == here[..2];
    if p.meaning.Slice? { assert |p.source| >= 4 && p.source[..4] == "${@:" && s[i..i + 4] == here[..4]; }
  }

  /** Where the text of a placeholder stands, the scan finds that placeholder: a "$" stands for itself only where
      none begins. The number of a positional one extends over all the digits that follow. */
  lemma {:induction false} PlaceholdersAreFound(s: string, i: nat, p: Piece)
    requires WellFormed(p) && !p.meaning.Literal?
    requires i + |p.source| <= |s| && s[i..i + |p.source|] == p.source
    ensures i < |s| && !PieceAt(s, i).meaning.Literal?
    ensures !p.meaning.Positional? || (i + |p.source| < |s| ==> !IsDigit(s[i + |p.source|])) ==> PieceAt(s, i) == p
  {
    hide SliceAt, DefaultAt, Find, DigitsValue, DigitsEnd, SliceForm, DefaultForm;
    match p.meaning
    case AllArguments => AllArgumentsFound(s, i, p.source);
    case Positional(_) => PositionalFound(s, i, p);
    case _ => BracedFound(s, i, p);
  }

  lemma {:induction false} AllArgumentsFound(s: string, i: nat, source: string)
    requires (source == ARGUMENTS || source == "$@") && StartsAt(s, source, i)
    ensures PieceAt(s, i) == Piece(source, AllArguments)
  {
    hide BracedAt, DigitsEnd;
    StartsWithChar(s, source, i, 0);
    StartsWithChar(s, source, i, 1);
    SecondCharacter(s, i);
  }

  lemma {:induction false} PositionalFound(s: string, i: nat, p: Piece)
    requires WellFormed(p) && p.meaning.Positional? && StartsAt(s, p.source, i)
    ensures PieceAt(s, i).meaning.Positional?
    ensures (i + |p.source| < |s| ==> !IsDigit(s[i + |p.source|])) ==> PieceAt(s, i) == p
  {
    hide SliceAt, DefaultAt, Find, DigitsValue, SliceForm, DefaultForm;
    var end := i + |p.source|;
    StartsWithChar(s, p.source, i, 0);
    StartsWithChar(s, p.source, i, 1);
    SecondCharacter(s, i);
    assert s[i..end][1..] == s[i + 1..end];
    assert p.source[1..] == s[i + 1..end] && IsDigit(p.source[1..][0]);
    if end < |s| ==> !IsDigit(s[end]) { DigitsEndAt(s, i + 1, end); }
  }

  // ---- the scan ----

  method Digits(content: string, begin: nat) returns (cursor: nat)
    requires begin <= |content|
    ensures cursor == DigitsEnd(content, begin)
  {
    cursor := begin;
    while cursor < |content| && '0' <= content[cursor] <= '9'
      invariant begin <= cursor <= |content|
      invariant DigitsEnd(content, begin) == DigitsEnd(content, cursor)
    {
      cursor := cursor + 1;
    }
  }

  method ScanSlice(content: string, index: nat) returns (found: Option<Piece>)
    requires index + 4 <= |content|
    ensures found == SliceAt(content, index)
  {
    hide DigitsValue, DigitsEnd;
    var cursor := Digits(content, index + 4);
    var startText := content[index + 4..cursor];
    if startText == "" {
      return None;
    }
    var length := None;
    if CharAt(content, cursor, ':') {
      var lengthBegin := cursor + 1;
      cursor := Digits(content, lengthBegin);
      if cursor == lengthBegin {
        return None;
      }
      length := Some(DigitsValue(content[lengthBegin..cursor]));
    }
    if CharAt(content, cursor, '}') {
      return Some(Piece(content[index..cursor + 1], Slice(DigitsValue(startText), length)));
    }
    found := None;
  }

  method ScanDefault(content: string, index: nat) returns (found: Option<Piece>)
    requires index + 2 <= |content|
    ensures found == DefaultAt(content, index)
  {
    hide DigitsValue, DigitsEnd, Find;
    var cursor := Digits(content, index + 2);
    if cursor > index + 2 && StartsAt(content, ":-", cursor) {
      var defaultEnd := Find(content, "}", cursor + 2);
      if defaultEnd.Some? {
        return Some(Piece(content[index..defaultEnd.value + 1],
          WithDefault(DigitsValue(content[index + 2..cursor]), content[cursor + 2..defaultEnd.value])));
      }
    }
    found := None;
  }

  /** The braced placeholder at index, None when there is none: then its "$" is literal. */
  method ScanBraced(content: string, index: nat) returns (found: Option<Piece>)
    requires StartsAt(content, "${", index)
    ensures found == BracedAt(content, index)
  {
    hide SliceAt, DefaultAt;
    StartsWithSlice(content, index);
    if CharAt(content, index + 2, '@') && CharAt(content, index + 3, ':') {
      found := ScanSlice(content, index);
    } else {
      found := ScanDefault(content, index);
    }
  }

  lemma {:induction false} StartsWithSlice(s: string, i: nat)
    requires StartsAt(s, "${", i)
    ensures StartsAt(s, "${@:", i) <==> CharAt(s, i + 2, '@') && CharAt(s, i + 3, ':')
  {
    if i + 4 <= |s| {
      assert s[i..i + 4] == s[i..i + 2] + [s[i + 2], s[i + 3]];
      assert "${@:" == "${" + ['@', ':'];
      assert s[i..i + 4][2] == s[i + 2] && s[i..i + 4][3] == s[i + 3];
    }
  }

  /** One pass over the template: the result is the pieces, each expanded once. */
  method SubstituteArgs(content: string, args: seq<string>) returns (result: string)
    ensures result == Expansion(PiecesFrom(content, 0), args)
  {
    hide PieceAt, Expand, BracedAt;
    result := "";
    var index := 0;
    while index < |content|
      invariant index <= |content|
      invariant result + Expansion(PiecesFrom(content, index), args) == Expansion(PiecesFrom(content, 0), args)
      decreases |content| - index
    {
      ghost var before := result;
      ghost var piece := PieceAt(content, index);
      ghost var rest := PiecesFrom(content, index + |piece.source|);
      ExpansionStep(piece, rest, args);
      var found := ScanPiece(content, index);
      result := result + Expand(found, args);
      index := index + |found.source|;
      assert before + (Expand(piece, args) + Expansion(rest, args)) == before + Expand(piece, args) + Expansion(rest, args);
    }
  }

  lemma {:induction false} ExpansionStep(p: Piece, rest: seq<Piece>, args: seq<string>)
    ensures Expansion([p] + rest, args) == Expand(p, args) + Expansion(rest, args)
  {
    assert ([p] + rest)[1..] == rest;
  }

  method ScanPiece(content: string, index: nat) returns (found: Piece)
    requires index < |content|
    ensures found == PieceAt(content, index)
  {
    hide DigitsValue, DigitsEnd, BracedAt;
    if content[index] != '$' {
      return Piece([content[index]], Literal);
    }
    if StartsAt(content, ARGUMENTS, index) {
      return Piece(ARGUMENTS, AllArguments);
    }
    if StartsAt(content, "$@", index) {
      return Piece("$@", AllArguments);
    }
    NotBraced(content, index);
    if StartsAt(content, "${", index) {
      var braced := ScanBraced(content, index);
      if braced.Some? {
        return braced.value;
      }
    }
    var digitEnd := Digits(content, index + 1);
    if digitEnd > index + 1 {
      return Piece(content[index..digitEnd], Positional(DigitsValue(content[index + 1..digitEnd])));
    }
    found := Piece("$", Literal);
  }

  lemma {:induction false} NotBraced(s: string, i: nat)
    ensures !StartsAt(s, "${", i) ==> BracedAt(s, i).None?
  {
  }

  // ---- what one pass means for the result ----

  function Substituted(content: string, args: seq<string>): string { Expansion(PiecesFrom(content, 0), args) }

  /** A template without "$" is returned as it is, whatever the arguments. */
  lemma {:induction false} PlainTemplateIsUnchanged(s: string, i: nat, args: seq<string>)
    requires i <= |s| && '$' !in s
    ensures Expansion(PiecesFrom(s, i), args) == s[i..]
    decreases |s| - i
  {
    if i < |s| {
      PlainTemplateIsUnchanged(s, i + 1, args);
      ExpansionStep(PieceAt(s, i), PiecesFrom(s, i + 1), args);
      assert s[i..] == [s[i]] + s[i + 1..];
    }
  }

  lemma {:induction false} ExpansionSplit(pieces: seq<Piece>, k: nat, args: seq<string>)
    requires k < |pieces|
    ensures Expansion(pieces, args) ==
      Expansion(pieces[..k], args) + Expand(pieces[k], args) + Expansion(pieces[k + 1..], args)
    decreases k
  {
    hide Expand;
    var head, tail := Expand(pieces[0], args), pieces[1..];
    if k > 0 {
      ExpansionSplit(tail, k - 1, args);
      var before, here := Expansion(tail[..k - 1], args), Expand(tail[k - 1], args);
      assert pieces[..k][1..] == tail[..k - 1] && pieces[k + 1..] == tail[k..];
      assert head + (before + here + Expansion(tail[k..], args)) == head + before + here + Expansion(tail[k..], args);
    }
  }

  /** The arguments a piece stands for. */
  function Chosen(p: Piece, args: seq<string>): seq<string> {
    match p.meaning
    case Literal => []
    case AllArguments => args
    case Slice(start, length) => Selected(args, start, length)
    case WithDefault(number, _) =>
      var argument := Argument(args, number);
      if argument.Some? && argument.value != "" then [argument.value] else []
    case Positional(number) =>
      var argument := Argument(args, number);
      if argument.Some? then [argument.value] else []
  }

  /** They are neighbours in the argument list: for a number the one it counts to, for a slice those from its start
      on, as many as its length allows and the list has. */
  lemma {:induction false} ChosenAreNeighbours(p: Piece, args: seq<string>) returns (from: nat, to: nat)
    ensures from <= to <= |args| && Chosen(p, args) == args[from..to]
    ensures match p.meaning
      case Literal => from == to
      case AllArguments => from == 0 && to == |args|
      case Slice(start, length) => SliceBounds(start, length, |args|, from, to)
      case WithDefault(number, _) =>
        if 0 < number <= |args| && args[number - 1] != "" then from + 1 == to == number else from == to
      case Positional(number) => if 0 < number <= |args| then from + 1 == to == number else from == to
  {
    match p.meaning
    case Literal => from, to := 0, 0;
    case AllArguments => from, to := 0, |args|;
    case Slice(start, length) =>
      from := if start == 0 then 0 else start - 1;
      if from >= |args| {
        from, to := 0, 0;
      } else {
        to := if length.None? || from + length.value >= |args| then |args| else from + length.value;
      }
    case WithDefault(number, _) =>
      from, to := 0, 0;
      if 0 < number <= |args| && args[number - 1] != "" { from, to := number - 1, number; }
    case Positional(number) =>
      from, to := 0, 0;
      if 0 < number <= |args| { from, to := number - 1, number; }
  }

  /** A slice counts from one; its start and its end stay inside the list. */
  predicate SliceBounds(start: nat, length: Option<nat>, count: nat, from: nat, to: nat) {
    if start > count || count == 0 then from == to
    else
      && from == (if start == 0 then 0 else start - 1)
      && if length.Some? && length.value < count - from then to - from == length.value else to == count
  }

  /** A piece that stands for no argument: a character of the template stays, a default is taken, and anything else
      leaves nothing behind. */
  lemma {:induction false} NothingChosen(p: Piece, args: seq<string>)
    requires Chosen(p, args) == []
    ensures Expand(p, args) == match p.meaning
      case Literal => p.source
      case WithDefault(_, default) => default
      case AllArguments => ""
      case Slice(_, _) => ""
      case Positional(_) => ""
  {
    hide Selected;
  }

  function Before(args: seq<string>, j: nat): string
    requires j <= |args|
  {
    if j == 0 then "" else Join(args[..j]) + " "
  }

  function After(args: seq<string>, j: nat): string
    requires j < |args|
  {
    if j == |args| - 1 then "" else " " + Join(args[j + 1..])
  }

  lemma {:induction false} JoinLast(args: seq<string>, last: string)
    ensures Join(args + [last]) == if args == [] then last else Join(args) + " " + last
  {
    assert (args + [last])[..|args|] == args && (args + [last])[|args|] == last;
  }

  /** Joined arguments hold each of them verbatim, spaces around it. */
  lemma {:induction false} JoinHolds(args: seq<string>, j: nat)
    requires j < |args|
    ensures Join(args) == Before(args, j) + args[j] + After(args, j)
    decreases |args|
  {
    hide Join;
    var init, last := args[..|args| - 1], args[|args| - 1];
    assert args == init + [last];
    JoinLast(init, last);
    if j == |init| {
      assert init == args[..j];
      assert "" + last + "" == last && Before(args, j) + last + "" == Before(args, j) + last;
    } else {
      JoinHolds(init, j);
      JoinLast(init[j + 1..], last);
      assert args[j + 1..] == init[j + 1..] + [last] && init[..j] == args[..j];
      AfterGrows(Before(args, j), args[j], After(init, j), last, Join(init[j + 1..]));
    }
  }

  lemma {:induction false} AfterGrows(before: string, here: string, after: string, last: string, middle: string)
    ensures before + here + after + " " + last == before + here + (after + " " + last)
    ensures " " + middle + " " + last == " " + (middle + " " + last)
    ensures "" + " " + last == " " + last
  {
  }

  lemma {:induction false} ChosenStands(p: Piece, args: seq<string>, j: nat)
    requires j < |Chosen(p, args)|
    ensures var c := Chosen(p, args); Expand(p, args) == Before(c, j) + c[j] + After(c, j)
  {
    hide Join, Selected;
    JoinHolds(Chosen(p, args), j);
    var c := Chosen(p, args);
    if p.meaning.WithDefault? || p.meaning.Positional? { assert "" + c[0] + "" == c[0]; }
  }

  /** Every argument a placeholder stands for is inserted verbatim, even when it reads like a placeholder itself: at
      its place among the others, between the expansions of what the template has before and after the placeholder. */
  lemma {:induction false} ArgumentsAreInsertedVerbatim(s: string, k: nat, args: seq<string>, j: nat)
    requires k < |PiecesFrom(s, 0)| && j < |Chosen(PiecesFrom(s, 0)[k], args)|
    ensures var pieces := PiecesFrom(s, 0); var c := Chosen(pieces[k], args);
      Substituted(s, args) ==
        (Expansion(pieces[..k], args) + Before(c, j)) + c[j] + (After(c, j) + Expansion(pieces[k + 1..], args))
  {
    hide PieceAt, Expand, Expansion, Before, After, Chosen, PiecesFrom;
    var pieces := PiecesFrom(s, 0);
    ExpansionSplit(pieces, k, args);
    ChosenStands(pieces[k], args, j);
    var c := Chosen(pieces[k], args);
    FiveStrings(Expansion(pieces[..k], args), Before(c, j), c[j], After(c, j), Expansion(pieces[k + 1..], args));
  }

  lemma {:induction false} FiveStrings(a: string, b: string, c: string, d: string, e: string)
    ensures a + (b + c + d) + e == (a + b) + c + (d + e)
  {
  }
}
