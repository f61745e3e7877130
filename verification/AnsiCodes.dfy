/** Escape codes and their styles. */
module AnsiCodes {
  // Styles are those of SGR (ECMA-48 section 8.3.117) and of OSC 8 hyperlinks.
  import opened Strings
  import opened Wrappers

  const ESC := '\U{1b}'
  const BEL := '\U{7}'

  // ---- extractAnsiCode ----

  predicate IsCsiFinal(c: char) { c == 'm' || c == 'G' || c == 'K' || c == 'H' || c == 'J' }

  /** Index of the first CSI final at or after j, or |s|. */
  function FindFinal(s: string, j: nat): (r: nat)
    requires j <= |s|
    ensures j <= r <= |s|
    ensures forall k :: j <= k < r ==> !IsCsiFinal(s[k])
    ensures r < |s| ==> IsCsiFinal(s[r])
    decreases |s| - j
  {
    if j == |s| || IsCsiFinal(s[j]) then j else FindFinal(s, j + 1)
  }

  predicate BelAt(s: string, j: nat) { j < |s| && s[j] == BEL }
  predicate StAt(s: string, j: nat) { j + 1 < |s| && s[j] == ESC && s[j + 1] == '\\' }

  /** Index just past the first string terminator, BEL or ESC \, at or after j; 0 when there is none. */
  function FindTerminator(s: string, j: nat): (r: nat)
    requires j <= |s|
    ensures r <= |s| && (r > 0 ==> j < r)
    decreases |s| - j
  {
    if j == |s| then 0
    else if BelAt(s, j) then j + 1
    else if StAt(s, j) then j + 2
    else FindTerminator(s, j + 1)
  }

  /** Length of the escape code that starts at `pos`; 0 when none does. */
  function CodeLength(s: string, pos: nat): (n: nat)
    ensures n > 0 ==> pos + n <= |s| && n >= 3 && s[pos] == ESC
  {
    if pos + 1 >= |s| || s[pos] != ESC then 0
    else if s[pos + 1] == '[' then
      var j := FindFinal(s, pos + 2);
      if j < |s| then j + 1 - pos else 0
    else if s[pos + 1] == ']' || s[pos + 1] == '_' then
      var j := FindTerminator(s, pos + 2);
      if j > 0 then j - pos else 0
    else 0
  }

  /** A string that extractAnsiCode returns whole. */
  predicate IsCode(code: string) { |code| > 0 && CodeLength(code, 0) == |code| }

  /** The codes found by scanning a text from left to right. */
  function CodesFrom(s: string, i: nat): seq<string>
    requires i <= |s|
    decreases |s| - i
  {
    if i == |s| then []
    else if CodeLength(s, i) > 0 then [s[i..i + CodeLength(s, i)]] + CodesFrom(s, i + CodeLength(s, i))
    else CodesFrom(s, i + 1)
  }

  // ---- OSC 8 hyperlinks ----

  datatype Link = Link(params: string, url: string, terminator: string)
  datatype Osc8 = NotOsc8 | CloseLink | OpenLink(link: Link)

  const OSC8 := [ESC, ']', '8', ';']
  const ST := [ESC, '\\']

  function IndexOf(s: string, c: char, i: nat): (r: nat)
    requires i <= |s|
    ensures i <= r <= |s|
    ensures forall k :: i <= k < r ==> s[k] != c
    ensures r < |s| ==> s[r] == c
    decreases |s| - i
  {
    if i == |s| || s[i] == c then i else IndexOf(s, c, i + 1)
  }

  function EndsWithBel(code: string): bool { |code| > 0 && code[|code| - 1] == BEL }

  /** What is left between the OSC 8 introducer and the terminator. */
  function Osc8Body(code: string): string
    requires OSC8 <= code
  {
    var end := |code| - (if EndsWithBel(code) then 1 else 2);
    if end < 4 then "" else code[4..end]
  }

  function ParseOsc8(code: string): Osc8 {
    if !(OSC8 <= code) then NotOsc8
    else
      var body := Osc8Body(code);
      var sep := IndexOf(body, ';', 0);
      if sep == |body| then NotOsc8
      else if sep + 1 == |body| then CloseLink
      else OpenLink(Link(body[..sep], body[sep + 1..], if EndsWithBel(code) then [BEL] else ST))
  }

  function FormatLink(link: Link): string { OSC8 + link.params + ";" + link.url + link.terminator }

  function FormatClose(terminator: string): string { OSC8 + ";" + terminator }

  // ---- SGR ----

  /** The attributes that are on, by SGR number: 1 bold, 2 dim, 3 italic, 4 underline, 5 blink, 7 inverse,
      8 hidden, 9 strikethrough. */
  type Attrs = set<nat>

  predicate IsAttribute(n: nat) { 1 <= n <= 9 && n != 6 }

  datatype Style = Style(attrs: Attrs, fg: Option<string>, bg: Option<string>, link: Option<Link>)

  const PLAIN := Style({}, None, None, None)

  function Reset(s: Style): Style { PLAIN.(link := s.link) }

  predicate IsParam(c: char) { IsDigit(c) || c == ';' }

  predicate AllParams(s: string) { forall k :: 0 <= k < |s| ==> IsParam(s[k]) }

  function FindNonParam(s: string, j: nat): (r: nat)
    requires j <= |s|
    ensures j <= r <= |s|
    ensures forall k :: j <= k < r ==> IsParam(s[k])
    ensures r < |s| ==> !IsParam(s[r])
    decreases |s| - j
  {
    if j == |s| || !IsParam(s[j]) then j else FindNonParam(s, j + 1)
  }

  /** The leftmost match of ESC [ followed by digits and semicolons and then m: its parameter text. */
  function SgrParams(s: string, i: nat): (r: Option<string>)
    requires i <= |s|
    ensures r.Some? ==> AllParams(r.value)
    decreases |s| - i
  {
    if i + 1 >= |s| then None
    else
      var j := if s[i] == ESC && s[i + 1] == '[' then FindNonParam(s, i + 2) else |s|;
      if j < |s| && s[j] == 'm' then Some(s[i + 2..j]) else SgrParams(s, i + 1)
  }

  function Split(s: string): (parts: seq<string>)
    ensures |parts| > 0
    decreases |s|
  {
    var i := IndexOf(s, ';', 0);
    if i == |s| then [s] else [s[..i]] + Split(s[i + 1..])
  }

  function Join(parts: seq<string>): string {
    if |parts| == 0 then ""
    else if |parts| == 1 then parts[0]
    else parts[0] + ";" + Join(parts[1..])
  }

  function Decimal(n: nat): (s: string)
    ensures |s| > 0 && AllDigits(s)
  {
    var digit := [('0' as int + n % 10) as char];
    if n < 10 then digit else Decimal(n / 10) + digit
  }

  predicate IsFg(n: nat) { 30 <= n <= 37 || 90 <= n <= 97 }
  predicate IsBg(n: nat) { 40 <= n <= 47 || 100 <= n <= 107 }

  /** n switches an attribute on and 20 + n off; 22 also clears bold, and 21 only bold. */
  function ApplyAttribute(a: Attrs, code: nat): Attrs {
    if IsAttribute(code) then a + {code}
    else if code == 21 then a - {1}
    else if code == 22 then a - {1, 2}
    else if 23 <= code && IsAttribute(code - 20) then a - {code - 20}
    else a
  }

  function ApplyCode(s: Style, code: nat): Style {
    if code == 0 then Reset(s)
    else if code == 39 then s.(fg := None)
    else if code == 49 then s.(bg := None)
    else if IsFg(code) then s.(fg := Some(Decimal(code)))
    else if IsBg(code) then s.(bg := Some(Decimal(code)))
    else s.(attrs := ApplyAttribute(s.attrs, code))
  }

  predicate DigitParts(parts: seq<string>) { forall k :: 0 <= k < |parts| ==> AllDigits(parts[k]) }

  /** How many leading parts form an extended colour: 3 for 38;5;N, 5 for 38;2;R;G;B, otherwise 0. */
  function ExtendedLength(parts: seq<string>): (n: nat)
    requires DigitParts(parts)
    ensures n <= |parts| && (n == 0 || n == 3 || n == 5)
  {
    if parts == [] || (ParseInt(parts[0]) != Some(38) && ParseInt(parts[0]) != Some(48)) then 0
    else if |parts| > 2 && parts[1] == "5" then 3
    else if |parts| > 4 && parts[1] == "2" then 5
    else 0
  }

  /** One round of the parameter loop: the style after it and how many parameters it used. */
  function StepParts(s: Style, parts: seq<string>): (r: (Style, nat))
    requires DigitParts(parts) && parts != []
    ensures 0 < r.1 <= |parts|
  {
    var n := ExtendedLength(parts);
    var code := ParseInt(parts[0]);
    if n > 0 then
      var colour := Some(Join(parts[..n]));
      (if code == Some(38) then s.(fg := colour) else s.(bg := colour), n)
    else (if code.Some? then ApplyCode(s, code.value) else s, 1)
  }

  function ApplyParts(s: Style, parts: seq<string>): Style
    requires DigitParts(parts)
    decreases |parts|
  {
    if parts == [] then s
    else
      var (s', n) := StepParts(s, parts);
      ApplyParts(s', parts[n..])
  }

  lemma {:induction false} SplitDigits(s: string)
    requires AllParams(s)
    ensures DigitParts(Split(s))
    decreases |s|
  {
    var i := IndexOf(s, ';', 0);
    if i < |s| { SplitDigits(s[i + 1..]); }
  }

  /** AnsiCodeTracker.process on one code. */
  function Process(s: Style, code: string): Style {
    match ParseOsc8(code)
    case CloseLink => s.(link := None)
    case OpenLink(link) => s.(link := Some(link))
    case NotOsc8 =>
      if code == "" || code[|code| - 1] != 'm' then s
      else
        match SgrParams(code, 0)
        case None => s
        case Some(params) =>
          if params == "" || params == "0" then Reset(s)
          else
            SplitDigits(params);
            ApplyParts(s, Split(params))
  }

  function ProcessAll(s: Style, codes: seq<string>): Style
    decreases |codes|
  {
    if codes == [] then s else ProcessAll(Process(s, codes[0]), codes[1..])
  }

  // ---- printing the active style ----

  function If(on: bool, code: string): seq<string> { if on then [code] else [] }

  function OptionalCode(colour: Option<string>): seq<string> {
    if colour.Some? && colour.value != "" then [colour.value] else []
  }

  /** The attributes below k that are on, in ascending order. */
  function Attributes(a: Attrs, k: nat): seq<string> {
    if k == 0 then [] else Attributes(a, k - 1) + If(k - 1 in a, Decimal(k - 1))
  }

  function ActiveCodeList(s: Style): seq<string> {
    Attributes(s.attrs, 10) + OptionalCode(s.fg) + OptionalCode(s.bg)
  }

  function SgrCode(codes: seq<string>): string {
    if codes == [] then "" else [ESC, '['] + Join(codes) + "m"
  }

  function GetActiveCodes(s: Style): string {
    SgrCode(ActiveCodeList(s)) + (if s.link.Some? then FormatLink(s.link.value) else "")
  }

  function GetLineEndReset(s: Style): string {
    (if 4 in s.attrs then [ESC, '[', '2', '4', 'm'] else "") +
    (if s.link.Some? then FormatClose(s.link.value.terminator) else "")
  }
}
