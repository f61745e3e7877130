/** Terminal input as tokens. */
module StdinTokens {
  import opened Strings
  import opened Wrappers

  const ESC := '\U{1b}'
  const PASTE_START := "\U{1b}[200~"
  const PASTE_END := "\U{1b}[201~"

  datatype Status = Complete | Incomplete | NotEscape

  // ---- is this a complete sequence? ----

  predicate EndsWithST(s: string) { |s| >= 2 && s[|s| - 2] == ESC && s[|s| - 1] == '\\' }

  /** The payload of an SGR mouse report: "<", three numbers, "M" or "m". */
  predicate MouseReport(payload: string) {
    && payload != "" && payload[0] == '<'
    && var b := DigitsEnd(payload, 1);
    && 1 < b < |payload| && payload[b] == ';'
    && var x := DigitsEnd(payload, b + 1);
    && b + 1 < x < |payload| && payload[x] == ';'
    && var y := DigitsEnd(payload, x + 1);
    && x + 1 < y == |payload| - 1 && (payload[y] == 'M' || payload[y] == 'm')
  }

  /** `payload` is what follows ESC [. */
  function CompleteCsi(payload: string): Status {
    if payload == "" then Incomplete
    else
      var last := payload[|payload| - 1];
      if !('\U{40}' <= last <= '\U{7e}') then Incomplete
      else if payload[0] == '<' && !MouseReport(payload) then Incomplete
      else Complete
  }

  function IsCompleteSequence(s: string): Status {
    if s == "" || s[0] != ESC then NotEscape
    else if |s| == 1 then Incomplete
    else if s[1] == '[' then
      if |s| > 2 && s[2] == 'M' then (if |s| >= 6 then Complete else Incomplete) else CompleteCsi(s[2..])
    else if s[1] == ']' then
      if EndsWithST(s) || s[|s| - 1] == '\U{7}' then Complete else Incomplete
    else if s[1] == 'P' || s[1] == '_' then
      if EndsWithST(s) then Complete else Incomplete
    else if s[1] == 'O' then
      if |s| >= 3 then Complete else Incomplete
    else Complete
  }

  // ---- extractCompleteSequences ----

  /** The characters that begin a longer sequence after ESC. */
  const STARTERS := {'[', ']', 'O', 'P', '_'}

  /** The length, from k on, of the first prefix that is complete. */
  function FirstComplete(s: string, k: nat): (r: Option<nat>)
    requires s != "" && s[0] == ESC
    ensures r.Some? ==> k <= r.value <= |s| && IsCompleteSequence(s[..r.value]) == Complete
    ensures forall e :: k <= e <= |s| && (r.Some? ==> e < r.value) ==> IsCompleteSequence(s[..e]) != Complete
    decreases |s| + 1 - k
  {
    if k > |s| then None
    else if IsCompleteSequence(s[..k]) == Complete then Some(k)
    else FirstComplete(s, k + 1)
  }

  /** ESC ESC is a meta key, unless what follows shows that the second ESC begins a sequence of its own. */
  predicate SplitsEscapes(s: string) { |s| > 2 && s[0] == s[1] == ESC && s[2] in STARTERS }

  /** The length of the first sequence of s; None when more input is needed. */
  function NextLength(s: string): (r: Option<nat>)
    requires s != ""
    ensures r.Some? ==> 0 < r.value <= |s|
  {
    if s[0] != ESC then Some(1)
    else
      var e := FirstComplete(s, 1);
      if e == Some(2) && SplitsEscapes(s) then Some(1) else e
  }

  datatype Extracted = Extracted(sequences: seq<string>, remainder: string)

  function Extract(s: string): Extracted
    decreases |s|
  {
    if s == "" then Extracted([], "")
    else
      match NextLength(s)
      case None => Extracted([], s)
      case Some(n) =>
        var rest := Extract(s[n..]);
        Extracted([s[..n]] + rest.sequences, rest.remainder)
  }

  // ---- whole inputs, with bracketed paste ----

  /** Lost is the unfinished sequence before a paste marker: the buffer drops it. */
  datatype Token =
    | Sequence(text: string)
    | Lost(text: string)
    | PasteOpen
    | PasteClose(content: string)

  /** What the buffer holds between chunks: an unfinished sequence, or a paste without its end marker. */
  datatype Held = Typing(buffer: string) | Pasting(pasted: string)

  datatype Parsed = Parsed(tokens: seq<Token>, held: Held)

  function Sequences(texts: seq<string>): (r: seq<Token>)
    ensures |r| == |texts| && forall i :: 0 <= i < |r| ==> r[i] == Sequence(texts[i])
  {
    seq(|texts|, i requires 0 <= i < |texts| => Sequence(texts[i]))
  }

  function BeforePaste(s: string): seq<Token> {
    var e := Extract(s);
    Sequences(e.sequences) + (if e.remainder == "" then [] else [Lost(e.remainder)]) + [PasteOpen]
  }

  function Parse(s: string): Parsed
    decreases |s|
  {
    match Find(s, PASTE_START, 0)
    case None => var e := Extract(s); Parsed(Sequences(e.sequences), Typing(e.remainder))
    case Some(i) =>
      var rest := ParsePaste(s[i + |PASTE_START|..]);
      Parsed(BeforePaste(s[..i]) + rest.tokens, rest.held)
  }

  function ParsePaste(s: string): Parsed
    decreases |s|
  {
    match Find(s, PASTE_END, 0)
    case None => Parsed([], Pasting(s))
    case Some(i) =>
      var rest := Parse(s[i + |PASTE_END|..]);
      Parsed([PasteClose(s[..i])] + rest.tokens, rest.held)
  }

  function Feed(h: Held, s: string): Parsed {
    match h
    case Typing(buffer) => Parse(buffer + s)
    case Pasting(pasted) => ParsePaste(pasted + s)
  }

  // ---- events, and the suppressed duplicates of Kitty terminals ----

  datatype Event = Data(text: string) | Paste(content: string)

  /** The code point of an unmodified printable key in CSI u form: ESC [ n, optionally :digits and :digits, u. */
  function KittyCodepoint(s: string): Option<nat> {
    if |s| < 4 || s[..2] != [ESC, '['] || s[|s| - 1] != 'u' then None
    else
      var body := s[2..|s| - 1];
      var a := DigitsEnd(body, 0);
      var b := if a < |body| && body[a] == ':' then DigitsEnd(body, a + 1) else a;
      var c := if a < b < |body| && body[b] == ':' && DigitsEnd(body, b + 1) > b + 1 then DigitsEnd(body, b + 1) else b;
      if a == 0 || c != |body| then None
      else
        var codepoint := DigitsValue(body[..a]);
        if codepoint >= 32 then Some(codepoint) else None
  }

  datatype Delivery = Delivery(events: seq<Event>, pending: Option<nat>)

  /** A single character that repeats the key just reported in Kitty form is not delivered. */
  function DeliverSequence(pending: Option<nat>, text: string): Delivery {
    if |text| == 1 && Some(text[0] as nat) == pending then Delivery([], None)
    else Delivery([Data(text)], KittyCodepoint(text))
  }

  function DeliverToken(pending: Option<nat>, t: Token): Delivery {
    match t
    case Sequence(text) => DeliverSequence(pending, text)
    case Lost(_) => Delivery([], pending)
    case PasteOpen => Delivery([], None)
    case PasteClose(content) => Delivery([Paste(content)], None)
  }

  function Deliver(pending: Option<nat>, tokens: seq<Token>): Delivery {
    if tokens == [] then Delivery([], pending)
    else
      var before := Deliver(pending, tokens[..|tokens| - 1]);
      var d := DeliverToken(before.pending, tokens[|tokens| - 1]);
      Delivery(before.events + d.events, d.pending)
  }

  datatype Input = Input(held: Held, pending: Option<nat>)

  datatype Processed = Processed(events: seq<Event>, input: Input)

  /** One call of process: an empty chunk with an empty buffer is delivered as such. */
  function Process(input: Input, s: string): Processed {
    if s == "" && (input.held.Pasting? || input.held.buffer == "") then
      var d := DeliverSequence(input.pending, "");
      Processed(d.events, Input(input.held, d.pending))
    else
      var p := Feed(input.held, s);
      var d := Deliver(input.pending, p.tokens);
      Processed(d.events, Input(p.held, d.pending))
  }

  function ProcessAll(input: Input, chunks: seq<string>): Processed
    decreases |chunks|
  {
    if chunks == [] then Processed([], input)
    else
      var first := Process(input, chunks[0]);
      var rest := ProcessAll(first.input, chunks[1..]);
      Processed(first.events + rest.events, rest.input)
  }

  // ---- what the tokens stand for ----

  function Source(t: Token): string {
    match t
    case Sequence(text) => text
    case Lost(text) => text
    case PasteOpen => PASTE_START
    case PasteClose(content) => content + PASTE_END
  }

  function Sources(tokens: seq<Token>): string {
    if tokens == [] then "" else Source(tokens[0]) + Sources(tokens[1..])
  }

  function TextOf(h: Held): string {
    match h
    case Typing(buffer) => buffer
    case Pasting(pasted) => pasted
  }

  predicate Clean(tokens: seq<Token>) { forall k :: 0 <= k < |tokens| ==> !tokens[k].Lost? }
}
