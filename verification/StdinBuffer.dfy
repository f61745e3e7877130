/** The buffer of terminal input. */
module StdinBuffers {
  import opened Strings
  import opened Wrappers
  import opened StdinTokens
  import opened StdinSequences
  import opened StdinCuts
  import opened StdinChunks

  /** The end of the sequence that `remaining` starts with, found by trying ever longer prefixes. */
  method FindSequenceEnd(remaining: string) returns (end: Option<nat>)
    requires remaining != "" && remaining[0] == ESC
    ensures end == FirstComplete(remaining, 1)
  {
    var seqEnd := 1;
    while seqEnd <= |remaining|
      invariant 1 <= seqEnd <= |remaining| + 1
      invariant FirstComplete(remaining, 1) == FirstComplete(remaining, seqEnd)
    {
      if IsCompleteSequence(remaining[..seqEnd]) == Complete {
        return Some(seqEnd);
      }
      seqEnd := seqEnd + 1;
    }
    end := None;
  }

  /** How much of `remaining` its first sequence takes, None when it is unfinished. */
  method FirstLength(remaining: string) returns (length: Option<nat>)
    requires remaining != ""
    ensures length == NextLength(remaining)
  {
    if remaining[0] != ESC {
      return Some(1);
    }
    length := FindSequenceEnd(remaining);
    if length.Some? {
      var candidate := remaining[..length.value];
      if candidate == [ESC, ESC] && length.value < |remaining| && remaining[length.value] in STARTERS {
        assert remaining[0] == candidate[0] && remaining[1] == candidate[1];
        return Some(1);
      }
      assert length.value == 2 ==> candidate == [remaining[0], remaining[1]];
    }
  }

  method ExtractCompleteSequences(buffer: string) returns (sequences: seq<string>, remainder: string)
    ensures Extracted(sequences, remainder) == Extract(buffer)
  {
    hide NextLength, Extract;
    sequences := [];
    var pos := 0;
    while pos < |buffer|
      invariant 0 <= pos <= |buffer|
      invariant sequences + Extract(buffer[pos..]).sequences == Extract(buffer).sequences
      invariant Extract(buffer[pos..]).remainder == Extract(buffer).remainder
    {
      var remaining := buffer[pos..];
      var length := FirstLength(remaining);
      if length.None? {
        ExtractUnfinished(remaining);
        return sequences, remaining;
      }
      ExtractFirst(remaining, length.value);
      assert remaining[length.value..] == buffer[pos + length.value..];
      sequences := sequences + [remaining[..length.value]];
      pos := pos + length.value;
    }
    assert buffer[pos..] == "" && sequences + [] == sequences;
    ExtractNothing();
    remainder := "";
  }

  class StdinBuffer {
    var buffer: string
    var pasteMode: bool
    var pasteBuffer: string
    var pendingKittyPrintableCodepoint: Option<nat>
    var timeoutSet: bool
    var emitted: seq<Event>

    /** Outside process, only one of the two buffers is in use, and the timeout runs while a sequence is unfinished. */
    ghost predicate Valid()
      reads this
    {
      && (if pasteMode then buffer == "" else pasteBuffer == "")
      && (timeoutSet <==> buffer != "")
    }

    ghost function Now(): Input
      reads this
    {
      Input(if pasteMode then Pasting(pasteBuffer) else Typing(buffer), pendingKittyPrintableCodepoint)
    }

    constructor ()
      ensures Valid() && Now() == Input(Typing(""), None) && emitted == []
    {
      buffer, pasteMode, pasteBuffer := "", false, "";
      pendingKittyPrintableCodepoint, timeoutSet, emitted := None, false, [];
    }

    method EmitDataSequence(sequence: string)
      modifies this`emitted, this`pendingKittyPrintableCodepoint
      ensures var d := DeliverSequence(old(pendingKittyPrintableCodepoint), sequence);
        emitted == old(emitted) + d.events && pendingKittyPrintableCodepoint == d.pending
    {
      var rawCodepoint := if |sequence| == 1 then Some(sequence[0] as nat) else None;
      if rawCodepoint.Some? && rawCodepoint == pendingKittyPrintableCodepoint {
        pendingKittyPrintableCodepoint := None;
        return;
      }
      pendingKittyPrintableCodepoint := KittyCodepoint(sequence);
      emitted := emitted + [Data(sequence)];
    }

    method EmitAll(sequences: seq<string>)
      modifies this`emitted, this`pendingKittyPrintableCodepoint
      ensures var d := Deliver(old(pendingKittyPrintableCodepoint), Sequences(sequences));
        emitted == old(emitted) + d.events && pendingKittyPrintableCodepoint == d.pending
    {
      hide DeliverSequence;
      for i := 0 to |sequences|
        invariant var d := Deliver(old(pendingKittyPrintableCodepoint), Sequences(sequences)[..i]);
          emitted == old(emitted) + d.events && pendingKittyPrintableCodepoint == d.pending
      {
        var all := Sequences(sequences);
        assert all[..i + 1][..i] == all[..i] && all[..i + 1][i] == Sequence(sequences[i]);
        EmitDataSequence(sequences[i]);
      }
      assert Sequences(sequences)[..|sequences|] == Sequences(sequences);
    }

    /** The paste that pasteBuffer holds: it ends at the first end marker, and what follows is processed on. */
    method FinishPaste()
      requires pasteMode && buffer == "" && !timeoutSet
      modifies this
      ensures Valid()
      ensures var p := ParsePaste(old(pasteBuffer));
        var d := Deliver(old(pendingKittyPrintableCodepoint), p.tokens);
        Now() == Input(p.held, d.pending) && emitted == old(emitted) + d.events
      decreases |pasteBuffer|, 1
    {
      hide Parse, Find, Deliver, DeliverSequence, KittyCodepoint;
      var end := Find(pasteBuffer, PASTE_END, 0);
      if end.Some? {
        var pastedContent := pasteBuffer[..end.value];
        var remaining := pasteBuffer[end.value + |PASTE_END|..];
        pasteMode, pasteBuffer, pendingKittyPrintableCodepoint := false, "", None;
        emitted := emitted + [Paste(pastedContent)];
        DeliverOne(old(pendingKittyPrintableCodepoint), PasteClose(pastedContent));
        DeliverConcat(old(pendingKittyPrintableCodepoint), [PasteClose(pastedContent)], Parse(remaining).tokens);
        if |remaining| > 0 {
          assert "" + remaining == remaining;
          Process(remaining);
        } else {
          ParseNothing();
          DeliverNothing(None);
        }
      } else {
        DeliverNothing(pendingKittyPrintableCodepoint);
      }
    }

    method Process(data: string)
      requires Valid()
      modifies this
      ensures Valid()
      ensures var p := StdinTokens.Process(old(Now()), data);
        Now() == p.input && emitted == old(emitted) + p.events
      decreases |pasteBuffer| + |buffer| + |data|, 2
    {
      hide Parse, ParsePaste, Find, Extract, Deliver, DeliverSequence, KittyCodepoint;
      timeoutSet := false;
      if |data| == 0 && |buffer| == 0 {
        EmitDataSequence("");
        return;
      }
      buffer := buffer + data;
      if pasteMode {
        assert buffer == data;
        pasteBuffer := pasteBuffer + buffer;
        buffer := "";
        FinishPaste();
        return;
      }
      var start := Find(buffer, PASTE_START, 0);
      if start.Some? {
        OpenPaste(start.value);
        return;
      }
      ParsePlain(buffer);
      var sequences, remainder := ExtractCompleteSequences(buffer);
      buffer := remainder;
      EmitAll(sequences);
      timeoutSet := |buffer| > 0;
    }

    /** The text before a start marker is emitted, its unfinished end dropped; the rest is a paste. */
    method OpenPaste(start: nat)
      requires !pasteMode && !timeoutSet && pasteBuffer == "" && Find(buffer, PASTE_START, 0) == Some(start)
      modifies this
      ensures Valid()
      ensures var p := Parse(old(buffer));
        var d := Deliver(old(pendingKittyPrintableCodepoint), p.tokens);
        Now() == Input(p.held, d.pending) && emitted == old(emitted) + d.events
      decreases |buffer|, 1
    {
      hide ParsePaste, Find, Extract, Deliver, BeforePaste, DeliverSequence, KittyCodepoint;
      ghost var pending, before := pendingKittyPrintableCodepoint, buffer[..start];
      var sequences, remainder := ExtractCompleteSequences(buffer[..start]);
      EmitAll(sequences);
      DeliverBeforePaste(pending, before);
      pendingKittyPrintableCodepoint := None;
      buffer := buffer[start + |PASTE_START|..];
      pasteMode, pasteBuffer, buffer := true, buffer, "";
      DeliverConcat(pending, BeforePaste(before), ParsePaste(pasteBuffer).tokens);
      FinishPaste();
    }

    /** What the timeout emits: the unfinished sequence as it is. */
    method Flush() returns (sequences: seq<string>)
      requires Valid()
      modifies this
      ensures Valid() && emitted == old(emitted)
      ensures sequences == if old(buffer) == "" then [] else [old(buffer)]
      ensures Now() == if old(buffer) == "" then old(Now()) else Input(Typing(""), None)
    {
      timeoutSet := false;
      if |buffer| == 0 {
        return [];
      }
      sequences := [buffer];
      buffer, pendingKittyPrintableCodepoint := "", None;
    }

    /** The timeout: the unfinished sequence is delivered, whatever Kitty key was reported before it. */
    method OnTimeout()
      requires Valid() && timeoutSet
      modifies this
      ensures Valid() && emitted == old(emitted) + [Data(old(buffer))]
      ensures Now() == Input(Typing(""), KittyCodepoint(old(buffer)))
    {
      var flushed := Flush();
      EmitAll(flushed);
      assert Sequences(flushed) == [Sequence(old(buffer))];
      DeliverOne(None, Sequence(old(buffer)));
    }

    method Clear()
      modifies this
      ensures Valid() && Now() == Input(Typing(""), None) && emitted == old(emitted)
    {
      timeoutSet, buffer, pasteMode, pasteBuffer := false, "", false, "";
      pendingKittyPrintableCodepoint := None;
    }
  }

  lemma {:induction false} DeliverOne(pending: Option<nat>, t: Token)
    ensures Deliver(pending, [t]) == DeliverToken(pending, t)
  {
    assert [t][..0] == [];
    assert [] + DeliverToken(pending, t).events == DeliverToken(pending, t).events;
  }

  lemma {:induction false} DeliverNothing(pending: Option<nat>)
    ensures Deliver(pending, []) == Delivery([], pending)
  {
  }

  lemma {:induction false} ParsePlain(s: string)
    requires Find(s, PASTE_START, 0).None?
    ensures Parse(s) == Parsed(Sequences(Extract(s).sequences), Typing(Extract(s).remainder))
  {
  }

  lemma {:induction false} ParseNothing()
    ensures Parse("") == Parsed([], Typing(""))
  {
  }

  /** Before a paste only the complete sequences are delivered, and no Kitty key stays pending. */
  lemma {:induction false} DeliverBeforePaste(pending: Option<nat>, s: string)
    ensures Deliver(pending, BeforePaste(s)) ==
      Delivery(Deliver(pending, Sequences(Extract(s).sequences)).events, None)
  {
    hide Extract;
    var e := Extract(s);
    var all, lost := Sequences(e.sequences), if e.remainder == "" then [] else [Lost(e.remainder)];
    DeliverConcat(pending, all, lost);
    DeliverConcat(pending, all + lost, [PasteOpen]);
    DeliverOne(Deliver(pending, all).pending, Lost(e.remainder));
    DeliverOne(Deliver(pending, all + lost).pending, PasteOpen);
    var events := Deliver(pending, all).events;
    assert events + [] == events;
  }
}
