/** A prompt per unpaused minute. */
module Presence {
  import opened Wrappers

  const MINUTE: int := 60000
  const SETTLE: int := 250

  // ---- the time that counts, from the history alone ----

  datatype Act = Started | Acknowledged | Paused | Resumed | Stopped

  datatype Entry = Entry(time: int, act: Act)

  predicate Sorted(log: seq<Entry>) {
    forall i, j :: 0 <= i < j < |log| ==> log[i].time <= log[j].time
  }

  predicate Resets(act: Act) { act == Started || act == Acknowledged }

  /** How many pauses are open. */
  function Depth(log: seq<Entry>): nat {
    if log == [] then 0
    else
      var before := Depth(log[..|log| - 1]);
      match log[|log| - 1].act
      case Paused => before + 1
      case Resumed => if before > 0 then before - 1 else 0
      case Acknowledged => before
      case Started => 0
      case Stopped => 0
  }

  /** Without a pause since the last start or stop none is open. */
  lemma {:induction false} NoPauseSince(log: seq<Entry>, k: nat)
    requires k < |log| && (log[k].act == Started || log[k].act == Stopped)
    requires forall j :: k < j < |log| ==> log[j].act != Paused
    ensures Depth(log) == 0
  {
    if k < |log| - 1 { NoPauseSince(log[..|log| - 1], k); }
  }

  /** How many pauses are open during the millisecond that begins at t. */
  function DepthAt(log: seq<Entry>, t: int): nat {
    if log == [] then 0
    else if log[|log| - 1].time <= t then Depth(log)
    else DepthAt(log[..|log| - 1], t)
  }

  /** When time began to count: the last start or acknowledgement. */
  function CountingFrom(log: seq<Entry>): Option<int> {
    if log == [] then None
    else if Resets(log[|log| - 1].act) then Some(log[|log| - 1].time)
    else CountingFrom(log[..|log| - 1])
  }

  /** The milliseconds in [from, until) with no pause open. */
  function UnpausedTicks(log: seq<Entry>, from: int, until: int): nat
    decreases until - from
  {
    if until <= from then 0
    else UnpausedTicks(log, from, until - 1) + if DepthAt(log, until - 1) == 0 then 1 else 0
  }

  /** A minute of unpaused time has passed since the last start or acknowledgement. */
  ghost predicate Due(log: seq<Entry>, now: int) {
    CountingFrom(log).Some? && UnpausedTicks(log, CountingFrom(log).value, now) >= MINUTE
  }

  /** The same time, summed over the stretches between entries. */
  function Elapsed(log: seq<Entry>, now: int): int {
    if log == [] then 0
    else
      var last := log[|log| - 1];
      (if Resets(last.act) then 0 else Elapsed(log[..|log| - 1], last.time))
      + if Depth(log) == 0 then now - last.time else 0
  }

  lemma {:induction false} TicksSplit(log: seq<Entry>, from: int, middle: int, until: int)
    requires from <= middle <= until
    ensures UnpausedTicks(log, from, until) == UnpausedTicks(log, from, middle) + UnpausedTicks(log, middle, until)
    decreases until - middle
  {
    if middle < until {
      TicksSplit(log, from, middle, until - 1);
    }
  }

  lemma {:induction false} TicksBeforeLast(log: seq<Entry>, from: int, until: int)
    requires log != [] && until <= log[|log| - 1].time
    ensures UnpausedTicks(log, from, until) == UnpausedTicks(log[..|log| - 1], from, until)
    decreases until - from
  {
    if from < until {
      TicksBeforeLast(log, from, until - 1);
    }
  }

  lemma {:induction false} TicksAfterLast(log: seq<Entry>, from: int, until: int)
    requires log != [] && log[|log| - 1].time <= from <= until
    ensures UnpausedTicks(log, from, until) == if Depth(log) == 0 then until - from else 0
    decreases until - from
  {
    if from < until {
      TicksAfterLast(log, from, until - 1);
    }
  }

  lemma {:induction false} CountsFromAnEntry(log: seq<Entry>)
    requires Sorted(log) && CountingFrom(log).Some?
    ensures log != [] && CountingFrom(log).value <= log[|log| - 1].time
  {
    if !Resets(log[|log| - 1].act) {
      CountsFromAnEntry(log[..|log| - 1]);
    }
  }

  /** The sum over stretches counts exactly the unpaused milliseconds since the last start or acknowledgement. */
  lemma {:induction false} ElapsedCountsTicks(log: seq<Entry>, now: int)
    requires Sorted(log) && CountingFrom(log).Some? && log[|log| - 1].time <= now
    ensures Elapsed(log, now) == UnpausedTicks(log, CountingFrom(log).value, now)
  {
    var rest, last := log[..|log| - 1], log[|log| - 1];
    var from := CountingFrom(log).value;
    CountsFromAnEntry(log);
    TicksSplit(log, from, last.time, now);
    TicksAfterLast(log, last.time, now);
    if !Resets(last.act) {
      CountsFromAnEntry(rest);
      ElapsedCountsTicks(rest, last.time);
      TicksBeforeLast(log, from, last.time);
    }
  }

  /** What an entry that does not reset leaves of the elapsed time. */
  lemma {:induction false} ElapsedWith(log: seq<Entry>, e: Entry)
    requires !Resets(e.act)
    ensures Elapsed(log + [e], e.time) == Elapsed(log, e.time)
    ensures CountingFrom(log + [e]) == CountingFrom(log)
    ensures e.act == Paused ==> Depth(log + [e]) == Depth(log) + 1
    ensures e.act == Resumed ==> Depth(log + [e]) == if Depth(log) > 0 then Depth(log) - 1 else 0
  {
    assert (log + [e])[..|log|] == log;
  }

  // ---- the gate ----

  datatype Prompt = Prompt(taskId: string, promptId: string)

  class PresenceGate {
    var taskId: Option<string>
    var pending: Option<Prompt>
    var deadline: int
    var remaining: int
    var paused: nat
    var issuedAt: int
    /** What the `changed` callback was told, in order. */
    var notified: seq<Option<Prompt>>
    ghost var log: seq<Entry>
    ghost var clock: int

    ghost predicate Valid()
      reads this
    {
      && Sorted(log) && (forall k :: 0 <= k < |log| ==> log[k].time <= clock)
      && (if notified == [] then pending == None else notified[|notified| - 1] == pending)
      && (pending.Some? ==> taskId == Some(pending.value.taskId))
      && (taskId.Some? ==> CountingFrom(log).Some? && paused == Depth(log))
      && (taskId.Some? && pending.None? ==> if paused == 0 then Armed() else Suspended())
    }

    /** Armed and not paused: the deadline is a minute of unpaused time after the last start or acknowledgement. */
    ghost predicate Armed()
      reads this
    {
      deadline - clock == MINUTE - Elapsed(log, clock)
    }

    ghost predicate Suspended()
      reads this
    {
      remaining == MINUTE - Elapsed(log, clock) && remaining > 0
    }

    constructor (now: int)
      ensures Valid() && taskId == None && pending == None && log == [] && clock == now
    {
      taskId, pending, deadline, remaining, paused, issuedAt := None, None, 0, MINUTE, 0, 0;
      notified, log, clock := [], [], now;
    }

    /** Time passes; nothing else does. */
    ghost method Tick(now: int)
      requires Valid() && clock <= now
      modifies this`clock
      ensures Valid() && clock == now
    {
      assert log != [] ==> Elapsed(log, now) - Elapsed(log, clock) == if Depth(log) == 0 then now - clock else 0;
      assert taskId.Some? ==> log != [];
      clock := now;
    }

    ghost method Record(act: Act)
      requires Sorted(log) && forall k :: 0 <= k < |log| ==> log[k].time <= clock
      modifies this`log
      ensures log == old(log) + [Entry(clock, act)] && Sorted(log)
      ensures forall k :: 0 <= k < |log| ==> log[k].time <= clock
      ensures log[..|log| - 1] == old(log)
    {
      log := log + [Entry(clock, act)];
    }

    /** Prompts exactly when the unpaused milliseconds have reached a minute. */
    method Check(now: int, promptId: string)
      requires Valid() && clock <= now
      modifies this
      ensures Valid() && clock == now && log == old(log)
      ensures taskId == old(taskId) && paused == old(paused) && remaining == old(remaining) && deadline == old(deadline)
      ensures old(pending).Some? ==> pending == old(pending) && issuedAt == old(issuedAt)
      ensures old(pending).None? ==>
        if taskId.Some? && paused == 0 && Due(log, now)
        then pending == Some(Prompt(taskId.value, promptId)) && issuedAt == now
        else pending == None
      ensures taskId.Some? && pending.None? && paused == 0 ==> now < deadline
    {
      Tick(now);
      if taskId.Some? {
        CountsFromAnEntry(log);
        ElapsedCountsTicks(log, now);
      }
      if taskId.None? || pending.Some? || paused > 0 || now < deadline {
        return;
      }
      pending := Some(Prompt(taskId.value, promptId));
      issuedAt := now;
      notified := notified + [pending];
    }

    method Arm(now: int)
      modifies this`deadline
      ensures deadline == if taskId.None? || pending.Some? || paused > 0 then old(deadline) else now + remaining
    {
      if taskId.None? || pending.Some? || paused > 0 {
        return;
      }
      deadline := now + remaining;
    }

    method Stop(now: int)
      requires Valid() && clock <= now
      modifies this
      ensures Valid() && clock == now && taskId == None && pending == None && paused == 0
      ensures log == old(log) + [Entry(now, Stopped)]
      ensures notified == if old(pending).Some? then old(notified) + [None] else old(notified)
    {
      Tick(now);
      var hadPrompt := pending.Some?;
      taskId, pending, paused := None, None, 0;
      if hadPrompt {
        notified := notified + [None];
      }
      Record(Stopped);
    }

    method Start(task: string, now: int)
      requires Valid() && clock <= now
      modifies this
      ensures Valid() && clock == now && taskId == Some(task) && pending == None && paused == 0
      ensures log == old(log) + [Entry(now, Stopped)] + [Entry(now, Started)] && deadline == now + MINUTE
    {
      Stop(now);
      taskId := Some(task);
      remaining := MINUTE;
      Arm(now);
      Record(Started);
    }

    /** Accepted only for the prompt on display, and not before it has been up for a moment. */
    method Acknowledge(task: string, promptId: string, now: int, newPromptId: string) returns (accepted: bool)
      requires Valid() && clock <= now
      modifies this
      ensures Valid() && clock == now && paused == old(paused) && taskId == old(taskId)
      ensures accepted <==> old(pending) == Some(Prompt(task, promptId)) && now - old(issuedAt) >= SETTLE
      ensures accepted ==> pending == None && log == old(log) + [Entry(now, Acknowledged)]
      ensures !accepted ==> log == old(log) && (old(pending).Some? ==> pending == old(pending))
      ensures old(pending).None? ==>
        if taskId.Some? && paused == 0 && Due(log, now)
        then pending == Some(Prompt(taskId.value, newPromptId)) && issuedAt == now
        else pending == None
    {
      Check(now, newPromptId);
      if pending.None? || pending.value.taskId != task || pending.value.promptId != promptId || now - issuedAt < SETTLE {
        return false;
      }
      pending := None;
      remaining := MINUTE;
      Arm(now);
      notified := notified + [None];
      Record(Acknowledged);
      accepted := true;
    }

    /** Pausing suspends elapsed time; it does not acknowledge presence. */
    method Pause(now: int, promptId: string)
      requires Valid() && clock <= now
      modifies this
      ensures Valid() && clock == now && taskId == old(taskId) && paused == old(paused) + 1
      ensures log == old(log) + [Entry(now, Paused)]
      ensures old(pending).Some? ==> pending == old(pending)
      ensures old(pending).None? ==>
        if taskId.Some? && old(paused) == 0 && Due(old(log), now)
        then pending == Some(Prompt(taskId.value, promptId)) && issuedAt == now
        else pending == None
    {
      hide Elapsed, CountingFrom, Depth, UnpausedTicks, Due;
      Check(now, promptId);
      if paused == 0 {
        remaining := if deadline - now < 0 then 0 else deadline - now;
      }
      paused := paused + 1;
      ElapsedWith(log, Entry(now, Paused));
      Record(Paused);
    }

    method Resume(now: int)
      requires Valid() && clock <= now
      modifies this
      ensures Valid() && clock == now && taskId == old(taskId) && pending == old(pending)
      ensures paused == if old(paused) > 0 then old(paused) - 1 else 0
      ensures log == old(log) + [Entry(now, Resumed)]
    {
      hide Elapsed, CountingFrom, Depth, UnpausedTicks;
      Tick(now);
      ElapsedWith(log, Entry(now, Resumed));
      Record(Resumed);
      if paused > 0 {
        paused := paused - 1;
        if paused == 0 {
          Arm(now);
        }
      }
    }
  }
}
