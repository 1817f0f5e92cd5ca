/**
 * LuaProfileReportor: the call-stack bookkeeping behind the Lua hook.  Each
 * hook event carries the function's name (which the debug interface may
 * leave null) and the clock reading; a call pushes a frame, a return pops
 * the top frame only when its name is the returning function's.  Clock
 * readings are integers in nanoseconds; the formatted hint strings the
 * source builds are discarded there and are not modelled.
 */
module Profiler {
  import opened Common

  datatype Frame = Frame(name: string, start: int)

  /** LUA_HOOKCALL, LUA_HOOKRET and every other hook event the debug interface can report. */
  datatype HookEvent = HookCall | HookRet | HookOther

  /** One hook invocation: event kind, `ar->name`, clock reading. */
  datatype Event = Event(kind: HookEvent, rawName: Option<string>, now: int)

  /** The state after one event, and the duration it measured if it closed a frame. */
  datatype Outcome = Outcome(stack: seq<Frame>, duration: Option<int>)

  /** A null name is recorded as "unknown". */
  function HookName(rawName: Option<string>): (name: string)
    ensures rawName.Some? ==> name == rawName.value
    ensures rawName.None? ==> name == "unknown"
  {
    rawName.GetOr("unknown")
  }

  /** duration_cast<microseconds> of a nanosecond difference: truncation toward zero. */
  function DurationMicros(start: int, end: int): (us: int)
    ensures start <= end ==> 0 <= us && us * 1000 <= end - start < (us + 1) * 1000
    ensures end < start ==> us <= 0 && (us - 1) * 1000 < end - start <= us * 1000
  {
    var d := end - start;
    if d >= 0 then d / 1000 else -((-d) / 1000)
  }

  /** The top frame is the last element of the stack. */
  predicate TopIs(stack: seq<Frame>, name: string) {
    stack != [] && stack[|stack| - 1].name == name
  }

  /** One event applied to the stack. */
  function ProfileStep(stack: seq<Frame>, e: Event): (r: Outcome)
    ensures e.kind == HookCall ==> r == Outcome(stack + [Frame(HookName(e.rawName), e.now)], None)
    ensures e.kind == HookRet && TopIs(stack, HookName(e.rawName)) ==>
      r == Outcome(stack[..|stack| - 1], Some(DurationMicros(stack[|stack| - 1].start, e.now)))
    ensures e.kind == HookOther || (e.kind == HookRet && !TopIs(stack, HookName(e.rawName))) ==>
      r == Outcome(stack, None)
    ensures |r.stack| <= |stack| + 1
  {
    var name := HookName(e.rawName);
    match e.kind
    case HookCall => Outcome(stack + [Frame(name, e.now)], None)
    case HookRet =>
      if stack != [] && stack[|stack| - 1].name == name then
        Outcome(stack[..|stack| - 1], Some(DurationMicros(stack[|stack| - 1].start, e.now)))
      else Outcome(stack, None)
    case HookOther => Outcome(stack, None)
  }

  class LuaProfileReportor {
    var luaCallStack: seq<Frame>

    constructor ()
      ensures luaCallStack == []
    {
      luaCallStack := [];
    }

    /** The hook body; returns the duration computed when a frame is closed. */
    method LuaEventRecord(e: Event) returns (duration: Option<int>)
      modifies this
      ensures luaCallStack == ProfileStep(old(luaCallStack), e).stack
      ensures duration == ProfileStep(old(luaCallStack), e).duration
    {
      var name := HookName(e.rawName);
      duration := None;
      if e.kind == HookCall {
        luaCallStack := luaCallStack + [Frame(name, e.now)];
      } else if e.kind == HookRet {
        if |luaCallStack| > 0 && luaCallStack[|luaCallStack| - 1].name == name {
          var top := luaCallStack[|luaCallStack| - 1];
          luaCallStack := luaCallStack[..|luaCallStack| - 1];
          duration := Some(DurationMicros(top.start, e.now));
        }
      }
    }
  }

  // ---------------------------------------------------------------------
  // Traces

  /** Durations measured while replaying a trace. */
  function Durations(stack: seq<Frame>, events: seq<Event>): seq<int>
    decreases |events|
  {
    if events == [] then []
    else
      var first := ProfileStep(stack, events[0]);
      (if first.duration.Some? then [first.duration.value] else []) + Durations(first.stack, events[1..])
  }

  /** The stack after a sequence of events. */
  function StackAfter(stack: seq<Frame>, events: seq<Event>): seq<Frame>
    decreases |events|
  {
    if events == [] then stack else StackAfter(ProfileStep(stack, events[0]).stack, events[1..])
  }

  lemma {:induction false} ReplayAppend(stack: seq<Frame>, a: seq<Event>, b: seq<Event>)
    ensures StackAfter(stack, a + b) == StackAfter(StackAfter(stack, a), b)
    ensures Durations(stack, a + b) == Durations(stack, a) + Durations(StackAfter(stack, a), b)
    decreases |a|
  {
    if a == [] {
      assert a + b == b;
    } else {
      assert (a + b)[0] == a[0];
      assert (a + b)[1..] == a[1..] + b;
      ReplayAppend(ProfileStep(stack, a[0]).stack, a[1..], b);
    }
  }

  /** A call immediately followed by the matching return restores the stack and reports the elapsed time. */
  lemma CallThenReturn(stack: seq<Frame>, name: Option<string>, t0: int, t1: int)
    ensures ProfileStep(ProfileStep(stack, Event(HookCall, name, t0)).stack, Event(HookRet, name, t1)) ==
            Outcome(stack, Some(DurationMicros(t0, t1)))
  {
    var pushed := stack + [Frame(HookName(name), t0)];
    assert pushed[..|pushed| - 1] == stack;
  }

  /** A return that does not match the top frame changes nothing, even when the name is deeper in the stack. */
  lemma MismatchedReturnIgnored(stack: seq<Frame>, name: Option<string>, t: int)
    requires !TopIs(stack, HookName(name))
    ensures ProfileStep(stack, Event(HookRet, name, t)) == Outcome(stack, None)
  {
  }

  /** Without returns the stack only grows: every frame already on it stays where it is. */
  lemma {:induction false} NoReturnOnlyPushes(stack: seq<Frame>, events: seq<Event>)
    requires forall i :: 0 <= i < |events| ==> events[i].kind != HookRet
    ensures stack <= StackAfter(stack, events)
    decreases |events|
  {
    if events != [] {
      var next := ProfileStep(stack, events[0]).stack;
      assert stack <= next;
      NoReturnOnlyPushes(next, events[1..]);
    }
  }

  // ---------------------------------------------------------------------
  // Well-nested executions

  /** A completed call: entered at `start`, ran `children` in order, returned at `end`. */
  datatype CallTree = Node(name: string, start: int, children: seq<CallTree>, end: int)

  function TreeEvents(t: CallTree): seq<Event>
    decreases t, 1
  {
    [Event(HookCall, Some(t.name), t.start)] + ForestEvents(t.children) +
    [Event(HookRet, Some(t.name), t.end)]
  }

  function ForestEvents(ts: seq<CallTree>): seq<Event>
    decreases ts, 0
  {
    if ts == [] then [] else TreeEvents(ts[0]) + ForestEvents(ts[1..])
  }

  /** Durations of the calls of a tree in the order they return: children first. */
  function TreeDurations(t: CallTree): seq<int>
    decreases t, 1
  {
    ForestDurations(t.children) + [DurationMicros(t.start, t.end)]
  }

  function ForestDurations(ts: seq<CallTree>): seq<int>
    decreases ts, 0
  {
    if ts == [] then [] else TreeDurations(ts[0]) + ForestDurations(ts[1..])
  }

  /**
   * Replaying a completed call on any stack restores that stack and reports
   * every nested call's duration, innermost first.
   */
  lemma {:induction false} TreeReplay(stack: seq<Frame>, t: CallTree)
    ensures StackAfter(stack, TreeEvents(t)) == stack
    ensures Durations(stack, TreeEvents(t)) == TreeDurations(t)
    decreases t, 1
  {
    var call := [Event(HookCall, Some(t.name), t.start)];
    var body := ForestEvents(t.children);
    var ret := [Event(HookRet, Some(t.name), t.end)];
    var pushed := stack + [Frame(t.name, t.start)];
    assert TreeEvents(t) == call + (body + ret);
    ReplayAppend(stack, call, body + ret);
    assert call[1..] == [];
    assert StackAfter(stack, call) == pushed && Durations(stack, call) == [];
    ForestReplay(pushed, t.children);
    ReplayAppend(pushed, body, ret);
    assert pushed[..|pushed| - 1] == stack;
    assert ret[1..] == [];
    assert StackAfter(pushed, ret) == stack;
    assert Durations(pushed, ret) == [DurationMicros(t.start, t.end)];
  }

  lemma {:induction false} ForestReplay(stack: seq<Frame>, ts: seq<CallTree>)
    ensures StackAfter(stack, ForestEvents(ts)) == stack
    ensures Durations(stack, ForestEvents(ts)) == ForestDurations(ts)
    decreases ts, 0
  {
    if ts != [] {
      TreeReplay(stack, ts[0]);
      ForestReplay(stack, ts[1..]);
      ReplayAppend(stack, TreeEvents(ts[0]), ForestEvents(ts[1..]));
    }
  }
}
