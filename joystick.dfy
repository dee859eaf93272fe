/** The joystick snapshot that CIrrDeviceSDL2::pollJoysticks keeps per
    active joystick (the SJoystickEvent inside JoystickInfo::persistentData)
    and the Linux js_event deltas it folds into it. The deltas that read()
    would return from the joystick's file descriptor are an input sequence
    here. Constants are those of linux/joystick.h and IEventReceiver.h. */
module Joystick {
  import opened IrrTypes

  /** SEvent::SJoystickEvent::NUMBER_OF_AXES and NUMBER_OF_BUTTONS. */
  const NUMBER_OF_AXES: int := 18
  const NUMBER_OF_BUTTONS: int := 32

  const JS_EVENT_BUTTON: bv8 := 0x01
  const JS_EVENT_AXIS: bv8 := 0x02
  const JS_EVENT_INIT: bv8 := 0x80

  /** The Axis array of an SJoystickEvent: exactly NUMBER_OF_AXES values. */
  type AxisArray = a: seq<s16> | |a| == NUMBER_OF_AXES witness seq(18, i => 0)

  /** struct js_event. */
  datatype JsEvent = JsEvent(time: u32, value: s16, kind: bv8, number: bv8)

  /** SEvent::SJoystickEvent. */
  datatype JoystickSnapshot = JoystickSnapshot(joystick: u8, buttonStates: Flags32, axis: AxisArray, pov: u16)

  /** CIrrDeviceSDL2::JoystickInfo. */
  datatype JoystickInfo = JoystickInfo(fd: int, axes: int, buttons: int, persistentData: JoystickSnapshot)

  /** JoystickInfo's default constructor; the SEvent it holds is left
      uninitialised by the source and is a parameter here. */
  function NewJoystickInfo(persistentData: JoystickSnapshot): JoystickInfo
  {
    JoystickInfo(-1, 0, 0, persistentData)
  }

  /** A fresh JoystickInfo has no descriptor, no axes and no buttons. */
  lemma FreshJoystickInfo(d: JoystickSnapshot)
    ensures NewJoystickInfo(d).fd == -1
    ensures NewJoystickInfo(d).axes == 0 && NewJoystickInfo(d).buttons == 0
  {
  }

  /** `event.type & ~JS_EVENT_INIT`: the type with the init flag masked out. */
  function EventType(e: JsEvent): bv8
  {
    e.kind & !JS_EVENT_INIT
  }

  /** A button delta on ButtonStates (`|= 1 << number` for a nonzero value,
      `&= ~(1 << number)` for zero): the button's bit is set exactly when the
      value is nonzero, and no other bit changes. */
  function ApplyButton(states: Flags32, n: bv8, value: s16): (r: Flags32)
    requires n < 32
    ensures n as nat in r <==> value != 0
    ensures r - {n as nat} == states - {n as nat}
  {
    if value != 0 then states + Bit(n as nat) else states - Bit(n as nat)
  }

  /** One delta applied to a snapshot. A button delta updates the button's
      bit; an axis delta overwrites its slot when the number is in range;
      anything else leaves the snapshot as it was. Buttons beyond
      NUMBER_OF_BUTTONS are ignored, like axes beyond NUMBER_OF_AXES (see
      ApplyButtonAsWritten). */
  function ApplyDelta(s: JoystickSnapshot, e: JsEvent): (r: JoystickSnapshot)
    ensures r.joystick == s.joystick && r.pov == s.pov
    ensures EventType(e) == JS_EVENT_BUTTON && (e.number as int) < NUMBER_OF_BUTTONS ==>
      r.axis == s.axis && r.buttonStates == ApplyButton(s.buttonStates, e.number, e.value)
    ensures EventType(e) == JS_EVENT_AXIS && (e.number as int) < NUMBER_OF_AXES ==>
      r.buttonStates == s.buttonStates &&
      r.axis[e.number as int] == e.value &&
      forall i :: 0 <= i < NUMBER_OF_AXES && i != e.number as int ==> r.axis[i] == s.axis[i]
    ensures (!(EventType(e) == JS_EVENT_BUTTON && (e.number as int) < NUMBER_OF_BUTTONS) &&
             !(EventType(e) == JS_EVENT_AXIS && (e.number as int) < NUMBER_OF_AXES)) ==> r == s
  {
    var t := EventType(e);
    if t == JS_EVENT_BUTTON && (e.number as int) < NUMBER_OF_BUTTONS then
      s.(buttonStates := ApplyButton(s.buttonStates, e.number, e.value))
    else if t == JS_EVENT_AXIS && (e.number as int) < NUMBER_OF_AXES then
      s.(axis := s.axis[e.number as int := e.value])
    else s
  }

  /** The button update as written, `ButtonStates |= (1 << event.number)`,
      on a target whose shift instruction uses the count modulo 32 (x86); in
      C++ a shift of an `int` by 32 or more is undefined. */
  function ApplyButtonAsWritten(states: Flags32, e: JsEvent): (r: Flags32)
    requires EventType(e) == JS_EVENT_BUTTON
    ensures e.number < 32 ==> r == ApplyButton(states, e.number, e.value)
  {
    var n := e.number % 32;
    ApplyButton(states, n, e.value)
  }

  /** A press of button 32, which a Linux joystick can report, is recorded
      by the source as a press of button 0; the model ignores it. */
  lemma ButtonBeyondMaskAliases()
    ensures ApplyButtonAsWritten({}, JsEvent(0, 1, JS_EVENT_BUTTON, 32)) == {0}
    ensures ApplyDelta(JoystickSnapshot(0, {}, seq(18, i => 0), 0), JsEvent(0, 1, JS_EVENT_BUTTON, 32)).buttonStates == {}
  {
  }

  /** The snapshot after a sequence of deltas, read in order. */
  function FoldDeltas(s: JoystickSnapshot, es: seq<JsEvent>): JoystickSnapshot
  {
    if es == [] then s else ApplyDelta(FoldDeltas(s, es[..|es| - 1]), es[|es| - 1])
  }

  /** The inner `while (read(...) == sizeof(event))` loop of pollJoysticks,
      over the deltas that read() yields. */
  method ReadDeltas(s: JoystickSnapshot, es: seq<JsEvent>) returns (r: JoystickSnapshot)
    ensures r == FoldDeltas(s, es)
  {
    r := s;
    var i := 0;
    while i < |es|
      invariant 0 <= i <= |es|
      invariant r == FoldDeltas(s, es[..i])
    {
      assert es[..i + 1][..i] == es[..i];
      r := ApplyDelta(r, es[i]);
      i := i + 1;
    }
    assert es[..i] == es;
  }

  /** The joystick number and hat position are never changed by deltas. */
  lemma {:induction false} FoldKeepsIdentity(s: JoystickSnapshot, es: seq<JsEvent>)
    ensures FoldDeltas(s, es).joystick == s.joystick
    ensures FoldDeltas(s, es).pov == s.pov
  {
    if es != [] {
      FoldKeepsIdentity(s, es[..|es| - 1]);
    }
  }

  predicate IsButtonDelta(e: JsEvent, n: bv8)
  {
    EventType(e) == JS_EVENT_BUTTON && e.number == n
  }

  predicate IsAxisDelta(e: JsEvent, n: bv8)
  {
    EventType(e) == JS_EVENT_AXIS && e.number == n
  }

  /** Button n's bit reflects the value of the last delta for button n. */
  lemma {:induction false} ButtonFollowsLastDelta(s: JoystickSnapshot, es: seq<JsEvent>, n: bv8, k: nat)
    requires n < 32
    requires k < |es| && IsButtonDelta(es[k], n)
    requires forall j :: k < j < |es| ==> !IsButtonDelta(es[j], n)
    ensures n as nat in FoldDeltas(s, es).buttonStates <==> es[k].value != 0
  {
    if k < |es| - 1 {
      ButtonFollowsLastDelta(s, es[..|es| - 1], n, k);
    }
  }

  /** Without deltas for button n, its bit keeps its initial value. */
  lemma {:induction false} ButtonKeptWithoutDeltas(s: JoystickSnapshot, es: seq<JsEvent>, n: bv8)
    requires n < 32
    requires forall j :: 0 <= j < |es| ==> !IsButtonDelta(es[j], n)
    ensures n as nat in FoldDeltas(s, es).buttonStates <==> n as nat in s.buttonStates
  {
    if es != [] {
      ButtonKeptWithoutDeltas(s, es[..|es| - 1], n);
    }
  }

  /** Axis slot n (in range) holds the value of the last delta for axis n. */
  lemma {:induction false} AxisFollowsLastDelta(s: JoystickSnapshot, es: seq<JsEvent>, n: bv8, k: nat)
    requires n < 18
    requires k < |es| && IsAxisDelta(es[k], n)
    requires forall j :: k < j < |es| ==> !IsAxisDelta(es[j], n)
    ensures FoldDeltas(s, es).axis[n as int] == es[k].value
  {
    if k < |es| - 1 {
      AxisFollowsLastDelta(s, es[..|es| - 1], n, k);
    }
  }

  /** Without deltas for axis n, its slot keeps its initial value. */
  lemma {:induction false} AxisKeptWithoutDeltas(s: JoystickSnapshot, es: seq<JsEvent>, n: bv8)
    requires n < 18
    requires forall j :: 0 <= j < |es| ==> !IsAxisDelta(es[j], n)
    ensures FoldDeltas(s, es).axis[n as int] == s.axis[n as int]
  {
    if es != [] {
      AxisKeptWithoutDeltas(s, es[..|es| - 1], n);
    }
  }

  /** The JS_EVENT_INIT flag, which marks the synthetic deltas the kernel
      sends on open, does not change how a delta is applied. */
  lemma InitFlagIgnored(s: JoystickSnapshot, e: JsEvent)
    ensures ApplyDelta(s, e.(kind := e.kind | JS_EVENT_INIT)) == ApplyDelta(s, e)
  {
    assert EventType(e.(kind := e.kind | JS_EVENT_INIT)) == EventType(e);
  }

  /** Pressing and then releasing a button clears its bit and leaves the
      others as they were. */
  lemma PressThenRelease(s: JoystickSnapshot, n: bv8, t0: u32, t1: u32)
    requires n < 32
    ensures FoldDeltas(s, [JsEvent(t0, 1, JS_EVENT_BUTTON, n), JsEvent(t1, 0, JS_EVENT_BUTTON, n)]).buttonStates
            == s.buttonStates - {n as nat}
  {
    var es := [JsEvent(t0, 1, JS_EVENT_BUTTON, n), JsEvent(t1, 0, JS_EVENT_BUTTON, n)];
    assert es[..1][..0] == [];
    assert FoldDeltas(s, es[..1]) == ApplyDelta(s, es[0]);
  }
}
