/** The two event vocabularies that CIrrDeviceSDL2::run translates between:
    the host (SDL 2) events it polls and the engine events (SEvent) it posts,
    with the constants and the small pure translations that run uses.
    Numeric values of SDL and Irrlicht constants are those of SDL 2's and
    Irrlicht's public headers (SDL_mouse.h, SDL_keycode.h, IEventReceiver.h),
    which are not part of this model. */
module Events {
  import opened IrrTypes
  import Joystick

  // ---------------------------------------------------------------- SDL side

  const SDL_BUTTON_LEFT: int := 1
  const SDL_BUTTON_MIDDLE: int := 2
  const SDL_BUTTON_RIGHT: int := 3
  const SDL_BUTTON_X1: int := 4
  const SDL_BUTTON_X2: int := 5

  /** SDL_BUTTON(X) = 1 << (X - 1). */
  const SDL_BUTTON_LMASK: Flags32 := Bit(0)
  const SDL_BUTTON_MMASK: Flags32 := Bit(1)
  const SDL_BUTTON_RMASK: Flags32 := Bit(2)
  const SDL_BUTTON_X1MASK: Flags32 := Bit(3)
  const SDL_BUTTON_X2MASK: Flags32 := Bit(4)

  /** Mouse id SDL gives to mouse events it synthesises from touches. */
  const SDL_TOUCH_MOUSEID: u32 := 0xFFFF_FFFF

  const KMOD_SHIFT: bv16 := 0x0003
  const KMOD_CTRL: bv16 := 0x00C0

  /** SDL_WINDOWEVENT sub-events, as far as run distinguishes them. */
  datatype WindowEvent =
    | SizeChanged(data1: s32, data2: s32)
    | Hidden | Minimized | Shown | Maximized | Restored
    | Enter | FocusGained | Leave | FocusLost
    | CloseRequested
    | OtherWindowEvent

  datatype FingerKind = FingerDown | FingerUp | FingerMotion

  /** An SDL_Event as run sees it. Values that come from stub code this
      model does not contain are carried by the event: `clicks` is what
      CIrrDeviceStub::checkSuccessiveClicks answers for a button press, and
      `codepoints` are the code points the UTF-8 decoder yields for a text
      input event. */
  datatype HostEvent =
    | Quit
    | UserEvent(data1: s32, data2: s32)
    | MouseMotion(motionWhich: u32, motionX: s32, motionY: s32, motionState: Flags32)
    | MouseButton(pressed: bool, buttonWhich: u32, button: u8, buttonX: s32, buttonY: s32, clicks: nat)
    | Key(keyDown: bool, sym: s32, mod: bv16)
    | Window(windowEvent: WindowEvent)
    | TextInput(codepoints: seq<u32>)
    | MouseWheel(wheelY: s32)
    | Finger(fingerKind: FingerKind, touchId: int, fingerId: int)
    /** SDL_SYSWMEVENT, SDL_TEXTEDITING, SDL_KEYMAPCHANGED, SDL_CLIPBOARDUPDATE
        and every type the switch in run does not name. */
    | Ignored

  /** The events after which run stops polling and reports false. */
  predicate IsCloseRequest(e: HostEvent)
  {
    e.Quit? || (e.Window? && e.windowEvent.CloseRequested?)
  }

  // ----------------------------------------------------------- Irrlicht side

  const EMIE_LMOUSE_PRESSED_DOWN: int := 0
  const EMIE_RMOUSE_PRESSED_DOWN: int := 1
  const EMIE_MMOUSE_PRESSED_DOWN: int := 2
  const EMIE_LMOUSE_LEFT_UP: int := 3
  const EMIE_RMOUSE_LEFT_UP: int := 4
  const EMIE_MMOUSE_LEFT_UP: int := 5
  const EMIE_MOUSE_MOVED: int := 6
  const EMIE_MOUSE_WHEEL: int := 7
  const EMIE_LMOUSE_DOUBLE_CLICK: int := 8
  const EMIE_RMOUSE_DOUBLE_CLICK: int := 9
  const EMIE_MMOUSE_DOUBLE_CLICK: int := 10
  const EMIE_LMOUSE_TRIPLE_CLICK: int := 11
  const EMIE_RMOUSE_TRIPLE_CLICK: int := 12
  const EMIE_MMOUSE_TRIPLE_CLICK: int := 13

  const EMBSM_LEFT: Flags32 := Bit(0)
  const EMBSM_RIGHT: Flags32 := Bit(1)
  const EMBSM_MIDDLE: Flags32 := Bit(2)
  const EMBSM_EXTRA1: Flags32 := Bit(3)
  const EMBSM_EXTRA2: Flags32 := Bit(4)

  datatype TouchEventKind = PressedDown | LeftUp | Moved

  /** An SEvent as posted to the receiver. The source reuses one SEvent
      record for all events of a run; fields a branch does not assign are
      given as 0 here. */
  datatype IrrEvent =
    | MouseInput(event: int, x: int, y: int, wheel: int, buttonStates: Flags32, shift: bool, control: bool)
    | KeyInput(character: u32, key: int, pressedDown: bool, shift: bool, control: bool)
    | TouchInput(touchEvent: TouchEventKind, id: nat, touchedCount: nat)
    | UserInput(userData1: s32, userData2: s32)
    | JoystickInput(joystickData: Joystick.JoystickSnapshot)

  // ------------------------------------------------------------ translations

  /** `(mod & KMOD_SHIFT) != 0` */
  predicate ShiftDown(mod: bv16) { mod & KMOD_SHIFT != 0 }

  /** `(mod & KMOD_CTRL) != 0` */
  predicate ControlDown(mod: bv16) { mod & KMOD_CTRL != 0 }

  /** The EMBSM bit run keeps for an SDL button; no bit for the buttons it
      does not track (X1, X2 and any other number). */
  function TrackedButtonMask(button: int): (m: Flags32)
    ensures m == {} || m == EMBSM_LEFT || m == EMBSM_RIGHT || m == EMBSM_MIDDLE
  {
    if button == SDL_BUTTON_LEFT then EMBSM_LEFT
    else if button == SDL_BUTTON_RIGHT then EMBSM_RIGHT
    else if button == SDL_BUTTON_MIDDLE then EMBSM_MIDDLE
    else {}
  }

  /** MouseButtonStates after a button event (`|=` on a press, `&= ~` on a
      release): the button's EMBSM bit is set exactly when it was pressed,
      and every other bit keeps its value. */
  function ButtonStatesAfter(states: Flags32, button: int, pressed: bool): (r: Flags32)
    ensures r * TrackedButtonMask(button) == (if pressed then TrackedButtonMask(button) else {})
    ensures r - TrackedButtonMask(button) == states - TrackedButtonMask(button)
  {
    if pressed then states + TrackedButtonMask(button) else states - TrackedButtonMask(button)
  }

  /** Events of buttons run does not track (X1, X2, others) leave
      MouseButtonStates as it was. */
  lemma UntrackedButtonKeepsStates(states: Flags32, button: int, pressed: bool)
    requires TrackedButtonMask(button) == {}
    ensures ButtonStatesAfter(states, button, pressed) == states
  {
  }

  /** The EMIE event of a button event; None where run leaves the event
      at EMIE_MOUSE_MOVED and therefore posts nothing. */
  function ButtonEventKind(button: int, pressed: bool): (kind: Option<int>)
    ensures kind.Some? <==> TrackedButtonMask(button) != {}
    ensures kind.Some? && pressed ==> EMIE_LMOUSE_PRESSED_DOWN <= kind.value <= EMIE_MMOUSE_PRESSED_DOWN
    ensures kind.Some? && !pressed ==> EMIE_LMOUSE_LEFT_UP <= kind.value <= EMIE_MMOUSE_LEFT_UP
  {
    if button == SDL_BUTTON_LEFT then Some(if pressed then EMIE_LMOUSE_PRESSED_DOWN else EMIE_LMOUSE_LEFT_UP)
    else if button == SDL_BUTTON_RIGHT then Some(if pressed then EMIE_RMOUSE_PRESSED_DOWN else EMIE_RMOUSE_LEFT_UP)
    else if button == SDL_BUTTON_MIDDLE then Some(if pressed then EMIE_MMOUSE_PRESSED_DOWN else EMIE_MMOUSE_LEFT_UP)
    else None
  }

  /** The second event posted after a press when the stub reports 2 or 3
      successive clicks: EMIE_xMOUSE_DOUBLE_CLICK or _TRIPLE_CLICK, found by
      offsetting from the left button's code. */
  function MultiClickEvent(kind: int, clicks: nat): (r: Option<int>)
    ensures r.Some? <==> EMIE_LMOUSE_PRESSED_DOWN <= kind <= EMIE_MMOUSE_PRESSED_DOWN && (clicks == 2 || clicks == 3)
    ensures r.Some? && clicks == 2 ==> EMIE_LMOUSE_DOUBLE_CLICK <= r.value <= EMIE_MMOUSE_DOUBLE_CLICK
    ensures r.Some? && clicks == 3 ==> EMIE_LMOUSE_TRIPLE_CLICK <= r.value <= EMIE_MMOUSE_TRIPLE_CLICK
  {
    if EMIE_LMOUSE_PRESSED_DOWN <= kind <= EMIE_MMOUSE_PRESSED_DOWN then
      if clicks == 2 then Some(EMIE_LMOUSE_DOUBLE_CLICK + kind - EMIE_LMOUSE_PRESSED_DOWN)
      else if clicks == 3 then Some(EMIE_LMOUSE_TRIPLE_CLICK + kind - EMIE_LMOUSE_PRESSED_DOWN)
      else None
    else None
  }

  /** The three buttons run tracks, with their event codes written out
      one by one, to check the offset arithmetic of MultiClickEvent. */
  datatype TrackedButton = LeftButton | RightButton | MiddleButton

  function SdlButton(b: TrackedButton): int
  {
    match b
    case LeftButton => SDL_BUTTON_LEFT
    case RightButton => SDL_BUTTON_RIGHT
    case MiddleButton => SDL_BUTTON_MIDDLE
  }

  function PressedDownCode(b: TrackedButton): int
  {
    match b
    case LeftButton => EMIE_LMOUSE_PRESSED_DOWN
    case RightButton => EMIE_RMOUSE_PRESSED_DOWN
    case MiddleButton => EMIE_MMOUSE_PRESSED_DOWN
  }

  function DoubleClickCode(b: TrackedButton): int
  {
    match b
    case LeftButton => EMIE_LMOUSE_DOUBLE_CLICK
    case RightButton => EMIE_RMOUSE_DOUBLE_CLICK
    case MiddleButton => EMIE_MMOUSE_DOUBLE_CLICK
  }

  function TripleClickCode(b: TrackedButton): int
  {
    match b
    case LeftButton => EMIE_LMOUSE_TRIPLE_CLICK
    case RightButton => EMIE_RMOUSE_TRIPLE_CLICK
    case MiddleButton => EMIE_MMOUSE_TRIPLE_CLICK
  }

  function LeftUpCode(b: TrackedButton): int
  {
    match b
    case LeftButton => EMIE_LMOUSE_LEFT_UP
    case RightButton => EMIE_RMOUSE_LEFT_UP
    case MiddleButton => EMIE_MMOUSE_LEFT_UP
  }

  /** A press of button b is reported as b's press, and 2 or 3 successive
      clicks of it as b's own double or triple click. */
  lemma MultiClickKeepsButton(b: TrackedButton, clicks: nat)
    ensures ButtonEventKind(SdlButton(b), true) == Some(PressedDownCode(b))
    ensures MultiClickEvent(PressedDownCode(b), clicks) ==
      if clicks == 2 then Some(DoubleClickCode(b))
      else if clicks == 3 then Some(TripleClickCode(b))
      else None
  {
  }

  /** A release never produces a multi-click event. */
  lemma NoMultiClickOnRelease(button: int, clicks: nat)
    requires ButtonEventKind(button, false).Some?
    ensures MultiClickEvent(ButtonEventKind(button, false).value, clicks).None?
  {
  }

  /** The events run posts for a (non-synthetic) button event: nothing for
      an untracked button; otherwise the press or release, followed for a
      press by the double or triple click the stub reports, both carrying
      the event's position, the button states after the update and the
      modifiers of KeyMode. */
  function ButtonEvents(button: int, pressed: bool, x: s32, y: s32, states: Flags32, mod: bv16, clicks: nat): seq<IrrEvent>
  {
    var kind := ButtonEventKind(button, pressed);
    if kind.None? then []
    else
      var ev := MouseInput(kind.value, x, y, 0, states, ShiftDown(mod), ControlDown(mod));
      var multi := MultiClickEvent(kind.value, clicks);
      if multi.None? then [ev] else [ev, ev.(event := multi.value)]
  }

  /** Button by button: a press posts that button's press, plus its own
      double or triple click for 2 or 3 successive clicks; a release posts
      that button's release alone. */
  lemma ButtonEventsOfTrackedButton(b: TrackedButton, x: s32, y: s32, states: Flags32, mod: bv16, clicks: nat)
    ensures
      var ev := MouseInput(PressedDownCode(b), x, y, 0, states, ShiftDown(mod), ControlDown(mod));
      ButtonEvents(SdlButton(b), true, x, y, states, mod, clicks) ==
        [ev] + (if clicks == 2 then [ev.(event := DoubleClickCode(b))]
                else if clicks == 3 then [ev.(event := TripleClickCode(b))]
                else [])
    ensures ButtonEvents(SdlButton(b), false, x, y, states, mod, clicks) ==
      [MouseInput(LeftUpCode(b), x, y, 0, states, ShiftDown(mod), ControlDown(mod))]
  {
    MultiClickKeepsButton(b, clicks);
  }

  /** X1, X2 and other buttons post nothing. */
  lemma UntrackedButtonPostsNothing(button: int, pressed: bool, x: s32, y: s32, states: Flags32, mod: bv16, clicks: nat)
    requires TrackedButtonMask(button) == {}
    ensures ButtonEvents(button, pressed, x, y, states, mod, clicks) == []
  {
  }

  /** The events of a text input event: for each code point, in order, a
      press and then a release, with Key 0 and the modifiers of KeyMode. */
  function TextInputEvents(codepoints: seq<u32>, mod: bv16): seq<IrrEvent>
  {
    if codepoints == [] then []
    else
      var cp := codepoints[|codepoints| - 1];
      TextInputEvents(codepoints[..|codepoints| - 1], mod) +
        [KeyInput(cp, 0, true, ShiftDown(mod), ControlDown(mod)),
         KeyInput(cp, 0, false, ShiftDown(mod), ControlDown(mod))]
  }

  /** Two events per code point: event 2i presses and event 2i + 1 releases
      code point i. */
  lemma {:induction false} TextInputEventsPairs(codepoints: seq<u32>, mod: bv16)
    ensures |TextInputEvents(codepoints, mod)| == 2 * |codepoints|
    ensures forall i :: 0 <= i < |codepoints| ==>
      TextInputEvents(codepoints, mod)[2 * i] == KeyInput(codepoints[i], 0, true, ShiftDown(mod), ControlDown(mod)) &&
      TextInputEvents(codepoints, mod)[2 * i + 1] == KeyInput(codepoints[i], 0, false, ShiftDown(mod), ControlDown(mod))
  {
    if codepoints != [] {
      var front := codepoints[..|codepoints| - 1];
      TextInputEventsPairs(front, mod);
      forall i | 0 <= i < |codepoints| - 1
        ensures codepoints[i] == front[i]
      {
      }
    }
  }

  /** mouse_buttons_sdl_to_irr as written: the translated mask is computed
      into a local and then discarded; the raw SDL mask is returned. */
  function MouseButtonsSdlToIrrAsWritten(buttons: Flags32): (r: Flags32)
    ensures r == buttons
  {
    buttons
  }

  /** The translation mouse_buttons_sdl_to_irr evidently intends: each SDL
      button bit becomes the engine's bit for the same button, and nothing
      else is reported. */
  function MouseButtonsSdlToIrr(buttons: Flags32): (r: Flags32)
    ensures (r * EMBSM_LEFT != {}) <==> (buttons * SDL_BUTTON_LMASK != {})
    ensures (r * EMBSM_RIGHT != {}) <==> (buttons * SDL_BUTTON_RMASK != {})
    ensures (r * EMBSM_MIDDLE != {}) <==> (buttons * SDL_BUTTON_MMASK != {})
    ensures (r * EMBSM_EXTRA1 != {}) <==> (buttons * SDL_BUTTON_X1MASK != {})
    ensures (r * EMBSM_EXTRA2 != {}) <==> (buttons * SDL_BUTTON_X2MASK != {})
    ensures r <= EMBSM_LEFT + EMBSM_RIGHT + EMBSM_MIDDLE + EMBSM_EXTRA1 + EMBSM_EXTRA2
  {
    (if buttons * SDL_BUTTON_LMASK != {} then EMBSM_LEFT else {}) +
    (if buttons * SDL_BUTTON_RMASK != {} then EMBSM_RIGHT else {}) +
    (if buttons * SDL_BUTTON_MMASK != {} then EMBSM_MIDDLE else {}) +
    (if buttons * SDL_BUTTON_X1MASK != {} then EMBSM_EXTRA1 else {}) +
    (if buttons * SDL_BUTTON_X2MASK != {} then EMBSM_EXTRA2 else {})
  }

  /** With only the middle button held, the function as written reports the
      right button, and with only the right button held it reports the middle
      one; the intended translation reports the button that is held. */
  lemma MouseButtonsAsWrittenSwapsRightAndMiddle()
    ensures MouseButtonsSdlToIrrAsWritten(SDL_BUTTON_MMASK) == EMBSM_RIGHT
    ensures MouseButtonsSdlToIrrAsWritten(SDL_BUTTON_RMASK) == EMBSM_MIDDLE
    ensures MouseButtonsSdlToIrr(SDL_BUTTON_MMASK) == EMBSM_MIDDLE
    ensures MouseButtonsSdlToIrr(SDL_BUTTON_RMASK) == EMBSM_RIGHT
  {
  }

  // ------------------------------------------------------- window state flags

  datatype WindowFlags = WindowFlags(hasFocus: bool, minimized: bool)

  /** isWindowActive: focused and not minimised. */
  predicate IsActive(w: WindowFlags)
  {
    w.hasFocus && !w.minimized
  }

  predicate AffectsFocus(e: WindowEvent)
  {
    e.Enter? || e.FocusGained? || e.Leave? || e.FocusLost?
  }

  predicate AffectsMinimized(e: WindowEvent)
  {
    e.Hidden? || e.Minimized? || e.Shown? || e.Maximized? || e.Restored?
  }

  /** The flags after one SDL_WINDOWEVENT. */
  function WindowFlagsAfter(w: WindowFlags, e: WindowEvent): (r: WindowFlags)
    ensures AffectsFocus(e) ==> r.hasFocus == (e.Enter? || e.FocusGained?)
    ensures !AffectsFocus(e) ==> r.hasFocus == w.hasFocus
    ensures AffectsMinimized(e) ==> r.minimized == (e.Hidden? || e.Minimized?)
    ensures !AffectsMinimized(e) ==> r.minimized == w.minimized
  {
    match e
    case Hidden => w.(minimized := true)
    case Minimized => w.(minimized := true)
    case Shown => w.(minimized := false)
    case Maximized => w.(minimized := false)
    case Restored => w.(minimized := false)
    case Enter => w.(hasFocus := true)
    case FocusGained => w.(hasFocus := true)
    case Leave => w.(hasFocus := false)
    case FocusLost => w.(hasFocus := false)
    case _ => w
  }

  /** The flags after a sequence of window events, applied in order. */
  function WindowFlagsAfterAll(w: WindowFlags, es: seq<WindowEvent>): WindowFlags
  {
    if es == [] then w else WindowFlagsAfter(WindowFlagsAfterAll(w, es[..|es| - 1]), es[|es| - 1])
  }

  /** The SDL_WINDOWEVENT sub-events among a run's host events, in order. */
  function WindowEventsOf(es: seq<HostEvent>): seq<WindowEvent>
  {
    if es == [] then []
    else WindowEventsOf(es[..|es| - 1]) + (if es[|es| - 1].Window? then [es[|es| - 1].windowEvent] else [])
  }

  /** Focus is decided by the last focus event: after it, events that do not
      touch focus leave it as that event set it. */
  lemma {:induction false} FocusFollowsLastFocusEvent(w: WindowFlags, es: seq<WindowEvent>, k: nat)
    requires k < |es| && AffectsFocus(es[k])
    requires forall j :: k < j < |es| ==> !AffectsFocus(es[j])
    ensures WindowFlagsAfterAll(w, es).hasFocus == (es[k].Enter? || es[k].FocusGained?)
  {
    if k < |es| - 1 {
      FocusFollowsLastFocusEvent(w, es[..|es| - 1], k);
    }
  }

  /** Without focus events, focus keeps its initial value. */
  lemma {:induction false} FocusKeptWithoutFocusEvents(w: WindowFlags, es: seq<WindowEvent>)
    requires forall j :: 0 <= j < |es| ==> !AffectsFocus(es[j])
    ensures WindowFlagsAfterAll(w, es).hasFocus == w.hasFocus
  {
    if es != [] {
      FocusKeptWithoutFocusEvents(w, es[..|es| - 1]);
    }
  }

  /** Minimisation is decided by the last hide/show/minimise/maximise/restore
      event. */
  lemma {:induction false} MinimizedFollowsLastEvent(w: WindowFlags, es: seq<WindowEvent>, k: nat)
    requires k < |es| && AffectsMinimized(es[k])
    requires forall j :: k < j < |es| ==> !AffectsMinimized(es[j])
    ensures WindowFlagsAfterAll(w, es).minimized == (es[k].Hidden? || es[k].Minimized?)
  {
    if k < |es| - 1 {
      MinimizedFollowsLastEvent(w, es[..|es| - 1], k);
    }
  }

  /** Without such events, the minimised flag keeps its initial value. */
  lemma {:induction false} MinimizedKeptWithoutEvents(w: WindowFlags, es: seq<WindowEvent>)
    requires forall j :: 0 <= j < |es| ==> !AffectsMinimized(es[j])
    ensures WindowFlagsAfterAll(w, es).minimized == w.minimized
  {
    if es != [] {
      MinimizedKeptWithoutEvents(w, es[..|es| - 1]);
    }
  }
}
