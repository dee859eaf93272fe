/** source/Irrlicht/CIrrDeviceSDL2.cpp: the SDL2 device. Its state lives in
    class Device; SDL, the driver factories and the file descriptors are
    inputs (the host events a run polls, whether a window and a context can
    be made, whether a factory returns a driver, the js_event deltas read()
    returns). What the device hands to postEventFromUser is recorded in
    `posted`, the sizes passed to VideoDriver->OnResize in `resizes`, and
    the messages given to os::Printer::log in `log`. */
module SdlDevice {
  import opened IrrTypes
  import opened DriverTypes
  import opened CreationParams
  import opened Events
  import KeyMap
  import Touch
  import Joystick
  import Cursor

  // ---------------------------------------------------------------------
  // createDriver

  /** The driver factories compiled in (_IRR_COMPILE_WITH_OPENGL_,
      _IRR_COMPILE_WITH_OGLES1_, _IRR_COMPILE_WITH_OGLES2_). */
  datatype BuildConfig = BuildConfig(openGL: bool, ogles1: bool, ogles2: bool)

  /** A video driver: the type whose factory made it and its screen size. */
  datatype VideoDriver = VideoDriver(driverType: int, screenSize: Dimension)

  /** What createDriver leaves behind: the driver, if any, and what it logged. */
  datatype DriverOutcome = DriverOutcome(driver: Option<VideoDriver>, log: seq<string>)

  const NO_OPENGL: string := "No OpenGL support compiled in."
  const NO_OGLES1: string := "No OpenGL ES 1 support compiled in."
  const NO_OGLES2: string := "No OpenGL ES 2 support compiled in."
  const UNKNOWN_DRIVER: string := "Unable to create video driver of unknown type."

  /** The driver types createDriver has a case for. */
  predicate HasDriverCase(t: int)
  {
    t == EDT_NULL || t == EDT_OPENGL || t == EDT_OGLES1 || t == EDT_OGLES2
  }

  /** The types whose factory is compiled in; the null driver always is. */
  predicate CompiledIn(config: BuildConfig, t: int)
  {
    t == EDT_NULL || (t == EDT_OPENGL && config.openGL) ||
    (t == EDT_OGLES1 && config.ogles1) || (t == EDT_OGLES2 && config.ogles2)
  }

  /** createDriver. `factoryOk` is whether a compiled-in hardware factory
      returns a driver; createNullDriver always does. */
  function CreateDriver(p: CreationParameters, config: BuildConfig, factoryOk: bool): (r: DriverOutcome)
    ensures r.driver.Some? <==> p.driverType == EDT_NULL || (CompiledIn(config, p.driverType) && factoryOk)
    ensures r.driver.Some? ==> r.driver.value == VideoDriver(p.driverType, p.windowSize)
    ensures r.log == [] <==> CompiledIn(config, p.driverType)
    ensures |r.log| <= 1
    ensures !HasDriverCase(p.driverType) ==> r == DriverOutcome(None, [UNKNOWN_DRIVER])
  {
    var t := p.driverType;
    var made := Some(VideoDriver(t, p.windowSize));
    if t == EDT_OPENGL then
      if config.openGL then DriverOutcome(if factoryOk then made else None, [])
      else DriverOutcome(None, [NO_OPENGL])
    else if t == EDT_OGLES1 then
      if config.ogles1 then DriverOutcome(if factoryOk then made else None, [])
      else DriverOutcome(None, [NO_OGLES1])
    else if t == EDT_OGLES2 then
      if config.ogles2 then DriverOutcome(if factoryOk then made else None, [])
      else DriverOutcome(None, [NO_OGLES2])
    else if t == EDT_NULL then DriverOutcome(made, [])
    else DriverOutcome(None, [UNKNOWN_DRIVER])
  }

  /** The messages of the three GL cases built without their factory, and
      WebGL, which has an enumerator but no case, is an unknown type. */
  lemma CreateDriverMessages(p: CreationParameters, factoryOk: bool)
    ensures p.driverType == EDT_OPENGL ==> CreateDriver(p, BuildConfig(false, true, true), factoryOk).log == [NO_OPENGL]
    ensures p.driverType == EDT_OGLES1 ==> CreateDriver(p, BuildConfig(true, false, true), factoryOk).log == [NO_OGLES1]
    ensures p.driverType == EDT_OGLES2 ==> CreateDriver(p, BuildConfig(true, true, false), factoryOk).log == [NO_OGLES2]
    ensures p.driverType == EDT_WEBGL1 ==> forall c :: CreateDriver(p, c, factoryOk) == DriverOutcome(None, [UNKNOWN_DRIVER])
  {
  }

  // ---------------------------------------------------------------------
  // Window creation

  /** What SDL answers createWindow: whether SDL_CreateWindow returns a
      window, whether the first SDL_GL_CreateContext returns a context, and
      whether the retry with context major version 3 does. */
  datatype HostWindow = HostWindow(windowOk: bool, contextOk: bool, retryContextOk: bool)

  /** createWindow succeeds: a window and a context on either attempt. */
  predicate WindowCreated(host: HostWindow)
  {
    host.windowOk && (host.contextOk || host.retryContextOk)
  }

  /** The constructor stops after a failed createWindow; the null device
      makes no window. */
  predicate ConstructorStopsEarly(p: CreationParameters, host: HostWindow)
  {
    p.driverType != EDT_NULL && !WindowCreated(host)
  }

  /** The constructed device ends up with a video driver. */
  predicate ConstructedWithDriver(p: CreationParameters, config: BuildConfig, host: HostWindow, factoryOk: bool)
  {
    !ConstructorStopsEarly(p, host) && CreateDriver(p, config, factoryOk).driver.Some?
  }

  /** The null device gets its driver whatever the build and the host. */
  lemma NullDeviceAlwaysHasDriver(p: CreationParameters, config: BuildConfig, host: HostWindow, factoryOk: bool)
    requires p.driverType == EDT_NULL
    ensures ConstructedWithDriver(p, config, host, factoryOk)
    ensures CreateDriver(p, config, factoryOk).driver == Some(VideoDriver(EDT_NULL, p.windowSize))
  {
  }

  // ---------------------------------------------------------------------
  // Touch events

  function TouchKind(kind: FingerKind): TouchEventKind
  {
    match kind
    case FingerDown => PressedDown
    case FingerUp => LeftUp
    case FingerMotion => Moved
  }

  /** The record lookup a finger event makes: addTouch for a press,
      findTouch for a lift or a motion. */
  function FingerLookup(kind: FingerKind, ts: seq<Touch.TouchInfo>, last: nat, device: int, finger: int): Touch.Lookup
  {
    if kind == FingerDown then Touch.AddRecord(ts, last, device, finger)
    else Touch.FindRecord(ts, last, device, finger)
  }

  /** A lift of a tracked finger reports the finger's id with a count that
      still includes it, then leaves no record with that id: one record fewer. */
  lemma {:induction false} LiftOfTrackedFinger(ts: seq<Touch.TouchInfo>, last: nat, device: int, finger: int)
    requires Touch.IdsIncreasing(ts, last)
    requires Touch.FirstMatch(ts, device, finger) < |ts|
    ensures var r := FingerLookup(FingerUp, ts, last, device, finger);
      r.touches == ts && r.lastId == last &&
      r.id == ts[Touch.FirstMatch(ts, device, finger)].id &&
      |Touch.RemoveId(r.touches, r.id)| == |ts| - 1 &&
      forall i :: 0 <= i < |Touch.RemoveId(r.touches, r.id)| ==> Touch.RemoveId(r.touches, r.id)[i].id != r.id
  {
    var r := FingerLookup(FingerUp, ts, last, device, finger);
    Touch.RemoveIdRemovesAll(ts, last, r.id);
  }

  // ---------------------------------------------------------------------
  // Joystick events

  /** The events pollJoysticks posts: each active joystick's snapshot, in order. */
  function JoystickEvents(js: seq<Joystick.JoystickInfo>): seq<IrrEvent>
  {
    if js == [] then []
    else JoystickEvents(js[..|js| - 1]) + [JoystickInput(js[|js| - 1].persistentData)]
  }

  /** One event per active joystick, even without new data, carrying that
      joystick's snapshot. */
  lemma {:induction false} JoystickEventsOnePerJoystick(js: seq<Joystick.JoystickInfo>)
    ensures |JoystickEvents(js)| == |js|
    ensures forall j :: 0 <= j < |js| ==> JoystickEvents(js)[j] == JoystickInput(js[j].persistentData)
  {
    if js != [] {
      JoystickEventsOnePerJoystick(js[..|js| - 1]);
    }
  }

  /** An active joystick after a poll that read `deltas` from it. */
  function Polled(info: Joystick.JoystickInfo, deltas: seq<Joystick.JsEvent>): Joystick.JoystickInfo
  {
    info.(persistentData := Joystick.FoldDeltas(info.persistentData, deltas))
  }

  // ---------------------------------------------------------------------
  // One pass of run's event switch, as a function of what it reads

  const TOUCH_NOT_FOUND: string := "Touch not found by device/finger id"
  const TOUCH_ID_NOT_FOUND: string := "Touch not found by internal id"

  /** The fields of the device that the event switch of run reads and
      writes. */
  datatype InputState = InputState(
    close: bool, width: u32, height: u32, flags: WindowFlags,
    mouseX: s32, mouseY: s32, buttons: Flags32, keyMode: bv16,
    touches: seq<Touch.TouchInfo>, lastTouchId: nat)

  /** What handling events leaves behind: the new state, and in order the
      events posted, the sizes passed to OnResize and the messages logged. */
  datatype Step = Step(state: InputState, posted: seq<IrrEvent>, resizes: seq<Dimension>, log: seq<string>)

  /** SDL_MOUSEMOTION: synthetic touch motion is skipped; otherwise the
      position and what mouse_buttons_sdl_to_irr returns, the SDL mask
      itself, are stored and posted. */
  function MotionStep(s: InputState, which: u32, x: s32, y: s32, state: Flags32): Step
  {
    if which == SDL_TOUCH_MOUSEID then Step(s, [], [], [])
    else
      var b := MouseButtonsSdlToIrrAsWritten(state);
      Step(s.(mouseX := x, mouseY := y, buttons := b),
           [MouseInput(EMIE_MOUSE_MOVED, x, y, 0, b, ShiftDown(s.keyMode), ControlDown(s.keyMode))], [], [])
  }

  /** SDL_MOUSEBUTTONDOWN / UP: synthetic touch clicks are skipped;
      otherwise the states are updated and the button's events posted. */
  function ButtonStep(s: InputState, pressed: bool, which: u32, button: u8, x: s32, y: s32, clicks: nat): Step
  {
    if which == SDL_TOUCH_MOUSEID then Step(s, [], [], [])
    else
      var b := ButtonStatesAfter(s.buttons, button, pressed);
      Step(s.(buttons := b), ButtonEvents(button, pressed, x, y, b, s.keyMode, clicks), [], [])
  }

  /** SDL_KEYDOWN / UP: one key event with the table's code for the key. */
  function KeyStep(s: InputState, keyMap: seq<KeyMap.KeyEntry>, down: bool, sym: s32, mod: bv16): Step
  {
    Step(s.(keyMode := mod), [KeyInput(0, KeyMap.KeyCode(keyMap, sym), down, ShiftDown(mod), ControlDown(mod))], [], [])
  }

  /** SDL_WINDOWEVENT: the flags, Close, and on a size change the stored
      size and a resize of the driver, if there is one. */
  function WindowStep(s: InputState, hasDriver: bool, we: WindowEvent): Step
  {
    var s' := s.(flags := WindowFlagsAfter(s.flags, we), close := s.close || we.CloseRequested?);
    if we.SizeChanged? then
      var size := Dimension(ToU32(we.data1), ToU32(we.data2));
      Step(s'.(width := size.width, height := size.height), [], if hasDriver then [size] else [], [])
    else Step(s', [], [], [])
  }

  /** SDL_FINGERDOWN / UP / MOTION: the record lookup, a lifted finger's
      record removed after the count is taken, and one touch event. */
  function FingerStep(s: InputState, kind: FingerKind, device: int, finger: int): Step
  {
    var r := FingerLookup(kind, s.touches, s.lastTouchId, device, finger);
    var missed := kind != FingerDown && Touch.FirstMatch(s.touches, device, finger) == |s.touches|;
    Step(s.(touches := if kind == FingerUp then Touch.RemoveId(r.touches, r.id) else r.touches,
            lastTouchId := r.lastId),
         [TouchInput(TouchKind(kind), r.id, |r.touches|)], [], if missed then [TOUCH_NOT_FOUND] else [])
  }

  /** One host event handled by the switch in run, given the sorted key
      table and whether the device has a video driver. */
  function Dispatch(s: InputState, keyMap: seq<KeyMap.KeyEntry>, hasDriver: bool, e: HostEvent): Step
  {
    match e
    case Quit => Step(s.(close := true), [], [], [])
    case UserEvent(d1, d2) => Step(s, [UserInput(d1, d2)], [], [])
    case MouseMotion(which, x, y, state) => MotionStep(s, which, x, y, state)
    case MouseButton(pressed, which, button, x, y, clicks) => ButtonStep(s, pressed, which, button, x, y, clicks)
    case Key(down, sym, mod) => KeyStep(s, keyMap, down, sym, mod)
    case Window(we) => WindowStep(s, hasDriver, we)
    case TextInput(cps) => Step(s, TextInputEvents(cps, s.keyMode), [], [])
    case MouseWheel(wy) =>
      Step(s, [MouseInput(EMIE_MOUSE_WHEEL, s.mouseX, s.mouseY, wy, s.buttons,
                          ShiftDown(s.keyMode), ControlDown(s.keyMode))], [], [])
    case Finger(kind, device, finger) => FingerStep(s, kind, device, finger)
    case Ignored => Step(s, [], [], [])
  }

  /** The host events es handled one after the other. */
  function DispatchAll(s: InputState, keyMap: seq<KeyMap.KeyEntry>, hasDriver: bool, es: seq<HostEvent>): Step
  {
    if es == [] then Step(s, [], [], [])
    else
      var p := DispatchAll(s, keyMap, hasDriver, es[..|es| - 1]);
      var q := Dispatch(p.state, keyMap, hasDriver, es[|es| - 1]);
      Step(q.state, p.posted + q.posted, p.resizes + q.resizes, p.log + q.log)
  }

  /** Appending is associative. */
  lemma AppendAssoc<T>(a: seq<T>, b: seq<T>, c: seq<T>)
    ensures a + b + c == a + (b + c)
  {
  }

  /** DispatchAll over one more event of es: the events before it, then
      that event from the state they leave. */
  lemma DispatchAllOneMore(s: InputState, keyMap: seq<KeyMap.KeyEntry>, hasDriver: bool, es: seq<HostEvent>, k: nat)
    requires k < |es|
    ensures var p := DispatchAll(s, keyMap, hasDriver, es[..k]);
      var q := Dispatch(p.state, keyMap, hasDriver, es[k]);
      DispatchAll(s, keyMap, hasDriver, es[..k + 1]) == Step(q.state, p.posted + q.posted, p.resizes + q.resizes, p.log + q.log)
  {
    assert es[..k + 1][..k] == es[..k];
  }

  /** The window flags after a run of events are those the window events
      among them set, in order; no other event touches them. */
  lemma {:induction false} DispatchAllWindowFlags(s: InputState, keyMap: seq<KeyMap.KeyEntry>, hasDriver: bool,
                                                   es: seq<HostEvent>)
    ensures DispatchAll(s, keyMap, hasDriver, es).state.flags == WindowFlagsAfterAll(s.flags, WindowEventsOf(es))
  {
    if es != [] {
      var front, last := es[..|es| - 1], es[|es| - 1];
      DispatchAllWindowFlags(s, keyMap, hasDriver, front);
      var p := DispatchAll(s, keyMap, hasDriver, front);
      DispatchFlagsAndClose(p.state, keyMap, hasDriver, last);
      assert DispatchAll(s, keyMap, hasDriver, es).state.flags
          == if last.Window? then WindowFlagsAfter(p.state.flags, last.windowEvent) else p.state.flags;
      var ws := WindowEventsOf(front);
      if last.Window? {
        assert (ws + [last.windowEvent])[..|ws|] == ws;
      } else {
        assert ws + [] == ws;
      }
    }
  }

  /** Close is set after a run of events exactly when it was set before or
      one of them is a quit or a window-close request. */
  lemma {:induction false} DispatchAllClose(s: InputState, keyMap: seq<KeyMap.KeyEntry>, hasDriver: bool,
                                             es: seq<HostEvent>)
    ensures DispatchAll(s, keyMap, hasDriver, es).state.close <==>
            s.close || exists i :: 0 <= i < |es| && IsCloseRequest(es[i])
  {
    if es != [] {
      var front, last := es[..|es| - 1], es[|es| - 1];
      DispatchAllClose(s, keyMap, hasDriver, front);
      var p := DispatchAll(s, keyMap, hasDriver, front);
      DispatchFlagsAndClose(p.state, keyMap, hasDriver, last);
      assert DispatchAll(s, keyMap, hasDriver, es).state.close == (p.state.close || IsCloseRequest(last));
      assert forall i :: 0 <= i < |front| ==> es[i] == front[i];
    }
  }

  /** Only a window event changes the window flags, as WindowFlagsAfter
      says, and Close is set by a quit or a window-close request and never
      cleared. */
  lemma DispatchFlagsAndClose(s: InputState, keyMap: seq<KeyMap.KeyEntry>, hasDriver: bool, e: HostEvent)
    ensures var r := Dispatch(s, keyMap, hasDriver, e).state;
      r.flags == (if e.Window? then WindowFlagsAfter(s.flags, e.windowEvent) else s.flags) &&
      r.close == (s.close || IsCloseRequest(e))
  {
  }

  /** Every event keeps the touch id invariant. */
  lemma DispatchKeepsIdsIncreasing(s: InputState, keyMap: seq<KeyMap.KeyEntry>, hasDriver: bool, e: HostEvent)
    requires Touch.IdsIncreasing(s.touches, s.lastTouchId)
    ensures var r := Dispatch(s, keyMap, hasDriver, e).state;
      Touch.IdsIncreasing(r.touches, r.lastTouchId) && r.lastTouchId >= s.lastTouchId
  {
    if e.Finger? {
      var r := FingerLookup(e.fingerKind, s.touches, s.lastTouchId, e.touchId, e.fingerId);
      Touch.LookupsKeepIdsIncreasing(s.touches, s.lastTouchId, e.touchId, e.fingerId);
      Touch.RemoveIdRemovesAll(r.touches, r.lastId, r.id);
    }
  }

  /** Only a key event changes KeyMode, to the event's modifiers. */
  lemma DispatchKeyMode(s: InputState, keyMap: seq<KeyMap.KeyEntry>, hasDriver: bool, e: HostEvent)
    ensures Dispatch(s, keyMap, hasDriver, e).state.keyMode == if e.Key? then e.mod else s.keyMode
  {
  }

  /** The key events of a run: KeyMode is the modifiers of the last key
      event, and without key events it is unchanged. */
  lemma {:induction false} KeyModeFollowsLastKeyEvent(s: InputState, keyMap: seq<KeyMap.KeyEntry>, hasDriver: bool,
                                                       es: seq<HostEvent>)
    ensures (forall i :: 0 <= i < |es| ==> !es[i].Key?) ==>
      DispatchAll(s, keyMap, hasDriver, es).state.keyMode == s.keyMode
    ensures forall k :: 0 <= k < |es| && es[k].Key? && (forall j :: k < j < |es| ==> !es[j].Key?) ==>
      DispatchAll(s, keyMap, hasDriver, es).state.keyMode == es[k].mod
  {
    if es != [] {
      var front, last := es[..|es| - 1], es[|es| - 1];
      KeyModeFollowsLastKeyEvent(s, keyMap, hasDriver, front);
      var p := DispatchAll(s, keyMap, hasDriver, front);
      DispatchKeyMode(p.state, keyMap, hasDriver, last);
      assert DispatchAll(s, keyMap, hasDriver, es).state.keyMode == if last.Key? then last.mod else p.state.keyMode;
      assert forall i :: 0 <= i < |front| ==> front[i] == es[i];
    }
  }

  // ---------------------------------------------------------------------
  /** createWindow: on a window the flags become focused and not
      minimised, before the context is made; a failure is logged. The
      window flags and the log, which the member function updates, are
      passed in and handed back. */
  method CreateWindow(host: HostWindow, flags: WindowFlags, log: seq<string>)
    returns (ok: bool, flags': WindowFlags, log': seq<string>)
    ensures ok <==> WindowCreated(host)
    ensures flags' == if host.windowOk then WindowFlags(true, false) else flags
    ensures log' == log + (if !host.windowOk then ["Could not create window"]
                           else if !ok then ["Could not create context"] else [])
  {
    flags' := flags;
    log' := log;
    if !host.windowOk {
      log' := log' + ["Could not create window"];
      return false, flags', log';
    }
    flags' := WindowFlags(true, false);
    if !host.contextOk {
      if host.retryContextOk {
        return true, flags', log';
      }
      log' := log' + ["Could not create context"];
      return false, flags', log';
    }
    return true, flags', log';
  }

  // The device

  /** createKeyMap: the 103 push_back calls onto the empty KeyMap, which
      leave the entries in push order, then KeyMap.sort(). */
  method CreateKeyMap() returns (table: seq<KeyMap.KeyEntry>)
    ensures KeyMap.IsBuiltKeyMap(table)
  {
    table := KeyMap.SortByKey(KeyMap.KEY_MAP_ENTRIES);
    KeyMap.BuiltKeyMapIsSortedPermutation(table);
  }

  class Device {
    var creationParams: CreationParameters
    var close: bool
    var width: u32
    var height: u32
    var windowHasFocus: bool
    var windowMinimized: bool
    var mouseX: s32
    var mouseY: s32
    var mouseButtonStates: Flags32
    /** KeyMap: filled by createKeyMap during construction and only read
        afterwards. */
    const keyMap: seq<KeyMap.KeyEntry>
    var keyMode: bv16
    var activeJoysticks: seq<Joystick.JoystickInfo>
    var currentTouches: seq<Touch.TouchInfo>
    var lastTouchId: nat
    var videoDriver: Option<VideoDriver>
    var cursorControl: Cursor.CursorControl?
    var posted: seq<IrrEvent>
    var resizes: seq<Dimension>
    var log: seq<string>

    /** What every method keeps: a sorted key table for binary_search and
        the touch id invariant. */
    predicate Valid()
      reads this
    {
      KeyMap.SortedByKey(keyMap) && Touch.IdsIncreasing(currentTouches, lastTouchId)
    }

    function Flags(): WindowFlags
      reads this
    {
      WindowFlags(windowHasFocus, windowMinimized)
    }

    /** The fields the event switch of run reads and writes. */
    function State(): InputState
      reads this
    {
      InputState(close, width, height, Flags(), mouseX, mouseY, mouseButtonStates, keyMode,
                 currentTouches, lastTouchId)
    }

    /** Between the previous state and this one the device did what o
        says: it is in o's state, and it posted, resized and logged what o
        lists, after what it had before. */
    twostate predicate Took(o: Step)
      reads this
    {
      State() == o.state && posted == old(posted) + o.posted &&
      resizes == old(resizes) + o.resizes && log == old(log) + o.log
    }

    /** The constructor: key map built; for a device with a window,
        createWindow, stopping there if it fails; then the cursor control
        and createDriver. MouseX and MouseY, which the source leaves
        uninitialised, start at 0. */
    constructor(param: CreationParameters, config: BuildConfig, host: HostWindow, factoryOk: bool)
      ensures Valid()
      ensures creationParams == param && !close
      ensures width == param.windowSize.width && height == param.windowSize.height
      ensures KeyMap.IsBuiltKeyMap(keyMap)
      ensures mouseX == 0 && mouseY == 0 && mouseButtonStates == {} && keyMode == 0
      ensures currentTouches == [] && lastTouchId == 0 && activeJoysticks == []
      ensures posted == [] && resizes == []
      ensures Flags() == if param.driverType != EDT_NULL && host.windowOk then WindowFlags(true, false) else WindowFlags(false, false)
      ensures ConstructorStopsEarly(param, host) ==> cursorControl == null && videoDriver == None
      ensures !ConstructorStopsEarly(param, host) ==>
        cursorControl != null && fresh(cursorControl) &&
        !cursorControl.useReferenceRect && cursorControl.cursors == [] &&
        cursorControl.activeIcon == Cursor.ECI_NORMAL && cursorControl.activeIconStartTime == 0 &&
        cursorControl.cursorPos == Cursor.Position(0, 0) &&
        videoDriver == CreateDriver(param, config, factoryOk).driver
      ensures log ==
        (if param.driverType == EDT_NULL then []
         else if !host.windowOk then ["Could not create window"]
         else if !WindowCreated(host) then ["Could not create context"]
         else []) +
        (if ConstructorStopsEarly(param, host) then [] else CreateDriver(param, config, factoryOk).log)
    {
      var table := CreateKeyMap();
      var flags := WindowFlags(false, false);
      var messages: seq<string> := [];
      var windowReady := true;
      if param.driverType != EDT_NULL {
        windowReady, flags, messages := CreateWindow(host, flags, messages);
      }
      var cursor: Cursor.CursorControl? := null;
      var driver: Option<VideoDriver> := None;
      if windowReady {
        cursor := new Cursor.CursorControl(param.driverType == EDT_NULL);
        var outcome := CreateDriver(param, config, factoryOk);
        driver := outcome.driver;
        messages := messages + outcome.log;
      }
      keyMap := table;
      creationParams := param;
      close := false;
      width := param.windowSize.width;
      height := param.windowSize.height;
      windowHasFocus := flags.hasFocus;
      windowMinimized := flags.minimized;
      mouseX := 0;
      mouseY := 0;
      mouseButtonStates := {};
      keyMode := 0;
      activeJoysticks := [];
      currentTouches := [];
      lastTouchId := 0;
      videoDriver := driver;
      cursorControl := cursor;
      posted := [];
      resizes := [];
      log := messages;
    }

    /** closeDevice. */
    method CloseDevice()
      modifies this`close
      ensures close
    {
      close := true;
    }

    /** isWindowActive: focused and not minimised. */
    function IsWindowActive(): (r: bool)
      reads this
      ensures r <==> IsActive(Flags())
    {
      windowHasFocus && !windowMinimized
    }

    function IsWindowFocused(): (r: bool)
      reads this
      ensures r <==> Flags().hasFocus
    {
      windowHasFocus
    }

    function IsWindowMinimized(): (r: bool)
      reads this
      ensures r <==> Flags().minimized
    {
      windowMinimized
    }

    // -------------------------------------------------------------------
    // Touch records

    /** addTouch. */
    method AddTouch(device: int, finger: int) returns (id: nat)
      modifies this`currentTouches, this`lastTouchId
      ensures Touch.Lookup(currentTouches, lastTouchId, id) ==
              Touch.AddRecord(old(currentTouches), old(lastTouchId), device, finger)
      ensures State() == old(State()).(touches := currentTouches, lastTouchId := lastTouchId)
    {
      lastTouchId := lastTouchId + 1;
      currentTouches := currentTouches + [Touch.TouchInfo(device, finger, lastTouchId)];
      id := lastTouchId;
    }

    /** findTouch: the scan for the first record of the finger; a miss is
        logged and the finger added. */
    method FindTouch(device: int, finger: int) returns (id: nat)
      modifies this`currentTouches, this`lastTouchId, this`log
      ensures Touch.Lookup(currentTouches, lastTouchId, id) ==
              Touch.FindRecord(old(currentTouches), old(lastTouchId), device, finger)
      ensures State() == old(State()).(touches := currentTouches, lastTouchId := lastTouchId)
      ensures log == old(log) + (if Touch.FirstMatch(old(currentTouches), device, finger) < |old(currentTouches)|
                                 then [] else [TOUCH_NOT_FOUND])
    {
      var k := 0;
      while k < |currentTouches|
        invariant 0 <= k <= |currentTouches|
        invariant forall j :: 0 <= j < k ==> !Touch.Matches(currentTouches[j], device, finger)
        invariant currentTouches == old(currentTouches) && lastTouchId == old(lastTouchId) && log == old(log)
      {
        if currentTouches[k].device == device && currentTouches[k].touch == finger {
          assert Touch.FirstMatch(currentTouches, device, finger) == k;
          return currentTouches[k].id;
        }
        k := k + 1;
      }
      log := log + [TOUCH_NOT_FOUND];
      id := AddTouch(device, finger);
    }

    /** removeTouch: the first record with the id erased; a miss is logged. */
    method RemoveTouch(id: nat)
      modifies this`currentTouches, this`log
      ensures currentTouches == Touch.RemoveId(old(currentTouches), id)
      ensures State() == old(State()).(touches := currentTouches)
      ensures log == old(log) + (if Touch.FirstWithId(old(currentTouches), id) < |old(currentTouches)|
                                 then [] else [TOUCH_ID_NOT_FOUND])
    {
      var k := 0;
      while k < |currentTouches|
        invariant 0 <= k <= |currentTouches|
        invariant forall j :: 0 <= j < k ==> currentTouches[j].id != id
        invariant currentTouches == old(currentTouches) && log == old(log)
      {
        if currentTouches[k].id == id {
          assert Touch.FirstWithId(currentTouches, id) == k;
          currentTouches := Touch.EraseAt(currentTouches, k);
          return;
        }
        k := k + 1;
      }
      log := log + [TOUCH_ID_NOT_FOUND];
    }

    // -------------------------------------------------------------------
    // The event branches of run

    /** SDL_USEREVENT. */
    method HandleUserEvent(data1: s32, data2: s32)
      modifies this`posted
      ensures Took(Dispatch(old(State()), keyMap, videoDriver.Some?, UserEvent(data1, data2)))
    {
      posted := posted + [UserInput(data1, data2)];
    }

    /** SDL_MOUSEMOTION: synthetic touch motion is skipped; otherwise the
        position and what mouse_buttons_sdl_to_irr returns, the SDL mask
        itself, are stored and posted. */
    method HandleMouseMotion(which: u32, x: s32, y: s32, state: Flags32)
      modifies this`mouseX, this`mouseY, this`mouseButtonStates, this`posted
      ensures Took(MotionStep(old(State()), which, x, y, state))
    {
      if which == SDL_TOUCH_MOUSEID {
        return;
      }
      mouseX := x;
      mouseY := y;
      mouseButtonStates := MouseButtonsSdlToIrrAsWritten(state);
      posted := posted + [MouseInput(EMIE_MOUSE_MOVED, x, y, 0, mouseButtonStates,
                                     ShiftDown(keyMode), ControlDown(keyMode))];
    }

    /** SDL_MOUSEBUTTONDOWN / SDL_MOUSEBUTTONUP. */
    method HandleMouseButton(pressed: bool, which: u32, button: u8, x: s32, y: s32, clicks: nat)
      modifies this`mouseButtonStates, this`posted
      ensures Took(ButtonStep(old(State()), pressed, which, button, x, y, clicks))
    {
      if which == SDL_TOUCH_MOUSEID {
        return;
      }
      mouseButtonStates := ButtonStatesAfter(mouseButtonStates, button, pressed);
      var kind := ButtonEventKind(button, pressed);
      if kind.Some? {
        var ev := MouseInput(kind.value, x, y, 0, mouseButtonStates, ShiftDown(keyMode), ControlDown(keyMode));
        var multi := MultiClickEvent(kind.value, clicks);
        if multi.Some? {
          posted := posted + [ev, ev.(event := multi.value)];
        } else {
          posted := posted + [ev];
        }
      }
    }

    /** SDL_KEYDOWN / SDL_KEYUP: the engine key looked up by binary search
        (0 on a miss), KeyMode replaced by the event's modifiers. */
    method HandleKey(down: bool, sym: s32, mod: bv16)
      modifies this`keyMode, this`posted
      ensures Took(KeyStep(old(State()), keyMap, down, sym, mod))
    {
      var key := KeyMap.TranslateKey(keyMap, sym);
      keyMode := mod;
      posted := posted + [KeyInput(0, key, down, ShiftDown(mod), ControlDown(mod))];
    }

    /** SDL_WINDOWEVENT: the switch on the window event, one branch per
        group of case labels that share a body. */
    method HandleWindowEvent(e: WindowEvent)
      modifies this`width, this`height, this`windowHasFocus, this`windowMinimized, this`close, this`resizes
      ensures Took(WindowStep(old(State()), videoDriver.Some?, e))
    {
      if e.SizeChanged? {
        width := ToU32(e.data1);
        height := ToU32(e.data2);
        if videoDriver.Some? {
          resizes := resizes + [Dimension(width, height)];
        }
      } else if e.Hidden? || e.Minimized? {
        windowMinimized := true;
      } else if e.Shown? || e.Maximized? || e.Restored? {
        windowMinimized := false;
      } else if e.Enter? || e.FocusGained? {
        windowHasFocus := true;
      } else if e.Leave? || e.FocusLost? {
        windowHasFocus := false;
      } else if e.CloseRequested? {
        close := true;
      }
    }

    /** SDL_TEXTINPUT: a press and a release per decoded code point. */
    method HandleTextInput(codepoints: seq<u32>)
      modifies this`posted
      ensures Took(Dispatch(old(State()), keyMap, videoDriver.Some?, TextInput(codepoints)))
    {
      var shift, control := ShiftDown(keyMode), ControlDown(keyMode);
      for i := 0 to |codepoints|
        invariant posted == old(posted) + TextInputEvents(codepoints[..i], keyMode)
      {
        assert codepoints[..i + 1][..i] == codepoints[..i];
        posted := posted + [KeyInput(codepoints[i], 0, true, shift, control)];
        posted := posted + [KeyInput(codepoints[i], 0, false, shift, control)];
      }
      assert codepoints[..|codepoints|] == codepoints;
    }

    /** SDL_MOUSEWHEEL: the stored position and button states with the
        wheel delta. */
    method HandleMouseWheel(wheelY: s32)
      modifies this`posted
      ensures Took(Dispatch(old(State()), keyMap, videoDriver.Some?, MouseWheel(wheelY)))
    {
      posted := posted + [MouseInput(EMIE_MOUSE_WHEEL, mouseX, mouseY, wheelY, mouseButtonStates,
                                     ShiftDown(keyMode), ControlDown(keyMode))];
    }

    /** The id of the event's finger: addTouch for a finger put down,
        findTouch otherwise. */
    method LookupTouch(kind: FingerKind, device: int, finger: int) returns (id: nat)
      modifies this`currentTouches, this`lastTouchId, this`log
      ensures var r := FingerLookup(kind, old(currentTouches), old(lastTouchId), device, finger);
        State() == old(State()).(touches := r.touches, lastTouchId := r.lastId) && id == r.id &&
        log == old(log) + if kind != FingerDown && Touch.FirstMatch(old(currentTouches), device, finger) == |old(currentTouches)|
                          then [TOUCH_NOT_FOUND] else []
      ensures Touch.TouchInfo(device, finger, id) in currentTouches
    {
      Touch.LookupHoldsRecord(currentTouches, lastTouchId, device, finger);
      if kind == FingerDown {
        id := AddTouch(device, finger);
      } else {
        id := FindTouch(device, finger);
      }
    }

    /** SDL_FINGERDOWN / UP / MOTION: the record lookup, the count taken
        before a lifted finger's record is removed, then the post. */
    method HandleFinger(kind: FingerKind, device: int, finger: int)
      modifies this`currentTouches, this`lastTouchId, this`log, this`posted
      ensures Took(FingerStep(old(State()), kind, device, finger))
    {
      var id := LookupTouch(kind, device, finger);
      var count := |currentTouches|;
      if kind == FingerUp {
        Touch.MemberIdFound(currentTouches, Touch.TouchInfo(device, finger, id));
        RemoveTouch(id);
      }
      posted := posted + [TouchInput(TouchKind(kind), id, count)];
    }

    /** One pass of the switch in run. */
    method HandleEvent(e: HostEvent)
      requires Valid()
      modifies this`close, this`width, this`height, this`windowHasFocus, this`windowMinimized,
               this`mouseX, this`mouseY, this`mouseButtonStates, this`keyMode,
               this`currentTouches, this`lastTouchId, this`posted, this`resizes, this`log
      ensures Valid()
      ensures Took(Dispatch(old(State()), keyMap, videoDriver.Some?, e))
    {
      DispatchKeepsIdsIncreasing(State(), keyMap, videoDriver.Some?, e);
      match e
      case Quit => close := true;
      case UserEvent(d1, d2) => HandleUserEvent(d1, d2);
      case MouseMotion(which, x, y, state) => HandleMouseMotion(which, x, y, state);
      case MouseButton(pressed, which, button, x, y, clicks) => HandleMouseButton(pressed, which, button, x, y, clicks);
      case Key(down, sym, mod) => HandleKey(down, sym, mod);
      case Window(we) => HandleWindowEvent(we);
      case TextInput(cps) => HandleTextInput(cps);
      case MouseWheel(wy) => HandleMouseWheel(wy);
      case Finger(kind, device, finger) => HandleFinger(kind, device, finger);
      case Ignored =>
    }

    /** pollJoysticks: for each active joystick the deltas read from it are
        folded into its snapshot, and the snapshot is posted, new data or not. */
    method PollJoysticks(deltas: seq<seq<Joystick.JsEvent>>)
      requires |deltas| == |activeJoysticks|
      modifies this`activeJoysticks, this`posted
      ensures |activeJoysticks| == |old(activeJoysticks)|
      ensures forall j :: 0 <= j < |activeJoysticks| ==> activeJoysticks[j] == Polled(old(activeJoysticks)[j], deltas[j])
      ensures posted == old(posted) + JoystickEvents(activeJoysticks)
    {
      if |activeJoysticks| == 0 {
        return;
      }
      for j := 0 to |activeJoysticks|
        invariant |activeJoysticks| == |old(activeJoysticks)|
        invariant forall i :: 0 <= i < j ==> activeJoysticks[i] == Polled(old(activeJoysticks)[i], deltas[i])
        invariant forall i :: j <= i < |activeJoysticks| ==> activeJoysticks[i] == old(activeJoysticks)[i]
        invariant posted == old(posted) + JoystickEvents(activeJoysticks[..j])
      {
        var info := activeJoysticks[j];
        var data := Joystick.ReadDeltas(info.persistentData, deltas[j]);
        var before := activeJoysticks;
        activeJoysticks := activeJoysticks[j := info.(persistentData := data)];
        assert activeJoysticks[..j] == before[..j];
        assert activeJoysticks[..j + 1] == activeJoysticks[..j] + [activeJoysticks[j]];
        assert activeJoysticks[..j + 1][..j] == activeJoysticks[..j];
        posted := posted + [JoystickInput(data)];
      }
      assert activeJoysticks[..|activeJoysticks|] == activeJoysticks;
    }

    /** The event loop of run: events are taken from the queue and handled
        until the queue is empty or Close is set. */
    method PumpEvents(events: seq<HostEvent>) returns (consumed: nat)
      requires Valid()
      modifies this`close, this`width, this`height, this`windowHasFocus, this`windowMinimized,
               this`mouseX, this`mouseY, this`mouseButtonStates, this`keyMode,
               this`currentTouches, this`lastTouchId, this`posted, this`resizes, this`log
      ensures Valid()
      ensures consumed <= |events|
      ensures var o := DispatchAll(old(State()), keyMap, videoDriver.Some?, events[..consumed]);
        State() == o.state && posted == old(posted) + o.posted &&
        resizes == old(resizes) + o.resizes && log == old(log) + o.log
      ensures close <==> old(close) || exists i :: 0 <= i < consumed && IsCloseRequest(events[i])
      ensures old(close) ==> consumed == 0
      ensures !old(close) ==> forall i :: 0 <= i < consumed - 1 ==> !IsCloseRequest(events[i])
      ensures !close ==> consumed == |events|
    {
      consumed := 0;
      while !close && consumed < |events|
        invariant Valid()
        invariant 0 <= consumed <= |events|
        invariant var o := DispatchAll(old(State()), keyMap, videoDriver.Some?, events[..consumed]);
          State() == o.state && posted == old(posted) + o.posted &&
          resizes == old(resizes) + o.resizes && log == old(log) + o.log
        invariant close <==> old(close) || exists i :: 0 <= i < consumed && IsCloseRequest(events[i])
        invariant old(close) ==> consumed == 0
        invariant !old(close) ==> forall i :: 0 <= i < consumed - 1 ==> !IsCloseRequest(events[i])
      {
        ghost var p := DispatchAll(old(State()), keyMap, videoDriver.Some?, events[..consumed]);
        ghost var q := Dispatch(p.state, keyMap, videoDriver.Some?, events[consumed]);
        DispatchAllOneMore(old(State()), keyMap, videoDriver.Some?, events, consumed);
        HandleEvent(events[consumed]);
        AppendAssoc(old(posted), p.posted, q.posted);
        AppendAssoc(old(resizes), p.resizes, q.resizes);
        AppendAssoc(old(log), p.log, q.log);
        consumed := consumed + 1;
        DispatchAllClose(old(State()), keyMap, videoDriver.Some?, events[..consumed]);
        assert forall i :: 0 <= i < consumed ==> events[..consumed][i] == events[i];
      }
    }

    /** run: host events are handled in order until one closes the device or
        the queue is empty; the joysticks are polled unless the device is
        closing. `consumed` is how many events were taken from the queue. */
    method Run(events: seq<HostEvent>, deltas: seq<seq<Joystick.JsEvent>>) returns (running: bool, consumed: nat)
      requires Valid()
      requires |deltas| == |activeJoysticks|
      modifies this`close, this`width, this`height, this`windowHasFocus, this`windowMinimized,
               this`mouseX, this`mouseY, this`mouseButtonStates, this`keyMode,
               this`currentTouches, this`lastTouchId, this`posted, this`resizes, this`log,
               this`activeJoysticks
      ensures Valid()
      ensures running == !close
      ensures consumed <= |events|
      ensures var o := DispatchAll(old(State()), keyMap, videoDriver.Some?, events[..consumed]);
        State() == o.state && resizes == old(resizes) + o.resizes && log == old(log) + o.log &&
        posted == old(posted) + o.posted + (if close then [] else JoystickEvents(activeJoysticks))
      ensures Flags() == WindowFlagsAfterAll(old(Flags()), WindowEventsOf(events[..consumed]))
      ensures close <==> old(close) || exists i :: 0 <= i < consumed && IsCloseRequest(events[i])
      ensures old(close) ==> consumed == 0 && posted == old(posted)
      ensures !old(close) ==> forall i :: 0 <= i < consumed - 1 ==> !IsCloseRequest(events[i])
      ensures !close ==> consumed == |events|
      ensures close ==> activeJoysticks == old(activeJoysticks)
      ensures !close ==>
        |activeJoysticks| == |old(activeJoysticks)| &&
        forall j :: 0 <= j < |activeJoysticks| ==> activeJoysticks[j] == Polled(old(activeJoysticks)[j], deltas[j])
    {
      consumed := PumpEvents(events);
      DispatchAllWindowFlags(old(State()), keyMap, videoDriver.Some?, events[..consumed]);
      if !close {
        PollJoysticks(deltas);
      }
      running := !close;
    }
  }
}
