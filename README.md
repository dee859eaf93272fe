# Irrlicht's SDL2 device, WAL loaders and device creation, in Dafny

This project models a part of the Irrlicht 3D engine (the numberZero fork,
version 1.9.0), written in C++. The modelled part:

- **The SDL2 device** (`CIrrDeviceSDL2`), as class `SdlDevice.Device`. It covers:
  - the constructor: building the key map, `createWindow` and `createDriver`;
  - `run`, which translates SDL events into engine events and posts them in order;
  - the touch tracker (`addTouch`, `findTouch`, `removeTouch`);
  - the joystick poll, which folds Linux `js_event` deltas into each joystick's snapshot;
  - `closeDevice` and the window-state queries;
  - the cursor control (`CCursorControl`), as class `Cursor.CursorControl`.
- **The key map** (`KeyMap`): the table `createKeyMap` pushes, its sort, and the
  binary search the key branch of `run` uses.
- **The two WAL image loaders** (`ImageLoaderWal`): Quake 2 `.wal` and Half-Life `.wal2`.
- **`createDevice` and `createDeviceEx`** (`Irrlicht`).
- **The driver-type enumeration and its name tables** (`DriverTypes`).
- **`MAKE_IRR_ID` and the version constants** (`Irr`).

SDL, OpenGL, the file system and the kernel are not modelled as code. What
they answer becomes an input to the methods:
- the host events a run polls;
- whether a window or a context can be made;
- whether a driver factory returns a driver;
- the count `checkSuccessiveClicks` returns for a press, carried by each
  button event as `clicks`, since it depends on the clock;
- the bytes `read()` returns;
- what a freshly allocated read buffer holds where a short read leaves it
  unfilled (`unread` for the Half-Life palette, `stale` for the texels);
- the clock.

What the device sends out is recorded in fields of the device:
- the events passed to `postEventFromUser` go to `posted`;
- the sizes given to `OnResize` go to `resizes`;
- the messages given to the logger go to `log`.

Constants are taken from the SDL 2 and Irrlicht public headers:
- the SDL key, button and event codes;
- `KMOD_*`;
- the `EKEY_CODE`, `EMOUSE_INPUT_EVENT` and `E_MOUSE_BUTTON_STATE_MASK` values;
- `linux/joystick.h`.

Those headers are not part of this model.

Integer widths are explicit:
- `u8`, `u16`, `u32`, `s16` and `s32` are subset types of `int`;
- the C casts are the truncations `ToU8`, `ToU32` and `ToS32`;
- 32-bit flag words (mouse and joystick button states) are sets of bit
  positions, `Flags32`. `|=` becomes union, `&= ~m` becomes difference and
  `&` becomes intersection.

## Model

| member | source | states |
|---|---|---|
| Irr.SdkVersionMatchesComponents | include/irr.h:4-11 | the SDK version string "1.9.0" is the three version numbers joined by dots |
| Irr.DecimalString | include/irr.h:4-11 | the spelling of a version component is digits only and reads back as that component |
| Irr.MakeIrrId | include/irr.h:106-108 | byte k of the id is character k cut to 8 bits |
| Irr.TruncByte | include/irr.h:107 | the `(u8)` cast keeps the value modulo 256 |
| Irr.IdIsPackingOfItsBytes | include/irr.h:106-108 | every 32-bit id is the packing of its four bytes |
| Irr.PackedBytes | include/irr.h:106-108 | packing four bytes and reading byte k back gives byte k (the round trip) |
| Irr.PackBytesInjective | include/irr.h:106-108 | equal packings have equal bytes |
| Irr.MakeIrrIdInjective | include/irr.h:106-108 | distinct four-character codes give distinct ids |
| Irr.MakeIrrIdTruncates | include/irr.h:106-108 | two calls give the same id exactly when their arguments agree, argument by argument, in the low byte |
| DriverTypes.DriverTypeName | include/EDriverTypes.h:42-54 | the long-name table yields a name for every index below EDT_COUNT, and its terminating entry is null |
| DriverTypes.DriverTypeShortName | include/EDriverTypes.h:56-68 | the same for the short-name table |
| DriverTypes.NameTablesCoverEnumerators | include/EDriverTypes.h:18-68 | every enumerator indexes a non-null entry of both tables |
| DriverTypes.NameTablesTerminated | include/EDriverTypes.h:39-68 | both tables have EDT_COUNT + 1 entries and end in null |
| DriverTypes.EnumeratorNames | include/EDriverTypes.h:21-66 | each enumerator's value selects its own name in both tables |
| DriverTypes.OrphanNameSlots | include/EDriverTypes.h:21-61 | slots 1 to 4 carry names although no enumerator has those values |
| Events.TrackedButtonMask | source/Irrlicht/CIrrDeviceSDL2.cpp:355-395 | run tracks left, right and middle in MouseButtonStates and no other button |
| Events.ButtonStatesAfter | source/Irrlicht/CIrrDeviceSDL2.cpp:355-395 | after a press or release the button's bit is set exactly on a press, and every other bit is unchanged |
| Events.UntrackedButtonKeepsStates | source/Irrlicht/CIrrDeviceSDL2.cpp:355-397 | X1, X2 and other buttons leave MouseButtonStates as it was |
| Events.ButtonEventKind | source/Irrlicht/CIrrDeviceSDL2.cpp:353-395 | an event kind exists exactly for a tracked button: a PRESSED_DOWN kind on a press, a LEFT_UP kind on a release |
| Events.MultiClickEvent | source/Irrlicht/CIrrDeviceSDL2.cpp:403-416 | a second event exists exactly for a press with 2 or 3 successive clicks, and it is a double or triple click |
| Events.MultiClickKeepsButton | source/Irrlicht/CIrrDeviceSDL2.cpp:403-416 | the double or triple click reported is that of the pressed button |
| Events.NoMultiClickOnRelease | source/Irrlicht/CIrrDeviceSDL2.cpp:403 | a release never produces a multi-click event |
| Events.ButtonEventsOfTrackedButton | source/Irrlicht/CIrrDeviceSDL2.cpp:343-418 | a tracked button posts its press, then at most one multi-click event carrying the same fields; a release posts one LEFT_UP event |
| Events.UntrackedButtonPostsNothing | source/Irrlicht/CIrrDeviceSDL2.cpp:399 | an untracked button posts no event |
| Events.TextInputEventsPairs | source/Irrlicht/CIrrDeviceSDL2.cpp:494-510 | each code point gives a press and then a release with key 0 and the stored modifiers |
| Events.MouseButtonsSdlToIrrAsWritten | source/Irrlicht/CIrrDeviceSDL2.cpp:291-304 | as written, the SDL button mask is returned unchanged |
| Events.MouseButtonsSdlToIrr | source/Irrlicht/CIrrDeviceSDL2.cpp:291-304 | each engine button bit is set exactly when its SDL button bit is set, and no other bit is set |
| Events.MouseButtonsAsWrittenSwapsRightAndMiddle | source/Irrlicht/CIrrDeviceSDL2.cpp:291-304 | as written, a held middle button is reported as right and right as middle; the corrected mapping reports each as itself |
| Events.WindowFlagsAfter | source/Irrlicht/CIrrDeviceSDL2.cpp:460-479 | focus follows enter/focus-gained/leave/focus-lost, minimised follows hidden/minimized/shown/maximized/restored, and every other event keeps the flag |
| Events.FocusFollowsLastFocusEvent | source/Irrlicht/CIrrDeviceSDL2.cpp:471-479 | after a series of window events the focus is set by the last event that affects it |
| Events.FocusKeptWithoutFocusEvents | source/Irrlicht/CIrrDeviceSDL2.cpp:471-479 | without such events the focus keeps its value |
| Events.MinimizedFollowsLastEvent | source/Irrlicht/CIrrDeviceSDL2.cpp:460-469 | the minimised flag is set by the last event that affects it |
| Events.MinimizedKeptWithoutEvents | source/Irrlicht/CIrrDeviceSDL2.cpp:460-469 | without such events the minimised flag keeps its value |
| KeyMap.LessIgnoresEngineCode | source/Irrlicht/CIrrDeviceSDL2.h:346-349 | entries compare by SDL key only; entries with the same SDL key are equivalent |
| KeyMap.SortByKey | source/Irrlicht/CIrrDeviceSDL2.cpp:1055 | KeyMap.sort() leaves the table sorted by SDL key and a permutation of its entries |
| KeyMap.InsertByKey | source/Irrlicht/CIrrDeviceSDL2.cpp:1055 | one sorting step keeps the order and adds exactly the inserted entry |
| KeyMap.InsertionKeepsOrder | source/Irrlicht/CIrrDeviceSDL2.cpp:1055 | an entry placed after the smaller-or-equal keys and before the larger ones keeps the table sorted |
| KeyMap.SearchFrom | source/Irrlicht/CIrrDeviceSDL2.cpp:425 | from any state the halving loop ends on -1 or on an index holding the key |
| KeyMap.BinarySearchIndex | source/Irrlicht/CIrrDeviceSDL2.cpp:425 | binary_search returns -1 or an index holding the key |
| KeyMap.SearchFromFinds | source/Irrlicht/CIrrDeviceSDL2.cpp:425 | on a sorted table, from a state whose bounds exclude the key outside [left, right], the loop ends on -1 exactly when no entry holds the key |
| KeyMap.BinarySearchIndexFinds | source/Irrlicht/CIrrDeviceSDL2.cpp:425 | on a sorted table binary_search returns -1 exactly when no entry holds the key |
| KeyMap.BinarySearch | source/Irrlicht/CIrrDeviceSDL2.cpp:425 | the halving loop returns, on any table, the index BinarySearchIndex gives |
| KeyMap.TranslateKey | source/Irrlicht/CIrrDeviceSDL2.cpp:423-431 | the lookup returns KeyCode: the code of the entry binary_search finds, or 0 on a miss |
| KeyMap.KeyCodeFinds | source/Irrlicht/CIrrDeviceSDL2.cpp:423-431 | on a sorted table a key that is present yields a code paired with it in the table, and an absent key yields 0 |
| KeyMap.OccurrencesAreMultiplicity | source/Irrlicht/CIrrDeviceSDL2.cpp:924-1055 | counting an entry's occurrences gives its multiplicity in the table |
| KeyMap.SameOccurrencesIsPermutation | source/Irrlicht/CIrrDeviceSDL2.cpp:1055 | two tables are permutations of each other exactly when every entry occurs equally often in both |
| KeyMap.BuiltKeyMapIsSortedPermutation | source/Irrlicht/CIrrDeviceSDL2.cpp:916-1055 | a built key map is exactly a sorted permutation of the pushed entries |
| KeyMap.EngineCodesNonzero | source/Irrlicht/CIrrDeviceSDL2.cpp:924-1052 | no pushed entry has engine code 0, so a 0 from a lookup always means a miss |
| KeyMap.LookupInRearrangement | source/Irrlicht/CIrrDeviceSDL2.cpp:423-431 | a lookup in any permutation of nonzero entries returns 0 exactly when the key is absent, and otherwise a pushed pair |
| KeyMap.LookupInSameOccurrences | source/Irrlicht/CIrrDeviceSDL2.cpp:423-431 | the same for a table with the same occurrence counts |
| KeyMap.LookupInBuiltTable | source/Irrlicht/CIrrDeviceSDL2.cpp:423-431 | a lookup in the built key map returns 0 exactly for SDL keys createKeyMap never pushed, and otherwise a pushed pair |
| KeyMap.KeyCodeInBuiltTable | source/Irrlicht/CIrrDeviceSDL2.cpp:423-431 | in the built key map the key branch posts code 0 exactly for SDL keys createKeyMap never pushed, and otherwise a code pushed with that key |
| KeyMap.ButtonKeyCodes | source/Irrlicht/CIrrDeviceSDL2.cpp:924-960 | the first group has nonzero codes; PRINTSCREEN maps only to KEY_PRINT or KEY_SNAPSHOT and CAPSLOCK only to KEY_CAPITAL |
| KeyMap.FirstGroupPushesDuplicatedKeys | source/Irrlicht/CIrrDeviceSDL2.cpp:935-956 | the first group pushes PRINTSCREEN with both codes and CAPSLOCK with KEY_CAPITAL |
| KeyMap.DigitKeyCodes | source/Irrlicht/CIrrDeviceSDL2.cpp:962-971 | the digits have nonzero codes and include neither duplicated key |
| KeyMap.LetterKeyCodes | source/Irrlicht/CIrrDeviceSDL2.cpp:973-998 | the letters have nonzero codes and include neither duplicated key |
| KeyMap.KeypadKeyCodes | source/Irrlicht/CIrrDeviceSDL2.cpp:999-1020 | the keypad group has nonzero codes and includes neither duplicated key |
| KeyMap.FunctionKeyCodes | source/Irrlicht/CIrrDeviceSDL2.cpp:1022-1036 | F1 to F15 have nonzero codes and include neither duplicated key |
| KeyMap.LastGroupPushesCapsLock | source/Irrlicht/CIrrDeviceSDL2.cpp:1039-1052 | the last group pushes CAPSLOCK again, with KEY_NUMLOCK, and not PRINTSCREEN |
| KeyMap.PrintScreenPushedTwice | source/Irrlicht/CIrrDeviceSDL2.cpp:954-956 | createKeyMap pushes PRINTSCREEN with KEY_PRINT and with KEY_SNAPSHOT and with no other code, so a lookup of it returns one of the two |
| KeyMap.CapsLockPushedTwice | source/Irrlicht/CIrrDeviceSDL2.cpp:935-1039 | createKeyMap pushes CAPSLOCK with KEY_CAPITAL and with KEY_NUMLOCK and with no other code |
| Touch.FirstMatch | source/Irrlicht/CIrrDeviceSDL2.cpp:687-690 | the index of the first record for the device and finger, or the length when there is none |
| Touch.FirstWithId | source/Irrlicht/CIrrDeviceSDL2.cpp:700-705 | the index of the first record with the id, or the length when there is none |
| Touch.EraseAt | source/Irrlicht/CIrrDeviceSDL2.cpp:703 | erase(k) removes record k and keeps the others in order |
| Touch.InitialTouchesValid | source/Irrlicht/CIrrDeviceSDL2.h:373-374 | the empty list with LastTouchId 0 satisfies the id invariant |
| Touch.AddKeepsIdsIncreasing | source/Irrlicht/CIrrDeviceSDL2.cpp:695-698 | addTouch's new id is carried by no current record, and the invariant is kept |
| Touch.EraseKeepsIdsIncreasing | source/Irrlicht/CIrrDeviceSDL2.cpp:700-707 | erasing a record keeps the invariant |
| Touch.RemoveIdRemovesAll | source/Irrlicht/CIrrDeviceSDL2.cpp:700-707 | under the invariant, removeTouch leaves no record with the id and removes exactly one record when the id was present |
| Touch.StaleRecordShadows | source/Irrlicht/CIrrDeviceSDL2.cpp:687-692 | appending a record never changes which record findTouch finds for a finger it already tracks |
| Touch.AppendedRecordFound | source/Irrlicht/CIrrDeviceSDL2.cpp:687-697 | for an untracked finger, the record just appended is the one findTouch finds |
| Touch.LookupsKeepIdsIncreasing | source/Irrlicht/CIrrDeviceSDL2.cpp:687-698 | addTouch and findTouch keep the invariant, and the id returned belongs to a record of that finger |
| Touch.DownThenUpRestores | source/Irrlicht/CIrrDeviceSDL2.cpp:551-571 | pressing and lifting an untracked finger gives the same id both times and restores the record list |
| Touch.LastIdFirstAtEnd | source/Irrlicht/CIrrDeviceSDL2.cpp:696-705 | under the invariant the newest id is found only at the appended record |
| Touch.MemberIdFound | source/Irrlicht/CIrrDeviceSDL2.cpp:700-705 | removeTouch's scan finds the id of any record in the list |
| Touch.LookupHoldsRecord | source/Irrlicht/CIrrDeviceSDL2.cpp:687-698 | after addTouch or findTouch the list holds a record of the finger with the id returned |
| Joystick.FreshJoystickInfo | source/Irrlicht/CIrrDeviceSDL2.h:355-364 | a new JoystickInfo has fd -1 and no axes or buttons |
| Joystick.ApplyButton | source/Irrlicht/CIrrDeviceSDL2.cpp:1119-1124 | the button's bit is set exactly when the value is nonzero, and no other bit changes |
| Joystick.ApplyDelta | source/Irrlicht/CIrrDeviceSDL2.cpp:1117-1133 | a button delta updates only that button's bit; an in-range axis delta updates only that axis; anything else changes nothing |
| Joystick.ApplyButtonAsWritten | source/Irrlicht/CIrrDeviceSDL2.cpp:1121-1123 | as written the shift count is taken modulo 32; below 32 it agrees with ApplyButton |
| Joystick.ButtonBeyondMaskAliases | source/Irrlicht/CIrrDeviceSDL2.cpp:1121 | as written, a press of button 32 sets bit 0; the corrected fold ignores it |
| Joystick.ReadDeltas | source/Irrlicht/CIrrDeviceSDL2.cpp:1115-1135 | the read loop leaves the snapshot equal to the fold of the deltas in order |
| Joystick.FoldKeepsIdentity | source/Irrlicht/CIrrDeviceSDL2.cpp:1115-1135 | deltas never change the joystick number or the hat position |
| Joystick.ButtonFollowsLastDelta | source/Irrlicht/CIrrDeviceSDL2.cpp:1119-1124 | a button's bit reflects the value of the last delta for that button |
| Joystick.ButtonKeptWithoutDeltas | source/Irrlicht/CIrrDeviceSDL2.cpp:1119-1124 | without deltas for a button, its bit keeps its value |
| Joystick.AxisFollowsLastDelta | source/Irrlicht/CIrrDeviceSDL2.cpp:1126-1129 | an axis holds the value of the last in-range delta for it |
| Joystick.AxisKeptWithoutDeltas | source/Irrlicht/CIrrDeviceSDL2.cpp:1126-1129 | without deltas for an axis, it keeps its value |
| Joystick.InitFlagIgnored | source/Irrlicht/CIrrDeviceSDL2.cpp:1117 | the JS_EVENT_INIT flag does not change how a delta is applied |
| Joystick.PressThenRelease | source/Irrlicht/CIrrDeviceSDL2.cpp:1119-1124 | a press followed by a release clears the bit and keeps all others |
| Cursor.AdjustedSide | source/Irrlicht/CIrrDeviceSDL2.h:225-229 | a zero or odd side grows by one and an even nonzero side is kept; the result is 0 only when the side was -1, and odd only when the side was 0, which becomes 1 |
| Cursor.AdjustReferenceRect | source/Irrlicht/CIrrDeviceSDL2.h:218-230 | the upper-left corner is kept, and both sides are adjusted as AdjustedSide says |
| Cursor.AdjustReferenceRectStable | source/Irrlicht/CIrrDeviceSDL2.h:225-229 | a rectangle with even nonzero sides is unchanged; adjusting twice equals adjusting once unless a side is 0 or -1 |
| Cursor.ClampToExtent | source/Irrlicht/CIrrDeviceSDL2.h:273-283 | for an extent that fits in s32, the coordinate is clamped into 0..extent and kept when already inside |
| Cursor.ClampOnHugeExtent | source/Irrlicht/CIrrDeviceSDL2.h:277-282 | for an extent of 2^31 or more, the `(s32)` cast makes the clamp give the negative wrapped extent |
| Cursor.AnimationFrame | source/Irrlicht/CIrrDeviceSDL2.cpp:1297 | the frame index is always a valid frame |
| Cursor.FrameIndex | source/Irrlicht/CIrrDeviceSDL2.cpp:1296-1297 | the same with the u32 elapsed time `now - start` |
| Cursor.FirstFrameAtStart | source/Irrlicht/CIrrDeviceSDL2.cpp:1291-1311 | at the moment the icon is made active, frame 0 is shown |
| Cursor.AnimationAdvances | source/Irrlicht/CIrrDeviceSDL2.cpp:1297 | one frame time later, the next frame (cyclically) is shown |
| Cursor.FrameIndexAcrossWrap | source/Irrlicht/CIrrDeviceSDL2.cpp:1296-1297 | for every start time and elapsed time, a u32 clock reading start + elapsed, wrapped or not, shows the frame for elapsed |
| Cursor.CursorControl.constructor | source/Irrlicht/CIrrDeviceSDL2.cpp:1244-1254 | no reference rectangle, ECI_NORMAL active from time 0, and no icons |
| Cursor.CursorControl.SetReferenceRect | source/Irrlicht/CIrrDeviceSDL2.h:216-234 | a given rectangle is adjusted and used; none switches the reference rectangle off |
| Cursor.CursorControl.SetPosition | source/Irrlicht/CIrrDeviceSDL2.h:182-191 | the position is stored; the warp is global and offset by the reference corner when one is used, otherwise in the window |
| Cursor.CursorControl.UpdateCursorPos | source/Irrlicht/CIrrDeviceSDL2.h:262-284 | the position becomes the mouse position clamped to the window |
| Cursor.CursorControl.GetPosition | source/Irrlicht/CIrrDeviceSDL2.h:193-199 | the clamped mouse position when asked to update, otherwise the stored one |
| Cursor.CursorControl.GetActiveIcon | source/Irrlicht/CIrrDeviceSDL2.h:239-242 | the active icon id |
| Cursor.CursorControl.Update | source/Irrlicht/CIrrDeviceSDL2.cpp:1291-1300 | an animated active icon shows the frame for the elapsed time; otherwise nothing changes |
| Cursor.CursorControl.SetActiveIcon | source/Irrlicht/CIrrDeviceSDL2.cpp:1303-1313 | an unknown id changes nothing; a known id becomes active from now and shows its first frame if it has one |
| Cursor.CursorControl.AddIcon | source/Irrlicht/CIrrDeviceSDL2.cpp:1316-1336 | a sprite is appended and its index returned; no sprite gives ECI_NORMAL and no change |
| Cursor.CursorControl.ChangeIcon | source/Irrlicht/CIrrDeviceSDL2.cpp:1339-1362 | for a known id the old frames are freed, and the icon is replaced when a sprite is given |
| Cursor.CursorControl.ClearCursors | source/Irrlicht/CIrrDeviceSDL2.cpp:1262-1271 | every frame of every icon is freed, in order |
| SdlDevice.CreateDriver | source/Irrlicht/CIrrDeviceSDL2.cpp:253-289 | a driver exists exactly for EDT_NULL or a compiled-in driver whose factory succeeds; only a driver not compiled in, or an unknown type, logs one message |
| SdlDevice.CreateDriverMessages | source/Irrlicht/CIrrDeviceSDL2.cpp:259-286 | each missing driver logs its own message; WebGL1 is an unknown type on this device |
| SdlDevice.NullDeviceAlwaysHasDriver | source/Irrlicht/CIrrDeviceSDL2.cpp:89-104 | the null device gets its driver whatever the build and the host |
| SdlDevice.LiftOfTrackedFinger | source/Irrlicht/CIrrDeviceSDL2.cpp:559-570 | a lift of a tracked finger reports its id with the count before removal, then removes exactly its record |
| SdlDevice.DispatchAllOneMore | source/Irrlicht/CIrrDeviceSDL2.cpp:314-678 | handling one more event continues from the state the earlier events left, and appends its posts, resizes and messages to theirs |
| SdlDevice.DispatchFlagsAndClose | source/Irrlicht/CIrrDeviceSDL2.cpp:316-608 | only a window event changes the window flags, as WindowFlagsAfter says; Close is set by a quit or window-close event and never cleared |
| SdlDevice.DispatchKeyMode | source/Irrlicht/CIrrDeviceSDL2.cpp:420-442 | only a key event changes KeyMode, to that event's modifiers |
| SdlDevice.DispatchKeepsIdsIncreasing | source/Irrlicht/CIrrDeviceSDL2.cpp:551-571 | every event keeps the touch-id invariant and never lowers LastTouchId |
| SdlDevice.DispatchAllWindowFlags | source/Irrlicht/CIrrDeviceSDL2.cpp:314-486 | after a series of events the window flags are those the window events among them set, in order |
| SdlDevice.DispatchAllClose | source/Irrlicht/CIrrDeviceSDL2.cpp:314-485 | after a series of events Close is set exactly when it was set before or one of them is a quit or window-close event |
| SdlDevice.KeyModeFollowsLastKeyEvent | source/Irrlicht/CIrrDeviceSDL2.cpp:314-442 | after a series of events KeyMode holds the modifiers of the last key event, and is unchanged without key events |
| SdlDevice.JoystickEventsOnePerJoystick | source/Irrlicht/CIrrDeviceSDL2.cpp:1136-1138 | the poll posts one event per active joystick, carrying its snapshot |
| SdlDevice.CreateWindow | source/Irrlicht/CIrrDeviceSDL2.cpp:176-249 | success exactly when a window and a context (first or retried) exist; the flags become focused and not minimised once a window exists; each failure logs its message |
| SdlDevice.CreateKeyMap | source/Irrlicht/CIrrDeviceSDL2.cpp:916-1055 | the table is sorted and holds exactly the pushed entries |
| SdlDevice.Device.constructor | source/Irrlicht/CIrrDeviceSDL2.cpp:60-111 | the key map is built; a failed window stops construction with no cursor control and no driver; otherwise the cursor control starts with no reference rect, no icons and ECI_NORMAL active at time 0, and the driver is the one createDriver makes; the log holds createWindow's failure message, if any, followed by createDriver's messages when construction gets that far |
| SdlDevice.Device.CloseDevice | source/Irrlicht/CIrrDeviceSDL2.cpp:825-828 | Close is set |
| SdlDevice.Device.IsWindowActive | source/Irrlicht/CIrrDeviceSDL2.cpp:832-835 | focused and not minimised |
| SdlDevice.Device.IsWindowFocused | source/Irrlicht/CIrrDeviceSDL2.cpp:839-842 | the focus flag |
| SdlDevice.Device.IsWindowMinimized | source/Irrlicht/CIrrDeviceSDL2.cpp:846-849 | the minimised flag |
| SdlDevice.Device.AddTouch | source/Irrlicht/CIrrDeviceSDL2.cpp:695-698 | a record with the next id is appended and that id returned; nothing else of the event state changes |
| SdlDevice.Device.FindTouch | source/Irrlicht/CIrrDeviceSDL2.cpp:687-693 | the id of the first record for the finger; a miss is logged and the finger added; nothing else of the event state changes |
| SdlDevice.Device.RemoveTouch | source/Irrlicht/CIrrDeviceSDL2.cpp:700-707 | the first record with the id is erased and a miss is logged; nothing else of the event state changes |
| SdlDevice.Device.LookupTouch | source/Irrlicht/CIrrDeviceSDL2.cpp:553-557 | addTouch for a press and findTouch otherwise; the list then holds a record of the finger with the id returned |
| SdlDevice.Device.HandleUserEvent | source/Irrlicht/CIrrDeviceSDL2.cpp:322-327 | the device does what Dispatch says for a user event: one user event with both data words is posted and nothing else changes |
| SdlDevice.Device.HandleMouseMotion | source/Irrlicht/CIrrDeviceSDL2.cpp:329-341 | the device does what MotionStep says: synthetic touch motion is skipped; otherwise the position and the SDL mask exactly as mouse_buttons_sdl_to_irr returns it are stored, and one MOUSE_MOVED event carrying them is posted |
| SdlDevice.Device.HandleMouseButton | source/Irrlicht/CIrrDeviceSDL2.cpp:343-418 | the device does what ButtonStep says: synthetic touch clicks are skipped; otherwise the button states are updated and ButtonEvents are posted with the new states |
| SdlDevice.Device.HandleKey | source/Irrlicht/CIrrDeviceSDL2.cpp:420-442 | the device does what KeyStep says: one key event with KeyCode for the SDL key is posted, and KeyMode becomes the event's modifiers |
| SdlDevice.Device.HandleWindowEvent | source/Irrlicht/CIrrDeviceSDL2.cpp:450-486 | the device does what WindowStep says: the flags change as WindowFlagsAfter says; a size change stores the size and resizes the driver if there is one; a close request sets Close |
| SdlDevice.Device.HandleTextInput | source/Irrlicht/CIrrDeviceSDL2.cpp:494-510 | the loop posts the press/release pairs of TextInputEvents, as Dispatch says for a text-input event, and nothing else changes |
| SdlDevice.Device.HandleMouseWheel | source/Irrlicht/CIrrDeviceSDL2.cpp:516-527 | one wheel event with the stored position, button states and modifiers is posted, as Dispatch says, and nothing else changes |
| SdlDevice.Device.HandleFinger | source/Irrlicht/CIrrDeviceSDL2.cpp:551-571 | the device does what FingerStep says: the lookup, a lifted finger's record removed after the count is taken, one touch event with that count, and a miss logged |
| SdlDevice.Device.HandleEvent | source/Irrlicht/CIrrDeviceSDL2.cpp:316-608 | one pass of the switch does what Dispatch says for the event and keeps the device invariant |
| SdlDevice.Device.PollJoysticks | source/Irrlicht/CIrrDeviceSDL2.cpp:1096-1140 | every active joystick's snapshot is folded with its deltas, and one event per joystick is posted, new data or not |
| SdlDevice.Device.PumpEvents | source/Irrlicht/CIrrDeviceSDL2.cpp:314-678 | events are handled in order while Close is clear; the device then holds what DispatchAll says for the events consumed, and Close is set exactly when one of them is a quit or window-close event, which is then the last one |
| SdlDevice.Device.Run | source/Irrlicht/CIrrDeviceSDL2.cpp:307-684 | the device holds what DispatchAll says for the events consumed, and the window flags are those their window events set; the posted events are theirs followed by one per joystick when still running, each joystick polled with its deltas; the result is !Close |
| ImageLoaderWal.WordBytes | source/Irrlicht/CImageLoaderWAL.cpp:90-91 | the four bytes of a little-endian word read back through a byte pointer are the bytes it was packed from |
| ImageLoaderWal.WordIsPackOfBytes | source/Irrlicht/CImageLoaderWAL.cpp:90-91 | every word is the packing of its four bytes |
| ImageLoaderWal.ColormapRows | source/Irrlicht/CImageLoaderWAL.cpp:22-56 | colormap_pcx has 256 entries, all opaque but the last, which is 0x009F5B53 |
| ImageLoaderWal.ColormapAlpha | source/Irrlicht/CImageLoaderWAL.cpp:22-56 | the Quake 2 palette has full alpha except in its last entry, which is transparent |
| ImageLoaderWal.PaletteEntryChannels | source/Irrlicht/CImageLoaderWAL.cpp:97-100 | entry i is opaque with red, green and blue taken from bytes 3i, 3i+1 and 3i+2 |
| ImageLoaderWal.ClearAlphaChannels | source/Irrlicht/CImageLoaderWAL.cpp:108 | clearing the alpha keeps the colour |
| ImageLoaderWal.HalfLifePalette | source/Irrlicht/CImageLoaderWAL.cpp:90-109 | the Half-Life palette has 256 entries |
| ImageLoaderWal.HalfLifePaletteEntry | source/Irrlicht/CImageLoaderWAL.cpp:97-109 | every entry has the colour read from the file; all are opaque except the last when the name asks for a colour key |
| ImageLoaderWal.ReadPaletteBytes | source/Irrlicht/CImageLoaderWAL.cpp:90-95 | the 768 palette bytes land in the first 192 words and the rest of the buffer is untouched |
| ImageLoaderWal.ReadPaletteEntry | source/Irrlicht/CImageLoaderWAL.cpp:97-100 | one loop step builds entry i from bytes 3i..3i+2 of the buffer |
| ImageLoaderWal.FillPalette | source/Irrlicht/CImageLoaderWAL.cpp:96-100 | the loop writes the 256 entries into words 192..447 and never overwrites a byte it has yet to read |
| ImageLoaderWal.FindFirst | source/Irrlicht/CImageLoaderWAL.cpp:105 | findFirst returns the first index holding the character, and -1 exactly when it is absent |
| ImageLoaderWal.RawTexSizeAsWritten | source/Irrlicht/CImageLoaderWAL.cpp:111 | as written, the texel count is width*height modulo 2^32 |
| ImageLoaderWal.RawTexSize | source/Irrlicht/CImageLoaderWAL.cpp:165 | the texel count is width*height, and absent exactly when it does not fit in a u32 |
| ImageLoaderWal.RawTexSizeWraps | source/Irrlicht/CImageLoaderWAL.cpp:111-112 | as written, a 65536 x 65536 texture gets a 0-byte buffer |
| ImageLoaderWal.TexelsFromMipmap | source/Irrlicht/CImageLoaderWAL.cpp:112-115 | the texel buffer always has its allocated size; texel k is the file's byte at mipmap[0] + k while the file lasts, and the buffer's previous byte after that |
| ImageLoaderWal.PaletteBytes | source/Irrlicht/CImageLoaderWAL.cpp:93-94 | when the file is long enough, the palette is the 768 bytes that end two bytes before the end of the file |
| ImageLoaderWal.LoadHalfLife | source/Irrlicht/CImageLoaderWAL.cpp:76-136 | a '{' in the name gives A8R8G8B8 with a transparent last entry, otherwise R8G8B8; the image has the header's size, the file's palette and width * height texels read from mipmap[0] into the buffer |
| ImageLoaderWal.LoadQuake2 | source/Irrlicht/CImageLoaderWAL.cpp:153-179 | always A8R8G8B8 with colormap_pcx, the header's size and width * height texels read from mipmap[0] into the buffer |
| ImageLoaderWal.FindLast | source/Irrlicht/CImageLoaderWAL.cpp:64 | findLast returns the last index holding the character, and -1 exactly when it is absent |
| ImageLoaderWal.ExtensionsSelectOneLoader | source/Irrlicht/CImageLoaderWAL.cpp:61-141 | both loaders claim a file name exactly when it ends in '.', through the default empty extensions; a name ending in ".wal2" in any letter case is claimed by the Half-Life loader only |
| Irrlicht.PackParameters | source/Irrlicht/Irrlicht.cpp:20-27 | the named fields are copied, bits is cut to u8, and every other field keeps its default |
| Irrlicht.CloseAndRun | source/Irrlicht/Irrlicht.cpp:36-37 | a closed device run once returns false, posts nothing and keeps its (absent) driver |
| Irrlicht.CreateDeviceEx | source/Irrlicht/Irrlicht.cpp:32-42 | null exactly when the constructed device has no driver; that device is closed first, so its run returns false and posts nothing; otherwise the new device is returned, open and with its driver |
| Irrlicht.CreateDevice | source/Irrlicht/Irrlicht.cpp:13-30 | createDeviceEx of the packed parameters |

## Left out

- SDL, OpenGL and the kernel are not modelled as code. Their answers are parameters, as listed at the top.
  - This covers window creation, the GL attributes, the context retry and `SDL_PollEvent`.
  - It covers `read()` on joystick descriptors and the timer.
  - Left out as well: `SDL_SetCursor` / `SDL_FreeCursor` handles beyond their identity, `SDL_GetError` text, and the `uname` banner logged by the constructor.
- Floating point is left out:
  - touch coordinates (`x * Width`);
  - `getRelativePosition`;
  - the wheel delta, an `s32` the source stores into the `f32` field `Wheel`;
    the model keeps the `s32`;
  - the float `setPosition` overloads;
  - gamma.
- UTF-8 decoding of `SDL_TEXTINPUT` is an input: the code points that `validate_next` yields.
- The user-event pointer cast is modelled as the two `s32` data words.
- Not part of this model:
  - `createGUIAndScene`, `COSOperator`, `os::Timer::tick`, `yield`, `sleep`, `setWindowCaption`, `present`;
  - fullscreen switching, video modes, resizable, minimise / maximise / restore, `getWindowPosition`;
  - `activateJoysticks`, clipboard, `clearSystemMessages`;
  - the X11-only branches of run;
  - `TextureToCursor` and the sprite-bank lookups, which are given as the sprite's frame cursors.
- Reference counting is left out: `drop`, and the destructor.
- The FreeBSD branch of pollJoysticks is left out; only the Linux `js_event` branch is modelled.
- Big-endian byte swapping in the WAL loaders is left out.
- The WAL color converters are left out; the model produces the image's palette and texel bytes, not converted pixels.
- Header parsing (`miptex_halflife`, `miptex_quake2`) is left out; the header is an input.
- `CImageLoaderWAL.h`, `irrArray.h`, `coreutil.h` and `SIrrlichtCreationParameters.h` are not part of this model.
- Defaults of the creation parameters are taken as an input, `defaults`.
- Device.constructor: `MouseX` / `MouseY`, which the source leaves uninitialised, start at 0.
- Events.ButtonEvents and MouseInput events: the Wheel field, which the source leaves stale in the reused `irrevent`, is 0 on button and motion events.
- Touch.AddKeepsIdsIncreasing: `LastTouchId` is a `size_t` and would wrap after 2^64 touches. Ids are unbounded here, so the id invariant assumes no wrap.
- Cursor.CursorControl.SetPosition: the sum `UpperLeftCorner + x` is unbounded here; in the source it is `s32` arithmetic and can overflow.
- Cursor.CursorControl.SetActiveIcon: takes an `iconId >= 0`. A negative `ECURSOR_ICON` would index the array out of bounds in the source.
- Cursor.CursorControl.ChangeIcon: takes an `iconId >= 0` for the same reason: a negative id passes the size check and indexes `Cursors` out of bounds.
- Cursor.CursorControl.SetReferenceRect: the side lengths and the `+ 1` on the lower-right corner are unbounded here. In the source they are `s32` arithmetic, which overflows (undefined behaviour) for a rectangle whose side or corner does not fit in an `s32`.
- ImageLoaderWal.HasFileExtension: follows `core::hasFileExtension` of `coreutil.h`: the text after the last '.' is compared, ignoring ASCII case, with three extensions, the last two defaulting to "". Strings with embedded NUL characters are not modelled.
- KeyMap.SortByKey: irrArray's `sort` is a heapsort. The model sorts by insertion and states the result (sorted and a permutation), which is all the lookup depends on. Entries with equal keys may end up in a different order.
- Device.keyMap: a `const` filled once by the constructor, since nothing writes it afterwards.
- SdlDevice.CreateWindow: a module-level method that takes and returns the window flags and the log; the member function updates them in place.
- Device.HandleMouseButton: the press event and the multi-click event are appended in one step. The posted sequence is the same.
- Flag words are sets of bit positions (`Flags32`), not 32-bit integers; only bits 0 to 31 can be set.
- Findings below: the motion branch of the device stores and posts the mask exactly as `mouse_buttons_sdl_to_irr` returns it, which is what the code does; `Events.MouseButtonsSdlToIrr` is the corrected mapping, proved beside it. The rest of the model uses the joystick fold that ignores buttons 32 and above, and a texel count that refuses sizes over 2^32.
- Two behaviours of the code differ from the design description; the model follows the code:
  - pollJoysticks posts an event for every active joystick, including one whose descriptor failed to open;
  - findTouch returns the first matching record, so with a stale record for a finger a later press's id is not the one found.

## Findings

| source | as written | input that shows it | evidently intended | confidence | as-written member | corrected member |
|---|---|---|---|---|---|---|
| source/Irrlicht/CIrrDeviceSDL2.cpp:291-304 | `mouse_buttons_sdl_to_irr` builds the engine mask bit by bit, then returns the SDL mask cast unchanged | motion with only the middle button held (SDL_BUTTON_MMASK, bit 1) reports EMBSM_RIGHT | return the mask it built, in which each SDL button sets its own engine bit | high, not executed | Events.MouseButtonsAsWrittenSwapsRightAndMiddle | Events.MouseButtonsSdlToIrr |
| source/Irrlicht/CIrrDeviceSDL2.cpp:1121-1123 | `1 << event.number` for any button number the kernel reports | a press of button 32 shifts an `int` by 32: undefined behaviour, which sets bit 0 on x86 | ignore buttons beyond NUMBER_OF_BUTTONS, as axes beyond NUMBER_OF_AXES are ignored | medium, not executed | Joystick.ButtonBeyondMaskAliases | Joystick.ApplyDelta |
| source/Irrlicht/CImageLoaderWAL.cpp:111-112, 165-167 | `u32 rawtexsize = header.width * header.height` wraps modulo 2^32 | a header with width = height = 65536 allocates a 0-byte buffer that the converter then reads 2^32 texels from | refuse a texel count that does not fit | medium, not executed | ImageLoaderWal.RawTexSizeWraps | ImageLoaderWal.RawTexSize |
