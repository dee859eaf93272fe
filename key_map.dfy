/** The key translation table of CIrrDeviceSDL2: SKeyMap entries pairing an
    SDL keycode with an engine key code, the table createKeyMap builds and
    sorts, and the lookup run does with irr::core::array::binary_search.
    Keycode values are those of SDL 2's SDL_keycode.h and Irrlicht's
    Keycodes.h; irrArray.h, which holds the sort and the search, is not part
    of this model, and its search is modelled from its published text. */
module KeyMap {

  /** SKeyMap: (SDLKey, Win32Key). */
  datatype KeyEntry = KeyEntry(sdlKey: int, win32Key: int)

  /** SKeyMap::operator<: compares the SDL keys only. */
  predicate Less(x: KeyEntry, y: KeyEntry)
  {
    x.sdlKey < y.sdlKey
  }

  /** The engine code plays no part in the ordering: two entries with the
      same SDL key are unordered either way, whatever their engine codes. */
  lemma LessIgnoresEngineCode(k: int, w1: int, w2: int, y: KeyEntry)
    ensures Less(KeyEntry(k, w1), y) == Less(KeyEntry(k, w2), y)
    ensures Less(y, KeyEntry(k, w1)) == Less(y, KeyEntry(k, w2))
    ensures !Less(KeyEntry(k, w1), KeyEntry(k, w2)) && !Less(KeyEntry(k, w2), KeyEntry(k, w1))
  {
  }

  // SDL keycodes (SDL_keycode.h): printable keys are their character,
  // the others their scancode with bit 30 set.
  const SDLK_AC_BACK: int := 0x4000010E
  const SDLK_BACKSPACE: int := 0x8
  const SDLK_TAB: int := 0x9
  const SDLK_CLEAR: int := 0x4000009C
  const SDLK_RETURN: int := 0xD
  const SDLK_PAUSE: int := 0x40000048
  const SDLK_CAPSLOCK: int := 0x40000039
  const SDLK_ESCAPE: int := 0x1B
  const SDLK_SPACE: int := 0x20
  const SDLK_PAGEUP: int := 0x4000004B
  const SDLK_PAGEDOWN: int := 0x4000004E
  const SDLK_END: int := 0x4000004D
  const SDLK_HOME: int := 0x4000004A
  const SDLK_LEFT: int := 0x40000050
  const SDLK_UP: int := 0x40000052
  const SDLK_RIGHT: int := 0x4000004F
  const SDLK_DOWN: int := 0x40000051
  const SDLK_PRINTSCREEN: int := 0x40000046
  const SDLK_INSERT: int := 0x40000049
  const SDLK_DELETE: int := 0x7F
  const SDLK_HELP: int := 0x40000075
  const SDLK_0: int := 0x30
  const SDLK_1: int := 0x31
  const SDLK_2: int := 0x32
  const SDLK_3: int := 0x33
  const SDLK_4: int := 0x34
  const SDLK_5: int := 0x35
  const SDLK_6: int := 0x36
  const SDLK_7: int := 0x37
  const SDLK_8: int := 0x38
  const SDLK_9: int := 0x39
  const SDLK_a: int := 0x61
  const SDLK_b: int := 0x62
  const SDLK_c: int := 0x63
  const SDLK_d: int := 0x64
  const SDLK_e: int := 0x65
  const SDLK_f: int := 0x66
  const SDLK_g: int := 0x67
  const SDLK_h: int := 0x68
  const SDLK_i: int := 0x69
  const SDLK_j: int := 0x6A
  const SDLK_k: int := 0x6B
  const SDLK_l: int := 0x6C
  const SDLK_m: int := 0x6D
  const SDLK_n: int := 0x6E
  const SDLK_o: int := 0x6F
  const SDLK_p: int := 0x70
  const SDLK_q: int := 0x71
  const SDLK_r: int := 0x72
  const SDLK_s: int := 0x73
  const SDLK_t: int := 0x74
  const SDLK_u: int := 0x75
  const SDLK_v: int := 0x76
  const SDLK_w: int := 0x77
  const SDLK_x: int := 0x78
  const SDLK_y: int := 0x79
  const SDLK_z: int := 0x7A
  const SDLK_LGUI: int := 0x400000E3
  const SDLK_RGUI: int := 0x400000E7
  const SDLK_POWER: int := 0x40000066
  const SDLK_KP_0: int := 0x40000062
  const SDLK_KP_1: int := 0x40000059
  const SDLK_KP_2: int := 0x4000005A
  const SDLK_KP_3: int := 0x4000005B
  const SDLK_KP_4: int := 0x4000005C
  const SDLK_KP_5: int := 0x4000005D
  const SDLK_KP_6: int := 0x4000005E
  const SDLK_KP_7: int := 0x4000005F
  const SDLK_KP_8: int := 0x40000060
  const SDLK_KP_9: int := 0x40000061
  const SDLK_KP_MULTIPLY: int := 0x40000055
  const SDLK_KP_PLUS: int := 0x40000057
  const SDLK_KP_MINUS: int := 0x40000056
  const SDLK_KP_PERIOD: int := 0x40000063
  const SDLK_KP_DIVIDE: int := 0x40000054
  const SDLK_F1: int := 0x4000003A
  const SDLK_F2: int := 0x4000003B
  const SDLK_F3: int := 0x4000003C
  const SDLK_F4: int := 0x4000003D
  const SDLK_F5: int := 0x4000003E
  const SDLK_F6: int := 0x4000003F
  const SDLK_F7: int := 0x40000040
  const SDLK_F8: int := 0x40000041
  const SDLK_F9: int := 0x40000042
  const SDLK_F10: int := 0x40000043
  const SDLK_F11: int := 0x40000044
  const SDLK_F12: int := 0x40000045
  const SDLK_F13: int := 0x40000068
  const SDLK_F14: int := 0x40000069
  const SDLK_F15: int := 0x4000006A
  const SDLK_SCROLLLOCK: int := 0x40000047
  const SDLK_LSHIFT: int := 0x400000E1
  const SDLK_RSHIFT: int := 0x400000E5
  const SDLK_LCTRL: int := 0x400000E0
  const SDLK_RCTRL: int := 0x400000E4
  const SDLK_LALT: int := 0x400000E2
  const SDLK_RALT: int := 0x400000E6
  const SDLK_PLUS: int := 0x2B
  const SDLK_COMMA: int := 0x2C
  const SDLK_MINUS: int := 0x2D
  const SDLK_PERIOD: int := 0x2E

  // Engine key codes (Keycodes.h, EKEY_CODE).
  const KEY_CANCEL: int := 0x03
  const KEY_BACK: int := 0x08
  const KEY_TAB: int := 0x09
  const KEY_CLEAR: int := 0x0C
  const KEY_RETURN: int := 0x0D
  const KEY_PAUSE: int := 0x13
  const KEY_CAPITAL: int := 0x14
  const KEY_ESCAPE: int := 0x1B
  const KEY_SPACE: int := 0x20
  const KEY_PRIOR: int := 0x21
  const KEY_NEXT: int := 0x22
  const KEY_END: int := 0x23
  const KEY_HOME: int := 0x24
  const KEY_LEFT: int := 0x25
  const KEY_UP: int := 0x26
  const KEY_RIGHT: int := 0x27
  const KEY_DOWN: int := 0x28
  const KEY_PRINT: int := 0x2A
  const KEY_SNAPSHOT: int := 0x2C
  const KEY_INSERT: int := 0x2D
  const KEY_DELETE: int := 0x2E
  const KEY_HELP: int := 0x2F
  const KEY_KEY_0: int := 0x30
  const KEY_KEY_1: int := 0x31
  const KEY_KEY_2: int := 0x32
  const KEY_KEY_3: int := 0x33
  const KEY_KEY_4: int := 0x34
  const KEY_KEY_5: int := 0x35
  const KEY_KEY_6: int := 0x36
  const KEY_KEY_7: int := 0x37
  const KEY_KEY_8: int := 0x38
  const KEY_KEY_9: int := 0x39
  const KEY_KEY_A: int := 0x41
  const KEY_KEY_B: int := 0x42
  const KEY_KEY_C: int := 0x43
  const KEY_KEY_D: int := 0x44
  const KEY_KEY_E: int := 0x45
  const KEY_KEY_F: int := 0x46
  const KEY_KEY_G: int := 0x47
  const KEY_KEY_H: int := 0x48
  const KEY_KEY_I: int := 0x49
  const KEY_KEY_J: int := 0x4A
  const KEY_KEY_K: int := 0x4B
  const KEY_KEY_L: int := 0x4C
  const KEY_KEY_M: int := 0x4D
  const KEY_KEY_N: int := 0x4E
  const KEY_KEY_O: int := 0x4F
  const KEY_KEY_P: int := 0x50
  const KEY_KEY_Q: int := 0x51
  const KEY_KEY_R: int := 0x52
  const KEY_KEY_S: int := 0x53
  const KEY_KEY_T: int := 0x54
  const KEY_KEY_U: int := 0x55
  const KEY_KEY_V: int := 0x56
  const KEY_KEY_W: int := 0x57
  const KEY_KEY_X: int := 0x58
  const KEY_KEY_Y: int := 0x59
  const KEY_KEY_Z: int := 0x5A
  const KEY_LWIN: int := 0x5B
  const KEY_RWIN: int := 0x5C
  const KEY_SLEEP: int := 0x5F
  const KEY_NUMPAD0: int := 0x60
  const KEY_NUMPAD1: int := 0x61
  const KEY_NUMPAD2: int := 0x62
  const KEY_NUMPAD3: int := 0x63
  const KEY_NUMPAD4: int := 0x64
  const KEY_NUMPAD5: int := 0x65
  const KEY_NUMPAD6: int := 0x66
  const KEY_NUMPAD7: int := 0x67
  const KEY_NUMPAD8: int := 0x68
  const KEY_NUMPAD9: int := 0x69
  const KEY_MULTIPLY: int := 0x6A
  const KEY_ADD: int := 0x6B
  const KEY_SUBTRACT: int := 0x6D
  const KEY_DECIMAL: int := 0x6E
  const KEY_DIVIDE: int := 0x6F
  const KEY_F1: int := 0x70
  const KEY_F2: int := 0x71
  const KEY_F3: int := 0x72
  const KEY_F4: int := 0x73
  const KEY_F5: int := 0x74
  const KEY_F6: int := 0x75
  const KEY_F7: int := 0x76
  const KEY_F8: int := 0x77
  const KEY_F9: int := 0x78
  const KEY_F10: int := 0x79
  const KEY_F11: int := 0x7A
  const KEY_F12: int := 0x7B
  const KEY_F13: int := 0x7C
  const KEY_F14: int := 0x7D
  const KEY_F15: int := 0x7E
  const KEY_NUMLOCK: int := 0x90
  const KEY_SCROLL: int := 0x91
  const KEY_LSHIFT: int := 0xA0
  const KEY_RSHIFT: int := 0xA1
  const KEY_LCONTROL: int := 0xA2
  const KEY_RCONTROL: int := 0xA3
  const KEY_LMENU: int := 0xA4
  const KEY_RMENU: int := 0xA5
  const KEY_PLUS: int := 0xBB
  const KEY_COMMA: int := 0xBC
  const KEY_MINUS: int := 0xBD
  const KEY_PERIOD: int := 0xBE

  /** Editing, navigation and command keys, pushed first. */
  const BUTTON_KEYS: seq<KeyEntry> := [
    KeyEntry(SDLK_AC_BACK, KEY_CANCEL),
    KeyEntry(SDLK_BACKSPACE, KEY_BACK),
    KeyEntry(SDLK_TAB, KEY_TAB),
    KeyEntry(SDLK_CLEAR, KEY_CLEAR),
    KeyEntry(SDLK_RETURN, KEY_RETURN),
    KeyEntry(SDLK_PAUSE, KEY_PAUSE),
    KeyEntry(SDLK_CAPSLOCK, KEY_CAPITAL),
    KeyEntry(SDLK_ESCAPE, KEY_ESCAPE),
    KeyEntry(SDLK_SPACE, KEY_SPACE),
    KeyEntry(SDLK_PAGEUP, KEY_PRIOR),
    KeyEntry(SDLK_PAGEDOWN, KEY_NEXT),
    KeyEntry(SDLK_END, KEY_END),
    KeyEntry(SDLK_HOME, KEY_HOME),
    KeyEntry(SDLK_LEFT, KEY_LEFT),
    KeyEntry(SDLK_UP, KEY_UP),
    KeyEntry(SDLK_RIGHT, KEY_RIGHT),
    KeyEntry(SDLK_DOWN, KEY_DOWN),
    KeyEntry(SDLK_PRINTSCREEN, KEY_PRINT),
    KeyEntry(SDLK_PRINTSCREEN, KEY_SNAPSHOT),
    KeyEntry(SDLK_INSERT, KEY_INSERT),
    KeyEntry(SDLK_DELETE, KEY_DELETE),
    KeyEntry(SDLK_HELP, KEY_HELP)
  ]

  /** The digit row. */
  const DIGIT_KEYS: seq<KeyEntry> := [
    KeyEntry(SDLK_0, KEY_KEY_0),
    KeyEntry(SDLK_1, KEY_KEY_1),
    KeyEntry(SDLK_2, KEY_KEY_2),
    KeyEntry(SDLK_3, KEY_KEY_3),
    KeyEntry(SDLK_4, KEY_KEY_4),
    KeyEntry(SDLK_5, KEY_KEY_5),
    KeyEntry(SDLK_6, KEY_KEY_6),
    KeyEntry(SDLK_7, KEY_KEY_7),
    KeyEntry(SDLK_8, KEY_KEY_8),
    KeyEntry(SDLK_9, KEY_KEY_9)
  ]

  /** The letters. */
  const LETTER_KEYS: seq<KeyEntry> := [
    KeyEntry(SDLK_a, KEY_KEY_A),
    KeyEntry(SDLK_b, KEY_KEY_B),
    KeyEntry(SDLK_c, KEY_KEY_C),
    KeyEntry(SDLK_d, KEY_KEY_D),
    KeyEntry(SDLK_e, KEY_KEY_E),
    KeyEntry(SDLK_f, KEY_KEY_F),
    KeyEntry(SDLK_g, KEY_KEY_G),
    KeyEntry(SDLK_h, KEY_KEY_H),
    KeyEntry(SDLK_i, KEY_KEY_I),
    KeyEntry(SDLK_j, KEY_KEY_J),
    KeyEntry(SDLK_k, KEY_KEY_K),
    KeyEntry(SDLK_l, KEY_KEY_L),
    KeyEntry(SDLK_m, KEY_KEY_M),
    KeyEntry(SDLK_n, KEY_KEY_N),
    KeyEntry(SDLK_o, KEY_KEY_O),
    KeyEntry(SDLK_p, KEY_KEY_P),
    KeyEntry(SDLK_q, KEY_KEY_Q),
    KeyEntry(SDLK_r, KEY_KEY_R),
    KeyEntry(SDLK_s, KEY_KEY_S),
    KeyEntry(SDLK_t, KEY_KEY_T),
    KeyEntry(SDLK_u, KEY_KEY_U),
    KeyEntry(SDLK_v, KEY_KEY_V),
    KeyEntry(SDLK_w, KEY_KEY_W),
    KeyEntry(SDLK_x, KEY_KEY_X),
    KeyEntry(SDLK_y, KEY_KEY_Y),
    KeyEntry(SDLK_z, KEY_KEY_Z)
  ]

  /** The Windows keys, power, and the numeric keypad. */
  const KEYPAD_KEYS: seq<KeyEntry> := [
    KeyEntry(SDLK_LGUI, KEY_LWIN),
    KeyEntry(SDLK_RGUI, KEY_RWIN),
    KeyEntry(SDLK_POWER, KEY_SLEEP),
    KeyEntry(SDLK_KP_0, KEY_NUMPAD0),
    KeyEntry(SDLK_KP_1, KEY_NUMPAD1),
    KeyEntry(SDLK_KP_2, KEY_NUMPAD2),
    KeyEntry(SDLK_KP_3, KEY_NUMPAD3),
    KeyEntry(SDLK_KP_4, KEY_NUMPAD4),
    KeyEntry(SDLK_KP_5, KEY_NUMPAD5),
    KeyEntry(SDLK_KP_6, KEY_NUMPAD6),
    KeyEntry(SDLK_KP_7, KEY_NUMPAD7),
    KeyEntry(SDLK_KP_8, KEY_NUMPAD8),
    KeyEntry(SDLK_KP_9, KEY_NUMPAD9),
    KeyEntry(SDLK_KP_MULTIPLY, KEY_MULTIPLY),
    KeyEntry(SDLK_KP_PLUS, KEY_ADD),
    KeyEntry(SDLK_KP_MINUS, KEY_SUBTRACT),
    KeyEntry(SDLK_KP_PERIOD, KEY_DECIMAL),
    KeyEntry(SDLK_KP_DIVIDE, KEY_DIVIDE)
  ]

  /** F1 to F15. */
  const FUNCTION_KEYS: seq<KeyEntry> := [
    KeyEntry(SDLK_F1, KEY_F1),
    KeyEntry(SDLK_F2, KEY_F2),
    KeyEntry(SDLK_F3, KEY_F3),
    KeyEntry(SDLK_F4, KEY_F4),
    KeyEntry(SDLK_F5, KEY_F5),
    KeyEntry(SDLK_F6, KEY_F6),
    KeyEntry(SDLK_F7, KEY_F7),
    KeyEntry(SDLK_F8, KEY_F8),
    KeyEntry(SDLK_F9, KEY_F9),
    KeyEntry(SDLK_F10, KEY_F10),
    KeyEntry(SDLK_F11, KEY_F11),
    KeyEntry(SDLK_F12, KEY_F12),
    KeyEntry(SDLK_F13, KEY_F13),
    KeyEntry(SDLK_F14, KEY_F14),
    KeyEntry(SDLK_F15, KEY_F15)
  ]

  /** Lock and modifier keys, then punctuation, pushed last. */
  const MODIFIER_KEYS: seq<KeyEntry> := [
    KeyEntry(SDLK_CAPSLOCK, KEY_NUMLOCK),
    KeyEntry(SDLK_SCROLLLOCK, KEY_SCROLL),
    KeyEntry(SDLK_LSHIFT, KEY_LSHIFT),
    KeyEntry(SDLK_RSHIFT, KEY_RSHIFT),
    KeyEntry(SDLK_LCTRL, KEY_LCONTROL),
    KeyEntry(SDLK_RCTRL, KEY_RCONTROL),
    KeyEntry(SDLK_LALT, KEY_LMENU),
    KeyEntry(SDLK_RALT, KEY_RMENU),
    KeyEntry(SDLK_PLUS, KEY_PLUS),
    KeyEntry(SDLK_COMMA, KEY_COMMA),
    KeyEntry(SDLK_MINUS, KEY_MINUS),
    KeyEntry(SDLK_PERIOD, KEY_PERIOD)
  ]

  /** The entries createKeyMap pushes, in push order. */
  const KEY_MAP_ENTRIES: seq<KeyEntry> :=
    BUTTON_KEYS + DIGIT_KEYS + LETTER_KEYS + KEYPAD_KEYS + FUNCTION_KEYS + MODIFIER_KEYS

  /** Sorted by SDL key, in the non-strict sense: equal keys may repeat. */
  predicate SortedByKey(a: seq<KeyEntry>)
  {
    forall i, j :: 0 <= i < j < |a| ==> a[i].sdlKey <= a[j].sdlKey
  }

  /** KeyMap.sort(): the table rearranged into SDL-key order. */
  method SortByKey(a: seq<KeyEntry>) returns (r: seq<KeyEntry>)
    ensures SortedByKey(r)
    ensures multiset(r) == multiset(a)
  {
    r := [];
    var i := 0;
    while i < |a|
      invariant 0 <= i <= |a|
      invariant SortedByKey(r)
      invariant multiset(r) == multiset(a[..i])
    {
      assert a[..i + 1] == a[..i] + [a[i]];
      r := InsertByKey(r, a[i]);
      i := i + 1;
    }
    assert a[..i] == a;
  }

  /** One step of the sort: x placed after the entries whose key does not
      exceed its own. */
  method InsertByKey(r: seq<KeyEntry>, x: KeyEntry) returns (r': seq<KeyEntry>)
    requires SortedByKey(r)
    ensures SortedByKey(r')
    ensures multiset(r') == multiset(r) + multiset{x}
  {
    var j := 0;
    while j < |r| && r[j].sdlKey <= x.sdlKey
      invariant 0 <= j <= |r|
      invariant forall k :: 0 <= k < j ==> r[k].sdlKey <= x.sdlKey
    {
      j := j + 1;
    }
    r' := r[..j] + [x] + r[j..];
    InsertionKeepsOrder(r, x, j);
    assert r == r[..j] + r[j..];
  }

  /** x placed at j, after the entries whose keys do not exceed its own and
      before the rest, keeps the table sorted. */
  lemma InsertionKeepsOrder(r: seq<KeyEntry>, x: KeyEntry, j: nat)
    requires SortedByKey(r) && j <= |r|
    requires forall k :: 0 <= k < j ==> r[k].sdlKey <= x.sdlKey
    requires j < |r| ==> x.sdlKey < r[j].sdlKey
    ensures SortedByKey(r[..j] + [x] + r[j..])
  {
    var r' := r[..j] + [x] + r[j..];
    forall p, q | 0 <= p < q < |r'|
      ensures r'[p].sdlKey <= r'[q].sdlKey
    {
      if q == j {
        assert r'[p] == r[p];
      } else if p == j {
        assert r'[q] == r[q - 1];
      } else {
        assert r'[p] == (if p < j then r[p] else r[p - 1]);
        assert r'[q] == (if q < j then r[q] else r[q - 1]);
      }
    }
  }

  /** The halving loop of irr::core::array::binary_search, from the state
      after its first probe: while the probe neither precedes nor follows
      the entry at m and the range [left, right] is not empty, probe its
      middle. The result is m when the last probe matched, -1 otherwise. */
  function SearchFrom(a: seq<KeyEntry>, key: int, left: int, right: int, m: int): (idx: int)
    requires 0 <= m < |a| && 0 <= left <= |a| && -1 <= right < |a|
    ensures idx == -1 || (0 <= idx < |a| && a[idx].sdlKey == key)
    decreases right - left + 1
  {
    var probe := KeyEntry(key, 0);
    if (Less(probe, a[m]) || Less(a[m], probe)) && left <= right then
      var m' := (left + right) / 2;
      if Less(probe, a[m']) then SearchFrom(a, key, left, m' - 1, m')
      else SearchFrom(a, key, m' + 1, right, m')
    else if !Less(probe, a[m]) && !Less(a[m], probe) then m
    else -1
  }

  /** binary_search(element) over the whole table: the index it returns,
      -1 for an empty table or a miss. */
  function BinarySearchIndex(a: seq<KeyEntry>, key: int): (idx: int)
    ensures idx == -1 || (0 <= idx < |a| && a[idx].sdlKey == key)
  {
    if |a| == 0 then -1
    else
      var m := (|a| - 1) / 2;
      if Less(KeyEntry(key, 0), a[m]) then SearchFrom(a, key, 0, m - 1, m)
      else SearchFrom(a, key, m + 1, |a| - 1, m)
  }

  /** The bounds the halving loop keeps on a sorted table: while the entry
      at m does not hold the key, every entry left of `left` is smaller and
      every entry right of `right` is larger. */
  predicate SearchBounds(a: seq<KeyEntry>, key: int, left: int, right: int, m: int)
    requires 0 <= m < |a| && 0 <= left <= |a| && -1 <= right < |a|
  {
    a[m].sdlKey != key ==>
      (forall i :: 0 <= i < left ==> a[i].sdlKey < key) &&
      (forall i :: right < i < |a| ==> key < a[i].sdlKey)
  }

  /** A probe above the key moves the right bound below the probe. */
  lemma NarrowLeft(a: seq<KeyEntry>, key: int, left: int, right: int, m: int, m': int)
    requires SortedByKey(a)
    requires 0 <= m < |a| && 0 <= left <= m' <= right < |a|
    requires SearchBounds(a, key, left, right, m) && a[m].sdlKey != key
    requires key < a[m'].sdlKey
    ensures SearchBounds(a, key, left, m' - 1, m')
  {
    assert forall i :: m' <= i < |a| ==> a[m'].sdlKey <= a[i].sdlKey;
  }

  /** A probe at or below the key moves the left bound past the probe. */
  lemma NarrowRight(a: seq<KeyEntry>, key: int, left: int, right: int, m: int, m': int)
    requires SortedByKey(a)
    requires 0 <= m < |a| && 0 <= left <= m' <= right < |a|
    requires SearchBounds(a, key, left, right, m) && a[m].sdlKey != key
    requires a[m'].sdlKey <= key
    ensures SearchBounds(a, key, m' + 1, right, m')
  {
    assert forall i :: 0 <= i <= m' ==> a[i].sdlKey <= a[m'].sdlKey;
  }

  /** One turn of the halving loop: while the probe misses and the bounds
      have not crossed, the search goes on in the half the probe points to. */
  lemma SearchFromHalves(a: seq<KeyEntry>, key: int, left: int, right: int, m: int)
    requires 0 <= m < |a| && 0 <= left <= |a| && -1 <= right < |a|
    requires a[m].sdlKey != key && left <= right
    ensures var m' := (left + right) / 2;
      SearchFrom(a, key, left, right, m) ==
        if key < a[m'].sdlKey then SearchFrom(a, key, left, m' - 1, m') else SearchFrom(a, key, m' + 1, right, m')
  {
  }

  /** Once the bounds cross, no entry holds the key. */
  lemma BoundsMeet(a: seq<KeyEntry>, key: int, left: int, right: int, m: int)
    requires 0 <= m < |a| && 0 <= left <= |a| && -1 <= right < |a|
    requires SearchBounds(a, key, left, right, m) && a[m].sdlKey != key && right < left
    ensures forall i :: 0 <= i < |a| ==> a[i].sdlKey != key
  {
  }

  /** From any state that keeps the bounds, the loop ends on -1 exactly
      when no entry holds the key. */
  lemma {:induction false} SearchFromFinds(a: seq<KeyEntry>, key: int, left: int, right: int, m: int)
    requires SortedByKey(a)
    requires 0 <= m < |a| && 0 <= left <= |a| && -1 <= right < |a|
    requires SearchBounds(a, key, left, right, m)
    ensures SearchFrom(a, key, left, right, m) == -1 ==> forall i :: 0 <= i < |a| ==> a[i].sdlKey != key
    ensures (forall i :: 0 <= i < |a| ==> a[i].sdlKey != key) ==> SearchFrom(a, key, left, right, m) == -1
    decreases right - left + 1, 1
  {
    if a[m].sdlKey != key && left <= right {
      SearchFromFindsAfterProbe(a, key, left, right, m);
    } else if a[m].sdlKey != key {
      BoundsMeet(a, key, left, right, m);
    }
  }

  /** The same, for a state in which the loop probes once more. */
  lemma {:induction false} SearchFromFindsAfterProbe(a: seq<KeyEntry>, key: int, left: int, right: int, m: int)
    requires SortedByKey(a)
    requires 0 <= m < |a| && 0 <= left <= |a| && -1 <= right < |a|
    requires SearchBounds(a, key, left, right, m)
    requires a[m].sdlKey != key && left <= right
    ensures SearchFrom(a, key, left, right, m) == -1 ==> forall i :: 0 <= i < |a| ==> a[i].sdlKey != key
    ensures (forall i :: 0 <= i < |a| ==> a[i].sdlKey != key) ==> SearchFrom(a, key, left, right, m) == -1
    decreases right - left + 1, 0
  {
    var m' := (left + right) / 2;
    assert left <= m' <= right;
    SearchFromHalves(a, key, left, right, m);
    if key < a[m'].sdlKey {
      NarrowLeft(a, key, left, right, m, m');
      SearchFromFinds(a, key, left, m' - 1, m');
    } else {
      NarrowRight(a, key, left, right, m, m');
      SearchFromFinds(a, key, m' + 1, right, m');
    }
  }

  /** On a sorted table the search returns -1 exactly when no entry holds
      the key (and otherwise an index holding it). */
  lemma BinarySearchIndexFinds(a: seq<KeyEntry>, key: int)
    requires SortedByKey(a)
    ensures var idx := BinarySearchIndex(a, key);
      idx == -1 <==> forall i :: 0 <= i < |a| ==> a[i].sdlKey != key
  {
    if |a| != 0 {
      var m := (|a| - 1) / 2;
      if Less(KeyEntry(key, 0), a[m]) {
        SearchFromFinds(a, key, 0, m - 1, m);
      } else {
        SearchFromFinds(a, key, m + 1, |a| - 1, m);
      }
    }
  }

  /** irr::core::array::binary_search over the whole table: the do-while
      halving loop that stops when the probe neither precedes nor follows
      the entry at m, or when the range is empty. */
  method BinarySearch(a: seq<KeyEntry>, key: int) returns (idx: int)
    ensures idx == BinarySearchIndex(a, key)
  {
    if |a| == 0 {
      return -1;
    }
    // The probe: an SKeyMap whose Win32Key is never read.
    var probe := KeyEntry(key, 0);
    var left, right := 0, |a| - 1;
    var m := (left + right) / 2;
    if Less(probe, a[m]) {
      right := m - 1;
    } else {
      left := m + 1;
    }
    while (Less(probe, a[m]) || Less(a[m], probe)) && left <= right
      invariant 0 <= m < |a|
      invariant 0 <= left <= |a| && -1 <= right < |a|
      invariant SearchFrom(a, key, left, right, m) == BinarySearchIndex(a, key)
      decreases right - left + 1
    {
      m := (left + right) / 2;
      if Less(probe, a[m]) {
        right := m - 1;
      } else {
        left := m + 1;
      }
    }
    if !Less(probe, a[m]) && !Less(a[m], probe) {
      return m;
    }
    return -1;
  }

  /** The engine key run posts for an SDL key: the Win32Key of the entry
      binary_search finds, 0 on a miss. */
  function KeyCode(table: seq<KeyEntry>, sym: int): int
  {
    var idx := BinarySearchIndex(table, sym);
    if idx == -1 then 0 else table[idx].win32Key
  }

  /** On a sorted table a key present in it gives a code paired with it,
      and only a key absent from the table gives the 0 of a miss. */
  lemma KeyCodeFinds(table: seq<KeyEntry>, sym: int)
    requires SortedByKey(table)
    ensures (exists i :: 0 <= i < |table| && table[i].sdlKey == sym) ==> KeyEntry(sym, KeyCode(table, sym)) in table
    ensures (forall i :: 0 <= i < |table| ==> table[i].sdlKey != sym) ==> KeyCode(table, sym) == 0
  {
    BinarySearchIndexFinds(table, sym);
  }

  /** The lookup in the SDL_KEYDOWN / SDL_KEYUP branch of run. */
  method TranslateKey(table: seq<KeyEntry>, sym: int) returns (key: int)
    ensures key == KeyCode(table, sym)
  {
    var idx := BinarySearch(table, sym);
    if idx == -1 {
      key := 0;
    } else {
      key := table[idx].win32Key;
    }
  }

  /** How many times e occurs in s. */
  function Occurrences(s: seq<KeyEntry>, e: KeyEntry): nat
  {
    if s == [] then 0
    else Occurrences(s[..|s| - 1], e) + (if s[|s| - 1] == e then 1 else 0)
  }

  /** Occurrences is the multiplicity in the multiset of the sequence. */
  lemma {:induction false} OccurrencesAreMultiplicity(s: seq<KeyEntry>, e: KeyEntry)
    ensures Occurrences(s, e) == multiset(s)[e]
  {
    if s != [] {
      OccurrencesAreMultiplicity(s[..|s| - 1], e);
      assert s == s[..|s| - 1] + [s[|s| - 1]];
    }
  }

  /** A table createKeyMap can produce: sorted, and holding every pushed
      entry as many times as it was pushed. The order among entries with
      equal SDL keys is not fixed. */
  ghost predicate IsBuiltKeyMap(table: seq<KeyEntry>)
  {
    SortedByKey(table) && forall e :: Occurrences(table, e) == Occurrences(KEY_MAP_ENTRIES, e)
  }

  /** Two sequences agree on every entry's count exactly when they are
      rearrangements of each other. */
  lemma {:induction false} SameOccurrencesIsPermutation(a: seq<KeyEntry>, b: seq<KeyEntry>)
    ensures (forall e :: Occurrences(a, e) == Occurrences(b, e)) ==> multiset(a) == multiset(b)
    ensures multiset(a) == multiset(b) ==> forall e :: Occurrences(a, e) == Occurrences(b, e)
  {
    forall e
      ensures Occurrences(a, e) == multiset(a)[e] && Occurrences(b, e) == multiset(b)[e]
    {
      OccurrencesAreMultiplicity(a, e);
      OccurrencesAreMultiplicity(b, e);
    }
    if forall e :: Occurrences(a, e) == Occurrences(b, e) {
      assert forall e :: multiset(a)[e] == multiset(b)[e];
    }
  }

  /** A built table is exactly a sorted rearrangement of the pushed entries. */
  lemma {:induction false} BuiltKeyMapIsSortedPermutation(table: seq<KeyEntry>)
    ensures IsBuiltKeyMap(table) ==> multiset(table) == multiset(KEY_MAP_ENTRIES)
    ensures SortedByKey(table) && multiset(table) == multiset(KEY_MAP_ENTRIES) ==> IsBuiltKeyMap(table)
  {
    SameOccurrencesIsPermutation(table, KEY_MAP_ENTRIES);
  }

  /** Every entry of group g carries a nonzero engine code. */
  predicate CodesNonzero(g: seq<KeyEntry>)
  {
    forall e :: e in g ==> e.win32Key != 0
  }

  /** Every engine code in the table is nonzero, so the 0 of a miss is
      never confused with a hit. */
  lemma EngineCodesNonzero()
    ensures CodesNonzero(KEY_MAP_ENTRIES)
  {
    ButtonKeyCodes();
    DigitKeyCodes();
    LetterKeyCodes();
    KeypadKeyCodes();
    FunctionKeyCodes();
    LastGroupPushesCapsLock();
  }

  /** binary_search on any sorted rearrangement of entries whose engine
      codes are nonzero: the code found is 0 exactly when no entry has the
      key, and otherwise belongs to an entry with the key. */
  lemma {:induction false} LookupInRearrangement(table: seq<KeyEntry>, entries: seq<KeyEntry>, sym: int, key: int)
    requires multiset(table) == multiset(entries) && CodesNonzero(entries)
    requires (exists i :: 0 <= i < |table| && table[i].sdlKey == sym) ==> KeyEntry(sym, key) in table
    requires (forall i :: 0 <= i < |table| ==> table[i].sdlKey != sym) ==> key == 0
    ensures key == 0 <==> forall e :: e in entries ==> e.sdlKey != sym
    ensures key != 0 ==> KeyEntry(sym, key) in entries
  {
    if e :| e in entries && e.sdlKey == sym {
      assert e in multiset(table);
      var i :| 0 <= i < |table| && table[i] == e;
      assert KeyEntry(sym, key) in multiset(table);
    } else {
      forall i | 0 <= i < |table|
        ensures table[i].sdlKey != sym
      {
        assert table[i] in multiset(entries);
      }
    }
  }

  /** In a built table a lookup yields 0 exactly for keys absent from the
      pushed entries, and otherwise an engine code paired with that key by
      one of the push_back calls. */
  lemma LookupInBuiltTable(table: seq<KeyEntry>, sym: int, key: int)
    requires IsBuiltKeyMap(table)
    requires (exists i :: 0 <= i < |table| && table[i].sdlKey == sym) ==> KeyEntry(sym, key) in table
    requires (forall i :: 0 <= i < |table| ==> table[i].sdlKey != sym) ==> key == 0
    ensures key == 0 <==> forall e :: e in KEY_MAP_ENTRIES ==> e.sdlKey != sym
    ensures key != 0 ==> KeyEntry(sym, key) in KEY_MAP_ENTRIES
  {
    EngineCodesNonzero();
    LookupInSameOccurrences(table, KEY_MAP_ENTRIES, sym, key);
  }

  /** The code the key branch of run posts, looked up in the built key
      map: 0 exactly for SDL keys createKeyMap never pushed, and otherwise
      a code pushed with that key. */
  lemma KeyCodeInBuiltTable(table: seq<KeyEntry>, sym: int)
    requires IsBuiltKeyMap(table)
    ensures KeyCode(table, sym) == 0 <==> forall e :: e in KEY_MAP_ENTRIES ==> e.sdlKey != sym
    ensures KeyCode(table, sym) != 0 ==> KeyEntry(sym, KeyCode(table, sym)) in KEY_MAP_ENTRIES
  {
    KeyCodeFinds(table, sym);
    LookupInBuiltTable(table, sym, KeyCode(table, sym));
  }

  /** LookupInRearrangement, for a table that holds every entry as often
      as entries does. */
  lemma {:induction false} LookupInSameOccurrences(table: seq<KeyEntry>, entries: seq<KeyEntry>, sym: int, key: int)
    requires forall e :: Occurrences(table, e) == Occurrences(entries, e)
    requires CodesNonzero(entries)
    requires (exists i :: 0 <= i < |table| && table[i].sdlKey == sym) ==> KeyEntry(sym, key) in table
    requires (forall i :: 0 <= i < |table| ==> table[i].sdlKey != sym) ==> key == 0
    ensures key == 0 <==> forall e :: e in entries ==> e.sdlKey != sym
    ensures key != 0 ==> KeyEntry(sym, key) in entries
  {
    SameOccurrencesIsPermutation(table, entries);
    LookupInRearrangement(table, entries, sym, key);
  }

  /** No entry of group g has SDL key k. */
  predicate KeyAbsent(g: seq<KeyEntry>, k: int)
  {
    forall e :: e in g ==> e.sdlKey != k
  }

  /** Every entry of group g with SDL key k carries engine code w1 or w2. */
  predicate CodesOfKey(g: seq<KeyEntry>, k: int, w1: int, w2: int)
  {
    forall e :: e in g && e.sdlKey == k ==> e.win32Key == w1 || e.win32Key == w2
  }

  /** The first group: nonzero codes; PRINTSCREEN only with KEY_PRINT or
      KEY_SNAPSHOT, CAPSLOCK only with KEY_CAPITAL. */
  lemma ButtonKeyCodes()
    ensures CodesNonzero(BUTTON_KEYS)
    ensures CodesOfKey(BUTTON_KEYS, SDLK_PRINTSCREEN, KEY_PRINT, KEY_SNAPSHOT)
    ensures CodesOfKey(BUTTON_KEYS, SDLK_CAPSLOCK, KEY_CAPITAL, KEY_CAPITAL)
  {
    assert forall i :: 0 <= i < |BUTTON_KEYS| ==>
      (BUTTON_KEYS[i].win32Key != 0 &&
       (BUTTON_KEYS[i].sdlKey == SDLK_PRINTSCREEN ==>
          BUTTON_KEYS[i].win32Key == KEY_PRINT || BUTTON_KEYS[i].win32Key == KEY_SNAPSHOT) &&
       (BUTTON_KEYS[i].sdlKey == SDLK_CAPSLOCK ==> BUTTON_KEYS[i].win32Key == KEY_CAPITAL));
  }

  /** The first group pushes PRINTSCREEN twice and CAPSLOCK once. */
  lemma FirstGroupPushesDuplicatedKeys()
    ensures KeyEntry(SDLK_PRINTSCREEN, KEY_PRINT) in BUTTON_KEYS
    ensures KeyEntry(SDLK_PRINTSCREEN, KEY_SNAPSHOT) in BUTTON_KEYS
    ensures KeyEntry(SDLK_CAPSLOCK, KEY_CAPITAL) in BUTTON_KEYS
  {
    assert BUTTON_KEYS[6] == KeyEntry(SDLK_CAPSLOCK, KEY_CAPITAL);
    assert BUTTON_KEYS[17] == KeyEntry(SDLK_PRINTSCREEN, KEY_PRINT);
    assert BUTTON_KEYS[18] == KeyEntry(SDLK_PRINTSCREEN, KEY_SNAPSHOT);
  }

  /** The middle groups have nonzero codes and push neither of the
      duplicated keys. */
  lemma DigitKeyCodes()
    ensures CodesNonzero(DIGIT_KEYS)
    ensures KeyAbsent(DIGIT_KEYS, SDLK_PRINTSCREEN) && KeyAbsent(DIGIT_KEYS, SDLK_CAPSLOCK)
  {
    assert forall i :: 0 <= i < |DIGIT_KEYS| ==>
      (DIGIT_KEYS[i].win32Key != 0 &&
       DIGIT_KEYS[i].sdlKey != SDLK_PRINTSCREEN && DIGIT_KEYS[i].sdlKey != SDLK_CAPSLOCK);
  }

  lemma LetterKeyCodes()
    ensures CodesNonzero(LETTER_KEYS)
    ensures KeyAbsent(LETTER_KEYS, SDLK_PRINTSCREEN) && KeyAbsent(LETTER_KEYS, SDLK_CAPSLOCK)
  {
    assert forall i :: 0 <= i < |LETTER_KEYS| ==>
      (LETTER_KEYS[i].win32Key != 0 &&
       LETTER_KEYS[i].sdlKey != SDLK_PRINTSCREEN && LETTER_KEYS[i].sdlKey != SDLK_CAPSLOCK);
  }

  lemma KeypadKeyCodes()
    ensures CodesNonzero(KEYPAD_KEYS)
    ensures KeyAbsent(KEYPAD_KEYS, SDLK_PRINTSCREEN) && KeyAbsent(KEYPAD_KEYS, SDLK_CAPSLOCK)
  {
    assert forall i :: 0 <= i < |KEYPAD_KEYS| ==>
      (KEYPAD_KEYS[i].win32Key != 0 &&
       KEYPAD_KEYS[i].sdlKey != SDLK_PRINTSCREEN && KEYPAD_KEYS[i].sdlKey != SDLK_CAPSLOCK);
  }

  lemma FunctionKeyCodes()
    ensures CodesNonzero(FUNCTION_KEYS)
    ensures KeyAbsent(FUNCTION_KEYS, SDLK_PRINTSCREEN) && KeyAbsent(FUNCTION_KEYS, SDLK_CAPSLOCK)
  {
    assert forall i :: 0 <= i < |FUNCTION_KEYS| ==>
      (FUNCTION_KEYS[i].win32Key != 0 &&
       FUNCTION_KEYS[i].sdlKey != SDLK_PRINTSCREEN && FUNCTION_KEYS[i].sdlKey != SDLK_CAPSLOCK);
  }

  /** The last group pushes CAPSLOCK once more, and not PRINTSCREEN. */
  lemma LastGroupPushesCapsLock()
    ensures CodesNonzero(MODIFIER_KEYS)
    ensures KeyEntry(SDLK_CAPSLOCK, KEY_NUMLOCK) in MODIFIER_KEYS
    ensures CodesOfKey(MODIFIER_KEYS, SDLK_CAPSLOCK, KEY_NUMLOCK, KEY_NUMLOCK)
    ensures KeyAbsent(MODIFIER_KEYS, SDLK_PRINTSCREEN)
  {
    assert MODIFIER_KEYS[0] == KeyEntry(SDLK_CAPSLOCK, KEY_NUMLOCK);
    assert forall i :: 0 <= i < |MODIFIER_KEYS| ==>
      (MODIFIER_KEYS[i].win32Key != 0 && MODIFIER_KEYS[i].sdlKey != SDLK_PRINTSCREEN &&
       (MODIFIER_KEYS[i].sdlKey == SDLK_CAPSLOCK ==> MODIFIER_KEYS[i].win32Key == KEY_NUMLOCK));
  }

  /** SDLK_PRINTSCREEN is pushed twice, with KEY_PRINT and KEY_SNAPSHOT, and
      with no other code: a lookup of it promises one of the two. */
  lemma PrintScreenPushedTwice()
    ensures KeyEntry(SDLK_PRINTSCREEN, KEY_PRINT) in KEY_MAP_ENTRIES
    ensures KeyEntry(SDLK_PRINTSCREEN, KEY_SNAPSHOT) in KEY_MAP_ENTRIES
    ensures CodesOfKey(KEY_MAP_ENTRIES, SDLK_PRINTSCREEN, KEY_PRINT, KEY_SNAPSHOT)
  {
    ButtonKeyCodes();
    FirstGroupPushesDuplicatedKeys();
    DigitKeyCodes();
    LetterKeyCodes();
    KeypadKeyCodes();
    FunctionKeyCodes();
    LastGroupPushesCapsLock();
  }

  /** SDLK_CAPSLOCK is pushed twice, with KEY_CAPITAL among the first keys
      and with KEY_NUMLOCK among the last, and with no other code. */
  lemma CapsLockPushedTwice()
    ensures KeyEntry(SDLK_CAPSLOCK, KEY_CAPITAL) in KEY_MAP_ENTRIES
    ensures KeyEntry(SDLK_CAPSLOCK, KEY_NUMLOCK) in KEY_MAP_ENTRIES
    ensures CodesOfKey(KEY_MAP_ENTRIES, SDLK_CAPSLOCK, KEY_CAPITAL, KEY_NUMLOCK)
  {
    ButtonKeyCodes();
    FirstGroupPushesDuplicatedKeys();
    DigitKeyCodes();
    LetterKeyCodes();
    KeypadKeyCodes();
    FunctionKeyCodes();
    LastGroupPushesCapsLock();
  }
}
