/** CIrrDeviceSDL2::CCursorControl: the cursor position, the reference
    rectangle, and the table of (possibly animated) cursor icons.
    SDL effects are recorded in fields: `shown` is the cursor last passed to
    SDL_SetCursor, `warps` the SDL_WarpMouse* calls, `freed` the cursors
    passed to SDL_FreeCursor. What the control reads through its back
    pointer to the device (Width, Height, the timer) and what SDL_GetMouseState
    reports are parameters. */
module Cursor {
  import opened IrrTypes

  /** gui::ECI_NORMAL, the first ECURSOR_ICON. */
  const ECI_NORMAL: int := 0

  /** core::position2d<s32>. */
  datatype Position = Position(x: int, y: int)

  /** core::rect<s32>. */
  datatype Rect = Rect(upperLeftX: int, upperLeftY: int, lowerRightX: int, lowerRightY: int)

  function RectWidth(r: Rect): int { r.lowerRightX - r.upperLeftX }
  function RectHeight(r: Rect): int { r.lowerRightY - r.upperLeftY }

  /** An SDL_Cursor pointer; 0 is null. */
  type CursorHandle = int

  /** CursorX11: the frames of an icon and the time each frame is shown. */
  datatype CursorIcon = CursorIcon(frames: seq<CursorHandle>, frameTime: u32)

  /** gui::SCursorSprite as addIcon and changeIcon use it: the sprite id,
      the sprite's frame time, and the SDL cursor TextureToCursor makes of
      each of its frames. */
  datatype CursorSprite = CursorSprite(spriteId: int, frameTime: u32, frameCursors: seq<CursorHandle>)

  /** SDL_WarpMouseGlobal / SDL_WarpMouseInWindow. */
  datatype Warp = WarpGlobal(gx: int, gy: int) | WarpInWindow(wx: int, wy: int)

  /** `n % 2` is nonzero in C++ (which truncates) exactly when it is in
      Dafny (which does not): both say n is odd, whatever its sign. */
  predicate IsOdd(n: int)
  {
    n % 2 != 0
  }

  /** The correction setReferenceRect applies to a side of length n. */
  function AdjustedSide(n: int): (m: int)
    ensures m == n || m == n + 1
    ensures n != -1 ==> m != 0
    ensures n != 0 ==> !IsOdd(m)
    ensures n == 0 ==> m == 1
    ensures n != 0 && !IsOdd(n) ==> m == n
  {
    if n == 0 || IsOdd(n) then n + 1 else n
  }

  /** setReferenceRect(rect) stores the rect with its lower-right corner
      moved by one along each side whose length is 0 or odd. The result has
      no zero side unless a side was -1, and only even sides unless a side
      was 0 (which becomes 1). */
  function AdjustReferenceRect(r: Rect): (a: Rect)
    ensures a.upperLeftX == r.upperLeftX && a.upperLeftY == r.upperLeftY
    ensures RectHeight(a) == AdjustedSide(RectHeight(r))
    ensures RectWidth(a) == AdjustedSide(RectWidth(r))
  {
    var h := if RectHeight(r) == 0 || IsOdd(RectHeight(r)) then r.(lowerRightY := r.lowerRightY + 1) else r;
    if RectWidth(h) == 0 || IsOdd(RectWidth(h)) then h.(lowerRightX := h.lowerRightX + 1) else h
  }

  /** A rect of even, nonzero sides is stored unchanged, and adjusting
      twice is adjusting once unless a side is 0 or -1 (-1 becomes 0, which
      a second adjustment would turn into 1). */
  lemma AdjustReferenceRectStable(r: Rect)
    ensures RectHeight(r) != 0 && !IsOdd(RectHeight(r)) && RectWidth(r) != 0 && !IsOdd(RectWidth(r)) ==>
      AdjustReferenceRect(r) == r
    ensures RectHeight(r) !in {0, -1} && RectWidth(r) !in {0, -1} ==>
      AdjustReferenceRect(AdjustReferenceRect(r)) == AdjustReferenceRect(r)
    ensures RectHeight(r) == -1 ==> RectHeight(AdjustReferenceRect(r)) == 0
  {
  }

  /** One coordinate in updateCursorPos: below 0 becomes 0, above
      `(s32)extent` becomes the extent converted to s32. */
  function ClampToExtent(v: s32, extent: u32): (r: s32)
    ensures extent < 0x8000_0000 ==> 0 <= r <= extent
    ensures extent < 0x8000_0000 && 0 <= v <= extent ==> r == v
    ensures extent < 0x8000_0000 && v < 0 ==> r == 0
    ensures extent < 0x8000_0000 && v > extent ==> r == extent
  {
    var lo := if v < 0 then 0 else v;
    if lo > ToS32(extent) then ToS32(extent) else lo
  }

  /** On a window wider than 2^31 - 1 pixels, `(s32)Width` is negative and
      every coordinate is clamped to that negative value. */
  lemma ClampOnHugeExtent(v: s32, extent: u32)
    requires extent >= 0x8000_0000
    ensures ClampToExtent(v, extent) == extent - U32_MODULUS
  {
  }

  /** The frame an animation shows after `elapsed` milliseconds. */
  function AnimationFrame(elapsed: u32, frameTime: u32, count: nat): (k: nat)
    requires frameTime != 0 && count != 0
    ensures k < count
  {
    (elapsed / frameTime) % count
  }

  /** The frame index of update: elapsed time since the icon became active,
      computed in u32 so that it stays right across a wrap of the timer. */
  function FrameIndex(now: u32, start: u32, frameTime: u32, count: nat): (k: nat)
    requires frameTime != 0 && count != 0
    ensures k < count
  {
    AnimationFrame(ToU32(now - start), frameTime, count)
  }

  /** At the moment an icon becomes active, update shows its first frame,
      the same one setActiveIcon showed. */
  lemma FirstFrameAtStart(t: u32, frameTime: u32, count: nat)
    requires frameTime != 0 && count != 0
    ensures FrameIndex(t, t, frameTime, count) == 0
  {
    assert ToU32(t - t) == 0;
    assert 0 / frameTime == 0;
  }

  /** Every frameTime milliseconds the animation moves on by one frame,
      wrapping from the last frame to the first. */
  lemma {:induction false} AnimationAdvances(elapsed: u32, frameTime: u32, count: nat)
    requires frameTime != 0 && count != 0
    requires elapsed + frameTime < U32_MODULUS
    ensures AnimationFrame(elapsed + frameTime, frameTime, count) ==
            (AnimationFrame(elapsed, frameTime, count) + 1) % count
  {
    var q := elapsed / frameTime;
    var r := elapsed % frameTime;
    assert elapsed == q * frameTime + r;
    assert elapsed + frameTime == (q + 1) * frameTime + r;
    DivOfMultiplePlusRest(q + 1, frameTime, r);
    ModOfSuccessor(q, count);
  }

  lemma MulAtLeast(a: int, d: nat)
    requires a >= 1
    ensures a * d >= d
  {
    assert a * d == (a - 1) * d + d;
  }

  /** Euclidean division is unique: q * d + r with 0 <= r < d divides back to q. */
  lemma DivOfMultiplePlusRest(q: nat, d: nat, r: nat)
    requires 0 <= r < d
    ensures (q * d + r) / d == q
  {
    var n := q * d + r;
    var q', r' := n / d, n % d;
    assert n == q' * d + r';
    var e := q' - q;
    assert e * d == r - r' by {
      assert e * d == q' * d - q * d;
    }
    if e >= 1 {
      MulAtLeast(e, d);
    } else if e <= -1 {
      MulAtLeast(-e, d);
    }
  }

  /** The remainder of q * d + r, for 0 <= r < d, is r. */
  lemma ModOfMultiplePlusRest(q: nat, d: nat, r: nat)
    requires 0 <= r < d
    ensures (q * d + r) % d == r
  {
    DivOfMultiplePlusRest(q, d, r);
  }

  lemma ModOfSuccessor(q: nat, c: nat)
    requires c != 0
    ensures (q + 1) % c == (q % c + 1) % c
  {
    var k, m := q / c, q % c;
    var kc := k * c;
    assert q == kc + m;
    if m + 1 < c {
      ModOfMultiplePlusRest(k, c, m + 1);
      ModOfMultiplePlusRest(0, c, m + 1);
    } else {
      assert q + 1 == (k + 1) * c by {
        assert (k + 1) * c == kc + c;
      }
      ModOfMultiplePlusRest(k + 1, c, 0);
      ModOfMultiplePlusRest(1, c, 0);
    }
  }

  /** Elapsed time is measured modulo 2^32: whenever the u32 clock reads
      start + elapsed, wrapped or not, update shows the frame for elapsed. */
  lemma FrameIndexAcrossWrap(start: u32, elapsed: u32, frameTime: u32, count: nat)
    requires frameTime != 0 && count != 0
    ensures FrameIndex(ToU32(start + elapsed), start, frameTime, count) == AnimationFrame(elapsed, frameTime, count)
  {
    if start + elapsed < U32_MODULUS {
      assert ToU32(start + elapsed) == start + elapsed;
    } else {
      assert ToU32(start + elapsed) == start + elapsed - U32_MODULUS;
    }
    assert ToU32(ToU32(start + elapsed) - start) == elapsed;
  }

  /** The icon addIcon and changeIcon make of a sprite: one frame per
      sprite frame, in order, and the sprite's frame time. */
  function IconOf(sprite: CursorSprite): CursorIcon
  {
    CursorIcon(sprite.frameCursors, sprite.frameTime)
  }

  /** The frames of all icons, icon after icon. */
  function AllFrames(cs: seq<CursorIcon>): seq<CursorHandle>
  {
    if cs == [] then [] else AllFrames(cs[..|cs| - 1]) + cs[|cs| - 1].frames
  }

  class CursorControl {
    var cursorPos: Position
    var referenceRect: Rect
    var useReferenceRect: bool
    var cursors: seq<CursorIcon>
    var activeIcon: int
    var activeIconStartTime: u32
    /** The cursor last passed to SDL_SetCursor, if any. */
    var shown: Option<CursorHandle>
    var warps: seq<Warp>
    var freed: seq<CursorHandle>

    /** The constructor: no reference rect, ECI_NORMAL active since time 0,
        and no icons (initCursors adds none). */
    constructor(isNullDevice: bool)
      ensures !useReferenceRect && activeIcon == ECI_NORMAL && activeIconStartTime == 0
      ensures cursors == [] && shown == None && warps == [] && freed == []
      ensures cursorPos == Position(0, 0) && referenceRect == Rect(0, 0, 0, 0)
    {
      cursorPos := Position(0, 0);
      referenceRect := Rect(0, 0, 0, 0);
      useReferenceRect := false;
      cursors := [];
      activeIcon := ECI_NORMAL;
      activeIconStartTime := 0;
      shown := None;
      warps := [];
      freed := [];
    }

    /** setReferenceRect: a rect is stored adjusted and switched on; null
        switches it off and keeps the stored rect. */
    method SetReferenceRect(rect: Option<Rect>)
      modifies this`referenceRect, this`useReferenceRect
      ensures rect.Some? ==> useReferenceRect && referenceRect == AdjustReferenceRect(rect.value)
      ensures rect.None? ==> !useReferenceRect && referenceRect == old(referenceRect)
    {
      if rect.Some? {
        referenceRect := rect.value;
        useReferenceRect := true;
        if RectHeight(referenceRect) == 0 || IsOdd(RectHeight(referenceRect)) {
          referenceRect := referenceRect.(lowerRightY := referenceRect.lowerRightY + 1);
        }
        if RectWidth(referenceRect) == 0 || IsOdd(RectWidth(referenceRect)) {
          referenceRect := referenceRect.(lowerRightX := referenceRect.lowerRightX + 1);
        }
      } else {
        useReferenceRect := false;
      }
    }

    /** setPosition(s32, s32): the position is stored as given in both
        modes; the warp is relative to the reference rect when it is on. */
    method SetPosition(x: s32, y: s32)
      modifies this`cursorPos, this`warps
      ensures cursorPos == Position(x, y)
      ensures warps == old(warps) + [if useReferenceRect
        then WarpGlobal(referenceRect.upperLeftX + x, referenceRect.upperLeftY + y)
        else WarpInWindow(x, y)]
    {
      if useReferenceRect {
        warps := warps + [WarpGlobal(referenceRect.upperLeftX + x, referenceRect.upperLeftY + y)];
      } else {
        warps := warps + [WarpInWindow(x, y)];
      }
      cursorPos := Position(x, y);
    }

    /** updateCursorPos: the mouse position SDL reports, clamped to the
        window (width and height of the device). */
    method UpdateCursorPos(mouseX: s32, mouseY: s32, width: u32, height: u32)
      modifies this`cursorPos
      ensures cursorPos == Position(ClampToExtent(mouseX, width), ClampToExtent(mouseY, height))
    {
      var x: s32, y: s32 := mouseX, mouseY;
      if x < 0 {
        x := 0;
      }
      if x > ToS32(width) {
        x := ToS32(width);
      }
      if y < 0 {
        y := 0;
      }
      if y > ToS32(height) {
        y := ToS32(height);
      }
      cursorPos := Position(x, y);
    }

    /** getPosition(updateCursor): with false the stored position as it is;
        with true the position refreshed from SDL first. */
    method GetPosition(updateCursor: bool, mouseX: s32, mouseY: s32, width: u32, height: u32) returns (p: Position)
      modifies this`cursorPos
      ensures !updateCursor ==> p == old(cursorPos) && cursorPos == old(cursorPos)
      ensures updateCursor ==> p == cursorPos == Position(ClampToExtent(mouseX, width), ClampToExtent(mouseY, height))
    {
      if updateCursor {
        UpdateCursorPos(mouseX, mouseY, width, height);
      }
      p := cursorPos;
    }

    /** getActiveIcon. */
    function GetActiveIcon(): (icon: int)
      reads this
      ensures icon == activeIcon
    {
      activeIcon
    }

    /** Whether update animates: the active icon exists, has frames, and
        has a nonzero frame time. */
    predicate Animating()
      reads this
    {
      0 <= activeIcon < |cursors| && |cursors[activeIcon].frames| != 0 && cursors[activeIcon].frameTime != 0
    }

    /** update: shows the frame of the active icon's animation for `now`
        (the device timer's real time); otherwise nothing. */
    method Update(now: u32)
      modifies this`shown
      ensures old(Animating()) ==>
        shown == Some(cursors[activeIcon].frames[
          FrameIndex(now, activeIconStartTime, cursors[activeIcon].frameTime, |cursors[activeIcon].frames|)])
      ensures !old(Animating()) ==> shown == old(shown)
    {
      if 0 <= activeIcon < |cursors| && |cursors[activeIcon].frames| != 0 && cursors[activeIcon].frameTime != 0 {
        var icon := cursors[activeIcon];
        var frame := ToU32(now - activeIconStartTime) / icon.frameTime % |icon.frames|;
        shown := Some(icon.frames[frame]);
      }
    }

    /** setActiveIcon: an id past the table is ignored; otherwise the icon
        becomes active as of `now` and its first frame, if any, is shown.
        ECURSOR_ICON values are never negative. */
    method SetActiveIcon(iconId: int, now: u32)
      requires iconId >= 0
      modifies this`shown, this`activeIconStartTime, this`activeIcon
      ensures iconId >= |cursors| ==>
        shown == old(shown) && activeIcon == old(activeIcon) && activeIconStartTime == old(activeIconStartTime)
      ensures iconId < |cursors| ==> activeIcon == iconId && activeIconStartTime == now
      ensures iconId < |cursors| ==>
        shown == if |cursors[iconId].frames| != 0 then Some(cursors[iconId].frames[0]) else old(shown)
    {
      if iconId >= |cursors| {
        return;
      }
      if |cursors[iconId].frames| != 0 {
        shown := Some(cursors[iconId].frames[0]);
      }
      activeIconStartTime := now;
      activeIcon := iconId;
    }

    /** The frame-by-frame loop of addIcon and changeIcon. */
    static method BuildIcon(sprite: CursorSprite) returns (icon: CursorIcon)
      ensures icon == IconOf(sprite)
    {
      var frames: seq<CursorHandle> := [];
      for i := 0 to |sprite.frameCursors|
        invariant frames == sprite.frameCursors[..i]
      {
        frames := frames + [sprite.frameCursors[i]];
      }
      icon := CursorIcon(frames, sprite.frameTime);
    }

    /** addIcon: a sprite with a valid id is appended and its index
        returned; otherwise nothing is added and ECI_NORMAL is returned. */
    method AddIcon(sprite: CursorSprite) returns (id: int)
      modifies this`cursors
      ensures sprite.spriteId >= 0 ==> cursors == old(cursors) + [IconOf(sprite)] && id == |cursors| - 1
      ensures sprite.spriteId < 0 ==> cursors == old(cursors) && id == ECI_NORMAL
    {
      if sprite.spriteId >= 0 {
        var icon := BuildIcon(sprite);
        cursors := cursors + [icon];
        return |cursors| - 1;
      }
      return ECI_NORMAL;
    }

    /** changeIcon: for an id in the table its frames are freed, and the
        entry is replaced when the sprite id is valid. With an invalid
        sprite id the entry keeps the frames just freed. */
    method ChangeIcon(iconId: int, sprite: CursorSprite)
      requires iconId >= 0
      modifies this`cursors, this`freed
      ensures iconId >= |old(cursors)| ==> cursors == old(cursors) && freed == old(freed)
      ensures iconId < |old(cursors)| ==> freed == old(freed) + old(cursors)[iconId].frames
      ensures iconId < |old(cursors)| && sprite.spriteId >= 0 ==> cursors == old(cursors)[iconId := IconOf(sprite)]
      ensures iconId < |old(cursors)| && sprite.spriteId < 0 ==> cursors == old(cursors)
    {
      if iconId >= |cursors| {
        return;
      }
      var frames := cursors[iconId].frames;
      for i := 0 to |frames|
        invariant freed == old(freed) + frames[..i]
        invariant cursors == old(cursors)
      {
        freed := freed + [frames[i]];
      }
      if sprite.spriteId >= 0 {
        var icon := BuildIcon(sprite);
        cursors := cursors[iconId := icon];
      }
    }

    /** clearCursors: every frame of every icon is freed, in table order. */
    method ClearCursors()
      modifies this`freed
      ensures freed == old(freed) + AllFrames(cursors)
    {
      for i := 0 to |cursors|
        invariant freed == old(freed) + AllFrames(cursors[..i])
      {
        var frames := cursors[i].frames;
        for f := 0 to |frames|
          invariant freed == old(freed) + AllFrames(cursors[..i]) + frames[..f]
        {
          freed := freed + [frames[f]];
        }
        assert cursors[..i + 1][..i] == cursors[..i];
      }
      assert cursors[..|cursors|] == cursors;
    }
  }
}
