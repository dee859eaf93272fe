/** The touch records of CIrrDeviceSDL2 (CurrentTouches, LastTouchId): the
    functions that say which record findTouch and removeTouch pick, the
    invariant the id counter keeps, and what add, find and remove do to it.
    The loops themselves are methods of SdlDevice.Device. */
module Touch {

  /** TouchInfo: SDL touch device, SDL finger, engine touch id. */
  datatype TouchInfo = TouchInfo(device: int, touch: int, id: nat)

  predicate Matches(t: TouchInfo, device: int, touch: int)
  {
    t.device == device && t.touch == touch
  }

  /** Index of the first record for (device, touch), or |ts| if none. */
  function FirstMatch(ts: seq<TouchInfo>, device: int, touch: int): (k: nat)
    ensures k <= |ts|
    ensures k < |ts| ==> Matches(ts[k], device, touch)
    ensures forall j :: 0 <= j < k ==> !Matches(ts[j], device, touch)
  {
    if ts == [] then 0
    else if Matches(ts[0], device, touch) then 0
    else 1 + FirstMatch(ts[1..], device, touch)
  }

  /** Index of the first record carrying id, or |ts| if none. */
  function FirstWithId(ts: seq<TouchInfo>, id: nat): (k: nat)
    ensures k <= |ts|
    ensures k < |ts| ==> ts[k].id == id
    ensures forall j :: 0 <= j < k ==> ts[j].id != id
  {
    if ts == [] then 0
    else if ts[0].id == id then 0
    else 1 + FirstWithId(ts[1..], id)
  }

  /** core::array::erase(k): the record at k removed, the others kept in order. */
  function EraseAt(ts: seq<TouchInfo>, k: nat): (r: seq<TouchInfo>)
    requires k < |ts|
    ensures |r| == |ts| - 1
    ensures forall j :: 0 <= j < k ==> r[j] == ts[j]
    ensures forall j :: k <= j < |r| ==> r[j] == ts[j + 1]
  {
    ts[..k] + ts[k + 1..]
  }

  /** removeTouch(id) on the record list: the first record with that id is
      erased; with no such record the list is unchanged. */
  function RemoveId(ts: seq<TouchInfo>, id: nat): seq<TouchInfo>
  {
    var k := FirstWithId(ts, id);
    if k < |ts| then EraseAt(ts, k) else ts
  }

  /** The counter's invariant: every id is in 1..last, and ids strictly
      increase along the list (records are appended with a fresh id and
      only ever erased). */
  predicate IdsIncreasing(ts: seq<TouchInfo>, last: nat)
  {
    (forall i :: 0 <= i < |ts| ==> 1 <= ts[i].id <= last) &&
    (forall i, j :: 0 <= i < j < |ts| ==> ts[i].id < ts[j].id)
  }

  /** The initial state, no records and LastTouchId = 0, keeps the invariant. */
  lemma InitialTouchesValid()
    ensures IdsIncreasing([], 0)
  {
  }

  /** addTouch appends a record whose id no current record carries, and
      keeps the invariant. */
  lemma AddKeepsIdsIncreasing(ts: seq<TouchInfo>, last: nat, device: int, touch: int)
    requires IdsIncreasing(ts, last)
    ensures forall i :: 0 <= i < |ts| ==> ts[i].id != last + 1
    ensures IdsIncreasing(ts + [TouchInfo(device, touch, last + 1)], last + 1)
  {
  }

  /** Erasing any record keeps the invariant. */
  lemma EraseKeepsIdsIncreasing(ts: seq<TouchInfo>, last: nat, k: nat)
    requires IdsIncreasing(ts, last) && k < |ts|
    ensures IdsIncreasing(EraseAt(ts, k), last)
  {
    var r := EraseAt(ts, k);
    forall i, j | 0 <= i < j < |r|
      ensures r[i].id < r[j].id
    {
      var i' := if i < k then i else i + 1;
      var j' := if j < k then j else j + 1;
      assert r[i] == ts[i'] && r[j] == ts[j'];
    }
  }

  /** Under the invariant an id is carried by at most one record, so
      removeTouch(id) leaves no record with that id, and the invariant holds. */
  lemma RemoveIdRemovesAll(ts: seq<TouchInfo>, last: nat, id: nat)
    requires IdsIncreasing(ts, last)
    ensures IdsIncreasing(RemoveId(ts, id), last)
    ensures forall i :: 0 <= i < |RemoveId(ts, id)| ==> RemoveId(ts, id)[i].id != id
    ensures |RemoveId(ts, id)| == if exists i :: 0 <= i < |ts| && ts[i].id == id then |ts| - 1 else |ts|
  {
    var k := FirstWithId(ts, id);
    if k < |ts| {
      EraseKeepsIdsIncreasing(ts, last, k);
      var r := EraseAt(ts, k);
      forall i | 0 <= i < |r|
        ensures r[i].id != id
      {
        if i >= k {
          assert r[i] == ts[i + 1];
        }
      }
    }
  }

  /** A record appended after a stale record for the same (device, finger)
      is never the one findTouch returns: the first match does not move. */
  lemma {:induction false} StaleRecordShadows(ts: seq<TouchInfo>, x: TouchInfo, device: int, touch: int)
    requires FirstMatch(ts, device, touch) < |ts|
    ensures FirstMatch(ts + [x], device, touch) == FirstMatch(ts, device, touch)
  {
    if !Matches(ts[0], device, touch) {
      assert (ts + [x])[1..] == ts[1..] + [x];
      StaleRecordShadows(ts[1..], x, device, touch);
    }
  }

  /** On a list without a record for (device, touch), appending one makes
      it the first match. */
  lemma {:induction false} AppendedRecordFound(ts: seq<TouchInfo>, last: nat, device: int, touch: int)
    requires FirstMatch(ts, device, touch) == |ts|
    ensures FirstMatch(ts + [TouchInfo(device, touch, last + 1)], device, touch) == |ts|
  {
    if ts != [] {
      assert (ts + [TouchInfo(device, touch, last + 1)])[1..] == ts[1..] + [TouchInfo(device, touch, last + 1)];
      AppendedRecordFound(ts[1..], last, device, touch);
    }
  }

  /** removeTouch finds the id of any record in the list. */
  lemma MemberIdFound(ts: seq<TouchInfo>, x: TouchInfo)
    requires x in ts
    ensures FirstWithId(ts, x.id) < |ts|
  {
    var k :| 0 <= k < |ts| && ts[k] == x;
    assert FirstWithId(ts, x.id) <= k;
  }

  /** The record list, the counter and the id after addTouch or findTouch. */
  datatype Lookup = Lookup(touches: seq<TouchInfo>, lastId: nat, id: nat)

  /** addTouch: a record with the next id is appended and that id returned. */
  function AddRecord(ts: seq<TouchInfo>, last: nat, device: int, touch: int): Lookup
  {
    Lookup(ts + [TouchInfo(device, touch, last + 1)], last + 1, last + 1)
  }

  /** findTouch: the id of the first record for (device, touch); on a miss
      the finger is added as by addTouch. */
  function FindRecord(ts: seq<TouchInfo>, last: nat, device: int, touch: int): Lookup
  {
    var k := FirstMatch(ts, device, touch);
    if k < |ts| then Lookup(ts, last, ts[k].id) else AddRecord(ts, last, device, touch)
  }

  /** Whatever the list, the id either lookup returns is that of a record
      for the finger. */
  lemma LookupHoldsRecord(ts: seq<TouchInfo>, last: nat, device: int, touch: int)
    ensures var r := AddRecord(ts, last, device, touch); TouchInfo(device, touch, r.id) in r.touches
    ensures var r := FindRecord(ts, last, device, touch); TouchInfo(device, touch, r.id) in r.touches
  {
    var r := AddRecord(ts, last, device, touch);
    assert r.touches[|ts|] == TouchInfo(device, touch, r.id);
    var k := FirstMatch(ts, device, touch);
    if k < |ts| {
      assert ts[k] == TouchInfo(device, touch, ts[k].id);
    }
  }

  /** Both lookups keep the invariant, and the id they return belongs to a
      record for that finger. */
  lemma LookupsKeepIdsIncreasing(ts: seq<TouchInfo>, last: nat, device: int, touch: int)
    requires IdsIncreasing(ts, last)
    ensures var r := AddRecord(ts, last, device, touch);
      IdsIncreasing(r.touches, r.lastId) && TouchInfo(device, touch, r.id) in r.touches
    ensures var r := FindRecord(ts, last, device, touch);
      IdsIncreasing(r.touches, r.lastId) && TouchInfo(device, touch, r.id) in r.touches
  {
    AddKeepsIdsIncreasing(ts, last, device, touch);
    var r := AddRecord(ts, last, device, touch);
    assert r.touches[|ts|] == TouchInfo(device, touch, r.id);
    var k := FirstMatch(ts, device, touch);
    if k < |ts| {
      assert ts[k] == TouchInfo(device, touch, ts[k].id);
    }
  }

  /** A finger pressed and then lifted, with no record of it before, leaves
      the record list as it was; the lift finds the id the press made. */
  lemma {:induction false} DownThenUpRestores(ts: seq<TouchInfo>, last: nat, device: int, touch: int)
    requires IdsIncreasing(ts, last)
    requires FirstMatch(ts, device, touch) == |ts|
    ensures var down := AddRecord(ts, last, device, touch);
      var up := FindRecord(down.touches, down.lastId, device, touch);
      up.id == down.id && up.touches == down.touches &&
      RemoveId(up.touches, up.id) == ts
  {
    var down := AddRecord(ts, last, device, touch);
    AppendedRecordFound(ts, last, device, touch);
    assert down.touches[|ts|].id == last + 1;
    LastIdFirstAtEnd(ts, last);
    assert down.touches[..|ts|] == ts;
  }

  /** Under the invariant the next id is carried only by the record appended
      with it. */
  lemma {:induction false} LastIdFirstAtEnd(ts: seq<TouchInfo>, last: nat)
    requires IdsIncreasing(ts, last)
    ensures forall x: TouchInfo :: x.id == last + 1 ==> FirstWithId(ts + [x], last + 1) == |ts|
  {
    forall x: TouchInfo | x.id == last + 1
      ensures FirstWithId(ts + [x], last + 1) == |ts|
    {
      var k := FirstWithId(ts + [x], last + 1);
      assert (ts + [x])[|ts|].id == last + 1;
    }
  }
}
