/** The pin operations of backend/app/services/pin_service.py over the `pins`
    and `pin_slots` tables: listing, the board grid, creation, and the
    ownership-gated update and delete. */
module PinService {
  import opened Common
  import opened PinModels
  import opened Store

  // ==================== Listing ====================

  /** The status a listing asks for: the given one, or "active" when none
      (or an empty string) is given. */
  function WantedStatus(status: Option<string>): (s: string)
    ensures !HasText(status) ==> s == "active"
    ensures HasText(status) ==> s == status.value
  {
    if HasText(status) then status.value else "active"
  }

  /** The filters of `get_all`. */
  predicate Listed(p: Pin, boardId: Option<Uuid>, status: Option<string>)
  {
    (boardId.Some? ==> p.boardId == boardId.value) && PinStatusName(p.status) == WantedStatus(status)
  }

  function Listing(pins: seq<Pin>, boardId: Option<Uuid>, status: Option<string>): (r: seq<Pin>)
    ensures forall p :: p in r <==> p in pins && Listed(p, boardId, status)
    ensures |r| <= |pins|
  {
    if |pins| == 0 then []
    else
      var rest := Listing(pins[1..], boardId, status);
      assert forall p :: p in pins <==> p == pins[0] || p in pins[1..];
      if Listed(pins[0], boardId, status) then [pins[0]] + rest else rest
  }

  /** `order("created_at", desc=True)`. */
  predicate NewestFirst(s: seq<Pin>)
  {
    forall i, j :: 0 <= i < j < |s| ==> s[i].createdAt >= s[j].createdAt
  }

  /** A pin no older than the head of a sorted listing may go in front. */
  lemma ConsNewest(x: Pin, rest: seq<Pin>)
    requires NewestFirst(rest)
    requires |rest| > 0 ==> rest[0].createdAt <= x.createdAt
    ensures NewestFirst([x] + rest)
  {
    var r := [x] + rest;
    forall i, j | 0 <= i < j < |r|
      ensures r[i].createdAt >= r[j].createdAt
    {
      if i == 0 {
        assert r[j] == rest[j - 1];
      }
    }
  }

  /** `p` placed before the first pin created no later than it. */
  function InsertNewest(p: Pin, s: seq<Pin>): (r: seq<Pin>)
    requires NewestFirst(s)
    ensures NewestFirst(r)
    ensures multiset(r) == multiset(s) + multiset{p}
    ensures |r| == |s| + 1
    ensures r[0] == p || (|s| > 0 && r[0] == s[0])
  {
    if |s| == 0 then [p]
    else if s[0].createdAt <= p.createdAt then
      ConsNewest(p, s);
      [p] + s
    else
      var rest := InsertNewest(p, s[1..]);
      ConsNewest(s[0], rest);
      assert s == [s[0]] + s[1..];
      [s[0]] + rest
  }

  function SortNewestFirst(s: seq<Pin>): (r: seq<Pin>)
    ensures NewestFirst(r)
    ensures multiset(r) == multiset(s)
  {
    if |s| == 0 then []
    else
      assert s == [s[0]] + s[1..];
      InsertNewest(s[0], SortNewestFirst(s[1..]))
  }

  /** `get_all`: the pins that pass the filters, newest first.  Pins created
      at the same instant come in an order the database chooses; this model
      fixes one. */
  function GetAll(pins: seq<Pin>, boardId: Option<Uuid>, status: Option<string>): (r: seq<Pin>)
    ensures NewestFirst(r)
    ensures multiset(r) == multiset(Listing(pins, boardId, status))
    ensures forall p :: p in r <==> p in pins && Listed(p, boardId, status)
  {
    var listed := Listing(pins, boardId, status);
    var r := SortNewestFirst(listed);
    assert forall p :: p in r <==> p in multiset(listed);
    r
  }

  /** Without a status filter only active pins are listed, and all of them. */
  lemma GetAllDefaultsToActive(pins: seq<Pin>, boardId: Option<Uuid>, status: Option<string>)
    requires !HasText(status)
    ensures forall p :: p in GetAll(pins, boardId, status) ==> p.status == Active
    ensures forall p :: p in pins && p.status == Active && (boardId.Some? ==> p.boardId == boardId.value)
                        ==> p in GetAll(pins, boardId, status)
  {
  }

  // ==================== Board grid ====================

  /** A row of `get_for_board_grid`: the pin and its slot, if it has one. */
  datatype PinWithSlot = PinWithSlot(pin: Pin, slotRow: Option<int>, slotCol: Option<int>)

  /** The first row of the embedded `pin_slots` of a pin. */
  function FirstSlot(slots: seq<PinSlot>, pinId: Uuid): (r: Option<PinSlot>)
    ensures r.None? <==> forall k :: 0 <= k < |slots| ==> slots[k].pinId != pinId
    ensures r.Some? ==> exists k :: 0 <= k < |slots| && slots[k] == r.value && r.value.pinId == pinId
                                    && forall j :: 0 <= j < k ==> slots[j].pinId != pinId
  {
    var k := FirstMatch(slots, (s: PinSlot) => s.pinId == pinId);
    if k < |slots| then Some(slots[k]) else None
  }

  /** The grid row of one pin: the first slot's position, or no position. */
  function WithSlot(slots: seq<PinSlot>, p: Pin): (r: PinWithSlot)
    ensures r.pin == p
    ensures FirstSlot(slots, p.id).None? ==> r.slotRow.None? && r.slotCol.None?
    ensures FirstSlot(slots, p.id).Some? ==>
              r.slotRow == FirstSlot(slots, p.id).value.rowPosition
              && r.slotCol == FirstSlot(slots, p.id).value.colPosition
  {
    match FirstSlot(slots, p.id)
    case None => PinWithSlot(p, None, None)
    case Some(slot) => PinWithSlot(p, slot.rowPosition, slot.colPosition)
  }

  /** `get_for_board_grid`: the board's active pins in table order, each with
      its first slot. */
  method GetForBoardGrid(db: Database, boardId: Uuid) returns (grid: seq<PinWithSlot>)
    ensures |grid| == |BoardActivePins(db.pins, boardId)|
    ensures forall k :: 0 <= k < |grid| ==>
              grid[k].pin == BoardActivePins(db.pins, boardId)[k]
              && grid[k].pin.boardId == boardId && grid[k].pin.status == Active
    ensures forall k :: 0 <= k < |grid| ==> grid[k] == WithSlot(db.pinSlots, grid[k].pin)
  {
    var rows := BoardActivePins(db.pins, boardId);
    grid := [];
    var i := 0;
    while i < |rows|
      invariant 0 <= i <= |rows|
      invariant |grid| == i
      invariant forall k :: 0 <= k < i ==> grid[k] == WithSlot(db.pinSlots, rows[k]) && grid[k].pin == rows[k]
    {
      var row := WithSlot(db.pinSlots, rows[i]);
      assert row.pin == rows[i];
      grid := grid + [row];
      i := i + 1;
    }
    assert forall k :: 0 <= k < |rows| ==> rows[k].boardId == boardId && rows[k].status == Active;
  }

  // ==================== Create ====================

  predicate FreshPinId(pins: seq<Pin>, id: Uuid)
  {
    forall k :: 0 <= k < |pins| ==> pins[k].id != id
  }

  /** The metadata `create` stores: the request's, or an empty one. */
  function StoredMetadata(c: PinCreate): (m: PinMetadata)
    ensures c.metadata.Some? ==> m == c.metadata.value
    ensures c.metadata.None? ==> m == EmptyMetadata
  {
    if c.metadata.Some? then c.metadata.value else EmptyMetadata
  }

  /** `create`: the caller becomes the owner; the key `newId` and the clock
      `now` are the database's. */
  method Create(db: Database, c: PinCreate, userId: Uuid, newId: Uuid, now: int) returns (pin: Pin)
    requires db.Valid()
    requires FreshPinId(db.pins, newId)
    modifies db`pins
    ensures db.Valid()
    ensures db.pins == old(db.pins) + [pin]
    ensures pin.id == newId && pin.userId == userId && pin.boardId == c.boardId
    ensures pin.metadata == Some(StoredMetadata(c))
    ensures pin.status == Active && pin.viewCount == 0 && pin.clickCount == 0
    ensures pin.title == c.title && pin.caption == c.caption && pin.featured == c.featured
    ensures pin.imageUrl == c.imageUrl && pin.thumbnailUrl == c.thumbnailUrl
    ensures pin.createdAt == now && pin.updatedAt == now && pin.expiresAt.None?
    ensures pin.subscriptionId.None? && pin.impressions24h == 0 && pin.lastImpressionReset.None?
    ensures ValidPinCreate(c) ==> ValidPin(pin)
  {
    pin := PinWithDefaults(newId, userId, c.(metadata := Some(StoredMetadata(c))), now);
    db.pins := db.pins + [pin];
  }

  // ==================== Update ====================

  /** The ownership check of `update` and `delete`: passes when no user is
      given, and otherwise only for an existing pin of that user. */
  predicate MayChange(pins: seq<Pin>, pinId: Uuid, userId: Option<Uuid>)
  {
    userId.Some? ==> FindPin(pins, pinId).Some? && FindPin(pins, pinId).value.userId == userId.value
  }

  /** `.update(data).eq("id", pin_id)`. */
  function UpdatePinsById(pins: seq<Pin>, pinId: Uuid, u: PinUpdate): (r: seq<Pin>)
    ensures |r| == |pins|
    ensures forall k :: 0 <= k < |pins| ==>
              r[k] == if pins[k].id == pinId then ApplyPinUpdate(pins[k], u) else pins[k]
  {
    seq(|pins|, k requires 0 <= k < |pins| =>
      if pins[k].id == pinId then ApplyPinUpdate(pins[k], u) else pins[k])
  }

  /** After the update the key finds the same row, with the update applied. */
  lemma UpdateFindsUpdatedPin(pins: seq<Pin>, pinId: Uuid, u: PinUpdate)
    ensures DistinctPinIds(pins) ==> DistinctPinIds(UpdatePinsById(pins, pinId, u))
    ensures FindPin(UpdatePinsById(pins, pinId, u), pinId)
            == match FindPin(pins, pinId)
               case None => None
               case Some(p) => Some(ApplyPinUpdate(p, u))
  {
    var r := UpdatePinsById(pins, pinId, u);
    assert forall k :: 0 <= k < |pins| ==> r[k].id == pins[k].id;
    assert PinIndex(r, pinId) == PinIndex(pins, pinId);
  }

  /** `update`. */
  method Update(db: Database, pinId: Uuid, u: PinUpdate, userId: Option<Uuid>) returns (r: Option<Pin>)
    requires db.Valid()
    modifies db`pins
    ensures db.Valid()
    ensures !MayChange(old(db.pins), pinId, userId) ==> r.None? && db.pins == old(db.pins)
    ensures MayChange(old(db.pins), pinId, userId) && IsEmptyUpdate(u) ==>
              r == FindPin(old(db.pins), pinId) && db.pins == old(db.pins)
    ensures MayChange(old(db.pins), pinId, userId) && !IsEmptyUpdate(u) ==>
              db.pins == UpdatePinsById(old(db.pins), pinId, u)
    ensures MayChange(old(db.pins), pinId, userId) ==>
              r == match FindPin(old(db.pins), pinId)
                   case None => None
                   case Some(p) => Some(ApplyPinUpdate(p, u))
  {
    if userId.Some? {
      var existing := FindPin(db.pins, pinId);
      if existing.None? || existing.value.userId != userId.value {
        return None;
      }
    }
    if IsEmptyUpdate(u) {
      return FindPin(db.pins, pinId);
    }
    UpdateFindsUpdatedPin(db.pins, pinId, u);
    db.pins := UpdatePinsById(db.pins, pinId, u);
    r := FindPin(db.pins, pinId);
  }

  // ==================== Delete ====================

  /** `.delete().eq("id", pin_id)`: the rows with other keys, in order. */
  function RemovePinsById(pins: seq<Pin>, pinId: Uuid): (r: seq<Pin>)
    ensures forall p :: p in r <==> p in pins && p.id != pinId
    ensures |r| <= |pins|
    ensures FindPin(pins, pinId).None? ==> r == pins
    ensures FindPin(pins, pinId).Some? ==> |r| < |pins|
  {
    if |pins| == 0 then []
    else
      var rest := RemovePinsById(pins[1..], pinId);
      assert forall p :: p in pins <==> p == pins[0] || p in pins[1..];
      assert pins == [pins[0]] + pins[1..];
      if pins[0].id != pinId then [pins[0]] + rest else rest
  }

  lemma {:induction false} RemoveKeepsKeys(pins: seq<Pin>, pinId: Uuid)
    requires DistinctPinIds(pins)
    ensures DistinctPinIds(RemovePinsById(pins, pinId))
  {
    if |pins| > 0 {
      RemoveKeepsKeys(pins[1..], pinId);
      var rest := RemovePinsById(pins[1..], pinId);
      assert forall k :: 0 <= k < |rest| ==> rest[k] in pins[1..];
    }
  }

  /** `delete`: false when the ownership check fails; otherwise true exactly
      when a row with the key existed and was removed. */
  method Delete(db: Database, pinId: Uuid, userId: Option<Uuid>) returns (deleted: bool)
    requires db.Valid()
    modifies db`pins
    ensures db.Valid()
    ensures deleted <==> MayChange(old(db.pins), pinId, userId) && FindPin(old(db.pins), pinId).Some?
    ensures !MayChange(old(db.pins), pinId, userId) ==> db.pins == old(db.pins)
    ensures MayChange(old(db.pins), pinId, userId) ==> db.pins == RemovePinsById(old(db.pins), pinId)
    ensures deleted <==> |db.pins| < |old(db.pins)|
  {
    if userId.Some? {
      var existing := FindPin(db.pins, pinId);
      if existing.None? || existing.value.userId != userId.value {
        return false;
      }
    }
    var before := db.pins;
    RemoveKeepsKeys(db.pins, pinId);
    db.pins := RemovePinsById(db.pins, pinId);
    deleted := |db.pins| < |before|;
  }

  /** A pin is gone after a permitted delete, and every other pin stays. */
  lemma DeleteRemovesExactlyThePin(pins: seq<Pin>, pinId: Uuid)
    ensures FindPin(RemovePinsById(pins, pinId), pinId).None?
    ensures forall p :: p in pins && p.id != pinId ==> p in RemovePinsById(pins, pinId)
  {
    var r := RemovePinsById(pins, pinId);
    assert forall k :: 0 <= k < |r| ==> r[k] in r;
  }
}
