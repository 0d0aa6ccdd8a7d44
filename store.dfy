/** The database the services talk to, as in-memory tables.  Each table is a
    sequence of rows in the order the database returns them; the primary keys
    are distinct, which is the one constraint of the database the services
    rely on. */
module Store {
  import opened Common
  import opened SubscriptionModels
  import opened PinModels

  /** A row of the `pin_slots` table, which the services only read. */
  datatype PinSlot = PinSlot(pinId: Uuid, rowPosition: Option<int>, colPosition: Option<int>)

  /** An analytics record (`impressions`, `clicks`): column name to value. */
  type Record = map<string, string>

  predicate DistinctSubscriptionIds(rows: seq<Subscription>)
  {
    forall i, j :: 0 <= i < j < |rows| ==> rows[i].id != rows[j].id
  }

  predicate DistinctPinIds(rows: seq<Pin>)
  {
    forall i, j :: 0 <= i < j < |rows| ==> rows[i].id != rows[j].id
  }

  predicate DistinctBookingIds(rows: seq<FeaturedBooking>)
  {
    forall i, j :: 0 <= i < j < |rows| ==> rows[i].id != rows[j].id
  }

  /** Position of the pin with key `id` (`.select(...).eq("id", id)`), or
      `|pins|` when there is none. */
  function PinIndex(pins: seq<Pin>, id: Uuid): (k: nat)
    ensures k <= |pins|
    ensures forall j :: 0 <= j < k ==> pins[j].id != id
    ensures k < |pins| ==> pins[k].id == id
  {
    FirstMatch(pins, (p: Pin) => p.id == id)
  }

  function FindPin(pins: seq<Pin>, id: Uuid): (r: Option<Pin>)
    ensures r.None? <==> forall k :: 0 <= k < |pins| ==> pins[k].id != id
    ensures r.Some? ==> r.value in pins && r.value.id == id
  {
    var k := PinIndex(pins, id);
    if k < |pins| then Some(pins[k]) else None
  }

  /** `.eq("board_id", id).eq("status", "active")` on `pins`: the board's
      active pins, in table order. */
  function BoardActivePins(pins: seq<Pin>, boardId: Uuid): (r: seq<Pin>)
    ensures |r| <= |pins|
    ensures forall k :: 0 <= k < |r| ==> r[k].boardId == boardId && r[k].status == PinModels.Active
    ensures r == [] <==> forall k :: 0 <= k < |pins| ==>
                           !(pins[k].boardId == boardId && pins[k].status == PinModels.Active)
    ensures forall p :: p in r <==> p in pins && p.boardId == boardId && p.status == PinModels.Active
  {
    if |pins| == 0 then []
    else
      var rest := BoardActivePins(pins[1..], boardId);
      assert forall k :: 0 <= k < |pins| - 1 ==> pins[1..][k] == pins[k + 1];
      assert forall p :: p in pins <==> p == pins[0] || p in pins[1..];
      if pins[0].boardId == boardId && pins[0].status == PinModels.Active then [pins[0]] + rest
      else rest
  }

  /** The query keeps every copy of a matching row and none of the others. */
  lemma {:induction false} BoardActivePinsCounts(pins: seq<Pin>, boardId: Uuid, p: Pin)
    ensures multiset(BoardActivePins(pins, boardId))[p]
            == if p.boardId == boardId && p.status == PinModels.Active then multiset(pins)[p] else 0
  {
    if |pins| > 0 {
      BoardActivePinsCounts(pins[1..], boardId, p);
      assert pins == [pins[0]] + pins[1..];
    }
  }

  /** The query keeps table order: the active board pins of two runs of rows
      are those of the first followed by those of the second. */
  lemma {:induction false} BoardActivePinsAppend(a: seq<Pin>, b: seq<Pin>, boardId: Uuid)
    ensures BoardActivePins(a + b, boardId) == BoardActivePins(a, boardId) + BoardActivePins(b, boardId)
    decreases |a|
  {
    if |a| == 0 {
      assert a + b == b;
    } else {
      assert (a + b)[0] == a[0];
      assert (a + b)[1..] == a[1..] + b;
      BoardActivePinsAppend(a[1..], b, boardId);
    }
  }

  class Database {
    var subscriptions: seq<Subscription>
    var pins: seq<Pin>
    var pinSlots: seq<PinSlot>
    var bookings: seq<FeaturedBooking>
    var impressions: seq<Record>
    var clicks: seq<Record>

    /** Primary keys are distinct. */
    ghost predicate Valid()
      reads this
    {
      DistinctSubscriptionIds(subscriptions)
      && DistinctPinIds(pins)
      && DistinctBookingIds(bookings)
    }

    constructor ()
      ensures Valid()
      ensures subscriptions == [] && pins == [] && pinSlots == []
      ensures bookings == [] && impressions == [] && clicks == []
    {
      subscriptions, pins, pinSlots := [], [], [];
      bookings, impressions, clicks := [], [], [];
    }
  }
}
