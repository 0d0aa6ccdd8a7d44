/** The featured-spot calendar of backend/app/services/featured_service.py:
    one featured pin per board and day, bookable from tomorrow up to thirty
    days ahead, at a fixed price.  `today` is a day number; the payment
    intent the provider creates is an input. */
module FeaturedService {
  import opened Common
  import opened SubscriptionModels
  import PinModels
  import opened Store
  import SubscriptionService

  const FeaturedPriceCents: int := 500
  const MaxAdvanceDays: int := 30

  /** A "pending" or "paid" booking holds its date; "failed" and "refunded"
      ones do not. */
  predicate HoldsDate(b: FeaturedBooking)
  {
    b.paymentStatus == Pending || b.paymentStatus == Paid
  }

  /** `b` holds `date` on `boardId`. */
  predicate Holds(b: FeaturedBooking, boardId: Uuid, date: int)
  {
    b.boardId == boardId && b.date == date && HoldsDate(b)
  }

  /** At most one holding booking per (board, date). */
  predicate Exclusive(bookings: seq<FeaturedBooking>)
  {
    forall i, j :: 0 <= i < j < |bookings| && HoldsDate(bookings[i]) && HoldsDate(bookings[j]) ==>
      bookings[i].boardId != bookings[j].boardId || bookings[i].date != bookings[j].date
  }

  /** The rows of the `is_date_available` query. */
  function Blocking(bookings: seq<FeaturedBooking>, boardId: Uuid, date: int)
    : (r: seq<FeaturedBooking>)
    ensures forall b :: b in r <==> b in bookings && Holds(b, boardId, date)
    ensures |r| <= |bookings|
  {
    if |bookings| == 0 then []
    else (if Holds(bookings[0], boardId, date) then [bookings[0]] else [])
         + Blocking(bookings[1..], boardId, date)
  }

  /** `is_date_available`: a date in the booking window (after today, at most
      thirty days ahead) that no pending or paid booking of the board holds. */
  function IsDateAvailable(bookings: seq<FeaturedBooking>, boardId: Uuid, date: int, today: int)
    : (r: bool)
    ensures date <= today || date > today + 30 ==> !r
    ensures today < date <= today + 30 ==>
              (r <==> forall k :: 0 <= k < |bookings| ==> !Holds(bookings[k], boardId, date))
  {
    if date <= today then false
    else if date > today + MaxAdvanceDays then false
    else
      var found := Blocking(bookings, boardId, date);
      assert |found| == 0 <==> forall k :: 0 <= k < |bookings| ==> !Holds(bookings[k], boardId, date) by {
        if k :| 0 <= k < |bookings| && Holds(bookings[k], boardId, date) {
          assert bookings[k] in found;
        }
        if |found| > 0 {
          assert found[0] in found;
        }
      }
      |found| == 0
  }

  /** The user recorded for `date` by the `booked_dates` loop: the last
      holding booking of the board on that date wins. */
  function LastBooker(bookings: seq<FeaturedBooking>, boardId: Uuid, date: int): (r: Option<Uuid>)
    ensures r.None? <==> forall k :: 0 <= k < |bookings| ==> !Holds(bookings[k], boardId, date)
    ensures r.Some? ==> exists k :: 0 <= k < |bookings| && Holds(bookings[k], boardId, date)
                                    && bookings[k].userId == r.value
  {
    if |bookings| == 0 then None
    else
      var last := bookings[|bookings| - 1];
      if Holds(last, boardId, date) then Some(last.userId)
      else
        var r := LastBooker(bookings[..|bookings| - 1], boardId, date);
        assert forall k :: 0 <= k < |bookings| - 1 ==> bookings[..|bookings| - 1][k] == bookings[k];
        r
  }

  /** Under exclusivity the recorded booker is the one holding booking's user. */
  lemma {:induction false} ExclusiveBooker(bookings: seq<FeaturedBooking>, k: nat)
    requires Exclusive(bookings) && k < |bookings| && HoldsDate(bookings[k])
    ensures LastBooker(bookings, bookings[k].boardId, bookings[k].date) == Some(bookings[k].userId)
  {
    var b := bookings[k];
    var n := |bookings|;
    if k < n - 1 {
      var prefix := bookings[..n - 1];
      assert !Holds(bookings[n - 1], b.boardId, b.date);
      assert prefix[k] == b;
      assert Exclusive(prefix) by {
        forall i, j | 0 <= i < j < |prefix| && HoldsDate(prefix[i]) && HoldsDate(prefix[j])
          ensures prefix[i].boardId != prefix[j].boardId || prefix[i].date != prefix[j].date
        {
          assert prefix[i] == bookings[i] && prefix[j] == bookings[j];
        }
      }
      ExclusiveBooker(prefix, k);
    }
  }

  /** Inside the booking window, `is_date_available` and the calendar agree. */
  lemma AvailableIffNoBooker(bookings: seq<FeaturedBooking>, boardId: Uuid, date: int, today: int)
    requires today < date <= today + 30
    ensures IsDateAvailable(bookings, boardId, date, today) <==> LastBooker(bookings, boardId, date).None?
  {
  }

  /** The `booked_dates` dictionary of `get_availability`: for each date of
      the window, the user of the last holding booking of the board. */
  method BookedDates(bookings: seq<FeaturedBooking>, boardId: Uuid, start: int, end: int)
    returns (booked: map<int, Uuid>)
    ensures forall d :: d in booked <==> start <= d <= end && LastBooker(bookings, boardId, d).Some?
    ensures forall d :: d in booked ==> Some(booked[d]) == LastBooker(bookings, boardId, d)
  {
    booked := map[];
    var i := 0;
    while i < |bookings|
      invariant 0 <= i <= |bookings|
      invariant forall d :: d in booked <==> start <= d <= end && LastBooker(bookings[..i], boardId, d).Some?
      invariant forall d :: d in booked ==> Some(booked[d]) == LastBooker(bookings[..i], boardId, d)
    {
      var b := bookings[i];
      assert bookings[..i + 1][..i] == bookings[..i];
      assert bookings[..i + 1][i] == b;
      if b.boardId == boardId && start <= b.date <= end && HoldsDate(b) {
        booked := booked[b.date := b.userId];
      }
      i := i + 1;
    }
    assert bookings[..i] == bookings;
  }

  /** What a calendar entry says about its day: available exactly when
      `is_date_available` says so, which is exactly when no booking holds the
      day, and booked by the user exactly when the recorded booker is that
      user. */
  predicate Tells(bookings: seq<FeaturedBooking>, boardId: Uuid, userId: Option<Uuid>, today: int,
                  e: FeaturedAvailability)
  {
    && e.isAvailable == IsDateAvailable(bookings, boardId, e.date, today)
    && (e.isAvailable <==> LastBooker(bookings, boardId, e.date).None?)
    && (e.bookedByUser <==> userId.Some? && LastBooker(bookings, boardId, e.date) == Some(userId.value))
  }

  /** `get_availability`: one entry per day from tomorrow to
      `today + min(days, 30)`, in order, each telling the state of its day. */
  method GetAvailability(db: Database, boardId: Uuid, userId: Option<Uuid>, days: int, today: int)
    returns (entries: seq<FeaturedAvailability>)
    ensures |entries| == NonNegative(if days < 30 then days else 30)
    ensures forall k :: 0 <= k < |entries| ==> entries[k].date == today + 1 + k
    ensures forall k :: 0 <= k < |entries| ==> Tells(db.bookings, boardId, userId, today, entries[k])
  {
    var start := today + 1;
    var end := today + (if days < MaxAdvanceDays then days else MaxAdvanceDays);
    var bookings := db.bookings;
    var booked := BookedDates(bookings, boardId, start, end);
    entries := [];
    var current := start;
    while current <= end
      invariant current == start + |entries|
      invariant current <= end + 1 || entries == []
      invariant forall k :: 0 <= k < |entries| ==> entries[k].date == start + k
      invariant forall k :: 0 <= k < |entries| ==> Tells(bookings, boardId, userId, today, entries[k])
    {
      var bookedBy := if current in booked then Some(booked[current]) else None;
      assert bookedBy == LastBooker(bookings, boardId, current);
      var entry := FeaturedAvailability(current, bookedBy.None?, userId.Some? && bookedBy == Some(userId.value));
      EntryMeaning(bookings, boardId, userId, today, entry);
      entries := entries + [entry];
      current := current + 1;
    }
  }

  /** An entry built from the recorded booker of its day tells that day. */
  lemma EntryMeaning(bookings: seq<FeaturedBooking>, boardId: Uuid, userId: Option<Uuid>, today: int,
                     e: FeaturedAvailability)
    requires today < e.date <= today + 30
    requires e.isAvailable == LastBooker(bookings, boardId, e.date).None?
    requires e.bookedByUser == (userId.Some? && LastBooker(bookings, boardId, e.date) == Some(userId.value))
    ensures Tells(bookings, boardId, userId, today, e)
  {
    AvailableIffNoBooker(bookings, boardId, e.date, today);
  }

  // ==================== Booking ====================

  /** The `ValueError`s of `create_booking`, plus a provider error while
      creating the payment intent. */
  datatype BookingError =
    | SubscriptionRequired
    | DateUnavailable
    | PinNotFound
    | NotPinOwner
    | WrongBoard
    | NoPaymentMethod
    | PaymentFailure

  /** The payment intent the provider created. */
  datatype PaymentIntent = PaymentIntent(id: string, clientSecret: string)

  /** The inserted row together with the intent's client secret. */
  datatype BookingReceipt = BookingReceipt(booking: FeaturedBooking, clientSecret: string)

  predicate FreshBookingId(bookings: seq<FeaturedBooking>, id: Uuid)
  {
    forall k :: 0 <= k < |bookings| ==> bookings[k].id != id
  }

  /** Adding a booking for a date that `is_date_available` reports free keeps
      at most one holding booking per (board, date). */
  lemma {:induction false} InsertAvailableKeepsExclusive(
    bookings: seq<FeaturedBooking>, b: FeaturedBooking, today: int)
    requires Exclusive(bookings) && IsDateAvailable(bookings, b.boardId, b.date, today)
    ensures Exclusive(bookings + [b])
  {
    var all := bookings + [b];
    forall i, j | 0 <= i < j < |all| && HoldsDate(all[i]) && HoldsDate(all[j])
      ensures all[i].boardId != all[j].boardId || all[i].date != all[j].date
    {
      assert all[i] == bookings[i];
      if j < |bookings| {
        assert all[j] == bookings[j];
      } else {
        assert !Holds(bookings[i], b.boardId, b.date);
      }
    }
  }

  /** The row `create_booking` inserts: pending, at the fixed price. */
  function NewBooking(id: Uuid, pinId: Uuid, boardId: Uuid, userId: Uuid, date: int, intentId: string)
    : (r: FeaturedBooking)
    ensures r.paymentStatus == Pending && r.amountCents == 500 && HoldsDate(r)
    ensures r.id == id && r.pinId == pinId && r.boardId == boardId && r.userId == userId
    ensures r.date == date && r.paymentIntentId == Some(intentId)
  {
    FeaturedBooking(id, pinId, boardId, userId, date, FeaturedPriceCents, Some(intentId), Pending)
  }

  /** `create_booking`.  The guards run in the source's order and the first
      that fails decides the error; nothing is inserted unless all pass. */
  method CreateBooking(
    db: Database, pinId: Uuid, boardId: Uuid, userId: Uuid, date: int, today: int,
    intent: Option<PaymentIntent>, newId: Uuid)
    returns (r: Result<BookingReceipt, BookingError>)
    requires db.Valid() && FreshBookingId(db.bookings, newId)
    modifies db`bookings
    ensures db.Valid()
    ensures !SubscriptionService.IsSubscriptionActive(db.subscriptions, userId) ==>
              r == Err(SubscriptionRequired)
    ensures SubscriptionService.IsSubscriptionActive(db.subscriptions, userId)
            && !IsDateAvailable(old(db.bookings), boardId, date, today) ==>
              r == Err(DateUnavailable)
    ensures r.Ok? <==>
              SubscriptionService.IsSubscriptionActive(db.subscriptions, userId)
              && IsDateAvailable(old(db.bookings), boardId, date, today)
              && FindPin(db.pins, pinId).Some?
              && FindPin(db.pins, pinId).value.userId == userId
              && FindPin(db.pins, pinId).value.boardId == boardId
              && HasText(SubscriptionService.FindByUser(db.subscriptions, userId).value.stripeCustomerId)
              && intent.Some?
    ensures r.Err? ==> db.bookings == old(db.bookings)
    ensures r.Ok? ==>
              r.value == BookingReceipt(NewBooking(newId, pinId, boardId, userId, date, intent.value.id),
                                        intent.value.clientSecret)
              && db.bookings == old(db.bookings) + [r.value.booking]
    ensures Exclusive(old(db.bookings)) ==> Exclusive(db.bookings)
  {
    if !SubscriptionService.IsSubscriptionActive(db.subscriptions, userId) {
      return Err(SubscriptionRequired);
    }
    if !IsDateAvailable(db.bookings, boardId, date, today) {
      return Err(DateUnavailable);
    }
    var pin := FindPin(db.pins, pinId);
    if pin.None? {
      return Err(PinNotFound);
    }
    if pin.value.userId != userId {
      return Err(NotPinOwner);
    }
    if pin.value.boardId != boardId {
      return Err(WrongBoard);
    }
    var subscription := SubscriptionService.FindByUser(db.subscriptions, userId);
    if subscription.None? || !HasText(subscription.value.stripeCustomerId) {
      return Err(NoPaymentMethod);
    }
    if intent.None? {
      return Err(PaymentFailure);
    }
    var booking := NewBooking(newId, pinId, boardId, userId, date, intent.value.id);
    if Exclusive(db.bookings) {
      InsertAvailableKeepsExclusive(db.bookings, booking, today);
    }
    db.bookings := db.bookings + [booking];
    r := Ok(BookingReceipt(booking, intent.value.clientSecret));
  }

  // ==================== Status updates ====================

  /** `.update({"payment_status": s}).eq("id", id)`. */
  function SetStatusById(bookings: seq<FeaturedBooking>, id: Uuid, s: PaymentStatus)
    : (r: seq<FeaturedBooking>)
    ensures |r| == |bookings|
    ensures forall k :: 0 <= k < |bookings| ==>
              r[k] == if bookings[k].id == id then bookings[k].(paymentStatus := s) else bookings[k]
  {
    seq(|bookings|, k requires 0 <= k < |bookings| =>
      if bookings[k].id == id then bookings[k].(paymentStatus := s) else bookings[k])
  }

  function BookingIndex(bookings: seq<FeaturedBooking>, id: Uuid): (k: nat)
    ensures k <= |bookings|
    ensures forall j :: 0 <= j < k ==> bookings[j].id != id
    ensures k < |bookings| ==> bookings[k].id == id
  {
    FirstMatch(bookings, (b: FeaturedBooking) => b.id == id)
  }

  function FindBooking(bookings: seq<FeaturedBooking>, id: Uuid): (r: Option<FeaturedBooking>)
    ensures r.None? <==> forall k :: 0 <= k < |bookings| ==> bookings[k].id != id
    ensures r.Some? ==> r.value in bookings && r.value.id == id
  {
    var k := BookingIndex(bookings, id);
    if k < |bookings| then Some(bookings[k]) else None
  }

  /** Setting a status twice is setting it once. */
  lemma SetStatusByIdIdempotent(bookings: seq<FeaturedBooking>, id: Uuid, s: PaymentStatus)
    ensures SetStatusById(SetStatusById(bookings, id, s), id, s) == SetStatusById(bookings, id, s)
  {
  }

  /** Status updates never touch the keys nor the (board, date) of a row. */
  lemma SetStatusKeepsKeys(bookings: seq<FeaturedBooking>, id: Uuid, s: PaymentStatus)
    ensures DistinctBookingIds(bookings) ==> DistinctBookingIds(SetStatusById(bookings, id, s))
  {
    var r := SetStatusById(bookings, id, s);
    assert forall k :: 0 <= k < |bookings| ==> r[k].id == bookings[k].id;
  }

  /** `confirm_booking`: the booking becomes paid whatever its status was;
      none for an unknown id. */
  method ConfirmBooking(db: Database, bookingId: Uuid) returns (r: Option<FeaturedBooking>)
    requires db.Valid()
    modifies db`bookings
    ensures db.Valid()
    ensures db.bookings == SetStatusById(old(db.bookings), bookingId, Paid)
    ensures r.None? <==> FindBooking(old(db.bookings), bookingId).None?
    ensures r.Some? ==> r.value == FindBooking(old(db.bookings), bookingId).value.(paymentStatus := Paid)
  {
    var before := FindBooking(db.bookings, bookingId);
    SetStatusKeepsKeys(db.bookings, bookingId, Paid);
    db.bookings := SetStatusById(db.bookings, bookingId, Paid);
    r := if before.Some? then Some(before.value.(paymentStatus := Paid)) else None;
  }

  /** Confirming a booking that already holds its date keeps exclusivity. */
  lemma {:induction false} ConfirmHoldingKeepsExclusive(bookings: seq<FeaturedBooking>, id: Uuid)
    requires Exclusive(bookings)
    requires forall k :: 0 <= k < |bookings| && bookings[k].id == id ==> HoldsDate(bookings[k])
    ensures Exclusive(SetStatusById(bookings, id, Paid))
  {
    var r := SetStatusById(bookings, id, Paid);
    forall i, j | 0 <= i < j < |r| && HoldsDate(r[i]) && HoldsDate(r[j])
      ensures r[i].boardId != r[j].boardId || r[i].date != r[j].date
    {
      assert HoldsDate(bookings[i]) && HoldsDate(bookings[j]);
    }
  }

  /** Confirming a failed booking can give a date two holding bookings: the
      status is not consulted before it is overwritten. */
  lemma ConfirmFailedBreaksExclusive()
    ensures var failed := FeaturedBooking("b1", "p1", "board", "u1", 10, 500, Some("pi_1"), Failed);
            var pending := FeaturedBooking("b2", "p2", "board", "u2", 10, 500, Some("pi_2"), Pending);
            Exclusive([failed, pending])
            && !Exclusive(SetStatusById([failed, pending], "b1", Paid))
  {
    var failed := FeaturedBooking("b1", "p1", "board", "u1", 10, 500, Some("pi_1"), Failed);
    var pending := FeaturedBooking("b2", "p2", "board", "u2", 10, 500, Some("pi_2"), Pending);
    var r := SetStatusById([failed, pending], "b1", Paid);
    assert r[0].id == "b1" && r[1].id != "b1" by {
      assert "b2"[1] != "b1"[1];
    }
    assert HoldsDate(r[0]) && HoldsDate(r[1]);
  }

  // ==================== Cancellation ====================

  /** `.delete().eq("id", id)`. */
  function RemoveById(bookings: seq<FeaturedBooking>, id: Uuid): (r: seq<FeaturedBooking>)
    ensures |r| <= |bookings|
  {
    if |bookings| == 0 then []
    else (if bookings[0].id == id then [] else [bookings[0]]) + RemoveById(bookings[1..], id)
  }

  /** Every row left by a removal is a row of the table, at the same or a
      later position. */
  lemma {:induction false} RemovedIndex(bookings: seq<FeaturedBooking>, id: Uuid, i: nat) returns (a: nat)
    requires i < |RemoveById(bookings, id)|
    ensures i <= a < |bookings| && bookings[a] == RemoveById(bookings, id)[i]
    ensures RemoveById(bookings, id)[i].id != id
  {
    var r, rest := RemoveById(bookings, id), RemoveById(bookings[1..], id);
    if bookings[0].id == id {
      assert r == rest;
      var a' := RemovedIndex(bookings[1..], id, i);
      a := a' + 1;
    } else if i == 0 {
      a := 0;
    } else {
      assert r == [bookings[0]] + rest;
      var a' := RemovedIndex(bookings[1..], id, i - 1);
      a := a' + 1;
    }
  }

  /** A removal keeps every row with another key. */
  lemma {:induction false} RemoveKeepsOthers(bookings: seq<FeaturedBooking>, id: Uuid, k: nat)
    requires k < |bookings| && bookings[k].id != id
    ensures bookings[k] in RemoveById(bookings, id)
  {
    if k > 0 {
      RemoveKeepsOthers(bookings[1..], id, k - 1);
      assert bookings[1..][k - 1] == bookings[k];
    }
  }

  /** A row whose key no row of `rows` has can lead it. */
  lemma DistinctCons(x: FeaturedBooking, rows: seq<FeaturedBooking>)
    requires DistinctBookingIds(rows)
    requires forall j :: 0 <= j < |rows| ==> x.id != rows[j].id
    ensures DistinctBookingIds([x] + rows)
  {
    var all := [x] + rows;
    assert forall j :: 0 < j < |all| ==> all[j] == rows[j - 1];
  }

  /** A row whose held day no row of `rows` holds can lead it. */
  lemma ExclusiveCons(x: FeaturedBooking, rows: seq<FeaturedBooking>)
    requires Exclusive(rows)
    requires forall j :: 0 <= j < |rows| && HoldsDate(x) && HoldsDate(rows[j]) ==>
               x.boardId != rows[j].boardId || x.date != rows[j].date
    ensures Exclusive([x] + rows)
  {
    var all := [x] + rows;
    assert forall j :: 0 < j < |all| ==> all[j] == rows[j - 1];
  }

  /** Removing rows keeps keys distinct. */
  lemma {:induction false} RemoveKeepsKeys(bookings: seq<FeaturedBooking>, id: Uuid)
    requires DistinctBookingIds(bookings)
    ensures DistinctBookingIds(RemoveById(bookings, id))
  {
    if |bookings| > 0 {
      var tail := bookings[1..];
      var rest := RemoveById(tail, id);
      assert forall j :: 0 <= j < |tail| ==> tail[j] == bookings[j + 1];
      RemoveKeepsKeys(tail, id);
      if bookings[0].id != id {
        assert RemoveById(bookings, id) == [bookings[0]] + rest;
        forall j | 0 <= j < |rest|
          ensures bookings[0].id != rest[j].id
        {
          var a := RemovedIndex(tail, id, j);
          assert rest[j] == bookings[a + 1];
        }
        DistinctCons(bookings[0], rest);
      } else {
        assert RemoveById(bookings, id) == rest;
      }
    }
  }

  /** Removing rows keeps at most one holding booking per board and day. */
  lemma {:induction false} RemoveKeepsExclusive(bookings: seq<FeaturedBooking>, id: Uuid)
    requires Exclusive(bookings)
    ensures Exclusive(RemoveById(bookings, id))
  {
    if |bookings| > 0 {
      var tail := bookings[1..];
      var rest := RemoveById(tail, id);
      assert forall j :: 0 <= j < |tail| ==> tail[j] == bookings[j + 1];
      RemoveKeepsExclusive(tail, id);
      if bookings[0].id != id {
        assert RemoveById(bookings, id) == [bookings[0]] + rest;
        forall j | 0 <= j < |rest| && HoldsDate(bookings[0]) && HoldsDate(rest[j])
          ensures bookings[0].boardId != rest[j].boardId || bookings[0].date != rest[j].date
        {
          var a := RemovedIndex(tail, id, j);
          assert rest[j] == bookings[a + 1];
        }
        ExclusiveCons(bookings[0], rest);
      } else {
        assert RemoveById(bookings, id) == rest;
      }
    }
  }

  /** `cancel_booking`: only the owner, and only for a date after today; the
      booking is deleted whatever its payment status. */
  method CancelBooking(db: Database, bookingId: Uuid, userId: Uuid, today: int) returns (ok: bool)
    requires db.Valid()
    modifies db`bookings
    ensures db.Valid()
    ensures ok <==> FindBooking(old(db.bookings), bookingId).Some?
                    && FindBooking(old(db.bookings), bookingId).value.userId == userId
                    && FindBooking(old(db.bookings), bookingId).value.date > today
    ensures db.bookings == if ok then RemoveById(old(db.bookings), bookingId) else old(db.bookings)
    ensures ok ==> forall k :: 0 <= k < |db.bookings| ==> db.bookings[k].id != bookingId
    ensures forall k :: 0 <= k < |old(db.bookings)| && old(db.bookings)[k].id != bookingId ==>
              old(db.bookings)[k] in db.bookings
    ensures Exclusive(old(db.bookings)) ==> Exclusive(db.bookings)
  {
    var booking := FindBooking(db.bookings, bookingId);
    if booking.None? {
      return false;
    }
    if booking.value.userId != userId {
      return false;
    }
    if booking.value.date <= today {
      return false;
    }
    RemoveKeepsKeys(db.bookings, bookingId);
    if Exclusive(db.bookings) {
      RemoveKeepsExclusive(db.bookings, bookingId);
    }
    db.bookings := RemoveById(db.bookings, bookingId);
    forall k | 0 <= k < |db.bookings| ensures db.bookings[k].id != bookingId {
      var _ := RemovedIndex(old(db.bookings), bookingId, k);
    }
    forall k | 0 <= k < |old(db.bookings)| && old(db.bookings)[k].id != bookingId
      ensures old(db.bookings)[k] in db.bookings
    {
      RemoveKeepsOthers(old(db.bookings), bookingId, k);
    }
    ok := true;
  }

  // ==================== Today's featured pin ====================

  predicate PaidToday(b: FeaturedBooking, boardId: Uuid, today: int)
  {
    b.boardId == boardId && b.date == today && b.paymentStatus == Paid
  }

  /** `get_today_featured_pin`: the pin joined to the first paid booking of
      the board for today, if that join found a pin. */
  function TodayFeaturedPin(bookings: seq<FeaturedBooking>, pins: seq<PinModels.Pin>, boardId: Uuid, today: int)
    : (r: Option<PinModels.Pin>)
    ensures (forall k :: 0 <= k < |bookings| ==> !PaidToday(bookings[k], boardId, today)) ==> r.None?
    ensures r.Some? ==> r.value in pins
                        && exists k :: 0 <= k < |bookings| && PaidToday(bookings[k], boardId, today)
                                       && bookings[k].pinId == r.value.id
    ensures forall k :: 0 <= k < |bookings| && PaidToday(bookings[k], boardId, today)
                        && (forall j :: 0 <= j < k ==> !PaidToday(bookings[j], boardId, today))
                        ==> r == FindPin(pins, bookings[k].pinId)
  {
    var k := FirstMatch(bookings, (b: FeaturedBooking) => PaidToday(b, boardId, today));
    if k < |bookings| then FindPin(pins, bookings[k].pinId) else None
  }
}
