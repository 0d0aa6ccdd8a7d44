/** The rotation skeleton of backend/app/services/rotation_service.py: which
    pins of a board take part, where today's featured pin goes, how many pins
    are returned, and the daily reset of the impression counters.  The
    weights are left out, so each pick of the weighted shuffle is an
    arbitrary remaining item. */
module RotationService {
  import opened Common
  import opened SubscriptionModels
  import PinModels
  import opened Store
  import SubscriptionService
  import FeaturedService

  type Pin = PinModels.Pin

  /** Indices into which the featured pin may be inserted. */
  const FeaturedPositions: seq<nat> := [0, 1, 2, 3]

  // ==================== Weighted shuffle ====================

  /** `_weighted_shuffle`: repeatedly move one remaining item (the one the
      weighted draw lands on) to the end of the result.  Whichever item each
      step takes, the result is a rearrangement of the input. */
  method WeightedShuffle<T>(weighted: seq<T>) returns (result: seq<T>)
    ensures multiset(result) == multiset(weighted)
    ensures |result| == |weighted|
    ensures weighted == [] ==> result == []
  {
    if |weighted| == 0 {
      return [];
    }
    result := [];
    var items := weighted;
    while |items| > 0
      invariant multiset(result) + multiset(items) == multiset(weighted)
      invariant |result| + |items| == |weighted|
      decreases |items|
    {
      var i :| 0 <= i < |items|;
      result := result + [items[i]];
      assert items == items[..i] + [items[i]] + items[i + 1..];
      items := items[..i] + items[i + 1..];
    }
  }

  // ==================== Rotation ====================

  /** The embedded `subscriptions(status)` of a pin: none when the pin has no
      subscription or the key matches no row. */
  function JoinedStatus(subscriptions: seq<Subscription>, pin: Pin): (r: Option<Status>)
    ensures pin.subscriptionId.None? ==> r.None?
    ensures r.Some? ==> exists k :: 0 <= k < |subscriptions| && Some(subscriptions[k].id) == pin.subscriptionId
                                    && subscriptions[k].status == r.value
  {
    if pin.subscriptionId.None? then None
    else
      var k := FirstMatch(subscriptions, (s: Subscription) => s.id == pin.subscriptionId.value);
      if k < |subscriptions| then Some(subscriptions[k].status) else None
  }

  /** A pin takes part unless it is joined to a subscription that is neither
      active nor past due. */
  predicate Eligible(subscriptions: seq<Subscription>, pin: Pin)
  {
    var s := JoinedStatus(subscriptions, pin);
    s.None? || SubscriptionService.IsLiveStatus(s.value)
  }

  /** The pin of the first paid booking of the board for today. */
  function FeaturedPinId(bookings: seq<FeaturedBooking>, boardId: Uuid, today: int): (r: Option<Uuid>)
    ensures r.None? <==> forall k :: 0 <= k < |bookings| ==> !FeaturedService.PaidToday(bookings[k], boardId, today)
    ensures r.Some? ==> exists k :: 0 <= k < |bookings| && FeaturedService.PaidToday(bookings[k], boardId, today)
                                    && bookings[k].pinId == r.value
  {
    var k := FirstMatch(bookings, (b: FeaturedBooking) => FeaturedService.PaidToday(b, boardId, today));
    if k < |bookings| then Some(bookings[k].pinId) else None
  }

  /** The pins that enter the shuffle: eligible, and not the featured pin. */
  function Candidates(subscriptions: seq<Subscription>, pins: seq<Pin>, featuredId: Option<Uuid>)
    : (r: seq<Pin>)
    ensures |r| <= |pins|
    ensures forall k :: 0 <= k < |r| ==> Eligible(subscriptions, r[k]) && Some(r[k].id) != featuredId
    ensures forall k :: 0 <= k < |r| ==> r[k] in pins
    ensures forall k :: 0 <= k < |pins| && Eligible(subscriptions, pins[k]) && Some(pins[k].id) != featuredId
              ==> pins[k] in r
  {
    if |pins| == 0 then []
    else
      var last := pins[|pins| - 1];
      var init := pins[..|pins| - 1];
      var rest := Candidates(subscriptions, init, featuredId);
      assert forall k :: 0 <= k < |rest| ==> rest[k] in pins;
      assert forall k :: 0 <= k < |pins| - 1 ==> pins[k] == init[k];
      if Eligible(subscriptions, last) && Some(last.id) != featuredId then rest + [last] else rest
  }

  lemma SnocAssoc<T>(p: seq<T>, q: seq<T>, x: T)
    ensures (p + q) + [x] == p + (q + [x])
  {
  }

  /** One more pin at the end is kept exactly when it is a candidate. */
  lemma CandidatesSnoc(subscriptions: seq<Subscription>, pins: seq<Pin>, x: Pin, featuredId: Option<Uuid>)
    ensures Candidates(subscriptions, pins + [x], featuredId)
            == if Eligible(subscriptions, x) && Some(x.id) != featuredId
               then Candidates(subscriptions, pins, featuredId) + [x]
               else Candidates(subscriptions, pins, featuredId)
  {
    assert (pins + [x])[..|pins + [x]| - 1] == pins;
  }

  /** The shuffle's input keeps the table order: the candidates of two runs
      of pins are the candidates of the first followed by those of the
      second. */
  lemma {:induction false} CandidatesAppend(
    subscriptions: seq<Subscription>, a: seq<Pin>, b: seq<Pin>, featuredId: Option<Uuid>)
    ensures Candidates(subscriptions, a + b, featuredId)
            == Candidates(subscriptions, a, featuredId) + Candidates(subscriptions, b, featuredId)
    decreases |b|
  {
    if |b| == 0 {
      assert a + b == a;
    } else {
      var b', x := b[..|b| - 1], b[|b| - 1];
      assert b == b' + [x];
      assert a + b == (a + b') + [x];
      CandidatesSnoc(subscriptions, a + b', x, featuredId);
      CandidatesSnoc(subscriptions, b', x, featuredId);
      CandidatesAppend(subscriptions, a, b', featuredId);
      var ca, cb' := Candidates(subscriptions, a, featuredId), Candidates(subscriptions, b', featuredId);
      if Eligible(subscriptions, x) && Some(x.id) != featuredId {
        SnocAssoc(ca, cb', x);
      }
    }
  }

  /** The featured pin the loop of `get_rotated_pins` keeps: the last eligible
      pin with the featured key. */
  function FeaturedAmong(subscriptions: seq<Subscription>, pins: seq<Pin>, featuredId: Option<Uuid>)
    : (r: Option<Pin>)
    ensures featuredId.None? ==> r.None?
    ensures r.Some? ==> r.value in pins && Eligible(subscriptions, r.value) && Some(r.value.id) == featuredId
    ensures (exists k :: 0 <= k < |pins| && Eligible(subscriptions, pins[k]) && Some(pins[k].id) == featuredId)
            ==> r.Some?
  {
    if |pins| == 0 then None
    else
      var last := pins[|pins| - 1];
      if Eligible(subscriptions, last) && Some(last.id) == featuredId then Some(last)
      else
        var init := pins[..|pins| - 1];
        var r := FeaturedAmong(subscriptions, init, featuredId);
        assert r.Some? ==> r.value in pins;
        assert forall k :: 0 <= k < |pins| - 1 ==> pins[k] == init[k];
        r
  }

  /** `get_today_featured_pin` and the rotation run the same query: the
      board's featured pin is found exactly when today's first paid booking
      names a pin of the table, and it is that pin. */
  lemma TodayFeaturedPinIsRotationFeatured(
    bookings: seq<FeaturedBooking>, pins: seq<Pin>, boardId: Uuid, today: int)
    ensures var r := FeaturedService.TodayFeaturedPin(bookings, pins, boardId, today);
            var id := FeaturedPinId(bookings, boardId, today);
            && (r.Some? <==> id.Some? && FindPin(pins, id.value).Some?)
            && (r.Some? ==> r == FindPin(pins, id.value) && r.value.id == id.value)
  {
  }

  /** The featured pin never enters the shuffle. */
  lemma FeaturedNotCandidate(subscriptions: seq<Subscription>, pins: seq<Pin>, featuredId: Option<Uuid>, f: Pin)
    requires Some(f.id) == featuredId
    ensures f !in multiset(Candidates(subscriptions, pins, featuredId))
  {
  }

  /** The loop of `get_rotated_pins` over the board's pins: set the featured
      pin aside, skip ineligible pins, collect the rest. */
  method SplitFeatured(subscriptions: seq<Subscription>, pins: seq<Pin>, featuredId: Option<Uuid>)
    returns (weighted: seq<Pin>, featured: Option<Pin>)
    ensures weighted == Candidates(subscriptions, pins, featuredId)
    ensures featured == FeaturedAmong(subscriptions, pins, featuredId)
  {
    weighted, featured := [], None;
    var i := 0;
    while i < |pins|
      invariant 0 <= i <= |pins|
      invariant weighted == Candidates(subscriptions, pins[..i], featuredId)
      invariant featured == FeaturedAmong(subscriptions, pins[..i], featuredId)
    {
      var pin := pins[i];
      ghost var seen := pins[..i + 1];
      assert seen[..i] == pins[..i] && seen[i] == pin;
      assert Candidates(subscriptions, seen, featuredId)
             == if Eligible(subscriptions, pin) && Some(pin.id) != featuredId then weighted + [pin] else weighted;
      assert FeaturedAmong(subscriptions, seen, featuredId)
             == if Eligible(subscriptions, pin) && Some(pin.id) == featuredId then Some(pin) else featured;
      if Eligible(subscriptions, pin) {
        if Some(pin.id) == featuredId {
          featured := Some(pin);
        } else {
          weighted := weighted + [pin];
        }
      }
      i := i + 1;
    }
    assert pins[..i] == pins;
  }

  /** Where the featured pin goes: the drawn position, or the end when the
      shuffle is shorter. */
  function FeaturedSlot(candidates: seq<Pin>, position: nat): (slot: nat)
    ensures slot <= |candidates| && slot <= position
    ensures slot == position || slot == |candidates|
  {
    if position < |candidates| then position else |candidates|
  }

  /** The rotation before the cut: the candidates in some order, with the
      featured pin, if any, once at its slot. */
  predicate Arrangement(candidates: seq<Pin>, featured: Option<Pin>, position: nat, arranged: seq<Pin>)
  {
    match featured
    case None => multiset(arranged) == multiset(candidates)
    case Some(f) =>
      && multiset(arranged) == multiset(candidates) + multiset{f}
      && f !in multiset(candidates)
      && FeaturedSlot(candidates, position) < |arranged|
      && arranged[FeaturedSlot(candidates, position)] == f
  }

  /** `shuffled.insert(insert_position, featured_pin)`, with the drawn
      position cut down to the length of the shuffle. */
  method InsertFeatured(candidates: seq<Pin>, shuffled: seq<Pin>, featured: Option<Pin>, position: nat)
    returns (arranged: seq<Pin>)
    requires position < |FeaturedPositions|
    requires multiset(shuffled) == multiset(candidates)
    requires featured.Some? ==> featured.value !in multiset(candidates)
    ensures Arrangement(candidates, featured, position, arranged)
  {
    arranged := shuffled;
    if featured.Some? {
      assert |shuffled| == |multiset(shuffled)| == |multiset(candidates)| == |candidates|;
      var insertPosition := FeaturedPositions[position];
      insertPosition := if insertPosition < |shuffled| then insertPosition else |shuffled|;
      arranged := InsertAt(shuffled, insertPosition, featured.value);
    }
  }

  /** `get_rotated_pins`.  `position` is the draw from the featured positions;
      `arranged` is the whole rotation before the `limit` cut. */
  method GetRotatedPins(db: Database, boardId: Uuid, today: int, limit: int, position: nat)
    returns (result: seq<Pin>, ghost arranged: seq<Pin>)
    requires position < |FeaturedPositions|
    ensures BoardActivePins(db.pins, boardId) == [] ==> result == []
    ensures result == SliceTo(arranged, limit)
    ensures limit >= 0 ==> |result| <= limit
    ensures var pins := BoardActivePins(db.pins, boardId);
            var featuredId := FeaturedPinId(db.bookings, boardId, today);
            pins != [] ==>
              Arrangement(Candidates(db.subscriptions, pins, featuredId),
                          FeaturedAmong(db.subscriptions, pins, featuredId), position, arranged)
  {
    var pins := BoardActivePins(db.pins, boardId);
    if |pins| == 0 {
      return [], [];
    }
    var featuredId := FeaturedPinId(db.bookings, boardId, today);
    var weighted, featured := SplitFeatured(db.subscriptions, pins, featuredId);
    var shuffled := WeightedShuffle(weighted);
    if featured.Some? {
      FeaturedNotCandidate(db.subscriptions, pins, featuredId, featured.value);
    }
    var rotation := InsertFeatured(weighted, shuffled, featured, position);
    arranged := rotation;
    result := SliceTo(rotation, limit);
  }

  // ==================== Datetime parsing ====================

  predicate EndsWithZ(s: string)
  {
    |s| > 0 && s[|s| - 1] == 'Z'
  }

  /** The "Z" suffix of `_parse_datetime` rewritten to "+00:00". */
  function UtcSuffix(s: string): (r: string)
    ensures !EndsWithZ(r)
    ensures EndsWithZ(s) ==> r == s[..|s| - 1] + "+00:00"
    ensures !EndsWithZ(s) ==> r == s
  {
    if EndsWithZ(s) then s[..|s| - 1] + "+00:00" else s
  }

  /** Rewriting the suffix twice is rewriting it once. */
  lemma UtcSuffixIdempotent(s: string)
    ensures UtcSuffix(UtcSuffix(s)) == UtcSuffix(s)
  {
  }

  /** `_parse_datetime`: nothing for a missing or empty string; otherwise the
      ISO parse (`fromIso`, which fails with none) of the rewritten string. */
  function ParseDatetime(dt: Option<string>, fromIso: string -> Option<int>): (r: Option<int>)
    ensures dt.None? || dt == Some("") ==> r.None?
    ensures HasText(dt) && EndsWithZ(dt.value) ==> r == fromIso(dt.value[..|dt.value| - 1] + "+00:00")
    ensures HasText(dt) && !EndsWithZ(dt.value) ==> r == fromIso(dt.value)
  {
    if !HasText(dt) then None else fromIso(UtcSuffix(dt.value))
  }

  // ==================== Daily impression reset ====================

  /** Selected by the reset sweep: last reset strictly before the cutoff (a
      null column never compares below). */
  predicate Stale(p: Pin, cutoff: int)
  {
    p.lastImpressionReset.Some? && p.lastImpressionReset.value < cutoff
  }

  function StalePins(pins: seq<Pin>, cutoff: int): (r: seq<Pin>)
    ensures forall p :: p in r <==> p in pins && Stale(p, cutoff)
    ensures |r| <= |pins|
  {
    if |pins| == 0 then []
    else (if Stale(pins[0], cutoff) then [pins[0]] else []) + StalePins(pins[1..], cutoff)
  }

  function PinIdsOf(pins: seq<Pin>): (ids: set<Uuid>)
    ensures forall id :: id in ids <==> exists k :: 0 <= k < |pins| && pins[k].id == id
  {
    set k | 0 <= k < |pins| :: pins[k].id
  }

  /** A pin whose counter was reset at `now`. */
  function ResetPin(p: Pin, now: int): (r: Pin)
    ensures r.impressions24h == 0 && r.lastImpressionReset == Some(now)
    ensures r.id == p.id && r.boardId == p.boardId && r.status == p.status
  {
    p.(impressions24h := 0, lastImpressionReset := Some(now))
  }

  /** The pins with a key in `ids`, reset at `now`. */
  function ResetIds(pins: seq<Pin>, ids: set<Uuid>, now: int): (r: seq<Pin>)
    ensures |r| == |pins|
    ensures forall k :: 0 <= k < |pins| ==> r[k] == if pins[k].id in ids then ResetPin(pins[k], now) else pins[k]
  {
    seq(|pins|, k requires 0 <= k < |pins| => if pins[k].id in ids then ResetPin(pins[k], now) else pins[k])
  }

  /** `.update({...}).eq("id", id)` on `pins`. */
  function ResetWhereId(pins: seq<Pin>, id: Uuid, now: int): (r: seq<Pin>)
    ensures |r| == |pins|
    ensures forall k :: 0 <= k < |pins| ==> r[k] == if pins[k].id == id then ResetPin(pins[k], now) else pins[k]
  {
    seq(|pins|, k requires 0 <= k < |pins| => if pins[k].id == id then ResetPin(pins[k], now) else pins[k])
  }

  lemma PinIdsOfSnoc(pins: seq<Pin>, p: Pin)
    ensures PinIdsOf(pins + [p]) == PinIdsOf(pins) + {p.id}
  {
    var all := pins + [p];
    assert all[|pins|] == p;
    forall id | id in PinIdsOf(pins) ensures id in PinIdsOf(all) {
      var k :| 0 <= k < |pins| && pins[k].id == id;
      assert all[k] == pins[k];
    }
  }

  /** Resetting one more key; a row reset twice at the same time is reset once. */
  lemma ResetStep(pins: seq<Pin>, ids: set<Uuid>, id: Uuid, now: int)
    ensures ResetWhereId(ResetIds(pins, ids, now), id, now) == ResetIds(pins, ids + {id}, now)
  {
  }

  /** With distinct keys, a pin's key is selected exactly when the pin is stale. */
  lemma StaleIds(pins: seq<Pin>, cutoff: int)
    requires DistinctPinIds(pins)
    ensures forall k :: 0 <= k < |pins| ==> (pins[k].id in PinIdsOf(StalePins(pins, cutoff)) <==> Stale(pins[k], cutoff))
  {
    var selected := StalePins(pins, cutoff);
    forall k | 0 <= k < |pins|
      ensures pins[k].id in PinIdsOf(selected) <==> Stale(pins[k], cutoff)
    {
      if pins[k].id in PinIdsOf(selected) {
        var j :| 0 <= j < |selected| && selected[j].id == pins[k].id;
        assert selected[j] in pins;
        var m :| 0 <= m < |pins| && pins[m] == selected[j];
      }
    }
  }

  lemma ResetKeepsKeys(pins: seq<Pin>, ids: set<Uuid>, now: int)
    ensures DistinctPinIds(pins) ==> DistinctPinIds(ResetIds(pins, ids, now))
  {
    var r := ResetIds(pins, ids, now);
    assert forall k :: 0 <= k < |pins| ==> r[k].id == pins[k].id;
  }

  /** The update loop of `reset_daily_impressions`, one selected pin at a
      time. */
  method ResetEach(pins0: seq<Pin>, selected: seq<Pin>, now: int) returns (pins: seq<Pin>)
    ensures pins == ResetIds(pins0, PinIdsOf(selected), now)
  {
    pins := pins0;
    var i := 0;
    while i < |selected|
      invariant 0 <= i <= |selected|
      invariant pins == ResetIds(pins0, PinIdsOf(selected[..i]), now)
    {
      var pin := selected[i];
      assert selected[..i + 1] == selected[..i] + [pin];
      PinIdsOfSnoc(selected[..i], pin);
      ResetStep(pins0, PinIdsOf(selected[..i]), pin.id, now);
      pins := ResetWhereId(pins, pin.id, now);
      i := i + 1;
    }
    assert selected[..i] == selected;
  }

  /** `reset_daily_impressions`: every pin last reset more than a day before
      `now` gets a zero counter and a reset time of `now`; every other pin is
      kept.  Returns how many pins were selected. */
  method ResetDailyImpressions(db: Database, now: int) returns (count: nat)
    requires db.Valid()
    modifies db`pins
    ensures db.Valid()
    ensures count == |StalePins(old(db.pins), now - 24 * 3600)|
    ensures |db.pins| == |old(db.pins)|
    ensures forall k :: 0 <= k < |db.pins| ==>
              db.pins[k] == if Stale(old(db.pins)[k], now - 24 * 3600) then ResetPin(old(db.pins)[k], now)
                            else old(db.pins)[k]
  {
    var cutoff := now - 24 * SecondsPerHour;
    var selected := StalePins(db.pins, cutoff);
    StaleIds(db.pins, cutoff);
    if |selected| == 0 {
      return 0;
    }
    ResetKeepsKeys(db.pins, PinIdsOf(selected), now);
    db.pins := ResetEach(db.pins, selected, now);
    count := |selected|;
  }
}
