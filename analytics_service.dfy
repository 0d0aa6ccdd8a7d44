/** The analytics bookkeeping of backend/app/services/analytics_service.py:
    impression and click records, and the per-pin statistics. */
module AnalyticsService {
  import opened Common
  import opened Store

  // ==================== Records ====================

  /** A record before `{k: v for k, v in data.items() if v is not None}`. */
  type Fields = map<string, Option<string>>

  /** The None-stripping comprehension. */
  function StripNone(m: Fields): (r: Record)
    ensures forall k :: k in r <==> k in m && m[k].Some?
    ensures forall k :: k in r ==> Some(r[k]) == m[k]
  {
    map k | k in m && m[k].Some? :: m[k].value
  }

  /** A record read back with every value present. */
  function Present(r: Record): (m: Fields)
    ensures m.Keys == r.Keys
    ensures forall k :: k in m ==> m[k] == Some(r[k])
  {
    map k | k in r :: Some(r[k])
  }

  /** Stripping undoes reading a record as fields, and stripping twice is
      stripping once. */
  lemma StripNoneRoundTrip(r: Record, m: Fields)
    ensures StripNone(Present(r)) == r
    ensures StripNone(Present(StripNone(m))) == StripNone(m)
  {
  }

  /** What the database answers an insert with. */
  datatype InsertOutcome =
    | Returned(rows: nat)   // the insert went through and returned that many rows
    | Raised                // the client raised

  function ImpressionFields(
    pinId: Uuid, boardId: Uuid, sessionId: Option<string>, userId: Option<Uuid>,
    ipAddress: Option<string>, userAgent: Option<string>, referrer: Option<string>): Fields
  {
    map["pin_id" := Some(pinId), "board_id" := Some(boardId), "session_id" := sessionId,
        "user_id" := userId, "ip_address" := ipAddress, "user_agent" := userAgent,
        "referrer" := referrer]
  }

  /** `track_impression`: true iff the insert returned a row; false, with
      nothing stored, when the client raised. */
  method TrackImpression(
    db: Database, pinId: Uuid, boardId: Uuid, sessionId: Option<string>, userId: Option<Uuid>,
    ipAddress: Option<string>, userAgent: Option<string>, referrer: Option<string>,
    outcome: InsertOutcome) returns (ok: bool)
    modifies db`impressions
    ensures ok <==> outcome.Returned? && outcome.rows > 0
    ensures outcome.Raised? ==> db.impressions == old(db.impressions)
    ensures outcome.Returned? ==>
              db.impressions == old(db.impressions)
                                + [StripNone(ImpressionFields(pinId, boardId, sessionId, userId,
                                                              ipAddress, userAgent, referrer))]
  {
    if outcome.Raised? {
      return false;
    }
    var data := StripNone(ImpressionFields(pinId, boardId, sessionId, userId, ipAddress, userAgent, referrer));
    db.impressions := db.impressions + [data];
    ok := outcome.rows > 0;
  }

  /** An impression record keeps the pin and board keys, and holds an
      optional field exactly when it was given. */
  lemma ImpressionRecordFields(
    pinId: Uuid, boardId: Uuid, sessionId: Option<string>, userId: Option<Uuid>,
    ipAddress: Option<string>, userAgent: Option<string>, referrer: Option<string>)
    ensures var r := StripNone(ImpressionFields(pinId, boardId, sessionId, userId, ipAddress, userAgent, referrer));
            && r.Keys <= {"pin_id", "board_id", "session_id", "user_id", "ip_address", "user_agent", "referrer"}
            && "pin_id" in r && r["pin_id"] == pinId && "board_id" in r && r["board_id"] == boardId
            && ("session_id" in r <==> sessionId.Some?)
            && ("user_id" in r <==> userId.Some?)
            && ("referrer" in r <==> referrer.Some?)
  {
    var m := ImpressionFields(pinId, boardId, sessionId, userId, ipAddress, userAgent, referrer);
    assert m["pin_id"] == Some(pinId) && m["board_id"] == Some(boardId);
    assert m["session_id"] == sessionId && m["user_id"] == userId && m["referrer"] == referrer;
  }

  const ClickTypes: set<string> := {"pin", "contact", "website", "map", "share"}

  /** The click-type guard of `track_click`. */
  function NormalizeClickType(t: string): (r: string)
    ensures r in ClickTypes
    ensures t in ClickTypes <==> r == t
  {
    if t in ClickTypes then t else "pin"
  }

  lemma NormalizeClickTypeIdempotent(t: string)
    ensures NormalizeClickType(NormalizeClickType(t)) == NormalizeClickType(t)
    ensures t !in ClickTypes ==> NormalizeClickType(t) == "pin"
  {
  }

  function ClickFields(
    pinId: Uuid, boardId: Uuid, clickType: string, sessionId: Option<string>, userId: Option<Uuid>,
    ipAddress: Option<string>, userAgent: Option<string>): Fields
  {
    map["pin_id" := Some(pinId), "board_id" := Some(boardId),
        "click_type" := Some(NormalizeClickType(clickType)), "session_id" := sessionId,
        "user_id" := userId, "ip_address" := ipAddress, "user_agent" := userAgent]
  }

  /** `track_click`: the click type is normalised; the answer is as for
      impressions. */
  method TrackClick(
    db: Database, pinId: Uuid, boardId: Uuid, clickType: string, sessionId: Option<string>,
    userId: Option<Uuid>, ipAddress: Option<string>, userAgent: Option<string>,
    outcome: InsertOutcome) returns (ok: bool)
    modifies db`clicks
    ensures ok <==> outcome.Returned? && outcome.rows > 0
    ensures outcome.Raised? ==> db.clicks == old(db.clicks)
    ensures outcome.Returned? ==>
              db.clicks == old(db.clicks)
                           + [StripNone(ClickFields(pinId, boardId, clickType, sessionId, userId,
                                                    ipAddress, userAgent))]
  {
    if outcome.Raised? {
      return false;
    }
    var data := StripNone(ClickFields(pinId, boardId, clickType, sessionId, userId, ipAddress, userAgent));
    db.clicks := db.clicks + [data];
    ok := outcome.rows > 0;
  }

  /** Every click record carries one of the five click types. */
  lemma ClickRecordHasType(
    pinId: Uuid, boardId: Uuid, clickType: string, sessionId: Option<string>, userId: Option<Uuid>,
    ipAddress: Option<string>, userAgent: Option<string>)
    ensures var r := StripNone(ClickFields(pinId, boardId, clickType, sessionId, userId, ipAddress, userAgent));
            && "click_type" in r && r["click_type"] in ClickTypes
            && (clickType in ClickTypes ==> r["click_type"] == clickType)
            && "pin_id" in r && r["pin_id"] == pinId
  {
    var m := ClickFields(pinId, boardId, clickType, sessionId, userId, ipAddress, userAgent);
    assert m["click_type"] == Some(NormalizeClickType(clickType)) && m["pin_id"] == Some(pinId);
  }

  // ==================== Statistics ====================

  /** `.eq("pin_id", pin_id)` on an analytics table. */
  function RowsOfPin(records: seq<Record>, pinId: Uuid): (r: seq<Record>)
    ensures |r| <= |records|
    ensures forall k :: 0 <= k < |r| ==> "pin_id" in r[k] && r[k]["pin_id"] == pinId
    ensures forall x :: x in r <==> x in records && "pin_id" in x && x["pin_id"] == pinId
  {
    if |records| == 0 then []
    else
      var rest := RowsOfPin(records[1..], pinId);
      assert forall x :: x in records <==> x == records[0] || x in records[1..];
      if "pin_id" in records[0] && records[0]["pin_id"] == pinId then [records[0]] + rest else rest
  }

  /** Identical records are all counted: the query keeps every copy of a
      record of the pin and none of the others. */
  lemma {:induction false} RowsOfPinCounts(records: seq<Record>, pinId: Uuid, x: Record)
    ensures multiset(RowsOfPin(records, pinId))[x]
            == if "pin_id" in x && x["pin_id"] == pinId then multiset(records)[x] else 0
  {
    if |records| > 0 {
      RowsOfPinCounts(records[1..], pinId, x);
      assert records == [records[0]] + records[1..];
    }
  }

  /** A row of `.select("click_type")`: the key is always there, null when
      the record has no click type. */
  function ClickTypeRow(record: Record): (row: Fields)
    ensures row.Keys == {"click_type"}
    ensures row["click_type"] == if "click_type" in record then Some(record["click_type"]) else None
  {
    map["click_type" := if "click_type" in record then Some(record["click_type"]) else None]
  }

  /** `click.get("click_type", "pin")`. */
  function ClickTypeOf(row: Fields): (t: Option<string>)
    ensures "click_type" in row ==> t == row["click_type"]
    ensures "click_type" !in row ==> t == Some("pin")
  {
    if "click_type" in row then row["click_type"] else Some("pin")
  }

  /** The number of rows whose click type is `t`. */
  function Count(rows: seq<Fields>, t: Option<string>): (n: nat)
    ensures n <= |rows|
  {
    if |rows| == 0 then 0
    else Count(rows[..|rows| - 1], t) + (if ClickTypeOf(rows[|rows| - 1]) == t then 1 else 0)
  }

  /** A key of a non-empty map, the same one every time. */
  ghost function PickKey<K>(m: map<K, nat>): (k: K)
    requires |m| > 0
    ensures k in m
  {
    var k :| k in m; k
  }

  /** The sum of a histogram's counts. */
  ghost function SumValues<K>(m: map<K, nat>): nat
    decreases |m|
  {
    if |m| == 0 then 0
    else
      var k := PickKey(m);
      assert |(m - {k}).Keys| == |m.Keys - {k}| == |m.Keys| - 1;
      m[k] + SumValues(m - {k})
  }

  /** The sum does not depend on which key is taken first. */
  lemma {:induction false} SumValuesRemove<K>(m: map<K, nat>, k: K)
    requires k in m
    ensures SumValues(m) == m[k] + SumValues(m - {k})
    decreases |m|
  {
    var j := PickKey(m);
    if j != k {
      assert |(m - {j}).Keys| == |m.Keys - {j}| == |m.Keys| - 1;
      assert |(m - {k}).Keys| == |m.Keys - {k}| == |m.Keys| - 1;
      SumValuesRemove(m - {j}, k);
      SumValuesRemove(m - {k}, j);
      assert m - {j} - {k} == m - {k} - {j};
    }
  }

  /** `d[t] = d.get(t, 0) + 1`. */
  function Bump<K>(m: map<K, nat>, t: K): (r: map<K, nat>)
    ensures r.Keys == m.Keys + {t}
    ensures r[t] == (if t in m then m[t] else 0) + 1
    ensures forall k :: k in m && k != t ==> r[k] == m[k]
  {
    m[t := (if t in m then m[t] else 0) + 1]
  }

  lemma SumValuesBump<K>(m: map<K, nat>, t: K)
    ensures SumValues(Bump(m, t)) == SumValues(m) + 1
  {
    var r := Bump(m, t);
    SumValuesRemove(r, t);
    if t in m {
      SumValuesRemove(m, t);
      assert r - {t} == m - {t};
    } else {
      assert r - {t} == m;
    }
  }

  /** One more row bumps its own type's count and keeps the others. */
  lemma CountStep(rows: seq<Fields>, i: nat, hist: map<Option<string>, nat>)
    requires i < |rows|
    requires forall t :: t in hist <==> Count(rows[..i], t) > 0
    requires forall t :: t in hist ==> hist[t] == Count(rows[..i], t)
    ensures var bumped := Bump(hist, ClickTypeOf(rows[i]));
            && (forall t :: t in bumped <==> Count(rows[..i + 1], t) > 0)
            && (forall t :: t in bumped ==> bumped[t] == Count(rows[..i + 1], t))
  {
    assert rows[..i + 1][..i] == rows[..i];
  }

  /** The `clicks_by_type` loop: each click type with the number of rows
      that have it, and no other key. */
  method ClicksByType(rows: seq<Fields>) returns (hist: map<Option<string>, nat>)
    ensures forall t :: t in hist <==> Count(rows, t) > 0
    ensures forall t :: t in hist ==> hist[t] == Count(rows, t)
    ensures SumValues(hist) == |rows|
  {
    hist := map[];
    var i := 0;
    while i < |rows|
      invariant 0 <= i <= |rows|
      invariant forall t :: t in hist <==> Count(rows[..i], t) > 0
      invariant forall t :: t in hist ==> hist[t] == Count(rows[..i], t)
      invariant SumValues(hist) == i
    {
      var clickType := ClickTypeOf(rows[i]);
      CountStep(rows, i, hist);
      SumValuesBump(hist, clickType);
      hist := Bump(hist, clickType);
      i := i + 1;
    }
    assert rows[..|rows|] == rows;
  }

  /** The counters `get_pin_stats` reports (`ctr` is left out). */
  datatype PinStats = PinStats(impressions: nat, clicks: nat, clicksByType: map<Option<string>, nat>)

  const NoStats := PinStats(0, 0, map[])

  /** `get_pin_stats`; `failed` says that a query raised.  The `days`
      argument and the cutoff the source computes are never applied to the
      queries, so they are not parameters here. */
  method GetPinStats(db: Database, pinId: Uuid, failed: bool) returns (stats: PinStats)
    ensures failed ==> stats == NoStats
    ensures !failed ==>
              stats.impressions == |RowsOfPin(db.impressions, pinId)|
              && stats.clicks == |RowsOfPin(db.clicks, pinId)|
    ensures !failed ==> SumValues(stats.clicksByType) == stats.clicks
    ensures !failed ==>
              forall t :: t in stats.clicksByType ==>
                stats.clicksByType[t] == Count(ClickTypeRows(RowsOfPin(db.clicks, pinId)), t)
  {
    if failed {
      return NoStats;
    }
    var clicks := RowsOfPin(db.clicks, pinId);
    var hist := ClicksByType(ClickTypeRows(clicks));
    stats := PinStats(|RowsOfPin(db.impressions, pinId)|, |clicks|, hist);
  }

  function ClickTypeRows(records: seq<Record>): (rows: seq<Fields>)
    ensures |rows| == |records|
    ensures forall k :: 0 <= k < |records| ==> rows[k] == ClickTypeRow(records[k])
  {
    seq(|records|, k requires 0 <= k < |records| => ClickTypeRow(records[k]))
  }

  /** Read through `.select("click_type")`, a record counts under its own
      click type, and under no type when it has none: the "pin" default of
      the loop never applies. */
  lemma ClickTypeOfSelectedRow(record: Record)
    ensures ClickTypeOf(ClickTypeRow(record))
            == if "click_type" in record then Some(record["click_type"]) else None
  {
  }
}
