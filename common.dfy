/** Values shared by every module of the model: optional values, identifiers
    and the clock units.  Time is injected: instants are whole seconds since
    the epoch and calendar dates are whole day numbers. */
module Common {

  datatype Option<+T> = None | Some(value: T)

  /** The value of a call that either returns or raises one of the errors `E`. */
  datatype Result<+T, +E> = Ok(value: T) | Err(error: E)

  /** A field of a partial-update request: `Unset` fields are left out of the
      update (pydantic's `exclude_unset`), `Set(v)` fields overwrite the column. */
  datatype Patch<+T> = Unset | Set(value: T)

  function Patched<T>(p: Patch<T>, current: T): (r: T)
    ensures p.Set? ==> r == p.value
    ensures p.Unset? ==> r == current
  {
    match p
    case Unset => current
    case Set(v) => v
  }

  /** Row keys and foreign keys.  The database stores UUIDs and the services
      compare them as strings (`str(user_id)`), so they are strings here. */
  type Uuid = string

  const SecondsPerDay: int := 86400
  const SecondsPerHour: int := 3600

  /** Python truthiness of an optional string column: present and non-empty. */
  predicate HasText(o: Option<string>)
  {
    o.Some? && o.value != ""
  }

  /** Python's `max(0, n)`. */
  function NonNegative(n: int): (r: nat)
    ensures r >= n && (n >= 0 ==> r == n) && (n < 0 ==> r == 0)
  {
    if n < 0 then 0 else n
  }

  /** Index of the first row a `.eq(...)` select returns, or `|rows|` when
      no row matches. */
  function FirstMatch<T>(rows: seq<T>, matches: T -> bool): (k: nat)
    ensures k <= |rows|
    ensures forall j :: 0 <= j < k ==> !matches(rows[j])
    ensures k < |rows| ==> matches(rows[k])
  {
    if |rows| == 0 then 0
    else if matches(rows[0]) then 0
    else 1 + FirstMatch(rows[1..], matches)
  }

  /** Python's slice `s[:limit]`: a negative limit counts from the end. */
  function SliceTo<T>(s: seq<T>, limit: int): (r: seq<T>)
    ensures r <= s
    ensures limit >= 0 ==> |r| == if limit < |s| then limit else |s|
    ensures limit < 0 ==> |r| == NonNegative(|s| + limit)
  {
    if limit >= 0 then
      (if limit < |s| then s[..limit] else s)
    else
      s[..NonNegative(|s| + limit)]
  }

  /** Python's `s.insert(i, x)` for an index within bounds. */
  function InsertAt<T>(s: seq<T>, i: nat, x: T): (r: seq<T>)
    requires i <= |s|
    ensures |r| == |s| + 1 && r[i] == x
    ensures r[..i] == s[..i] && r[i + 1..] == s[i..]
    ensures multiset(r) == multiset(s) + multiset{x}
  {
    assert s == s[..i] + s[i..];
    s[..i] + [x] + s[i..]
  }
}
