/** Identifying the caller, as backend/app/core/auth.py does: the
    Authorization header, the claims of the access token and the role.
    Checking a token's signature is the JWT library's job; its verdict on
    each token is the parameter `decode`. */
module Auth {
  import opened Common

  /** The role a user has when the token names none. */
  const DefaultRole := "merchant"

  const BearerPrefix := "Bearer "

  /** The claims of a token the library accepted.  A metadata object that
      is absent reads as empty. */
  datatype Claims = Claims(
    sub: Option<string>,
    email: Option<string>,
    phone: Option<string>,
    userMetadata: map<string, string>,
    appMetadata: map<string, string>)

  /** The library's verdict on a token. */
  datatype Decoded =
    | Accepted(claims: Claims)
    | HeaderUnreadable           // `get_unverified_header` raised
    | Invalid(message: string)   // `jwt.decode` raised InvalidTokenError

  datatype CurrentUser = CurrentUser(id: Uuid, email: Option<string>, phone: Option<string>, role: string)

  /** The HTTP errors raised: 401 and 403 with their detail. */
  datatype AuthError = Unauthorized(detail: string) | Forbidden(detail: string)

  predicate StartsWith(s: string, prefix: string)
  {
    |prefix| <= |s| && s[..|prefix|] == prefix
  }

  /** Python's `s.replace(pattern, "")`: every occurrence found scanning left
      to right is removed, and the text is not scanned again. */
  function RemoveAll(s: string, pattern: string): (r: string)
    requires |pattern| > 0
    ensures |r| <= |s|
    decreases |s|
  {
    if |s| < |pattern| then s
    else if s[..|pattern|] == pattern then RemoveAll(s[|pattern|..], pattern)
    else [s[0]] + RemoveAll(s[1..], pattern)
  }

  predicate OccursAt(s: string, pattern: string, i: int)
  {
    0 <= i && i + |pattern| <= |s| && s[i..i + |pattern|] == pattern
  }

  ghost predicate Occurs(s: string, pattern: string)
  {
    exists i :: OccursAt(s, pattern, i)
  }

  /** A text without the pattern is left as it is. */
  lemma {:induction false} RemoveAllWithoutOccurrence(s: string, pattern: string)
    requires |pattern| > 0 && !Occurs(s, pattern)
    ensures RemoveAll(s, pattern) == s
    decreases |s|
  {
    if |s| >= |pattern| {
      assert !OccursAt(s, pattern, 0);
      assert s[0..|pattern|] == s[..|pattern|];
      assert !Occurs(s[1..], pattern) by {
        forall i | 0 <= i
          ensures !OccursAt(s[1..], pattern, i)
        {
          if i + |pattern| <= |s[1..]| {
            assert s[1..][i..i + |pattern|] == s[i + 1..i + 1 + |pattern|];
            assert !OccursAt(s, pattern, i + 1);
          }
        }
      }
      RemoveAllWithoutOccurrence(s[1..], pattern);
      assert s == [s[0]] + s[1..];
    }
  }

  /** The token `get_current_user` reads from the header. */
  function BearerToken(header: string): (token: string)
    ensures |token| <= |header|
  {
    RemoveAll(header, BearerPrefix)
  }

  /** With one prefix and no other occurrence the token is what follows the
      prefix. */
  lemma BearerTokenOfPlainHeader(token: string)
    requires !Occurs(token, BearerPrefix)
    ensures BearerToken(BearerPrefix + token) == token
  {
    var h := BearerPrefix + token;
    assert h[..|BearerPrefix|] == BearerPrefix;
    assert h[|BearerPrefix|..] == token;
    RemoveAllWithoutOccurrence(token, BearerPrefix);
  }

  /** Every prefix is removed, not only the first: a header that repeats
      the prefix gives the token of the header without that repetition. */
  lemma BearerTokenDropsRepeatedPrefix(h: string)
    ensures BearerToken(BearerPrefix + h) == BearerToken(h)
  {
    var s := BearerPrefix + h;
    assert s[..|BearerPrefix|] == BearerPrefix;
    assert s[|BearerPrefix|..] == h;
  }

  /** Any run of prefixes before a prefix-free token gives that token. */
  lemma {:induction false} BearerTokenOfRepeatedPrefix(n: nat, token: string)
    requires !Occurs(token, BearerPrefix)
    ensures BearerToken(Repeat(BearerPrefix, n) + token) == token
  {
    if n == 0 {
      assert Repeat(BearerPrefix, 0) + token == token;
      RemoveAllWithoutOccurrence(token, BearerPrefix);
    } else {
      assert Repeat(BearerPrefix, n) + token == BearerPrefix + (Repeat(BearerPrefix, n - 1) + token);
      BearerTokenDropsRepeatedPrefix(Repeat(BearerPrefix, n - 1) + token);
      BearerTokenOfRepeatedPrefix(n - 1, token);
    }
  }

  /** `n` copies of a text. */
  function Repeat(s: string, n: nat): (r: string)
    ensures |r| == n * |s|
  {
    if n == 0 then [] else s + Repeat(s, n - 1)
  }

  /** A second prefix inside the header is removed too: the token of
      "Bearer Bearer x" is "x". */
  lemma BearerTokenRemovesEveryOccurrence()
    ensures BearerToken("Bearer Bearer x") == "x"
  {
    var h := "Bearer Bearer x";
    assert h[..7] == BearerPrefix && h[7..] == "Bearer x";
    var h2 := "Bearer x";
    assert h2[..7] == BearerPrefix && h2[7..] == "x";
    assert RemoveAll(h, BearerPrefix) == RemoveAll(h2, BearerPrefix);
    assert RemoveAll(h2, BearerPrefix) == RemoveAll("x", BearerPrefix);
  }

  /** `app_metadata.get("role", user_metadata.get("role", "merchant"))`. */
  function Role(c: Claims): (role: string)
    ensures "role" in c.appMetadata ==> role == c.appMetadata["role"]
    ensures "role" !in c.appMetadata && "role" in c.userMetadata ==> role == c.userMetadata["role"]
    ensures "role" !in c.appMetadata && "role" !in c.userMetadata ==> role == DefaultRole
  {
    if "role" in c.appMetadata then c.appMetadata["role"]
    else if "role" in c.userMetadata then c.userMetadata["role"]
    else DefaultRole
  }

  /** The user of an accepted token, or why it is refused. */
  function UserOfToken(d: Decoded): (r: Result<CurrentUser, AuthError>)
    ensures r.Ok? <==> d.Accepted? && HasText(d.claims.sub)
    ensures r.Ok? ==> r.value == CurrentUser(d.claims.sub.value, d.claims.email, d.claims.phone, Role(d.claims))
    ensures d.HeaderUnreadable? ==> r == Err(Unauthorized("Invalid token format"))
    ensures d.Invalid? ==> r == Err(Unauthorized("Invalid token: " + d.message))
    ensures d.Accepted? && !HasText(d.claims.sub) ==> r == Err(Unauthorized("Invalid token: missing user ID"))
  {
    match d
    case HeaderUnreadable => Err(Unauthorized("Invalid token format"))
    case Invalid(message) => Err(Unauthorized("Invalid token: " + message))
    case Accepted(c) =>
      if !HasText(c.sub) then Err(Unauthorized("Invalid token: missing user ID"))
      else Ok(CurrentUser(c.sub.value, c.email, c.phone, Role(c)))
  }

  /** `get_current_user`. */
  function GetCurrentUser(authorization: Option<string>, decode: string -> Decoded)
    : (r: Result<CurrentUser, AuthError>)
    ensures !HasText(authorization) ==> r == Err(Unauthorized("Authorization header required"))
    ensures HasText(authorization) && !StartsWith(authorization.value, BearerPrefix) ==>
              r == Err(Unauthorized("Invalid authorization header format. Use: Bearer <token>"))
    ensures r.Ok? ==> HasText(authorization) && StartsWith(authorization.value, BearerPrefix)
    ensures HasText(authorization) && StartsWith(authorization.value, BearerPrefix) ==>
              r == UserOfToken(decode(BearerToken(authorization.value)))
    ensures r.Err? ==> r.error.Unauthorized?
  {
    if !HasText(authorization) then Err(Unauthorized("Authorization header required"))
    else if !StartsWith(authorization.value, BearerPrefix) then
      Err(Unauthorized("Invalid authorization header format. Use: Bearer <token>"))
    else UserOfToken(decode(BearerToken(authorization.value)))
  }

  /** `get_current_user_optional`: no user instead of any of those errors. */
  function GetCurrentUserOptional(authorization: Option<string>, decode: string -> Decoded)
    : (r: Option<CurrentUser>)
    ensures r.None? <==> GetCurrentUser(authorization, decode).Err?
    ensures r.Some? ==> r.value == GetCurrentUser(authorization, decode).value
    ensures !HasText(authorization) ==> r.None?
  {
    if !HasText(authorization) then None
    else
      match GetCurrentUser(authorization, decode)
      case Ok(user) => Some(user)
      case Err(_) => None
  }

  /** `require_admin`: the current user when its role is "admin", 403
      otherwise; the errors of `get_current_user` pass through. */
  function RequireAdmin(authorization: Option<string>, decode: string -> Decoded)
    : (r: Result<CurrentUser, AuthError>)
    ensures r.Ok? <==> GetCurrentUser(authorization, decode).Ok?
                       && GetCurrentUser(authorization, decode).value.role == "admin"
    ensures r.Ok? ==> r == GetCurrentUser(authorization, decode)
    ensures GetCurrentUser(authorization, decode).Err? ==> r == GetCurrentUser(authorization, decode)
    ensures GetCurrentUser(authorization, decode).Ok? && GetCurrentUser(authorization, decode).value.role != "admin"
            ==> r == Err(Forbidden("Admin access required"))
  {
    match GetCurrentUser(authorization, decode)
    case Err(e) => Err(e)
    case Ok(user) => if user.role != "admin" then Err(Forbidden("Admin access required")) else Ok(user)
  }

  /** An admin role in the application metadata wins over any user
      metadata; a token with no role at all is never admin. */
  lemma AdminComesFromMetadata(c: Claims)
    ensures "role" in c.appMetadata && c.appMetadata["role"] == "admin" ==> Role(c) == "admin"
    ensures "role" !in c.appMetadata && "role" !in c.userMetadata ==> Role(c) != "admin"
  {
  }
}
