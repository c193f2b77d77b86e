/**
 * `authMiddleware` (middleware/verifyAuth.js, and the identical copy in
 * routes/auth.js): reads the `authToken` cookie, looks the token up in the user
 * collection and either sets `req.user` and calls `next()` once, or answers
 * without calling `next()`.
 */
module VerifyAuth {
  import opened Wrappers
  import opened Users

  const NoTokenMessage := "No token provided"
  const InvalidTokenMessage := "Invalid or expired token"
  const ServerErrorMessage := "Server error"

  /** What `findOne({ token })` gave: a record, null, or a thrown error. */
  datatype Lookup = Found(user: User) | NoMatch | StoreFailure

  /** `Admit(u)`: `req.user = u` and `next()` is called once. `Deny`: a response, `next()` is not called. */
  datatype Verdict = Admit(user: User) | Deny(status: nat, message: string, clearCookie: bool)

  /** `!token` is false: the cookie is present and not empty. */
  predicate HasToken(cookie: Option<string>) {
    cookie.Some? && cookie.value != ""
  }

  /** `user.tokenExpiresAt < new Date()`: a record without an expiry never expires (`undefined < date` is false). */
  predicate Expired(u: User, now: int) {
    u.tokenExpiresAt.Some? && u.tokenExpiresAt.value < now
  }

  /** The middleware's decision from the cookie, the lookup and the clock (milliseconds). */
  function Decide(cookie: Option<string>, lookup: Lookup, now: int): (v: Verdict)
    ensures v.Admit? <==> HasToken(cookie) && lookup.Found? && !Expired(lookup.user, now)
    ensures v.Admit? ==> v.user == lookup.user
    ensures !HasToken(cookie) ==> v == Deny(401, NoTokenMessage, false)
    ensures HasToken(cookie) && lookup.StoreFailure? ==> v == Deny(500, ServerErrorMessage, false)
    ensures HasToken(cookie) && !lookup.StoreFailure? && v.Deny? ==> v == Deny(401, InvalidTokenMessage, true)
  {
    if !HasToken(cookie) then Deny(401, NoTokenMessage, false)
    else match lookup
      case StoreFailure => Deny(500, ServerErrorMessage, false)
      case NoMatch => Deny(401, InvalidTokenMessage, true)
      case Found(u) => if Expired(u, now) then Deny(401, InvalidTokenMessage, true) else Admit(u)
  }

  /** `findOne({ token })` on a reachable collection. */
  function LookupToken(users: seq<User>, token: string): (l: Lookup)
    ensures l.Found? <==> exists k :: 0 <= k < |users| && users[k].token == Some(token)
    ensures l.Found? ==> l.user.token == Some(token)
  {
    match FirstMatch(users, ByToken(token))
    case None => NoMatch
    case Some(i) => Found(users[i])
  }

  /** The verdict the middleware reaches against a collection state; the store is not asked when there is no token. */
  function Gate(users: seq<User>, online: bool, cookie: Option<string>, now: int): Verdict {
    if !HasToken(cookie) then Decide(cookie, NoMatch, now)
    else if !online then Decide(cookie, StoreFailure, now)
    else Decide(cookie, LookupToken(users, cookie.value), now)
  }

  /** The middleware itself. */
  method AuthMiddleware(coll: UserCollection, cookie: Option<string>, now: int) returns (v: Verdict)
    ensures v == Gate(coll.users, coll.online, cookie, now)
    ensures v.Admit? ==> v.user in coll.users && v.user.token == cookie && !Expired(v.user, now)
  {
    if !HasToken(cookie) {
      return Deny(401, NoTokenMessage, false);
    }
    var found := coll.FindOne(ByToken(cookie.value));
    if found.Err? {
      return Deny(500, ServerErrorMessage, false);
    }
    match found.value
    case None =>
      v := Deny(401, InvalidTokenMessage, true);
    case Some(u) =>
      if Expired(u, now) {
        v := Deny(401, InvalidTokenMessage, true);
      } else {
        v := Admit(u);
      }
  }

  /** An expired record is turned away exactly as a token nobody holds. */
  lemma ExpiredIsLikeAbsent(cookie: Option<string>, u: User, now: int)
    requires Expired(u, now)
    ensures Decide(cookie, Found(u), now) == Decide(cookie, NoMatch, now)
  {
  }

  /** The comparison is strict: a session whose expiry is the current millisecond is still accepted, one millisecond later it is not. */
  lemma ExpiryIsInclusive(token: string, u: User, now: int)
    requires token != "" && u.tokenExpiresAt == Some(now)
    ensures Decide(Some(token), Found(u), now) == Admit(u)
    ensures Decide(Some(token), Found(u), now + 1) == Deny(401, InvalidTokenMessage, true)
  {
  }
}
