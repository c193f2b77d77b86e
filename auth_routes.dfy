/**
 * The handlers of routes/auth.js: `/register`, `/login`, `/logout`,
 * `/verify-token`, `/follow/:userId` and `/unfollow/:userId`, over the user
 * collection. The random token, the random salt, the driver's fresh ObjectId and
 * the clock are parameters; PBKDF2 is the parameter `kdf`, any deterministic function.
 */
module AuthRoutes {
  import opened Wrappers
  import opened Json
  import opened ObjectIds
  import opened Validation
  import opened Users
  import opened VerifyAuth

  /** `24 * 60 * 60 * 1000`: a session lasts one day, in milliseconds. */
  const TokenLifetime := 86400000

  const EmailInUseMessage := "Email already in use"
  const RegisteredMessage := "User registered and logged in"
  const MissingCredentialsMessage := "Email and password are required"
  const InvalidCredentialsMessage := "Invalid credentials"
  const LoginMessage := "Login successful"
  const LogoutMessage := "Logged out successfully"
  const InvalidUserIdMessage := "Invalid user ID"
  const UserNotFoundMessage := "User not found"
  const SelfFollowMessage := "Cannot follow yourself"
  const FollowedMessage := "Followed successfully"
  const UnfollowedMessage := "Unfollowed successfully"

  /** What the response does to the `authToken` cookie. */
  datatype Cookie = Untouched | Issued(token: string, expires: int) | Cleared

  /** The public fields a response carries: `{ username, email, photoURL }`. */
  datatype Profile = Profile(username: string, email: string, photoURL: Option<Json>)

  datatype Reply = Reply(status: nat, message: Option<string>, user: Option<Profile>, cookie: Cookie)

  datatype RegisterBody = RegisterBody(username: Option<Json>, email: Option<Json>, password: Option<Json>, photoURL: Option<Json>)

  datatype LoginBody = LoginBody(email: Option<Json>, password: Option<Json>)

  /** `photoURL || null`: the result is never undefined; a falsy or absent photo becomes null. */
  function PhotoOrNull(photo: Option<Json>): (r: Option<Json>)
    ensures r.Some?
    ensures Truthy(r.value) <==> Present(photo)
    ensures Present(photo) ==> r == photo
    ensures !Present(photo) ==> r.value == JNull
  {
    if Present(photo) then photo else Some(JNull)
  }

  /** `{ username, email, photoURL: photoURL || null }` of a record. */
  function ProfileOf(u: User): Profile {
    Profile(u.username, u.email, PhotoOrNull(u.photoURL))
  }

  function Refusal(status: nat, message: string): Reply {
    Reply(status, Some(message), None, Untouched)
  }

  /** The response the middleware sends when it does not call `next()`. */
  function DenyReply(v: Verdict): Reply
    requires v.Deny?
  {
    Reply(v.status, Some(v.message), None, if v.clearCookie then Cleared else Untouched)
  }

  /** The body passes validation and carries strings for the e-mail and the password. */
  predicate Admissible(b: RegisterBody) {
    ValidateUserInput(b.username, b.email, b.password) == None
    && b.email.value.JStr? && b.password.value.JStr?
  }

  /** The record `/register` inserts. */
  function NewUser(b: RegisterBody, id: ObjectId, salt: string, token: string, now: int, kdf: (string, string) -> string): (u: User)
    requires Admissible(b)
    ensures u.followers == [] && u.following == []
    ensures u.token == Some(token) && u.tokenExpiresAt == Some(now + TokenLifetime)
    ensures u.passwordHash == kdf(b.password.value.s, salt) && u.salt == salt
  {
    User(id, b.username.value.s, b.email.value.s, PhotoOrNull(b.photoURL),
         kdf(b.password.value.s, salt), salt, Some(token), Some(now + TokenLifetime), [], [])
  }

  /** POST /register */
  method Register(coll: UserCollection, b: RegisterBody, newId: ObjectId, salt: string, token: string, now: int,
                  kdf: (string, string) -> string) returns (reply: Reply)
    requires coll.Valid()
    modifies coll
    ensures coll.Valid() && coll.online == old(coll.online)
    ensures ValidateUserInput(b.username, b.email, b.password).Some? ==>
      reply == Refusal(400, ValidateUserInput(b.username, b.email, b.password).value) && coll.users == old(coll.users)
    ensures ValidateUserInput(b.username, b.email, b.password) == None && b.email.value.JStr? && old(coll.online)
            && FirstMatch(old(coll.users), ByEmail(b.email.value)).Some? ==>
      reply == Refusal(400, EmailInUseMessage) && coll.users == old(coll.users)
    ensures reply.status == 201 <==>
      && Admissible(b) && old(coll.online)
      && FirstMatch(old(coll.users), ByEmail(b.email.value)).None?
      && FirstMatch(old(coll.users), ById(newId)).None?
    ensures Admissible(b) && reply.status == 201 ==>
      && coll.users == old(coll.users) + [NewUser(b, newId, salt, token, now, kdf)]
      && reply == Reply(201, Some(RegisteredMessage), Some(ProfileOf(NewUser(b, newId, salt, token, now, kdf))),
                        Issued(token, now + TokenLifetime))
    ensures reply.status != 201 ==> coll.users == old(coll.users) && reply.status in {400, 500}
    ensures UniqueEmails(old(coll.users)) ==> UniqueEmails(coll.users)
    ensures NoSelfFollow(old(coll.users)) ==> NoSelfFollow(coll.users)
    ensures UniqueTokens(old(coll.users)) && FirstMatch(old(coll.users), ByToken(token)).None? ==> UniqueTokens(coll.users)
  {
    var invalid := ValidateUserInput(b.username, b.email, b.password);
    if invalid.Some? {
      return Refusal(400, invalid.value);
    }
    if !b.email.value.JStr? {
      return Refusal(500, ServerErrorMessage);
    }
    var existing := coll.FindOne(ByEmail(b.email.value));
    if existing.Err? {
      return Refusal(500, ServerErrorMessage);
    }
    if existing.value.Some? {
      return Refusal(400, EmailInUseMessage);
    }
    if !b.password.value.JStr? {
      // pbkdf2Sync throws on a password that is not a string
      return Refusal(500, ServerErrorMessage);
    }
    var user := NewUser(b, newId, salt, token, now, kdf);
    AppendKeepsInvariants(coll.users, user);
    var inserted := coll.InsertOne(user);
    if inserted.Err? {
      return Refusal(500, ServerErrorMessage);
    }
    reply := Reply(201, Some(RegisteredMessage), Some(ProfileOf(user)), Issued(token, now + TokenLifetime));
  }

  /** The password a login body carries hashes, with the record's salt, to the stored hash. */
  predicate PasswordMatches(u: User, password: Json, kdf: (string, string) -> string) {
    password.JStr? && kdf(password.s, u.salt) == u.passwordHash
  }

  /** POST /login */
  method Login(coll: UserCollection, b: LoginBody, token: string, now: int, kdf: (string, string) -> string)
    returns (reply: Reply)
    requires coll.Valid()
    modifies coll
    ensures coll.Valid() && coll.online == old(coll.online)
    ensures !Present(b.email) || !Present(b.password) ==>
      reply == Refusal(400, MissingCredentialsMessage) && coll.users == old(coll.users)
    ensures Present(b.email) && Present(b.password) && !old(coll.online) ==>
      reply == Refusal(500, ServerErrorMessage) && coll.users == old(coll.users)
    ensures Present(b.email) && Present(b.password) && old(coll.online) && FirstMatch(old(coll.users), ByEmail(b.email.value)).None? ==>
      reply == Refusal(401, InvalidCredentialsMessage) && coll.users == old(coll.users)
    ensures Present(b.email) && Present(b.password) && old(coll.online) && FirstMatch(old(coll.users), ByEmail(b.email.value)).Some? ==>
      var i := FirstMatch(old(coll.users), ByEmail(b.email.value)).value;
      var u := old(coll.users)[i];
      && (!b.password.value.JStr? ==> reply == Refusal(500, ServerErrorMessage) && coll.users == old(coll.users))
      && (b.password.value.JStr? && !PasswordMatches(u, b.password.value, kdf) ==>
            reply == Refusal(401, InvalidCredentialsMessage) && coll.users == old(coll.users))
      && (PasswordMatches(u, b.password.value, kdf) ==>
            && coll.users == old(coll.users)[i := Apply(u, SetSession(token, now + TokenLifetime))]
            && reply == Reply(200, Some(LoginMessage), Some(ProfileOf(u)), Issued(token, now + TokenLifetime)))
    ensures reply.status in {200, 400, 401, 500}
    ensures UniqueEmails(old(coll.users)) ==> UniqueEmails(coll.users)
    ensures NoSelfFollow(old(coll.users)) ==> NoSelfFollow(coll.users)
    ensures UniqueTokens(old(coll.users)) && FirstMatch(old(coll.users), ByToken(token)).None? ==> UniqueTokens(coll.users)
  {
    if !Present(b.email) || !Present(b.password) {
      return Refusal(400, MissingCredentialsMessage);
    }
    var found := coll.FindOne(ByEmail(b.email.value));
    if found.Err? {
      return Refusal(500, ServerErrorMessage);
    }
    if found.value.None? {
      return Refusal(401, InvalidCredentialsMessage);
    }
    var u := found.value.value;
    if !b.password.value.JStr? {
      // pbkdf2Sync throws on a password that is not a string
      return Refusal(500, ServerErrorMessage);
    }
    if kdf(b.password.value.s, u.salt) != u.passwordHash {
      return Refusal(401, InvalidCredentialsMessage);
    }
    ghost var i := FirstMatch(coll.users, ByEmail(b.email.value)).value;
    var updated := coll.UpdateOne(ByEmail(b.email.value), SetSession(token, now + TokenLifetime));
    assert coll.users == old(coll.users)[i := Apply(u, SetSession(token, now + TokenLifetime))];
    SessionUpdateKeepsInvariants(old(coll.users), i, token, now + TokenLifetime);
    reply := Reply(200, Some(LoginMessage), Some(ProfileOf(u)), Issued(token, now + TokenLifetime));
  }

  /** Setting a fresh session on one record keeps every collection invariant. */
  lemma SessionUpdateKeepsInvariants(users: seq<User>, i: nat, token: string, expires: int)
    requires i < |users|
    ensures var after := users[i := Apply(users[i], SetSession(token, expires))];
      && (UniqueEmails(users) ==> UniqueEmails(after))
      && (NoSelfFollow(users) ==> NoSelfFollow(after))
      && (UniqueTokens(users) && FirstMatch(users, ByToken(token)).None? ==> UniqueTokens(after))
  {
  }

  /** POST /logout, behind the middleware. */
  method Logout(coll: UserCollection, cookie: Option<string>, now: int) returns (reply: Reply)
    requires coll.Valid()
    modifies coll
    ensures coll.Valid() && coll.online == old(coll.online)
    ensures Gate(old(coll.users), old(coll.online), cookie, now).Deny? ==>
      reply == DenyReply(Gate(old(coll.users), old(coll.online), cookie, now)) && coll.users == old(coll.users)
    ensures Gate(old(coll.users), old(coll.online), cookie, now).Admit? ==>
      && coll.users == UpdateFirst(old(coll.users), ByToken(cookie.value), UnsetSession)
      && reply == Reply(200, Some(LogoutMessage), None, Cleared)
    ensures UniqueEmails(old(coll.users)) ==> UniqueEmails(coll.users)
    ensures NoSelfFollow(old(coll.users)) ==> NoSelfFollow(coll.users)
    ensures UniqueTokens(old(coll.users)) ==> UniqueTokens(coll.users)
  {
    var v := AuthMiddleware(coll, cookie, now);
    if v.Deny? {
      return DenyReply(v);
    }
    var updated := coll.UpdateOne(ByToken(cookie.value), UnsetSession);
    UnsetKeepsInvariants(old(coll.users), cookie.value);
    reply := Reply(200, Some(LogoutMessage), None, Cleared);
  }

  lemma UnsetKeepsInvariants(users: seq<User>, token: string)
    ensures var after := UpdateFirst(users, ByToken(token), UnsetSession);
      && (UniqueEmails(users) ==> UniqueEmails(after))
      && (NoSelfFollow(users) ==> NoSelfFollow(after))
      && (UniqueTokens(users) ==> UniqueTokens(after))
  {
  }

  /** GET /verify-token: the middleware's test, answered with the profile instead of calling `next()`. */
  method VerifyToken(coll: UserCollection, cookie: Option<string>, now: int) returns (reply: Reply)
    ensures Gate(coll.users, coll.online, cookie, now).Deny? ==>
      reply == DenyReply(Gate(coll.users, coll.online, cookie, now))
    ensures Gate(coll.users, coll.online, cookie, now).Admit? ==>
      reply == Reply(200, None, Some(ProfileOf(Gate(coll.users, coll.online, cookie, now).user)), Untouched)
  {
    var v := AuthMiddleware(coll, cookie, now);
    if v.Deny? {
      return DenyReply(v);
    }
    reply := Reply(200, None, Some(ProfileOf(v.user)), Untouched);
  }

  /** After logout the token opens no session any more, as long as no other record shares it. */
  lemma {:induction false} LogoutEndsSession(users: seq<User>, token: string, now: int)
    requires UniqueTokens(users) && token != ""
    ensures Gate(UpdateFirst(users, ByToken(token), UnsetSession), true, Some(token), now)
            == Deny(401, InvalidTokenMessage, true)
  {
    var after := UpdateFirst(users, ByToken(token), UnsetSession);
    match FirstMatch(users, ByToken(token))
    case None =>
      assert after == users;
    case Some(i) =>
      forall k | 0 <= k < |after|
        ensures after[k].token != Some(token)
      {
        if k != i {
          assert users[k].token != users[i].token by {
            if k < i {
              assert !Matches(users[k], ByToken(token));
            }
          }
        }
      }
    assert LookupToken(after, token) == NoMatch;
  }

  /**
   * A login with a fresh token rotates the session: the record's previous token
   * stops resolving, the new one resolves to the updated record, tokens stay unique.
   */
  lemma LoginRotatesSession(users: seq<User>, i: nat, token: string, expires: int)
    requires i < |users| && UniqueTokens(users)
    requires FirstMatch(users, ByToken(token)).None?
    ensures var after := users[i := Apply(users[i], SetSession(token, expires))];
      && (users[i].token.Some? ==> LookupToken(after, users[i].token.value) == NoMatch)
      && LookupToken(after, token) == Found(after[i])
      && UniqueTokens(after)
  {
    var after := users[i := Apply(users[i], SetSession(token, expires))];
    if users[i].token.Some? {
      var previous := users[i].token.value;
      forall k | 0 <= k < |after|
        ensures after[k].token != Some(previous)
      {
        if k != i {
          if k < i {
            assert users[k].token != users[i].token;
          } else {
            assert users[i].token != users[k].token;
          }
        } else {
          assert !Matches(users[i], ByToken(token));
        }
      }
    }
    assert forall k :: 0 <= k < i ==> !Matches(after[k], ByToken(token)) by {
      forall k | 0 <= k < i ensures !Matches(after[k], ByToken(token)) {
        assert !Matches(users[k], ByToken(token));
      }
    }
    SessionUpdateKeepsInvariants(users, i, token, expires);
  }

  /** `me` follows `target`: the record with id `me` lists `target` under `following`. */
  predicate Follows(users: seq<User>, me: ObjectId, target: ObjectId) {
    match FirstMatch(users, ById(me))
    case None => false
    case Some(i) => target in users[i].following
  }

  /** The record with id `target` lists `me` under `followers`. */
  predicate FollowedBy(users: seq<User>, target: ObjectId, me: ObjectId) {
    match FirstMatch(users, ById(target))
    case None => false
    case Some(j) => me in users[j].followers
  }

  /** The two updates of a follow: `$addToSet` on the caller's `following`, then on the target's `followers`. */
  function FollowEdges(users: seq<User>, me: ObjectId, target: ObjectId): seq<User> {
    UpdateFirst(UpdateFirst(users, ById(me), AddFollowing(target)), ById(target), AddFollower(me))
  }

  /** The two updates of an unfollow: `$pull` from the caller's `following`, then from the target's `followers`. */
  function UnfollowEdges(users: seq<User>, me: ObjectId, target: ObjectId): seq<User> {
    UpdateFirst(UpdateFirst(users, ById(me), PullFollowing(target)), ById(target), PullFollower(me))
  }

  /** The self-follow test on the identifier the path names: parsing ignores the case of the hex digits. */
  predicate IsSelf(me: ObjectId, userId: string)
    requires IsValidId(userId)
  {
    Parse(userId) == me
  }

  /** The self-follow test as routes/auth.js writes it: `currentUser._id.toString() === userId`. */
  predicate IsSelfAsWritten(me: ObjectId, userId: string) {
    me.hex == userId
  }

  /** On lower-case text the two tests agree; they differ only on upper-case hex digits. */
  lemma SelfTestsAgreeOnLowerCase(me: ObjectId, userId: string)
    requires IsCanonical(userId)
    ensures IsValidId(userId) && (IsSelfAsWritten(me, userId) <==> IsSelf(me, userId))
  {
    assert Parse(userId).hex == userId;
  }

  /**
   * The input that shows the as-written test failing: the caller's own id spelled
   * in upper case, for any id with a hex letter, is a valid id, names the caller,
   * passes `IsSelfAsWritten`, and the follow that follows makes the caller follow itself.
   */
  lemma UpperCaseIdPassesSelfTestAsWritten(u: User)
    requires HasHexLetter(u.id)
    ensures var userId := Upper(u.id.hex);
      && IsValidId(userId) && Parse(userId) == u.id
      && !IsSelfAsWritten(u.id, userId)
      && Follows(FollowEdges([u], u.id, Parse(userId)), u.id, u.id)
      && !NoSelfFollow(FollowEdges([u], u.id, Parse(userId)))
  {
    UpperSpellingNamesSameId(u.id);
    var once := UpdateFirst([u], ById(u.id), AddFollowing(u.id));
    assert once[0].following == AddToSet(u.following, u.id);
    var twice := UpdateFirst(once, ById(u.id), AddFollower(u.id));
    assert twice[0].following == once[0].following;
  }

  /** A record whose update leaves it as it was leaves the whole collection as it was. */
  lemma UpdateNoOp(users: seq<User>, f: Filter, op: Update)
    requires FirstMatch(users, f).Some? ==> Apply(users[FirstMatch(users, f).value], op) == users[FirstMatch(users, f).value]
    ensures UpdateFirst(users, f, op) == users
  {
  }

  /** Following twice is following once: `$addToSet` makes the repeat a no-op. */
  lemma FollowIsIdempotent(users: seq<User>, me: ObjectId, target: ObjectId)
    ensures FollowEdges(FollowEdges(users, me, target), me, target) == FollowEdges(users, me, target)
  {
    var once := UpdateFirst(users, ById(me), AddFollowing(target));
    var both := UpdateFirst(once, ById(target), AddFollower(me));
    UpdateKeepsLookups(users, ById(me), AddFollowing(target), ById(me));
    UpdateKeepsLookups(once, ById(target), AddFollower(me), ById(me));
    UpdateKeepsLookups(once, ById(target), AddFollower(me), ById(target));
    UpdateTouchesOneList(once, ById(target), AddFollower(me));
    var i := FirstMatch(users, ById(me));
    if i.Some? {
      assert target in once[i.value].following;
      assert target in both[i.value].following;
    }
    UpdateNoOp(both, ById(me), AddFollowing(target));
    var j := FirstMatch(once, ById(target));
    if j.Some? {
      assert me in both[j.value].followers;
    }
    UpdateNoOp(both, ById(target), AddFollower(me));
  }

  /** After a follow between two existing records, both halves of the edge are present. */
  lemma FollowAddsEdge(users: seq<User>, me: ObjectId, target: ObjectId)
    requires FirstMatch(users, ById(me)).Some? && FirstMatch(users, ById(target)).Some?
    ensures Follows(FollowEdges(users, me, target), me, target)
    ensures FollowedBy(FollowEdges(users, me, target), target, me)
  {
    var once := UpdateFirst(users, ById(me), AddFollowing(target));
    var both := UpdateFirst(once, ById(target), AddFollower(me));
    UpdateKeepsLookups(users, ById(me), AddFollowing(target), ById(me));
    UpdateKeepsLookups(users, ById(me), AddFollowing(target), ById(target));
    UpdateKeepsLookups(once, ById(target), AddFollower(me), ById(me));
    UpdateKeepsLookups(once, ById(target), AddFollower(me), ById(target));
    UpdateTouchesOneList(once, ById(target), AddFollower(me));
    var i := FirstMatch(users, ById(me)).value;
    assert target in once[i].following;
    assert target in both[i].following;
  }

  /** After an unfollow neither half of the edge remains, whatever was there before. */
  lemma UnfollowRemovesEdge(users: seq<User>, me: ObjectId, target: ObjectId)
    ensures !Follows(UnfollowEdges(users, me, target), me, target)
    ensures !FollowedBy(UnfollowEdges(users, me, target), target, me)
  {
    var once := UpdateFirst(users, ById(me), PullFollowing(target));
    var both := UpdateFirst(once, ById(target), PullFollower(me));
    PulledEdgeIsGone(users, ById(me), PullFollowing(target));
    PulledEdgeIsGone(once, ById(target), PullFollower(me));
    UpdateKeepsLookups(once, ById(target), PullFollower(me), ById(me));
    UpdateTouchesOneList(once, ById(target), PullFollower(me));
  }

  /** The record a `$pull` reaches no longer holds the pulled id in that list. */
  lemma PulledEdgeIsGone(users: seq<User>, f: Filter, op: Update)
    requires op.PullFollowing? || op.PullFollower?
    ensures var after := UpdateFirst(users, f, op);
      && FirstMatch(after, f) == FirstMatch(users, f)
      && (FirstMatch(users, f).Some? ==>
            var u := after[FirstMatch(users, f).value];
            && (op.PullFollowing? ==> op.target !in u.following)
            && (op.PullFollower? ==> op.follower !in u.followers))
  {
    UpdateKeepsLookups(users, f, op, f);
  }

  /** Unfollowing when no edge exists changes nothing. */
  lemma UnfollowAbsentIsNoOp(users: seq<User>, me: ObjectId, target: ObjectId)
    requires !Follows(users, me, target) && !FollowedBy(users, target, me)
    ensures UnfollowEdges(users, me, target) == users
  {
    UpdateNoOp(users, ById(me), PullFollowing(target));
    UpdateNoOp(users, ById(target), PullFollower(me));
  }

  /** A follow between two distinct ids creates no self-edge and leaves e-mails and tokens alone. */
  lemma FollowKeepsInvariants(users: seq<User>, me: ObjectId, target: ObjectId)
    requires me != target
    ensures var after := FollowEdges(users, me, target);
      && (NoSelfFollow(users) ==> NoSelfFollow(after))
      && (UniqueEmails(users) ==> UniqueEmails(after))
      && (UniqueTokens(users) ==> UniqueTokens(after))
  {
    var once := UpdateFirst(users, ById(me), AddFollowing(target));
    if NoSelfFollow(users) {
      UpdateKeepsNoSelfFollow(users, ById(me), AddFollowing(target));
      UpdateKeepsNoSelfFollow(once, ById(target), AddFollower(me));
    }
    if UniqueTokens(users) {
      UpdateKeepsUniqueTokens(users, ById(me), AddFollowing(target));
      UpdateKeepsUniqueTokens(once, ById(target), AddFollower(me));
    }
  }

  /** An unfollow only removes edges, so it keeps every invariant. */
  lemma UnfollowKeepsInvariants(users: seq<User>, me: ObjectId, target: ObjectId)
    ensures var after := UnfollowEdges(users, me, target);
      && (NoSelfFollow(users) ==> NoSelfFollow(after))
      && (UniqueEmails(users) ==> UniqueEmails(after))
      && (UniqueTokens(users) ==> UniqueTokens(after))
  {
    var once := UpdateFirst(users, ById(me), PullFollowing(target));
    if NoSelfFollow(users) {
      UpdateKeepsNoSelfFollow(users, ById(me), PullFollowing(target));
      UpdateKeepsNoSelfFollow(once, ById(target), PullFollower(me));
    }
    if UniqueTokens(users) {
      UpdateKeepsUniqueTokens(users, ById(me), PullFollowing(target));
      UpdateKeepsUniqueTokens(once, ById(target), PullFollower(me));
    }
  }

  /** POST /follow/:userId, behind the middleware; the self test is made on the parsed id. */
  method Follow(coll: UserCollection, cookie: Option<string>, now: int, userId: string) returns (reply: Reply)
    requires coll.Valid()
    modifies coll
    ensures coll.Valid() && coll.online == old(coll.online)
    ensures var v := Gate(old(coll.users), old(coll.online), cookie, now);
      && (v.Deny? ==> reply == DenyReply(v) && coll.users == old(coll.users))
      && (v.Admit? && !IsValidId(userId) ==> reply == Refusal(400, InvalidUserIdMessage) && coll.users == old(coll.users))
      && (v.Admit? && IsValidId(userId) && FirstMatch(old(coll.users), ById(Parse(userId))).None? ==>
            reply == Refusal(404, UserNotFoundMessage) && coll.users == old(coll.users))
      && (v.Admit? && IsValidId(userId) && FirstMatch(old(coll.users), ById(Parse(userId))).Some? && IsSelf(v.user.id, userId) ==>
            reply == Refusal(400, SelfFollowMessage) && coll.users == old(coll.users))
      && (v.Admit? && IsValidId(userId) && FirstMatch(old(coll.users), ById(Parse(userId))).Some? && !IsSelf(v.user.id, userId) ==>
            && coll.users == FollowEdges(old(coll.users), v.user.id, Parse(userId))
            && reply == Reply(200, Some(FollowedMessage), None, Untouched))
    ensures NoSelfFollow(old(coll.users)) ==> NoSelfFollow(coll.users)
    ensures UniqueEmails(old(coll.users)) ==> UniqueEmails(coll.users)
    ensures UniqueTokens(old(coll.users)) ==> UniqueTokens(coll.users)
  {
    var v := AuthMiddleware(coll, cookie, now);
    if v.Deny? {
      return DenyReply(v);
    }
    var me := v.user;
    if !IsValidId(userId) {
      return Refusal(400, InvalidUserIdMessage);
    }
    var targetId := Parse(userId);
    var target := coll.FindOne(ById(targetId));
    if target.value.None? {
      return Refusal(404, UserNotFoundMessage);
    }
    if IsSelf(me.id, userId) {
      return Refusal(400, SelfFollowMessage);
    }
    var first := coll.UpdateOne(ById(me.id), AddFollowing(targetId));
    var second := coll.UpdateOne(ById(targetId), AddFollower(me.id));
    FollowKeepsInvariants(old(coll.users), me.id, targetId);
    reply := Reply(200, Some(FollowedMessage), None, Untouched);
  }

  /** POST /unfollow/:userId, behind the middleware; there is no self test. */
  method Unfollow(coll: UserCollection, cookie: Option<string>, now: int, userId: string) returns (reply: Reply)
    requires coll.Valid()
    modifies coll
    ensures coll.Valid() && coll.online == old(coll.online)
    ensures var v := Gate(old(coll.users), old(coll.online), cookie, now);
      && (v.Deny? ==> reply == DenyReply(v) && coll.users == old(coll.users))
      && (v.Admit? && !IsValidId(userId) ==> reply == Refusal(400, InvalidUserIdMessage) && coll.users == old(coll.users))
      && (v.Admit? && IsValidId(userId) && FirstMatch(old(coll.users), ById(Parse(userId))).None? ==>
            reply == Refusal(404, UserNotFoundMessage) && coll.users == old(coll.users))
      && (v.Admit? && IsValidId(userId) && FirstMatch(old(coll.users), ById(Parse(userId))).Some? ==>
            && coll.users == UnfollowEdges(old(coll.users), v.user.id, Parse(userId))
            && reply == Reply(200, Some(UnfollowedMessage), None, Untouched))
    ensures NoSelfFollow(old(coll.users)) ==> NoSelfFollow(coll.users)
    ensures UniqueEmails(old(coll.users)) ==> UniqueEmails(coll.users)
    ensures UniqueTokens(old(coll.users)) ==> UniqueTokens(coll.users)
  {
    var v := AuthMiddleware(coll, cookie, now);
    if v.Deny? {
      return DenyReply(v);
    }
    var me := v.user;
    if !IsValidId(userId) {
      return Refusal(400, InvalidUserIdMessage);
    }
    var targetId := Parse(userId);
    var target := coll.FindOne(ById(targetId));
    if target.value.None? {
      return Refusal(404, UserNotFoundMessage);
    }
    var first := coll.UpdateOne(ById(me.id), PullFollowing(targetId));
    var second := coll.UpdateOne(ById(targetId), PullFollower(me.id));
    UnfollowKeepsInvariants(old(coll.users), me.id, targetId);
    reply := Reply(200, Some(UnfollowedMessage), None, Untouched);
  }
}
