/**
 * The user collection of routes/auth.js: the records `/register` inserts and the
 * MongoDB operations the routes run on them (findOne, insertOne, updateOne with
 * `$set`, `$unset`, `$addToSet` and `$pull`). Records are kept in insertion order,
 * the order in which findOne and updateOne meet them.
 */
module Users {
  import opened Wrappers
  import opened Json
  import opened ObjectIds

  const StoreDownMessage := "MongoNetworkError: connection to the database failed"
  const DuplicateIdMessage := "E11000 duplicate key error collection: users index: _id_"

  datatype User = User(
    id: ObjectId,
    username: string,
    email: string,
    photoURL: Option<Json>,
    passwordHash: string,
    salt: string,
    token: Option<string>,
    tokenExpiresAt: Option<int>,
    followers: seq<ObjectId>,
    following: seq<ObjectId>)

  /** The query documents the routes use: `{ _id }`, `{ email }` and `{ token }`. */
  datatype Filter = ById(id: ObjectId) | ByEmail(email: Json) | ByToken(token: string)

  /** Equality matching; a stored e-mail is a string, so only a string query value can equal it. */
  predicate Matches(u: User, f: Filter) {
    match f
    case ById(id) => u.id == id
    case ByEmail(e) => e == JStr(u.email)
    case ByToken(t) => u.token == Some(t)
  }

  /** Index of the first record the filter matches. */
  function FirstMatch(users: seq<User>, f: Filter): (r: Option<nat>)
    ensures r.Some? ==> r.value < |users| && Matches(users[r.value], f)
    ensures r.Some? ==> forall k :: 0 <= k < r.value ==> !Matches(users[k], f)
    ensures r.None? <==> forall k :: 0 <= k < |users| ==> !Matches(users[k], f)
  {
    if |users| == 0 then None
    else if Matches(users[0], f) then Some(0)
    else match FirstMatch(users[1..], f)
      case None => None
      case Some(i) => Some(i + 1)
  }

  /** Two collections on which a filter matches the same positions give the same first match. */
  lemma {:induction false} FirstMatchAgrees(a: seq<User>, b: seq<User>, f: Filter)
    requires |a| == |b|
    requires forall k :: 0 <= k < |a| ==> (Matches(a[k], f) <==> Matches(b[k], f))
    ensures FirstMatch(a, f) == FirstMatch(b, f)
    decreases |a|
  {
    if |a| > 0 && !Matches(a[0], f) {
      var a', b' := a[1..], b[1..];
      forall k | 0 <= k < |a'| ensures Matches(a'[k], f) <==> Matches(b'[k], f) {
        assert a'[k] == a[k + 1] && b'[k] == b[k + 1];
      }
      FirstMatchAgrees(a', b', f);
    }
  }

  /** The update documents the routes send with updateOne. */
  datatype Update =
    | SetSession(token: string, expiresAt: int)   // $set: { token, tokenExpiresAt }
    | UnsetSession                                // $unset: { token, tokenExpiresAt }
    | AddFollowing(target: ObjectId)              // $addToSet: { following }
    | AddFollower(follower: ObjectId)             // $addToSet: { followers }
    | PullFollowing(target: ObjectId)             // $pull: { following }
    | PullFollower(follower: ObjectId)            // $pull: { followers }

  /** `$addToSet`: append the value unless an equal one is already present. */
  function AddToSet<T(==, !new)>(xs: seq<T>, x: T): (r: seq<T>)
    ensures forall y :: y in r <==> y in xs || y == x
    ensures |xs| <= |r| <= |xs| + 1 && r[..|xs|] == xs
    ensures x in xs ==> r == xs
    ensures x !in xs ==> r == xs + [x]
  {
    if x in xs then xs else xs + [x]
  }

  /** `$pull`: remove every occurrence of the value, keeping each other element as often as it occurs. */
  function Pull(xs: seq<ObjectId>, x: ObjectId): (r: seq<ObjectId>)
    ensures forall y :: y in r <==> y in xs && y != x
    ensures multiset(r) == multiset(xs)[x := 0]
    ensures x !in xs ==> r == xs
  {
    if xs == [] then []
    else
      assert xs == [xs[0]] + xs[1..];
      (if xs[0] == x then [] else [xs[0]]) + Pull(xs[1..], x)
  }

  /** The effect of one update document on the record it reaches. */
  function Apply(u: User, op: Update): (r: User)
    ensures r.id == u.id && r.email == u.email
    ensures op.SetSession? || op.UnsetSession? ==> r.followers == u.followers && r.following == u.following
    ensures !(op.SetSession? || op.UnsetSession?) ==> r.token == u.token
  {
    match op
    case SetSession(t, e) => u.(token := Some(t), tokenExpiresAt := Some(e))
    case UnsetSession => u.(token := None, tokenExpiresAt := None)
    case AddFollowing(id) => u.(following := AddToSet(u.following, id))
    case AddFollower(id) => u.(followers := AddToSet(u.followers, id))
    case PullFollowing(id) => u.(following := Pull(u.following, id))
    case PullFollower(id) => u.(followers := Pull(u.followers, id))
  }

  /** `updateOne(filter, update)`: the first matching record is updated and no other. */
  function UpdateFirst(users: seq<User>, f: Filter, op: Update): (r: seq<User>)
    ensures |r| == |users|
    ensures forall k :: 0 <= k < |r| ==> r[k].id == users[k].id && r[k].email == users[k].email
  {
    match FirstMatch(users, f)
    case None => users
    case Some(i) => users[i := Apply(users[i], op)]
  }

  /** Updates never move records or change their ids, so lookups by id are unaffected. */
  lemma UpdateKeepsIdLookup(users: seq<User>, f: Filter, op: Update, id: ObjectId)
    ensures FirstMatch(UpdateFirst(users, f, op), ById(id)) == FirstMatch(users, ById(id))
  {
    FirstMatchAgrees(UpdateFirst(users, f, op), users, ById(id));
  }

  /** An update that leaves ids, e-mails and tokens alone leaves every lookup where it was. */
  lemma UpdateKeepsLookups(users: seq<User>, f: Filter, op: Update, g: Filter)
    requires !op.SetSession? && !op.UnsetSession?
    ensures FirstMatch(UpdateFirst(users, f, op), g) == FirstMatch(users, g)
  {
    var after := UpdateFirst(users, f, op);
    forall k | 0 <= k < |users|
      ensures Matches(after[k], g) <==> Matches(users[k], g)
    {
      assert after[k].token == users[k].token;
    }
    FirstMatchAgrees(after, users, g);
  }

  /** An update of `followers` leaves every `following` array alone, and the other way round. */
  lemma UpdateTouchesOneList(users: seq<User>, f: Filter, op: Update)
    ensures var after := UpdateFirst(users, f, op);
      && (!op.AddFollowing? && !op.PullFollowing? ==> forall k :: 0 <= k < |users| ==> after[k].following == users[k].following)
      && (!op.AddFollower? && !op.PullFollower? ==> forall k :: 0 <= k < |users| ==> after[k].followers == users[k].followers)
  {
  }

  /** The `_id` index: no two records share an id. */
  ghost predicate DistinctIds(users: seq<User>) {
    forall i, j :: 0 <= i < j < |users| ==> users[i].id != users[j].id
  }

  /** What `/register` keeps true by checking for the address first. */
  ghost predicate UniqueEmails(users: seq<User>) {
    forall i, j :: 0 <= i < j < |users| ==> users[i].email != users[j].email
  }

  /** Two records never hold the same session token (true while tokens are fresh random values). */
  ghost predicate UniqueTokens(users: seq<User>) {
    forall i, j :: 0 <= i < j < |users| && users[i].token.Some? ==> users[i].token != users[j].token
  }

  /** No record lists itself among those it follows or those following it. */
  ghost predicate NoSelfFollow(users: seq<User>) {
    forall i :: 0 <= i < |users| ==> users[i].id !in users[i].following && users[i].id !in users[i].followers
  }

  /** Appending a record keeps the invariants when its e-mail and token are new and it follows no one. */
  lemma AppendKeepsInvariants(users: seq<User>, u: User)
    ensures UniqueEmails(users) && FirstMatch(users, ByEmail(JStr(u.email))).None? ==> UniqueEmails(users + [u])
    ensures NoSelfFollow(users) && u.following == [] && u.followers == [] ==> NoSelfFollow(users + [u])
    ensures UniqueTokens(users) && (u.token.Some? ==> FirstMatch(users, ByToken(u.token.value)).None?) ==>
      UniqueTokens(users + [u])
  {
    var all := users + [u];
    assert forall i :: 0 <= i < |users| ==> all[i] == users[i];
  }

  /** The update would list the record among its own followers or followings. */
  predicate AddsSelfEdge(u: User, op: Update) {
    (op.AddFollowing? && op.target == u.id) || (op.AddFollower? && op.follower == u.id)
  }

  /** An update that adds no self-edge to the record it reaches keeps `NoSelfFollow`. */
  lemma UpdateKeepsNoSelfFollow(users: seq<User>, f: Filter, op: Update)
    requires NoSelfFollow(users)
    requires FirstMatch(users, f).Some? ==> !AddsSelfEdge(users[FirstMatch(users, f).value], op)
    ensures NoSelfFollow(UpdateFirst(users, f, op))
  {
    match FirstMatch(users, f)
    case None =>
    case Some(i) =>
      var u := users[i];
      var r := Apply(u, op);
      assert r.id !in r.following && r.id !in r.followers by {
        match op
        case SetSession(_, _) =>
        case UnsetSession =>
        case AddFollowing(t) =>
        case AddFollower(t) =>
        case PullFollowing(t) =>
        case PullFollower(t) =>
      }
  }

  /** Only `$set` of a session can create a clash of tokens. */
  lemma UpdateKeepsUniqueTokens(users: seq<User>, f: Filter, op: Update)
    requires UniqueTokens(users) && !op.SetSession?
    ensures UniqueTokens(UpdateFirst(users, f, op))
  {
    var after := UpdateFirst(users, f, op);
    forall i, j | 0 <= i < j < |after| && after[i].token.Some?
      ensures after[i].token != after[j].token
    {
      assert after[i].token == users[i].token;
      assert after[j].token == users[j].token || after[j].token == None;
    }
  }

  /** The MongoDB user collection. `online` is false while the database is unreachable. */
  class UserCollection {
    var users: seq<User>
    var online: bool

    ghost predicate Valid()
      reads this
    {
      DistinctIds(users)
    }

    constructor ()
      ensures Valid() && users == [] && online
    {
      users := [];
      online := true;
    }

    /** `findOne(filter)`: the first matching record, or null. */
    method FindOne(f: Filter) returns (r: Result<Option<User>, string>)
      ensures !online ==> r == Err(StoreDownMessage)
      ensures online ==> r.Ok?
      ensures online && FirstMatch(users, f).None? ==> r.value == None
      ensures online && FirstMatch(users, f).Some? ==> r.value == Some(users[FirstMatch(users, f).value])
    {
      if !online {
        return Err(StoreDownMessage);
      }
      var i := FirstMatch(users, f);
      if i.None? {
        r := Ok(None);
      } else {
        r := Ok(Some(users[i.value]));
      }
    }

    /** `insertOne(user)`: refused when the id is taken or the database is down. */
    method InsertOne(u: User) returns (r: Result<ObjectId, string>)
      requires Valid()
      modifies this
      ensures Valid() && online == old(online)
      ensures !old(online) ==> r == Err(StoreDownMessage) && users == old(users)
      ensures old(online) && FirstMatch(old(users), ById(u.id)).Some? ==> r == Err(DuplicateIdMessage) && users == old(users)
      ensures old(online) && FirstMatch(old(users), ById(u.id)).None? ==> r == Ok(u.id) && users == old(users) + [u]
    {
      if !online {
        return Err(StoreDownMessage);
      }
      if FirstMatch(users, ById(u.id)).Some? {
        return Err(DuplicateIdMessage);
      }
      users := users + [u];
      r := Ok(u.id);
    }

    /** `updateOne(filter, update)`: reports whether a record matched. */
    method UpdateOne(f: Filter, op: Update) returns (r: Result<bool, string>)
      requires Valid()
      modifies this
      ensures Valid() && online == old(online)
      ensures !old(online) ==> r == Err(StoreDownMessage) && users == old(users)
      ensures old(online) ==> r == Ok(FirstMatch(old(users), f).Some?) && users == UpdateFirst(old(users), f, op)
    {
      if !online {
        return Err(StoreDownMessage);
      }
      r := Ok(FirstMatch(users, f).Some?);
      users := UpdateFirst(users, f, op);
    }
  }
}
