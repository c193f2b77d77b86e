/**
 * Handlers run one after another on a fresh collection: a user registers and
 * logs in again; and the first join of a freshly posted event.
 */
module Scenario {
  import opened Wrappers
  import opened Json
  import opened ObjectIds
  import opened Validation
  import opened Users
  import opened AuthRoutes
  import opened Events
  import opened EventModel

  /** A registration followed by a login with the same credentials: the second session replaces the first. */
  method RegisterThenLogin(kdf: (string, string) -> string, aliceId: ObjectId, now: int)
    returns (registered: Reply, loggedIn: Reply, alice: User)
    ensures registered.status == 201 && registered.cookie == Issued("t1", now + TokenLifetime)
    ensures loggedIn == Reply(200, Some(LoginMessage), Some(Profile("alice", "alice@x.com", Some(JNull))),
                              Issued("t2", now + 1 + TokenLifetime))
    ensures alice.id == aliceId && alice.email == "alice@x.com" && alice.token == Some("t2")
  {
    RegistrationRejections();
    var users := new UserCollection();
    var body := RegisterBody(Some(JStr("alice")), Some(JStr("alice@x.com")), Some(JStr("secret1")), None);
    assert Admissible(body);
    registered := Register(users, body, aliceId, "salt", "t1", now, kdf);
    assert users.users == [NewUser(body, aliceId, "salt", "t1", now, kdf)];
    assert FirstMatch(users.users, ByEmail(JStr("alice@x.com"))) == Some(0);
    var credentials := LoginBody(Some(JStr("alice@x.com")), Some(JStr("secret1")));
    loggedIn := Login(users, credentials, "t2", now + 1, kdf);
    alice := users.users[0];
  }

  /** The first join of an event with zero counters succeeds with count 1 and the one e-mail. */
  lemma FirstJoinOfNewEvent(events: map<Value, Doc>, eventId: string, email: string)
    requires IsValidId(eventId) && Oid(Parse(eventId)) in events
    requires var doc := events[Oid(Parse(eventId))];
      && CountField in doc && doc[CountField] == Plain(JNum(0))
      && AttendeesField in doc && doc[AttendeesField] == Plain(JArr([]))
    ensures PatchSpec(events, true, eventId, email).result == Ok(JoinSummary(eventId, 1, [JStr(email)]))
  {
    var key := Oid(Parse(eventId));
    var event := WithId(key, events[key]);
    assert Joinable(event) && CountOf(event) == 0 && AttendeesOf(event) == [];
    assert Listed(event, email) == Ok(false);
  }
}
