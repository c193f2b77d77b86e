/**
 * controllers/eventController.js: the guards each handler checks, in order,
 * before it calls the event model, and the status each thrown message is
 * answered with. `user` is the record the middleware put in `req.user`.
 */
module EventController {
  import opened Wrappers
  import opened Json
  import opened ObjectIds
  import opened Users
  import opened Events
  import opened EventModel

  const InternalErrorMessage := "Internal Server Error"
  const InvalidEventIdMessage := "Invalid event ID"
  const UpdateForbiddenMessage := "Unauthorized to update this event"
  const DeleteForbiddenMessage := "Unauthorized to delete this event"
  const EmailRequiredMessage := "Valid email is required"
  const JoinForbiddenMessage := "Unauthorized to join with this email"
  const UndefinedCreatorMessage := "Cannot read properties of undefined (reading 'toString')"
  const NullCreatorMessage := "Cannot read properties of null (reading 'toString')"
  const NotCallableCreatorMessage := "event.creatorId.toString is not a function"

  datatype Payload =
    | Problem(error: string)
    | Record(doc: Doc)
    | Removed(deletion: Deletion)
    | Joined(summary: JoinSummary)
    | Listing(events: map<Value, Doc>)

  datatype Response = Response(status: nat, payload: Payload)

  /** `error.message || "Internal Server Error"` */
  function ErrorText(message: string): string {
    if message == "" then InternalErrorMessage else message
  }

  /** The catch block of put and delete: "Event not found" is 404, anything else 500. */
  function UpdateFailure(message: string): Response {
    Response(if message == EventNotFoundMessage then 404 else 500, Problem(ErrorText(message)))
  }

  /** The catch block of a join: "Event not found" and "already joined" are 400, anything else 500. */
  function JoinFailure(message: string): Response {
    Response(if message == EventNotFoundMessage || message == AlreadyJoinedMessage then 400 else 500,
             Problem(ErrorText(message)))
  }

  /** `{ ...eventData, creatorId: userId, createdAt: new Date() }` */
  function Stamped(body: map<string, Json>, uid: ObjectId, now: int): (d: Doc)
    ensures CreatorField in d && d[CreatorField] == Oid(uid)
    ensures CreatedField in d && d[CreatedField] == Stamp(now)
    ensures forall k :: k in body && k != CreatorField && k != CreatedField ==> k in d && d[k] == Plain(body[k])
    ensures forall k :: k in d ==> k in body || k == CreatorField || k == CreatedField
  {
    Lift(body)[CreatorField := Oid(uid)][CreatedField := Stamp(now)]
  }

  /** postEventsController: the stamped body is posted; any error is 500 "Internal Server Error". */
  method PostEventsController(store: EventCollection, body: map<string, Json>, user: User, now: int, freshId: ObjectId)
    returns (resp: Response)
    requires store.Valid()
    modifies store
    ensures store.Valid() && store.online == old(store.online)
    ensures var o := PostSpec(old(store.events), old(store.online), Stamped(body, user.id, now), freshId);
      && store.events == o.events
      && (o.result.Ok? ==> resp == Response(201, Record(o.result.value)))
      && (o.result.Err? ==> resp == Response(500, Problem(InternalErrorMessage)))
    ensures resp.status == 201 ==>
      && resp.payload.Record?
      && CreatorField in resp.payload.doc && resp.payload.doc[CreatorField] == Oid(user.id)
      && CreatedField in resp.payload.doc && resp.payload.doc[CreatedField] == Stamp(now)
      && CountField in resp.payload.doc && resp.payload.doc[CountField] == Plain(JNum(0))
      && AttendeesField in resp.payload.doc && resp.payload.doc[AttendeesField] == Plain(JArr([]))
  {
    var result := PostEvents(store, Stamped(body, user.id, now), freshId);
    if result.Err? {
      return Response(500, Problem(InternalErrorMessage));
    }
    resp := Response(201, Record(result.value));
  }

  /**
   * `event.creatorId.toString() === userId.toString()`: `Err` when `creatorId` is
   * undefined or null, or when its `toString` throws (an object with its own
   * "toString" key, or an array holding an unconvertible value).
   */
  function CreatorIs(event: Doc, uid: ObjectId): (r: Result<bool, string>)
    ensures r == Ok(true) <==>
      CreatorField in event &&
      (event[CreatorField] == Oid(uid) || (event[CreatorField].Plain? && ToText(event[CreatorField].json) == Ok(uid.hex)))
    ensures r.Err? <==>
      || CreatorField !in event
      || event[CreatorField] == Plain(JNull)
      || (event[CreatorField].Plain? && Unprintable(event[CreatorField].json))
    ensures r.Err? ==> r.error != "" && r.error != EventNotFoundMessage
  {
    if CreatorField !in event then Err(UndefinedCreatorMessage)
    else match event[CreatorField]
      case Oid(o) => Ok(o == uid)
      case Plain(j) =>
        if j.JNull? then Err(NullCreatorMessage)
        else if j.JObj? && "toString" in j.members then Err(NotCallableCreatorMessage)
        else (match ToText(j)
          case Err(m) => Err(m)
          case Ok(text) => Ok(text == uid.hex))
      case Stamp(_) => Ok(false)
  }

  /**
   * The owner check compares texts: a `creatorId` stored as a one-element array
   * holding the caller's id text passes it, and the same array with an object
   * that has its own "toString" key makes it throw.
   */
  lemma OwnerCheckComparesText(uid: ObjectId)
    ensures CreatorIs(map[CreatorField := Plain(JArr([JStr(uid.hex)]))], uid) == Ok(true)
    ensures CreatorIs(map[CreatorField := Plain(JArr([JStr(uid.hex), JObj(map["toString" := JNum(1)])]))], uid)
      == Err(NoPrimitiveMessage)
  {
    var one := JArr([JStr(uid.hex)]);
    assert !Unprintable(one) by {
      assert forall i :: 0 <= i < 1 ==> !Unprintable(one.items[i]);
    }
    assert ToText(one) == Ok(uid.hex);
    var two := JArr([JStr(uid.hex), JObj(map["toString" := JNum(1)])]);
    assert Unprintable(two.items[1]);
  }

  /** An event posted through the controller belongs to its poster and to nobody else. */
  lemma PosterOwnsEvent(events: map<Value, Doc>, body: map<string, Json>, poster: ObjectId, other: ObjectId,
                        now: int, freshId: ObjectId)
    requires PostSpec(events, true, Stamped(body, poster, now), freshId).result.Ok?
    ensures var o := PostSpec(events, true, Stamped(body, poster, now), freshId);
      var key := o.result.value[IdField];
      && key in o.events
      && CreatorIs(WithId(key, o.events[key]), other) == Ok(other == poster)
  {
    var o := PostSpec(events, true, Stamped(body, poster, now), freshId);
    var key := o.result.value[IdField];
    assert WithId(key, o.events[key])[CreatorField] == Oid(poster);
  }

  /** putEventsController */
  method PutEventsController(store: EventCollection, eventId: string, body: map<string, Json>, user: User)
    returns (resp: Response)
    requires store.Valid()
    modifies store
    ensures store.Valid() && store.online == old(store.online)
    ensures !IsValidId(eventId) ==>
      resp == Response(400, Problem(InvalidEventIdMessage)) && store.events == old(store.events)
    ensures IsValidId(eventId) && !old(store.online) ==>
      resp == Response(500, Problem(Users.StoreDownMessage)) && store.events == old(store.events)
    ensures IsValidId(eventId) && old(store.online) && Oid(Parse(eventId)) !in old(store.events) ==>
      resp == Response(404, Problem(EventNotFoundMessage)) && store.events == old(store.events)
    ensures IsValidId(eventId) && old(store.online) && Oid(Parse(eventId)) in old(store.events) ==>
      var key := Oid(Parse(eventId));
      match CreatorIs(WithId(key, old(store.events)[key]), user.id)
      case Err(m) => resp == Response(500, Problem(m)) && store.events == old(store.events)
      case Ok(false) => resp == Response(403, Problem(UpdateForbiddenMessage)) && store.events == old(store.events)
      case Ok(true) =>
        var o := PutSpec(old(store.events), true, eventId, body);
        && store.events == o.events
        && resp == (if o.result.Ok? then Response(200, Record(o.result.value)) else UpdateFailure(o.result.error))
        && resp.status != 404
  {
    if !IsValidId(eventId) {
      return Response(400, Problem(InvalidEventIdMessage));
    }
    var found := GetEventById(store, eventId);
    if found.Err? {
      return UpdateFailure(found.error);
    }
    if found.value.None? {
      return Response(404, Problem(EventNotFoundMessage));
    }
    var owner := CreatorIs(found.value.value, user.id);
    if owner.Err? {
      return UpdateFailure(owner.error);
    }
    if !owner.value {
      return Response(403, Problem(UpdateForbiddenMessage));
    }
    var result := PutEvents(store, eventId, body);
    if result.Err? {
      return UpdateFailure(result.error);
    }
    resp := Response(200, Record(result.value));
  }

  /** deleteEventsController */
  method DeleteEventsController(store: EventCollection, eventId: string, user: User) returns (resp: Response)
    requires store.Valid()
    modifies store
    ensures store.Valid() && store.online == old(store.online)
    ensures !IsValidId(eventId) ==>
      resp == Response(400, Problem(InvalidEventIdMessage)) && store.events == old(store.events)
    ensures IsValidId(eventId) && !old(store.online) ==>
      resp == Response(500, Problem(Users.StoreDownMessage)) && store.events == old(store.events)
    ensures IsValidId(eventId) && old(store.online) && Oid(Parse(eventId)) !in old(store.events) ==>
      resp == Response(404, Problem(EventNotFoundMessage)) && store.events == old(store.events)
    ensures IsValidId(eventId) && old(store.online) && Oid(Parse(eventId)) in old(store.events) ==>
      var key := Oid(Parse(eventId));
      match CreatorIs(WithId(key, old(store.events)[key]), user.id)
      case Err(m) => resp == Response(500, Problem(m)) && store.events == old(store.events)
      case Ok(false) => resp == Response(403, Problem(DeleteForbiddenMessage)) && store.events == old(store.events)
      case Ok(true) =>
        && resp == Response(200, Removed(Deletion(true, eventId)))
        && store.events == old(store.events) - {key}
  {
    if !IsValidId(eventId) {
      return Response(400, Problem(InvalidEventIdMessage));
    }
    var found := GetEventById(store, eventId);
    if found.Err? {
      return UpdateFailure(found.error);
    }
    if found.value.None? {
      return Response(404, Problem(EventNotFoundMessage));
    }
    var owner := CreatorIs(found.value.value, user.id);
    if owner.Err? {
      return UpdateFailure(owner.error);
    }
    if !owner.value {
      return Response(403, Problem(DeleteForbiddenMessage));
    }
    // the event was just found, so deleteEvents cannot throw here
    var result := DeleteEvents(store, eventId);
    resp := Response(200, Removed(result.value));
  }

  /** `!email || typeof email !== "string" || !email.includes("@")` is false. */
  predicate UsableEmail(email: Option<Json>) {
    Present(email) && email.value.JStr? && '@' in email.value.s
  }

  /** The truthiness test is implied by the other two: the e-mail is usable exactly when it is a string holding an '@'. */
  lemma UsableEmailMeans(email: Option<Json>)
    ensures UsableEmail(email) <==> email.Some? && email.value.JStr? && '@' in email.value.s
  {
  }

  /** patchAllEventsController: three guards that touch nothing, then the join. */
  method PatchAllEventsController(store: EventCollection, eventId: string, email: Option<Json>, user: User)
    returns (resp: Response)
    requires store.Valid()
    modifies store
    ensures store.Valid() && store.online == old(store.online)
    ensures !IsValidId(eventId) ==>
      resp == Response(400, Problem(InvalidEventIdMessage)) && store.events == old(store.events)
    ensures IsValidId(eventId) && !UsableEmail(email) ==>
      resp == Response(400, Problem(EmailRequiredMessage)) && store.events == old(store.events)
    ensures IsValidId(eventId) && UsableEmail(email) && email.value.s != user.email ==>
      resp == Response(403, Problem(JoinForbiddenMessage)) && store.events == old(store.events)
    ensures IsValidId(eventId) && UsableEmail(email) && email.value.s == user.email ==>
      var o := PatchSpec(old(store.events), old(store.online), eventId, user.email);
      && store.events == o.events
      && resp == (if o.result.Ok? then Response(200, Joined(o.result.value)) else JoinFailure(o.result.error))
    ensures resp.status == 200 ==> UsableEmail(email) && email.value.s == user.email
  {
    if !IsValidId(eventId) {
      return Response(400, Problem(InvalidEventIdMessage));
    }
    if !UsableEmail(email) {
      return Response(400, Problem(EmailRequiredMessage));
    }
    if email.value.s != user.email {
      return Response(403, Problem(JoinForbiddenMessage));
    }
    var result := PatchEvents(store, eventId, email.value.s);
    if result.Err? {
      return JoinFailure(result.error);
    }
    resp := Response(200, Joined(result.value));
  }

  /** A join of a missing event, or a repeated join, is a client error (400), never 404. */
  lemma JoinRefusalsAreClientErrors(events: map<Value, Doc>, eventId: string, email: string)
    requires IsValidId(eventId)
    ensures var o := PatchSpec(events, true, eventId, email);
      && (Oid(Parse(eventId)) !in events ==> JoinFailure(o.result.error).status == 400)
      && (o.result == Err(AlreadyJoinedMessage) ==> JoinFailure(o.result.error).status == 400)
      && (o.result.Err? && o.result.error != EventNotFoundMessage && o.result.error != AlreadyJoinedMessage ==>
            JoinFailure(o.result.error).status == 500)
  {
  }

  /** getMyEventsController: the caller's events, or 500 "Internal Server Error". */
  method GetMyEventsController(store: EventCollection, user: User) returns (resp: Response)
    ensures store.online ==> resp == Response(200, Listing(CreatedBy(store.events, Oid(user.id))))
    ensures !store.online ==> resp == Response(500, Problem(InternalErrorMessage))
  {
    var result := GetMyEvents(store, user.id);
    if result.Err? {
      return Response(500, Problem(InternalErrorMessage));
    }
    assert result.value == CreatedBy(store.events, Oid(user.id));
    resp := Response(200, Listing(result.value));
  }
}
