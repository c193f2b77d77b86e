/**
 * The MongoDB event collection behind models/eventModel.js. A stored document is
 * a map from field names to values; the collection maps each `_id` to the rest of
 * its document. The values are JSON from request bodies, ObjectIds and dates.
 */
module Events {
  import opened Wrappers
  import opened Json
  import opened ObjectIds
  import Users

  /** A field value: JSON from a request body, an ObjectId, or a date in milliseconds. */
  datatype Value = Plain(json: Json) | Oid(id: ObjectId) | Stamp(ms: int)

  type Doc = map<string, Value>

  const IdField := "_id"
  const CountField := "attendeeCount"
  const AttendeesField := "attendees"
  const CreatorField := "creatorId"
  const CreatedField := "createdAt"

  const DuplicateKeyMessage := "E11000 duplicate key error collection: events index: _id_"
  const ArrayIdMessage := "The '_id' value cannot be of type array"
  const ImmutableIdMessage := "Performing an update on the path '_id' would modify the immutable field '_id'"
  const IncTypeMessage := "Cannot apply $inc to a value of non-numeric type"
  const AddToSetTypeMessage := "Cannot apply $addToSet to non-array field"

  /** A request body's fields as stored values. */
  function Lift(body: map<string, Json>): (d: Doc)
    ensures d.Keys == body.Keys
    ensures forall k :: k in body ==> d[k] == Plain(body[k])
  {
    map k | k in body :: Plain(body[k])
  }

  /** A stored document with its key put back under `_id`, as reads return it. */
  function WithId(key: Value, doc: Doc): Doc {
    doc[IdField := key]
  }

  /**
   * The key insertOne gives a document: its own `_id`, or the fresh id the driver
   * generates when `_id` is absent or null (the driver tests `doc._id == null`).
   */
  function KeyFor(doc: Doc, freshId: ObjectId): Value {
    if IdField in doc && doc[IdField] != Plain(JNull) then doc[IdField] else Oid(freshId)
  }

  /** insertOne's verdict on a reachable collection: the new key, or the server's error. */
  function InsertKey(events: map<Value, Doc>, doc: Doc, freshId: ObjectId): (r: Result<Value, string>)
    ensures r.Ok? <==> KeyFor(doc, freshId) !in events && !(KeyFor(doc, freshId).Plain? && KeyFor(doc, freshId).json.JArr?)
    ensures r.Ok? ==> r.value == KeyFor(doc, freshId)
    ensures r.Ok? && (IdField !in doc || doc[IdField] == Plain(JNull)) ==> r.value == Oid(freshId)
    ensures r.Ok? && IdField in doc && doc[IdField] != Plain(JNull) ==> r.value == doc[IdField]
  {
    var key := KeyFor(doc, freshId);
    if key.Plain? && key.json.JArr? then Err(ArrayIdMessage)
    else if key in events then Err(DuplicateKeyMessage)
    else Ok(key)
  }

  /** The documents whose `creatorId` equals the given value, each with its `_id`. */
  function CreatedBy(events: map<Value, Doc>, creator: Value): (r: map<Value, Doc>)
    ensures forall key :: key in r <==> key in events && CreatorField in events[key] && events[key][CreatorField] == creator
    ensures forall key :: key in r ==> r[key] == WithId(key, events[key])
  {
    map key | key in events && CreatorField in events[key] && events[key][CreatorField] == creator :: WithId(key, events[key])
  }

  /** The update documents eventModel sends with updateOne. */
  datatype EventUpdate =
    | SetFields(fields: map<string, Json>)   // $set: eventData
    | CountJoin(email: string)               // $inc: { attendeeCount: 1 }, $addToSet: { attendees: email }

  /** `attendeeCount` is absent or a number and `attendees` absent or an array: the join update applies. */
  predicate Joinable(doc: Doc) {
    && (CountField in doc ==> doc[CountField].Plain? && doc[CountField].json.JNum?)
    && (AttendeesField in doc ==> doc[AttendeesField].Plain? && doc[AttendeesField].json.JArr?)
  }

  /** `attendeeCount`, an absent one counting as 0. */
  function CountOf(doc: Doc): int
    requires Joinable(doc)
  {
    if CountField in doc then doc[CountField].json.n else 0
  }

  /** `attendees`, an absent one counting as empty. */
  function AttendeesOf(doc: Doc): seq<Json>
    requires Joinable(doc)
  {
    if AttendeesField in doc then doc[AttendeesField].json.items else []
  }

  /** The document the update makes of a stored one, or the server's error. */
  function Updated(key: Value, doc: Doc, op: EventUpdate): (r: Result<Doc, string>)
    ensures IdField !in doc && r.Ok? ==> IdField !in r.value
    ensures op.SetFields? ==> (r.Err? <==> IdField in op.fields && Plain(op.fields[IdField]) != key)
    ensures op.SetFields? && r.Ok? ==>
      && (forall f :: f in r.value <==> f in doc || (f in op.fields && f != IdField))
      && (forall f :: f in op.fields && f != IdField ==> r.value[f] == Plain(op.fields[f]))
      && (forall f :: f in doc && f !in op.fields ==> r.value[f] == doc[f])
  {
    match op
    case SetFields(fields) =>
      if IdField in fields && Plain(fields[IdField]) != key then Err(ImmutableIdMessage)
      else Ok(doc + Lift(fields - {IdField}))
    case CountJoin(email) =>
      if CountField in doc && !(doc[CountField].Plain? && doc[CountField].json.JNum?) then Err(IncTypeMessage)
      else if !Joinable(doc) then Err(AddToSetTypeMessage)
      else Ok(doc[CountField := Plain(JNum(CountOf(doc) + 1))]
                 [AttendeesField := Plain(JArr(Users.AddToSet(AttendeesOf(doc), JStr(email))))])
  }

  /** The MongoDB event collection. `online` is false while the database is unreachable. */
  class EventCollection {
    var events: map<Value, Doc>
    var online: bool

    /** Keys live outside the documents: no stored document holds an `_id` field. */
    ghost predicate Valid()
      reads this
    {
      forall key | key in events :: IdField !in events[key]
    }

    constructor ()
      ensures Valid() && events == map[] && online
    {
      events := map[];
      online := true;
    }

    /** `findOne({ _id: key })` */
    method FindOne(key: Value) returns (r: Result<Option<Doc>, string>)
      ensures !online ==> r == Err(Users.StoreDownMessage)
      ensures online ==> r == Ok(if key in events then Some(WithId(key, events[key])) else None)
    {
      if !online {
        return Err(Users.StoreDownMessage);
      }
      if key in events {
        r := Ok(Some(WithId(key, events[key])));
      } else {
        r := Ok(None);
      }
    }

    /** `find({ creatorId: creator }).toArray()` */
    method Find(creator: Value) returns (r: Result<map<Value, Doc>, string>)
      ensures !online ==> r == Err(Users.StoreDownMessage)
      ensures online ==> r == Ok(CreatedBy(events, creator))
    {
      if !online {
        return Err(Users.StoreDownMessage);
      }
      r := Ok(CreatedBy(events, creator));
    }

    /** `insertOne(doc)`: the document is stored under its key, without the `_id` field. */
    method InsertOne(doc: Doc, freshId: ObjectId) returns (r: Result<Value, string>)
      requires Valid()
      modifies this
      ensures Valid() && online == old(online)
      ensures !old(online) ==> r == Err(Users.StoreDownMessage)
      ensures old(online) ==> r == InsertKey(old(events), doc, freshId)
      ensures r.Ok? ==> events == old(events)[r.value := doc - {IdField}]
      ensures r.Err? ==> events == old(events)
    {
      if !online {
        return Err(Users.StoreDownMessage);
      }
      r := InsertKey(events, doc, freshId);
      if r.Ok? {
        events := events[r.value := doc - {IdField}];
      }
    }

    /** `updateOne({ _id: key }, op, { upsert: false })`: reports whether a document matched. */
    method UpdateOne(key: Value, op: EventUpdate) returns (r: Result<bool, string>)
      requires Valid()
      modifies this
      ensures Valid() && online == old(online)
      ensures !old(online) ==> r == Err(Users.StoreDownMessage) && events == old(events)
      ensures old(online) && key !in old(events) ==> r == Ok(false) && events == old(events)
      ensures old(online) && key in old(events) ==>
        match Updated(key, old(events)[key], op)
        case Err(m) => r == Err(m) && events == old(events)
        case Ok(d) => r == Ok(true) && events == old(events)[key := d]
    {
      if !online {
        return Err(Users.StoreDownMessage);
      }
      if key !in events {
        return Ok(false);
      }
      var outcome := Updated(key, events[key], op);
      if outcome.Err? {
        return Err(outcome.error);
      }
      events := events[key := outcome.value];
      r := Ok(true);
    }

    /** `deleteOne({ _id: key })`: reports whether a document was removed. */
    method DeleteOne(key: Value) returns (r: Result<bool, string>)
      requires Valid()
      modifies this
      ensures Valid() && online == old(online)
      ensures !old(online) ==> r == Err(Users.StoreDownMessage) && events == old(events)
      ensures old(online) ==> r == Ok(key in old(events)) && events == old(events) - {key}
    {
      if !online {
        return Err(Users.StoreDownMessage);
      }
      r := Ok(key in events);
      events := events - {key};
    }
  }
}
