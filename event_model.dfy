/**
 * models/eventModel.js: the event operations the controllers call. Each is a
 * method over the event collection, proved against a specification function
 * of the collection before the call; a thrown error is `Err(message)`.
 */
module EventModel {
  import opened Wrappers
  import opened Json
  import opened ObjectIds
  import opened Events
  import Users

  const EventNotFoundMessage := "Event not found"
  const AlreadyJoinedMessage := "User has already joined this event"
  const BsonErrorMessage := "input must be a 24 character hex string, 12 byte Uint8Array, or an integer"
  const IncludesTypeErrorMessage := "event.attendees.includes is not a function"

  /** An operation's result together with the collection it leaves behind. */
  datatype Outcome<T> = Outcome(result: Result<T, string>, events: map<Value, Doc>)

  /** What `patchEvents` returns: `{ _id, attendeeCount, attendees }`. */
  datatype JoinSummary = JoinSummary(eventId: string, attendeeCount: int, attendees: seq<Json>)

  /** What `deleteEvents` returns: `{ success: true, eventId }`. */
  datatype Deletion = Deletion(success: bool, eventId: string)

  /** `new ObjectId(eventId)`: throws on text that is not 24 hex digits. */
  function KeyOf(eventId: string): (r: Result<Value, string>)
    ensures r.Ok? <==> IsValidId(eventId)
    ensures r.Ok? ==> r.value == Oid(Parse(eventId))
    ensures r.Err? ==> r.error == BsonErrorMessage
  {
    if IsValidId(eventId) then Ok(Oid(Parse(eventId))) else Err(BsonErrorMessage)
  }

  /** `{ ...eventData, attendeeCount: 0, attendees: [] }` */
  function WithDefaults(data: Doc): Doc {
    data[CountField := Plain(JNum(0))][AttendeesField := Plain(JArr([]))]
  }

  /**
   * postEvents: the input's fields with the counters reset, stored under the
   * input's `_id` (when it is neither absent nor null) or a fresh one, and
   * returned with that `_id`.
   */
  function PostSpec(events: map<Value, Doc>, online: bool, data: Doc, freshId: ObjectId): (o: Outcome<Doc>)
    ensures o.result.Err? ==> o.events == events
    ensures o.result.Ok? ==>
      var rec := o.result.value;
      && CountField in rec && AttendeesField in rec
      && rec[CountField] == Plain(JNum(0)) && rec[AttendeesField] == Plain(JArr([]))
      && (forall k :: k in data && k != CountField && k != AttendeesField && k != IdField ==> k in rec && rec[k] == data[k])
      && (forall k :: k in rec ==> k in data || k == CountField || k == AttendeesField || k == IdField)
      && IdField in rec && rec[IdField] !in events
      && rec[IdField] == (if IdField in data && data[IdField] != Plain(JNull) then data[IdField] else Oid(freshId))
      && o.events == events[rec[IdField] := rec - {IdField}]
  {
    var stored := WithDefaults(data);
    if !online then Outcome(Err(Users.StoreDownMessage), events)
    else match InsertKey(events, stored, freshId)
      case Err(m) => Outcome(Err(m), events)
      case Ok(key) =>
        assert stored[IdField := key] - {IdField} == stored - {IdField};
        Outcome(Ok(stored[IdField := key]), events[key := stored - {IdField}])
  }

  method PostEvents(store: EventCollection, data: Doc, freshId: ObjectId) returns (r: Result<Doc, string>)
    requires store.Valid()
    modifies store
    ensures store.Valid() && store.online == old(store.online)
    ensures Outcome(r, store.events) == PostSpec(old(store.events), old(store.online), data, freshId)
  {
    var stored := WithDefaults(data);
    var inserted := store.InsertOne(stored, freshId);
    if inserted.Err? {
      return Err(inserted.error);
    }
    r := Ok(stored[IdField := inserted.value]);
  }

  /**
   * putEvents: `$set` of the body's fields on the event, which must exist;
   * returns the body with `_id` set to the identifier text.
   */
  function PutSpec(events: map<Value, Doc>, online: bool, eventId: string, fields: map<string, Json>): (o: Outcome<Doc>)
    ensures o.result.Err? ==> o.events == events
    ensures o.result == Err(EventNotFoundMessage) <==> IsValidId(eventId) && online && Oid(Parse(eventId)) !in events
    ensures o.result.Ok? ==>
      && IsValidId(eventId)
      && var key := Oid(Parse(eventId));
      && key in events && key in o.events
      && o.result.value == Lift(fields)[IdField := Plain(JStr(eventId))]
      && o.events == events[key := o.events[key]]
      && (forall f :: f in o.events[key] <==> f in events[key] || (f in fields && f != IdField))
      && (forall f :: f in fields && f != IdField ==> o.events[key][f] == Plain(fields[f]))
      && (forall f :: f in events[key] && f !in fields && f != IdField ==> o.events[key][f] == events[key][f])
  {
    match KeyOf(eventId)
    case Err(m) => Outcome(Err(m), events)
    case Ok(key) =>
      if !online then Outcome(Err(Users.StoreDownMessage), events)
      else if key !in events then Outcome(Err(EventNotFoundMessage), events)
      else match Updated(key, events[key], SetFields(fields))
        case Err(m) => Outcome(Err(m), events)
        case Ok(d) => Outcome(Ok(Lift(fields)[IdField := Plain(JStr(eventId))]), events[key := d])
  }

  method PutEvents(store: EventCollection, eventId: string, fields: map<string, Json>) returns (r: Result<Doc, string>)
    requires store.Valid()
    modifies store
    ensures store.Valid() && store.online == old(store.online)
    ensures Outcome(r, store.events) == PutSpec(old(store.events), old(store.online), eventId, fields)
  {
    var key := KeyOf(eventId);
    if key.Err? {
      return Err(key.error);
    }
    var updated := store.UpdateOne(key.value, SetFields(fields));
    if updated.Err? {
      return Err(updated.error);
    }
    if !updated.value {
      return Err(EventNotFoundMessage);
    }
    r := Ok(Lift(fields)[IdField := Plain(JStr(eventId))]);
  }

  /** `text.includes(needle)` on strings. */
  predicate IsSubstring(needle: string, text: string) {
    exists i, j | 0 <= i <= j <= |text| :: text[i..j] == needle
  }

  /** `event.attendees && event.attendees.includes(email)`: `Err` when `includes` is not a function. */
  function Listed(event: Doc, email: string): (r: Result<bool, string>)
    ensures Joinable(event) ==> r == Ok(JStr(email) in AttendeesOf(event))
  {
    if AttendeesField !in event then Ok(false)
    else match event[AttendeesField]
      case Plain(j) =>
        if !Truthy(j) then Ok(false)
        else if j.JArr? then Ok(JStr(email) in j.items)
        else if j.JStr? then Ok(IsSubstring(email, j.s))
        else Err(IncludesTypeErrorMessage)
      case Oid(_) => Err(IncludesTypeErrorMessage)
      case Stamp(_) => Err(IncludesTypeErrorMessage)
  }

  /** `{ _id: eventId, attendeeCount: (event.attendeeCount || 0) + 1, attendees: [...(event.attendees || []), email] }` */
  function Summary(eventId: string, event: Doc, email: string): JoinSummary
    requires Joinable(event)
  {
    JoinSummary(eventId, CountOf(event) + 1, AttendeesOf(event) + [JStr(email)])
  }

  /**
   * patchEvents: a join raises `attendeeCount` by one and appends the e-mail to
   * `attendees`; the event must exist and must not list the e-mail yet.
   */
  function PatchSpec(events: map<Value, Doc>, online: bool, eventId: string, email: string): (o: Outcome<JoinSummary>)
    ensures o.result.Err? ==> o.events == events
    ensures o.result == Err(EventNotFoundMessage) <==> IsValidId(eventId) && online && Oid(Parse(eventId)) !in events
    ensures o.result == Err(AlreadyJoinedMessage) <==>
      IsValidId(eventId) && online && Oid(Parse(eventId)) in events
      && Listed(WithId(Oid(Parse(eventId)), events[Oid(Parse(eventId))]), email) == Ok(true)
    ensures o.result.Ok? ==>
      && IsValidId(eventId)
      && var key := Oid(Parse(eventId));
      && key in events && key in o.events
      && var before := events[key];
      && var after := o.events[key];
      && Joinable(before) && JStr(email) !in AttendeesOf(before)
      && o.result.value == JoinSummary(eventId, CountOf(before) + 1, AttendeesOf(before) + [JStr(email)])
      && after == before[CountField := Plain(JNum(o.result.value.attendeeCount))]
                        [AttendeesField := Plain(JArr(o.result.value.attendees))]
      && o.events == events[key := after]
  {
    match KeyOf(eventId)
    case Err(m) => Outcome(Err(m), events)
    case Ok(key) =>
      if !online then Outcome(Err(Users.StoreDownMessage), events)
      else if key !in events then Outcome(Err(EventNotFoundMessage), events)
      else
        var event := WithId(key, events[key]);
        match Listed(event, email)
        case Err(m) => Outcome(Err(m), events)
        case Ok(true) => Outcome(Err(AlreadyJoinedMessage), events)
        case Ok(false) =>
          match Updated(key, events[key], CountJoin(email))
          case Err(m) => Outcome(Err(m), events)
          case Ok(d) => Outcome(Ok(Summary(eventId, event, email)), events[key := d])
  }

  method PatchEvents(store: EventCollection, eventId: string, email: string) returns (r: Result<JoinSummary, string>)
    requires store.Valid()
    modifies store
    ensures store.Valid() && store.online == old(store.online)
    ensures Outcome(r, store.events) == PatchSpec(old(store.events), old(store.online), eventId, email)
  {
    var key := KeyOf(eventId);
    if key.Err? {
      return Err(key.error);
    }
    var found := store.FindOne(key.value);
    if found.Err? {
      return Err(found.error);
    }
    if found.value.None? {
      return Err(EventNotFoundMessage);
    }
    var event := found.value.value;
    var listed := Listed(event, email);
    if listed.Err? {
      return Err(listed.error);
    }
    if listed.value {
      return Err(AlreadyJoinedMessage);
    }
    var updated := store.UpdateOne(key.value, CountJoin(email));
    if updated.Err? {
      return Err(updated.error);
    }
    r := Ok(Summary(eventId, event, email));
  }

  /** deleteEvents: the event must exist; only it is removed. */
  function DeleteSpec(events: map<Value, Doc>, online: bool, eventId: string): (o: Outcome<Deletion>)
    ensures o.result.Err? ==> o.events == events
    ensures o.result == Err(EventNotFoundMessage) <==> IsValidId(eventId) && online && Oid(Parse(eventId)) !in events
    ensures o.result.Ok? ==>
      && IsValidId(eventId) && Oid(Parse(eventId)) in events
      && o.result.value == Deletion(true, eventId)
      && o.events.Keys == events.Keys - {Oid(Parse(eventId))}
      && forall key :: key in o.events ==> o.events[key] == events[key]
  {
    match KeyOf(eventId)
    case Err(m) => Outcome(Err(m), events)
    case Ok(key) =>
      if !online then Outcome(Err(Users.StoreDownMessage), events)
      else if key !in events then Outcome(Err(EventNotFoundMessage), events)
      else Outcome(Ok(Deletion(true, eventId)), events - {key})
  }

  method DeleteEvents(store: EventCollection, eventId: string) returns (r: Result<Deletion, string>)
    requires store.Valid()
    modifies store
    ensures store.Valid() && store.online == old(store.online)
    ensures Outcome(r, store.events) == DeleteSpec(old(store.events), old(store.online), eventId)
  {
    var key := KeyOf(eventId);
    if key.Err? {
      return Err(key.error);
    }
    var deleted := store.DeleteOne(key.value);
    if deleted.Err? {
      return Err(deleted.error);
    }
    if !deleted.value {
      return Err(EventNotFoundMessage);
    }
    r := Ok(Deletion(true, eventId));
  }

  /** getEventById: the event with its `_id`, or none. */
  function GetByIdSpec(events: map<Value, Doc>, online: bool, eventId: string): (r: Result<Option<Doc>, string>)
    ensures r.Ok? <==> IsValidId(eventId) && online
    ensures r.Ok? && r.value.Some? ==>
      Oid(Parse(eventId)) in events && r.value.value == WithId(Oid(Parse(eventId)), events[Oid(Parse(eventId))])
    ensures r.Ok? && r.value.None? ==> Oid(Parse(eventId)) !in events
  {
    match KeyOf(eventId)
    case Err(m) => Err(m)
    case Ok(key) =>
      if !online then Err(Users.StoreDownMessage)
      else if key in events then Ok(Some(WithId(key, events[key])))
      else Ok(None)
  }

  method GetEventById(store: EventCollection, eventId: string) returns (r: Result<Option<Doc>, string>)
    ensures r == GetByIdSpec(store.events, store.online, eventId)
  {
    var key := KeyOf(eventId);
    if key.Err? {
      return Err(key.error);
    }
    r := store.FindOne(key.value);
  }

  /** getMyEvents: exactly the events whose `creatorId` is the user's ObjectId. */
  method GetMyEvents(store: EventCollection, userId: ObjectId) returns (r: Result<map<Value, Doc>, string>)
    ensures !store.online ==> r == Err(Users.StoreDownMessage)
    ensures store.online ==> r.Ok? && forall key :: key in r.value <==>
      key in store.events && CreatorField in store.events[key] && store.events[key][CreatorField] == Oid(userId)
    ensures store.online ==> forall key :: key in r.value ==> r.value[key] == WithId(key, store.events[key])
  {
    r := store.Find(Oid(userId));
  }

  /** Once a join has succeeded, the same join again is refused as already joined and changes nothing. */
  lemma SecondJoinIsRejected(events: map<Value, Doc>, online: bool, eventId: string, email: string)
    requires PatchSpec(events, online, eventId, email).result.Ok?
    ensures var first := PatchSpec(events, online, eventId, email).events;
      PatchSpec(first, online, eventId, email) == Outcome(Err(AlreadyJoinedMessage), first)
  {
    var first := PatchSpec(events, online, eventId, email).events;
    var key := Oid(Parse(eventId));
    var event := WithId(key, first[key]);
    assert Joinable(event);
    assert JStr(email) in AttendeesOf(event);
  }

  /** The collection after a run of joins to one event, one request after the other. */
  function JoinAll(events: map<Value, Doc>, eventId: string, emails: seq<string>): map<Value, Doc>
    decreases |emails|
  {
    if emails == [] then events
    else PatchSpec(JoinAll(events, eventId, emails[..|emails| - 1]), true, eventId, emails[|emails| - 1]).events
  }

  /** The e-mails in the order they first occur, each once. */
  function FirstOccurrences(emails: seq<string>): (r: seq<string>)
    ensures forall e :: e in r <==> e in emails
    ensures forall i, j :: 0 <= i < j < |r| ==> r[i] != r[j]
    decreases |emails|
  {
    if emails == [] then []
    else
      var earlier := FirstOccurrences(emails[..|emails| - 1]);
      var e := emails[|emails| - 1];
      assert emails == emails[..|emails| - 1] + [e];
      if e in earlier then earlier else earlier + [e]
  }

  /** E-mails as the JSON strings `attendees` holds. */
  function AsJson(emails: seq<string>): (r: seq<Json>)
    ensures |r| == |emails|
    ensures forall i :: 0 <= i < |emails| ==> r[i] == JStr(emails[i])
  {
    seq(|emails|, i requires 0 <= i < |emails| => JStr(emails[i]))
  }

  lemma AsJsonMembership(emails: seq<string>, e: string)
    ensures JStr(e) in AsJson(emails) <==> e in emails
  {
    if e in emails {
      var i :| 0 <= i < |emails| && emails[i] == e;
      assert AsJson(emails)[i] == JStr(e);
    }
  }

  /**
   * From the counters postEvents stores (0 and []), any run of joins leaves
   * `attendees` holding each distinct e-mail once, in order of first join, and
   * `attendeeCount` equal to their number.
   */
  lemma {:induction false} JoinsKeepCountInSync(events: map<Value, Doc>, eventId: string, emails: seq<string>)
    requires IsValidId(eventId) && Oid(Parse(eventId)) in events
    requires var doc := events[Oid(Parse(eventId))];
      && CountField in doc && doc[CountField] == Plain(JNum(0))
      && AttendeesField in doc && doc[AttendeesField] == Plain(JArr([]))
    ensures var key := Oid(Parse(eventId));
      var after := JoinAll(events, eventId, emails);
      && key in after && CountField in after[key] && AttendeesField in after[key]
      && after[key][AttendeesField] == Plain(JArr(AsJson(FirstOccurrences(emails))))
      && after[key][CountField] == Plain(JNum(|FirstOccurrences(emails)|))
    decreases |emails|
  {
    var key := Oid(Parse(eventId));
    if emails == [] {
      assert AsJson([]) == [];
    } else {
      var earlier := emails[..|emails| - 1];
      var e := emails[|emails| - 1];
      JoinsKeepCountInSync(events, eventId, earlier);
      var before := JoinAll(events, eventId, earlier);
      var seen := FirstOccurrences(earlier);
      var event := WithId(key, before[key]);
      assert Joinable(event) && AttendeesOf(event) == AsJson(seen) && CountOf(event) == |seen|;
      AsJsonMembership(seen, e);
      if e !in seen {
        assert AsJson(seen + [e]) == AsJson(seen) + [JStr(e)];
      }
    }
  }

  /** An event posted under a fresh id counts its joins: the property above, from postEvents itself. */
  lemma PostedEventCountsJoins(events: map<Value, Doc>, data: Doc, freshId: ObjectId, emails: seq<string>)
    requires IdField !in data || data[IdField] == Plain(JNull)
    requires PostSpec(events, true, data, freshId).result.Ok?
    ensures var after := JoinAll(PostSpec(events, true, data, freshId).events, freshId.hex, emails);
      && Oid(freshId) in after
      && CountField in after[Oid(freshId)] && AttendeesField in after[Oid(freshId)]
      && after[Oid(freshId)][AttendeesField] == Plain(JArr(AsJson(FirstOccurrences(emails))))
      && after[Oid(freshId)][CountField] == Plain(JNum(|FirstOccurrences(emails)|))
  {
    ParseToString(freshId);
    var o := PostSpec(events, true, data, freshId);
    assert o.result.value[IdField] == Oid(freshId);
    JoinsKeepCountInSync(o.events, freshId.hex, emails);
  }
}
