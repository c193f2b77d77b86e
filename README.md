# Eventify-Engine: a verified model of the session, follow and event logic

This project models the domain logic of the Eventify-Engine backend (Express on
MongoDB) in Dafny and proves properties of it. It covers two tables:

- **Users and sessions** (`routes/auth.js`, `middleware/verifyAuth.js`):
  - registration input validation, including the e-mail regular expression;
  - registration and login, which issue a token that expires one day later;
  - logout, which unsets the token;
  - the cookie check shared by the middleware and `/verify-token`;
  - follow and unfollow, which use `$addToSet` and `$pull` on the `following` and `followers` arrays.
- **Events** (`models/eventModel.js`, `controllers/eventController.js`):
  - create, with the attendee counters reset;
  - field-merging update, delete, read by id and read by creator;
  - the join operation (`patchEvents`);
  - the controllers' guards, in their order, and the HTTP status each thrown message becomes.

How the model is built:

- The MongoDB collections are classes.
  - `Users.UserCollection` keeps its records in insertion order, the order in which `findOne` and `updateOne` meet them.
  - `Events.EventCollection` maps each `_id` to the rest of its document.
  - Each collection has an `online` flag. While it is false, every operation throws, as the driver does when the database cannot be reached.
- Route handlers, model functions and controllers are methods that take the collection and change it in place.
  - Each event-model method is proved against a specification function of the collection before the call (`EventModel.PostSpec`, `PutSpec`, `PatchSpec`, `DeleteSpec`, `GetByIdSpec`).
  - Each handler states its outcome case by case, in the order the source checks its conditions.
- Request bodies are JSON values (`Json.Json`). This lets the model state JavaScript's truthiness, `typeof x === "string"` and `String(x)` where the source relies on them.
- Inputs the source gets from elsewhere are parameters:
  - time is an integer number of milliseconds (`now`);
  - the random session token, the random salt and the ObjectId the driver generates are supplied by the caller;
  - PBKDF2 (utils/hash.js) is the parameter `kdf`, which may be any deterministic function of the password and the salt.
- `authMiddleware` exists twice in the source, once in `middleware/verifyAuth.js` and once in `routes/auth.js:23-43`. The two copies are identical, and both are `VerifyAuth.AuthMiddleware`.

## Model

| member | source | states |
|---|---|---|
| Json.FalsyValues | routes/auth.js:10 | the values `!x` rejects are exactly null, false, 0 and the empty string |
| Json.ToText | routes/auth.js:13 | `String(x)` throws exactly on an object with its own "toString" key or an array holding one at any depth; a string is its own text and any other object is "[object Object]" |
| ObjectIds.Parse | routes/auth.js:204 | `new ObjectId(text)` accepts 24 hex digits of either case, and each digit of the id is the lower-case form of the digit given |
| ObjectIds.ParseToString | routes/auth.js:210 | an id's text (`toString()`) is a valid id and parses back to the same id |
| ObjectIds.ParseIgnoresCase | routes/auth.js:199-205 | two texts name the same id exactly when they agree digit by digit with case ignored |
| Validation.ValidateUserInput | routes/auth.js:9-20 | the first rule broken, in the order username, e-mail, password, gives its message; the result is null exactly when all three rules hold |
| Validation.EmailPatternIsShape | routes/auth.js:13 | `^[^\s@]+@[^\s@]+\.[^\s@]+$` matches exactly the strings with one '@' that is not first, no whitespace, and a '.' after the '@' that is neither right after it nor last |
| Validation.StringEmailOkIffShape | routes/auth.js:13 | a string e-mail passes validation exactly when it has that shape |
| Validation.SampleEmails | routes/auth.js:13 | the pattern accepts "alice@x.com" and rejects "not-an-email" |
| Validation.RegistrationRejections | routes/auth.js:9-20 | a two-letter username, an address without '@' and a three-letter password each give their own message; a well-formed body gives none |
| Users.FirstMatch | routes/auth.js:106 | `findOne` returns the first record in insertion order that matches the filter, and none exactly when no record matches |
| Users.FirstMatchAgrees | routes/auth.js:106 | two collections on which the filter matches the same positions give the same first match |
| Users.AddToSet | routes/auth.js:214-222 | `$addToSet` adds the value unless an equal one is present; the array is then the old one with the value appended, or unchanged. The same definition serves `attendees` in models/eventModel.js:51 |
| Users.Pull | routes/auth.js:248-256 | `$pull` removes every occurrence of the id and keeps every other element as often as it occurred (the multiset of the list with the id's count set to zero) |
| Users.Apply | routes/auth.js:119-122 | an update keeps the record's id and e-mail; session updates keep the follow arrays, and follow updates keep the token |
| Users.UpdateFirst | routes/auth.js:119-122 | `updateOne` keeps the number of records and every record's id and e-mail |
| Users.UpdateKeepsIdLookup | routes/auth.js:214-222 | after any update, a lookup by `_id` finds the same position as before |
| Users.UpdateKeepsNoSelfFollow | routes/auth.js:214-222 | an update that adds no self-edge to the record it reaches keeps every record off its own follow arrays |
| Users.UpdateKeepsUniqueTokens | routes/auth.js:150-153 | any update except setting a session keeps tokens unique |
| Users.AppendKeepsInvariants | routes/auth.js:56-77 | appending a record whose e-mail and token are not yet stored and that follows no one keeps e-mails unique, tokens unique and the collection free of self-follows |
| Users.UserCollection.FindOne | routes/auth.js:56 | the first matching record or null; a store failure throws |
| Users.UserCollection.InsertOne | routes/auth.js:77 | the record is appended unless the store is down or its `_id` is taken (E11000); ids stay distinct |
| Users.UserCollection.UpdateOne | routes/auth.js:119-122 | the collection becomes `UpdateFirst` of the old one, and the result tells whether a record matched |
| VerifyAuth.Decide | middleware/verifyAuth.js:8-23 | admits exactly when there is a token, a record holds it and it has not expired; no token gives 401 without clearing the cookie; a store failure gives 500; every other refusal is 401 with the cookie cleared |
| VerifyAuth.LookupToken | middleware/verifyAuth.js:13 | a record is found exactly when some record holds the token, and the record found holds it |
| VerifyAuth.AuthMiddleware | middleware/verifyAuth.js:4-24 | the verdict of `Gate` on the collection; when admitted, `req.user` is a record of the collection that holds the cookie's token and has not expired |
| VerifyAuth.ExpiredIsLikeAbsent | middleware/verifyAuth.js:14 | an expired record is refused exactly as a token that no record holds |
| VerifyAuth.ExpiryIsInclusive | middleware/verifyAuth.js:14 | a session whose expiry is the current millisecond is accepted; one millisecond later it is refused |
| AuthRoutes.PhotoOrNull | routes/auth.js:68 | `photoURL \|\| null`: never undefined; a falsy or absent photo becomes null, and a truthy one is kept |
| AuthRoutes.NewUser | routes/auth.js:61-75 | the inserted record has empty `followers` and `following`, the given token, expiry `now + 86400000`, and the hash of the password with the new salt |
| AuthRoutes.Register | routes/auth.js:45-95 | validation failures give 400 with the message; an address in use gives 400 "Email already in use"; 201 exactly when the body is valid, the store is up and neither the address nor the new id is taken, and then exactly the new record is appended and the cookie is issued for one day; every other outcome leaves the table unchanged; unique e-mails, unique tokens (for a fresh token) and the absence of self-follows are kept |
| AuthRoutes.Login | routes/auth.js:97-143 | a missing e-mail or password gives 400; an unknown e-mail and a wrong password both give 401 "Invalid credentials" and change nothing; a correct password changes only `token` and `tokenExpiresAt` of the record matched by e-mail, and gives 200 with a one-day cookie |
| AuthRoutes.SessionUpdateKeepsInvariants | routes/auth.js:116-122 | setting a fresh session on one record keeps unique e-mails, unique tokens and the absence of self-follows |
| AuthRoutes.LoginRotatesSession | routes/auth.js:116-122 | after a login with a fresh token, the record's earlier token no longer resolves, and the new token resolves to the updated record |
| AuthRoutes.Logout | routes/auth.js:145-160 | the middleware's refusals pass through unchanged; once admitted, the record holding the token loses its session, and the reply is 200 with the cookie cleared |
| AuthRoutes.UnsetKeepsInvariants | routes/auth.js:150-153 | `$unset` of the session keeps every collection invariant |
| AuthRoutes.LogoutEndsSession | routes/auth.js:150-153 | after logout, the same cookie is refused with 401 "Invalid or expired token" and the cookie is cleared |
| AuthRoutes.VerifyToken | routes/auth.js:162-191 | the middleware's decision, answered with the holder's public profile instead of calling `next()` |
| AuthRoutes.SelfTestsAgreeOnLowerCase | routes/auth.js:210 | on lower-case text the as-written self test and the test on parsed ids agree |
| ObjectIds.UpperSpellingNamesSameId | routes/auth.js:199-210 | for every id, its upper-case spelling is a valid id text that names the same id, and it differs from `toString()` exactly when the id holds a hex letter |
| AuthRoutes.UpperCaseIdPassesSelfTestAsWritten | routes/auth.js:210-222 | for every caller whose id holds a hex letter, their own id in upper case passes the self test as written, and the follow that follows makes the caller follow themself; for an all-digit id the upper-case spelling is the text itself |
| AuthRoutes.UpdateNoOp | routes/auth.js:214-222 | an update that leaves the matched record as it was leaves the collection as it was |
| AuthRoutes.FollowIsIdempotent | routes/auth.js:214-222 | following twice gives the same table as following once |
| AuthRoutes.FollowAddsEdge | routes/auth.js:214-222 | after a follow between two existing records, the caller's `following` holds the target and the target's `followers` holds the caller |
| AuthRoutes.UnfollowRemovesEdge | routes/auth.js:248-256 | after an unfollow, neither half of the edge remains |
| AuthRoutes.PulledEdgeIsGone | routes/auth.js:248-256 | the record a `$pull` reaches no longer holds the pulled id, and lookups find the same position |
| AuthRoutes.UnfollowAbsentIsNoOp | routes/auth.js:248-256 | unfollowing when there is no edge changes nothing |
| AuthRoutes.FollowKeepsInvariants | routes/auth.js:214-222 | a follow between two distinct ids adds no self-edge and keeps e-mails and tokens unique |
| AuthRoutes.UnfollowKeepsInvariants | routes/auth.js:248-256 | an unfollow keeps every collection invariant |
| AuthRoutes.Follow | routes/auth.js:193-229 | in order: the middleware's refusals; an invalid id gives 400; a missing target gives 404; the caller's own id gives 400, and that check comes after the lookup; otherwise both `$addToSet` updates are applied and the reply is 200; no record ever follows itself |
| AuthRoutes.Unfollow | routes/auth.js:231-263 | the same guards without the self check; otherwise both `$pull` updates are applied and the reply is 200 |
| Events.InsertKey | models/eventModel.js:23 | the key is the document's own `_id` when it is neither absent nor null, and otherwise the fresh id the driver generates; it is refused when it is taken or is an array |
| Events.CreatedBy | models/eventModel.js:12-14 | exactly the documents whose `creatorId` equals the value, each with its `_id` |
| Events.Updated | models/eventModel.js:47-54 | applying an update never puts an `_id` field back into a stored document; `$set` fails exactly when it names a different `_id`, and otherwise overwrites the named fields, adds no others and keeps the rest |
| Events.EventCollection.FindOne | models/eventModel.js:40 | the document with its `_id`, or null; a store failure throws |
| Events.EventCollection.Find | models/eventModel.js:12-14 | the documents `CreatedBy` the value |
| Events.EventCollection.InsertOne | models/eventModel.js:23 | the document is stored under `InsertKey`, and nothing changes on an error |
| Events.EventCollection.UpdateOne | models/eventModel.js:47-54 | no match gives `matchedCount` 0; otherwise the document becomes `Updated`, or the server's error leaves it unchanged |
| Events.EventCollection.DeleteOne | models/eventModel.js:66-68 | only that key is removed, and the result tells whether it existed |
| EventModel.KeyOf | models/eventModel.js:29 | `new ObjectId(eventId)` succeeds exactly on a valid id and otherwise throws the BSON error |
| EventModel.PostSpec | models/eventModel.js:16-25 | the stored and returned record has `attendeeCount` 0 and `attendees` [] whatever the input says, keeps every other input field, adds no other field, and carries the input's `_id`, or a fresh id when the input's is absent or null, which was not yet taken; only that key is added |
| EventModel.PostEvents | models/eventModel.js:16-25 | the result and the new table are `PostSpec` of the old table |
| EventModel.PutSpec | models/eventModel.js:26-37 | "Event not found" exactly when the id is valid, the store is up and there is no such event; on success the supplied fields are overwritten, all other fields and events are left alone, and the body is returned with `_id` set to the id text; errors change nothing |
| EventModel.PutEvents | models/eventModel.js:26-37 | the result and the new table are `PutSpec` of the old table |
| EventModel.Listed | models/eventModel.js:44 | on an array, `includes` is membership of the e-mail |
| EventModel.PatchSpec | models/eventModel.js:38-63 | "Event not found" exactly when the event is missing; "User has already joined this event" exactly when `includes` holds; on success `attendeeCount` rises by exactly one (absent counts as 0), the e-mail is appended, no other field or event changes, and the returned summary is what is stored |
| EventModel.PatchEvents | models/eventModel.js:38-63 | the result and the new table are `PatchSpec` of the old table |
| EventModel.DeleteSpec | models/eventModel.js:64-73 | "Event not found" exactly when the event is missing; otherwise only that event is removed and the result is `{ success: true, eventId }` |
| EventModel.DeleteEvents | models/eventModel.js:64-73 | the result and the new table are `DeleteSpec` of the old table |
| EventModel.GetByIdSpec | models/eventModel.js:75-78 | the event with its `_id`, or null exactly when it is missing; an invalid id or a store failure throws |
| EventModel.GetEventById | models/eventModel.js:75-78 | the result is `GetByIdSpec` of the table |
| EventModel.GetMyEvents | models/eventModel.js:10-15 | exactly the events whose `creatorId` is the user's ObjectId |
| EventModel.SecondJoinIsRejected | models/eventModel.js:44-46 | once a join has succeeded, the same join again is refused as already joined and changes nothing |
| EventModel.FirstOccurrences | models/eventModel.js:51 | the e-mails in the order they first occur, each once |
| EventModel.JoinsKeepCountInSync | models/eventModel.js:44-54 | from the counters `postEvents` stores, any run of joins leaves `attendees` holding each distinct e-mail once, in the order of first join, and `attendeeCount` equal to their number |
| EventModel.PostedEventCountsJoins | models/eventModel.js:20-21 | the same holds for an event created by `postEvents` from a body whose `_id` is absent or null, under the fresh id |
| EventController.CreatorIs | controllers/eventController.js:64 | the owner check passes exactly when `creatorId` is the caller's ObjectId or a value whose `String()` text is the caller's id text; it throws exactly when `creatorId` is undefined or null or its `toString` cannot produce text |
| EventController.OwnerCheckComparesText | controllers/eventController.js:64 | a `creatorId` that is a one-element array of the caller's id text passes the owner check; an array holding an object with its own "toString" key makes it throw |
| EventController.UsableEmailMeans | controllers/eventController.js:116 | the e-mail guard lets through exactly the strings that contain an '@' |
| EventController.Stamped | controllers/eventController.js:37-41 | `creatorId` is the caller's id and `createdAt` the current time, whatever the body says; every other body field is kept and no other field is added |
| EventController.PostEventsController | controllers/eventController.js:26-49 | the stamped body is posted; the answer is 201 with a record that belongs to the caller and has zero counters, or 500 "Internal Server Error" |
| EventController.PosterOwnsEvent | controllers/eventController.js:64 | an event posted through the controller passes the owner check for its poster and fails it for every other user |
| EventController.PutEventsController | controllers/eventController.js:50-78 | in order: invalid id 400, missing event 404, `creatorId` undefined or null 500, another creator 403, each of which leaves the table unchanged; then `PutSpec`, where "Event not found" maps to 404 and any other error to 500 |
| EventController.DeleteEventsController | controllers/eventController.js:79-106 | the same guards, each leaving the table unchanged; then the event alone is removed and the answer is 200 `{ success: true, eventId }` |
| EventController.PatchAllEventsController | controllers/eventController.js:107-140 | in order: invalid id 400; e-mail missing, not a string or without '@' 400; e-mail other than the caller's 403; none of these touches the table; then `PatchSpec`, where "Event not found" and "already joined" map to 400 and any other error to 500 |
| EventController.JoinRefusalsAreClientErrors | controllers/eventController.js:129-135 | a join of a missing event, or a repeated join, is answered 400 (never 404); every other thrown message is answered 500 |
| EventController.GetMyEventsController | controllers/eventController.js:16-25 | 200 with the caller's events, or 500 "Internal Server Error" |
| Scenario.RegisterThenLogin | routes/auth.js:97-143 | a registration followed by a login with the same credentials gives 201, then 200 with the public profile and a new one-day cookie |
| Scenario.FirstJoinOfNewEvent | models/eventModel.js:38-54 | joining an event whose counters are still 0 and [] succeeds with `attendeeCount` 1 and the one e-mail |

## Left out

- The bodies of PBKDF2 and `crypto.randomBytes` (utils/hash.js:3-7, routes/auth.js:62 and 116). The hash is the parameter `kdf`; the token, the salt and new ObjectIds are parameters. The password check is plain equality, as `!==` in the source; no constant-time claim is made.
- Concurrency. `patchEvents` reads and then writes, and follow runs two separate updates. The model runs requests one after the other, and the store's `online` flag does not change within a request. So two paths are not modelled: the "Event not found" that `patchEvents` throws when `matchedCount` is 0 after a successful read (models/eventModel.js:55-57), and a failure of `deleteEvents` after the controller has found the event.
- AuthRoutes.Register: a non-string e-mail that passes validation (an array such as `["a@b.co"]`, whose `String()` matches the pattern) is answered 500. The source would go on to query and store the array.
- Validation.ValidateUserInput: an e-mail whose `String()` throws (an object with its own "toString" key, or an array holding one) makes the regex `test` at routes/auth.js:13 throw in the source. The model counts it as failing the e-mail rule, because the result type has no thrown outcome.
- AuthRoutes.Register: for that e-mail the source's exception escapes the handler, since validation runs before the `try` (routes/auth.js:50), and no reply is sent. The model answers 400 "Invalid email format", because its replies have no "no reply" outcome.
- Cookies: index.js installs no cookie parser, so in the app as written `req.cookies` is undefined and reading `authToken` throws. The model takes the cookie to be a string or absent, as a cookie parser would give. A `j:`-prefixed cookie, which such a parser turns into an object that would reach `findOne({ token })`, is not modelled.
- Query-operator objects such as `{ "$ne": null }` as the e-mail of a login or registration. The model's `findOne` compares values for equality only.
- Validation.TooShort: a `length` field inside an object body is not read. Lengths are counted in characters, not UTF-16 code units.
- ObjectIds.Parse: only 24-digit hex text is a valid id (the bson 6 behaviour). The 12-character strings that earlier versions accepted are not modelled.
- Numbers are integers; floating-point values in bodies are not modelled.
- Field names with dots or a leading `$` in an update body are treated as plain top-level names; MongoDB would address nested fields or reject them.
- Events.EventCollection.Find: the result is keyed by `_id`, so the order of the array `getMyEvents` returns is not modelled.
- Server and driver error texts (E11000, `$inc` on a non-number, `$addToSet` on a non-array, the BSON error) are shortened to a fixed message each. Only whether they map to 404, 400 or 500 matters to the handlers.
- Request bodies for create and update are JSON objects; an array body is not modelled.
- JSON response fields other than the status, the message, the public profile and the returned records (such as `valid` in `/verify-token`), cookie attributes, console logging, Express wiring, CORS and dotenv.
- `getAllEvents`, `getAllEventsController`, controllers/userController.js and models/userModel.js: these are plain reads of a whole collection.
- index.js does not mount routes/auth.js; the model treats its handlers as reachable.
- EventController.GetMyEventsController: index.js:22-23 mounts the user routes before the event routes, so `GET /events` is answered by `getAllEventsController` (routes/userRoutes.js:5), which always replies; the handler at routes/eventRoutes.js:9 is never reached in the app as wired. The model treats it as reachable.
- The future-date check on event creation is commented out in the source (controllers/eventController.js:31-35), so it is not modelled.

## Findings

| source | as written | input that shows it | evidently intended | confidence | as-written member | corrected member |
|---|---|---|---|---|---|---|
| routes/auth.js:210 | the self-follow test compares the lower-case text of the caller's id with the raw path parameter, but `ObjectId.isValid` and `new ObjectId` accept upper-case hex digits | a caller with id `507f1f77bcf86cd799439011` posting to `/follow/507F1F77BCF86CD799439011` passes the test, so their own record gets itself in `following` and `followers` | compare ids, not texts, so a user can never follow themself | high; not executed | AuthRoutes.UpperCaseIdPassesSelfTestAsWritten | AuthRoutes.Follow |
