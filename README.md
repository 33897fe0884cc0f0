# Rating controller of the inspection/rating REST backend

This project models the rating controller (`controllers/ratingController.js`) of a
group-based inspection and rating service. The controller has five handlers:

- `createRating` (`POST /api/ratings`) stores a new rating.
- `getRatingsByInspection` (`GET /api/ratings/inspection/:inspection`) lists the ratings of one inspection.
- `getRatingById` (`GET /api/ratings/:id`) reads one rating.
- `updateRating` (`PUT /api/ratings/:id`) changes a rating's score and comment.
- `deleteRating` (`DELETE /api/ratings/:id`) removes a rating.

The rating collection of the document store is a map from document id to a
rating document `{inspection, user, rating, comment}`. Requests carry the
requester's id, which the authentication layer has already established.
The handler's response is a status code and a body.

The model has three modules:

- `Ratings` (`ratings.dfy`): the values. It holds request-body values with
  JavaScript truthiness (`Truthy`, and `Or` for the `||` operator), the id shape
  `^[0-9a-fA-F]{24}$` (`IsObjectId`, and the `ObjectId` type of generated ids),
  rating documents, response bodies, status codes and store failures.
- `RatingController` (`controller.dfy`): the handlers. The two reads are
  functions of the collection. The three writes are methods of the class
  `RatingCollection`, which holds the collection in its field `ratings`. Each of
  these methods is specified by a pure outcome function (`CreateOutcome`,
  `UpdateOutcome`, `DeleteOutcome`). That function's contract states the
  handler's guarantees.
- `RatingProperties` (`properties.dfy`): the router over all five handlers
  (`Handle`) and runs of requests (`Run`). It also holds lemmas that relate
  handlers to each other, for example reading back what was written, or the
  effect of writes on the per-inspection listing. The ownership guarantees are
  proved over any sequence of requests.

A store failure is an input of type `StoreFault`:

- `ReadFault(message)` makes the lookup fail (`find`, `findById`).
- `WriteFault(message)` makes the write fail (`save`, `deleteOne`).

Either failure yields a 500 response and leaves the collection unchanged.
`getRatingById` answers such a failure with the fixed message `Database error`.
The other handlers pass the store's message through.

The id of a new rating is the id Mongoose assigns to the new document when it
is constructed, before it is saved. It is an input of `createRating` of type
`ObjectId`. If that id is already taken, the save fails with MongoDB's
duplicate-key error, so the model answers 500 and leaves the collection unchanged.

Document ids are hex strings. Every lookup by id casts the string to an
ObjectId, which reads hex digits regardless of letter case, and the store
writes ids in lower case. So the collection is keyed by the lower-case form
(`Canonical`), and every lookup uses the lower-case form of the requested id.
An id written in upper case finds the same rating (`LookupsIgnoreCase`).

Only `getRatingById` checks the shape of the id. `updateRating` and
`deleteRating` go straight to the lookup. Every key in the collection is a
generated id in lower case (`WellKeyed`, kept by every handler). So in the
model a malformed id there is not found and answers 404. The program's own
answer is different: Mongoose raises a cast error for such an id, which the
controller answers with 500. In the model, that answer is the `ReadFault` input.

The update merges with `||`: a falsy new value (missing, `null`, `false`, `0`,
`""`) keeps the stored one. So an explicit score of 0 or an empty comment is
silently ignored while the answer is still 200 (`FalsyUpdateChangesNothing`).
The model keeps this behaviour as the code has it.

## Model

| member | source | states |
|---|---|---|
| `Ratings.Truthy` | controllers/ratingController.js:61-62 | a value is falsy exactly when it is `undefined`, `null`, `false`, `0` or `""`, the values for which `\|\|` falls through to the stored value |
| `Ratings.Or` | controllers/ratingController.js:61-62 | `a \|\| b` is `a` when `a` is truthy and `b` otherwise; the result is truthy exactly when at least one operand is |
| `Ratings.IsHexDigit` | controllers/ratingController.js:36 | a character matches `[0-9a-fA-F]` exactly when it is one of the 22 hex digit characters |
| `Ratings.IsObjectId` | controllers/ratingController.js:36 | an id matches `^[0-9a-fA-F]{24}$` exactly when it has 24 characters and each is a hex digit |
| `Ratings.Canonical` | controllers/ratingController.js:41 | the key `findById` looks up: the id with `A`-`F` lowered and nothing else changed; it is a lower-case 24-digit key exactly when the id matches the regular expression, and a lower-case key is its own key |
| `RatingController.GetRatingById` | controllers/ratingController.js:33-49 | 400 exactly when the id is not 24 hex characters. For a well-formed id: 500 `Database error` on a store failure, otherwise 404 exactly when the id's lower-case key is absent and 200 with the stored document exactly when it is present |
| `RatingController.Listing` | controllers/ratingController.js:25 | selects exactly the stored ratings whose `inspection` equals the given one, with their stored contents |
| `RatingController.GetRatingsByInspection` | controllers/ratingController.js:22-30 | 200 with exactly the ratings of that inspection, or 500 with the store's message exactly when the lookup fails |
| `RatingController.CreateOutcome` | controllers/ratingController.js:5-19 | 201 exactly when the save succeeds. The new document's author is the requester and `inspection`, `rating` and `comment` are copied unchanged. Only the new key is added and every existing rating is untouched. On 500 the collection is unchanged |
| `RatingController.UpdateOutcome` | controllers/ratingController.js:52-68 | the id's lower-case key is looked up: 404 exactly when it is absent and 403 exactly when the requester is not the author, both with the collection unchanged. 200 exactly when the author updates and the store does not fail: `rating` and `comment` take the new value when it is truthy and keep the old one otherwise, `inspection` and `user` and all other keys are unchanged |
| `RatingController.DeleteOutcome` | controllers/ratingController.js:71-84 | the id's lower-case key is looked up: 404 exactly when it is absent and 403 exactly when the requester is not the author, both with the collection unchanged. 204 with no body exactly when the author deletes, and then exactly that key is removed and every other entry is untouched |
| `RatingController.RatingCollection.CreateRating` | controllers/ratingController.js:5-19 | the response and the new collection are those of `CreateOutcome` on the old collection; all keys stay generated ids |
| `RatingController.RatingCollection.UpdateRating` | controllers/ratingController.js:52-68 | lookup, author check, field merge on the fetched document, then save: the response and new collection are those of `UpdateOutcome` |
| `RatingController.RatingCollection.DeleteRating` | controllers/ratingController.js:71-84 | lookup, author check, then `deleteOne`: the response and new collection are those of `DeleteOutcome` |
| `RatingProperties.Handle` | routes/ratingRoutes.js:7-11 | the two reads never change the collection, a changed collection comes only with 200/201/204, only the read by id can answer 400, and every handler keeps all keys generated ids |
| `RatingProperties.Run` | routes/ratingRoutes.js:7-11 | a run of requests served one by one keeps all keys generated ids |
| `RatingProperties.MalformedIdSkipsStore` | controllers/ratingController.js:36-38 | a malformed id gets 400 whatever the collection holds and however the store would fail: the store is not consulted |
| `RatingProperties.UpdateMalformedIdNotFound` | controllers/ratingController.js:56-57 | update has no 400 branch: on a collection whose keys are all generated ids, and when the lookup does not fail, a malformed id is answered 404 with the collection unchanged |
| `RatingProperties.DeleteMalformedIdNotFound` | controllers/ratingController.js:74-75 | delete has no 400 branch: on a collection whose keys are all generated ids, and when the lookup does not fail, a malformed id is answered 404 with the collection unchanged |
| `RatingProperties.LookupsIgnoreCase` | controllers/ratingController.js:41-74 | two ids that differ only in the letter case of their hex digits get the same answer from read by id, update and delete |
| `RatingProperties.UpperCaseIdFindsStoredRating` | controllers/ratingController.js:36-45 | an upper-case id finds the rating stored under its lower-case spelling and answers 200 |
| `RatingProperties.CreateThenGetById` | controllers/ratingController.js:8-15 | after a 201, reading the new id answers 200 with the document authored by the requester |
| `RatingProperties.UpdateThenGetById` | controllers/ratingController.js:61-64 | after a 200 update, reading the id answers the document the update returned |
| `RatingProperties.DeleteThenGetById` | controllers/ratingController.js:79-80 | after a 204, reading or deleting the id again answers 404 |
| `RatingProperties.UpdateIdempotent` | controllers/ratingController.js:61-63 | repeating an accepted update gives the same answer and changes nothing more |
| `RatingProperties.FalsyUpdateChangesNothing` | controllers/ratingController.js:61-62 | an update with score 0 and an empty comment answers 200 and leaves the collection as it was |
| `RatingProperties.CreateExtendsListing` | controllers/ratingController.js:8-14 | after a 201, the listing of the new rating's inspection is the old listing plus the new rating, one longer |
| `RatingProperties.CreateKeepsOtherListings` | controllers/ratingController.js:8-14 | a create never changes the listing of another inspection |
| `RatingProperties.UpdateKeepsListings` | controllers/ratingController.js:61-63 | an accepted update moves no rating into or out of any listing |
| `RatingProperties.DeleteShrinksListing` | controllers/ratingController.js:79 | an accepted delete removes exactly that rating from every listing, so its own inspection's listing is one shorter |
| `RatingProperties.ForeignCallKeepsRating` | controllers/ratingController.js:56-79 | one request by anyone but a rating's author leaves that rating present and unchanged |
| `RatingProperties.ForeignCallsKeepRating` | controllers/ratingController.js:56-79 | over any sequence of requests in which the author sends none, the rating stays present and unchanged. Others cannot update, delete or overwrite it |
| `RatingProperties.HandleAuthors` | controllers/ratingController.js:8-13 | one request can add no author other than its own requester |
| `RatingProperties.RunAuthors` | controllers/ratingController.js:8-13 | after any run of requests, every author in the collection was already an author or sent one of the requests: nobody can file a rating under another user's id |

## Left out

- Populating the author's `username` in the listing (`populate('user', 'username')`) is not modelled. The listing carries the author's id.
- The order in which the store returns the listing is not modelled. The listing is a map from id to document.
- The rating schema (`models/Rating.js`) is not part of this model. Its validation and type casting are not modelled: a save the schema rejects shows up only as a `WriteFault`.
- The store fields Mongoose adds (`__v`, timestamps) are not modelled. Stored ids and authors are plain strings, so the `ObjectId`-to-string conversion before the author comparison is the identity.
- The cast error Mongoose raises for a malformed id in update and delete is represented only by the `ReadFault` input.
- The body values `rating` and `comment` are JSON scalars or missing. Objects and arrays as `rating` or `comment` are not modelled, and numbers are exact reals.
- CreateOutcome: the body's `inspection` is a string, so a create whose body omits it or sends `null` or a number cannot be expressed. How the rating schema casts or rejects such a value is not part of this model.
- Listing: the stored `inspection` is compared with the route parameter as a plain string. If the schema makes it an ObjectId reference, the store would match it regardless of letter case; that is not modelled. In that case a malformed route parameter would also make `find` raise a cast error, answered 500; that case is covered only by the `ReadFault` input.
- The authentication middleware (`middleware/auth.js`) is not part of this model. It is represented by the requester id input. So is the 401 it answers before any handler runs.
- The database connection with its retry loop (`utils/connectDB.js`), the Express setup (`index.js`) and the route registration are left out. They are I/O, timers, process exit and framework wiring.
- The user, group and inspection controllers are not part of this model.
- Concurrent interleaving of requests (last write wins between two updates) is not modelled. Every handler runs atomically.
