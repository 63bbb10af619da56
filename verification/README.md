# Plann.er trip planner — a Dafny model of its decision logic

Plann.er lets a user create a trip, invite guests by email, and schedule activities inside the trip's dates. Most of the repository is React markup and ORM/HTTP wiring. This project models the parts that decide something:

- **Activity scheduling** (`POST /trips/:tripId/activities`), module `CreateActivity`. The schema checks the `tripId` parameter (a UUID) and the title (at least 4 characters). The handler then looks the trip up and rejects an instant before the start or after the end. The bounds are inclusive. Only when every check passes does it insert the activity and echo it back.
- **Trip creation** (`POST /trips`), module `CreateTrip`. The body schema checks the destination length, both dates, the owner address and every invitee address. The handler repeats the date checks, then persists the trip together with its participant rows: the owner first, then one row per invitee, in order and without deduplication. It builds the confirmation link and attempts the mail. A mail failure is reported as an error even though the trip is already stored.
- **The client's create-trip page**, module `InviteForm`. It keeps a duplicate-free list of guest addresses with add and remove operations. A chain of checks gates the POST and builds the posted payload.
- **Client against server**, module `Submission`. A destination the client accepts can still be refused by the server's schema.

Module `Domain` holds the entities (`Trip`, `Participant`, `Activity`), the abstract store (a map of trips plus participant and activity rows in insertion order), schema issues, errors, and the store invariant `Consistent`. `Consistent` says:

- every row points at a stored trip;
- every activity lies in its trip's window;
- every trip has exactly one owner.

Both routes preserve it.

Modelling choices:

- Timestamps are integers (parsed instants).
- The date and email recognisers are uninterpreted function parameters (`CreateTrip.Parsing`). Trip creation uses two different date parsers. It validates with the date library's test, but it stores the instant produced by the engine's own date constructor. The model keeps them apart: a date that passes validation but that the constructor rejects makes the write fail, with nothing stored and no mail attempted (`StorageFailed`).
- Identifiers the database generates are parameters of each operation. So is the fate of the mail send (`mailDelivered`).
- The order of side effects of trip creation is recorded as a trace: persist, then mail.
- The route framework validates the path parameters before the body and reports only the first failing part. Within one part, every failing field is reported, in schema order.

Three behaviours of the code worth knowing:

- invitee addresses are a list, not a set, and duplicates (including the owner's own address) are stored;
- out-of-range activities and mail failures are plain `ClientError`s with the messages the code uses, not separate error kinds;
- a trip whose start is after its end is accepted and stored.

## Model

| member | source | states |
|---|---|---|
| CreateActivity.Handler | backend/src/routes/create-activity.ts:23-56 | Accepts exactly when the trip exists and the instant lies in its closed window. A missing trip gives "Trip not found" before any date comparison. An earlier instant gives the before-start message, and a later one the after-end message. Every rejection leaves the store unchanged. An acceptance appends exactly one activity with the given title, instant and trip, and echoes them. |
| CreateActivity.Handle | backend/src/routes/create-activity.ts:13-19 | A non-UUID trip id, or a title under 4 characters, is refused by the schema with the store unchanged, before the handler runs. A request the schema accepts gets exactly the handler's outcome. |
| CreateActivity.InclusiveBounds | backend/src/routes/create-activity.ts:36-42 | An instant equal to the trip's start, or equal to its end, is accepted. |
| CreateActivity.ReversedTripRejectsAll | backend/src/routes/create-activity.ts:36-42 | A trip whose start is after its end accepts no instant. When both checks fail, the before-start message is the one reported. |
| CreateActivity.HandlerPreservesConsistency | backend/src/routes/create-activity.ts:26-50 | Scheduling an activity keeps every activity inside its trip's window and the rest of the store invariant intact. |
| CreateActivity.RequestPreservesConsistency | backend/src/routes/create-activity.ts:13-50 | A whole request, schema checks included, keeps the store invariant, whichever way it ends. |
| CreateTrip.InviteIssues | backend/src/routes/create-trip.ts:26 | Every issue names a malformed invitee address by its index. Every malformed address has its own issue. The issues follow list order. There are none exactly when every address is well formed. |
| CreateTrip.SchemaAcceptsExactlyWellFormed | backend/src/routes/create-trip.ts:16-27 | The body schema raises no issue exactly when all of these hold: the destination has at least 4 characters, both dates parse, the owner address is an email, and every invitee address is an email. |
| CreateTrip.Invitees | backend/src/routes/create-trip.ts:64 | Gives one row per invitee address, in order, carrying only the address: no name, not owner, not confirmed. |
| CreateTrip.Participants | backend/src/routes/create-trip.ts:55-67 | There are 1 + (number of invitees) rows, all attached to the new trip. The first row is the owner: named, owner, confirmed. The invitees follow in order, with duplicates kept. |
| CreateTrip.ParticipantsHaveOneOwner | backend/src/routes/create-trip.ts:58-64 | Exactly one of the rows created with a trip is an owner row. |
| CreateTrip.LinkTripId | backend/src/routes/create-trip.ts:76 | Whatever trip id it reads from a link, building the confirmation link from that id gives back the same link. |
| CreateTrip.LinkRoundTrip | backend/src/routes/create-trip.ts:76 | The confirmation link built from base URL, "/trips/", the trip id and "/confirm" reads back to that trip id. |
| CreateTrip.Handler | backend/src/routes/create-trip.ts:41-113 | A date that fails validation stops the request with a client error, nothing stored and no mail. A date that passes validation but that the stored date type cannot hold makes the write fail: nothing is stored, no mail is attempted, and the error is not a client error. Otherwise the trip and its participants are stored first, and then the mail carrying the confirmation link is attempted. The trip id is answered exactly when the trip is stored and the mail goes out; a failed mail yields an error. |
| CreateTrip.Handle | backend/src/routes/create-trip.ts:16-27 | A body the schema refuses is rejected before anything is persisted or mailed. A well-formed body gets exactly the handler's outcome. |
| CreateTrip.DateRechecksUnreachable | backend/src/routes/create-trip.ts:41-47 | The handler's own date-format errors can never be the answer, because the schema has already applied the same test. |
| CreateTrip.ReversedRangeAccepted | backend/src/routes/create-trip.ts:41-54 | A well-formed, storable request whose start instant is after its end instant is stored with that reversed range. If the mail goes out, the trip id is answered. |
| CreateTrip.MailFailureKeepsTrip | backend/src/routes/create-trip.ts:50-113 | When the trip is stored and the mail fails, the answer is the mail error, and the trip and its 1 + (number of invitees) participant rows stay stored. When the write itself fails, nothing is stored and no mail is attempted. |
| CreateTrip.HandlePreservesConsistency | backend/src/routes/create-trip.ts:50-69 | Creating a trip under an identifier not yet in use keeps the store invariant. In particular the new trip and every old trip have exactly one owner. |
| InviteForm.AddEmail | frontend/src/pages/create-trip/index.tsx:103-121 | The old list stays a prefix and at most one address is appended. Afterwards the list holds the old addresses plus the typed one if it is not empty. An empty, missing or already listed address changes nothing. A duplicate-free list stays duplicate-free. |
| InviteForm.RemoveEmail | frontend/src/pages/create-trip/index.tsx:123-126 | Every occurrence of the address is gone. Every other address keeps its multiplicity. |
| InviteForm.InitialInvitesHaveNoDuplicates | frontend/src/pages/create-trip/index.tsx:17-19 | The list the page starts with has no duplicates. |
| InviteForm.RemoveDistributes | frontend/src/pages/create-trip/index.tsx:124 | Removal is a filter: it distributes over concatenation, drops the address itself and keeps every other single address. So the survivors keep their order. |
| InviteForm.RemoveAbsentIsIdentity | frontend/src/pages/create-trip/index.tsx:123-126 | Removing an address that is not listed leaves the list unchanged. |
| InviteForm.RemovePreservesNoDuplicates | frontend/src/pages/create-trip/index.tsx:123-126 | Removal keeps a duplicate-free list duplicate-free. |
| InviteForm.AddThenRemove | frontend/src/pages/create-trip/index.tsx:103-126 | Adding a new non-empty address and then removing it restores the original list. |
| InviteForm.Submit | frontend/src/pages/create-trip/index.tsx:62-90 | The form is posted exactly when every check passes. Otherwise the stop names the first failing check, in this order: destination, both dates, at least one invitee, owner name and email. The payload maps the range's start and end to the two dates and passes the other fields through. |
| Submission.ShortDestinationPostedThenRejected | backend/src/routes/create-trip.ts:17 | A one- to three-character destination passes the client's checks. The server's schema then refuses it with a too-short destination issue, storing and mailing nothing. |

## Left out

- Persistence goes through an ORM. Here it is the abstract `Store`, and trip and activity identifiers are parameters. Participant rows carry no identifier, because nothing in the modelled code reads one.
- Invitee rows take `is_owner` and `is_confirmed`, and the trip row takes `is_confirmed`, from the database defaults. The database schema is not part of this model, and those defaults are taken to be false.
- The mail client and its transport are reduced to the single bit `mailDelivered`. Logging of the mail error is left out.
- The HTML mail body and the locale-dependent date formatting of the subject are left out. They are string formatting through a foreign library.
- Date parsing and email syntax are left uninterpreted (`CreateTrip.Parsing`).
- In the activity route, `occurs_at` is taken as an already-parsed instant. The route's schema does not check that the string parses. An unparseable string becomes an invalid date, both range comparisons are then false, and what the ORM does next is outside this model.
- Minimum lengths count Dafny characters. The schema library counts UTF-16 code units, so the two differ on text outside the Basic Multilingual Plane.
- CreateActivity.Handle: the params-before-body order and first-failing-part reporting come from the route framework, whose code is not part of this model. Only the relative order of the two checks is stated.
- Client: React state, modals, navigation after a successful post, the alert on a failed post, and console logging are left out.
- The trip-details pages and the destination-and-date step only format and render fetched data. They have no logic of their own and are not modelled.
- CreateTrip.Handler: a row whose date the engine's constructor rejects is taken to be refused by the store, with the exception leaving the route. The ORM's own handling of such a date, and the error response it produces, are not part of this model.
