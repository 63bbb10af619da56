/**
 The route that creates a trip (`POST /trips`): schema validation of the
 body, the handler's own date checks, persistence of the trip with its
 participant rows, the confirmation link and the confirmation mail.
 */
module CreateTrip {
  import opened Domain

  const MinDestinationLength: nat := 4

  const InvalidStartMessage := "Invalid trip start date format."
  const InvalidEndMessage := "Invalid trip end date format."
  const MailFailedMessage := "Error sending confirmation email."

  /**
   The recognisers the route relies on, left uninterpreted. Validation asks
   the date library whether a string is a valid date (`isValidDate`), but
   the stored instant comes from the engine's own date constructor
   (`toInstant`, `None` for an invalid date): the two parsers need not agree.
   `isEmail` is the schema's email syntax.
   */
  datatype Parsing = Parsing(
    isValidDate: string -> bool,
    toInstant: string -> Option<Timestamp>,
    isEmail: string -> bool)

  datatype Request = Request(
    destination: string,
    startsAt: string,
    endsAt: string,
    ownerName: string,
    ownerEmail: string,
    emailsToInvite: seq<string>)

  /** The externally visible steps of a request, in the order they happen. */
  datatype Effect =
    | TripPersisted(tripId: TripId)
    | ConfirmationMailAttempted(toName: string, toEmail: string, link: string)

  datatype TripOutcome = TripOutcome(result: Result<TripId>, store: Store, effects: seq<Effect>)

  /** One issue per malformed invitee address, in list order; `offset` is the index of `emails[0]`. */
  function InviteIssues(isEmail: string -> bool, emails: seq<string>, offset: nat): (issues: seq<Issue>)
    ensures issues == [] <==> forall i :: 0 <= i < |emails| ==> isEmail(emails[i])
    ensures IssuesSound(isEmail, emails, offset, issues)
    ensures IssuesComplete(isEmail, emails, offset, issues)
    ensures IssuesOrdered(issues)
    decreases |emails|
  {
    if |emails| == 0 then []
    else
      var rest := InviteIssues(isEmail, emails[1..], offset + 1);
      var head := if isEmail(emails[0]) then [] else [NotEmail(InviteEmail(offset))];
      InviteIssuesCons(isEmail, emails, offset, head, rest);
      head + rest
  }

  /** Each issue names a malformed address of the list. */
  ghost predicate IssuesSound(isEmail: string -> bool, emails: seq<string>, offset: nat, issues: seq<Issue>)
  {
    forall k :: 0 <= k < |issues| ==>
      && issues[k].NotEmail?
      && issues[k].field.InviteEmail?
      && offset <= issues[k].field.index < offset + |emails|
      && !isEmail(emails[issues[k].field.index - offset])
  }

  /** Every malformed address of the list is named. */
  ghost predicate IssuesComplete(isEmail: string -> bool, emails: seq<string>, offset: nat, issues: seq<Issue>)
  {
    forall i :: 0 <= i < |emails| && !isEmail(emails[i]) ==> NotEmail(InviteEmail(offset + i)) in issues
  }

  /** The issues name strictly increasing positions. */
  ghost predicate IssuesOrdered(issues: seq<Issue>)
  {
    forall j, k :: 0 <= j < k < |issues| ==>
      issues[j].field.InviteEmail? && issues[k].field.InviteEmail?
      && issues[j].field.index < issues[k].field.index
  }

  /** The issue of the first address followed by those of the rest are the issues of the whole list. */
  lemma InviteIssuesCons(isEmail: string -> bool, emails: seq<string>, offset: nat, head: seq<Issue>, rest: seq<Issue>)
    requires |emails| > 0
    requires head == if isEmail(emails[0]) then [] else [NotEmail(InviteEmail(offset))]
    requires rest == [] <==> forall i :: 0 <= i < |emails[1..]| ==> isEmail(emails[1..][i])
    requires IssuesSound(isEmail, emails[1..], offset + 1, rest)
    requires IssuesComplete(isEmail, emails[1..], offset + 1, rest)
    requires IssuesOrdered(rest)
    ensures head + rest == [] <==> forall i :: 0 <= i < |emails| ==> isEmail(emails[i])
    ensures IssuesSound(isEmail, emails, offset, head + rest)
    ensures IssuesComplete(isEmail, emails, offset, head + rest)
    ensures IssuesOrdered(head + rest)
  {
    ConsSound(isEmail, emails, offset, head, rest);
    ConsComplete(isEmail, emails, offset, head, rest);
    ConsOrdered(isEmail, emails, offset, head, rest);
  }

  /** Issues of the rest stay sound once shifted behind the first address. */
  lemma ConsSound(isEmail: string -> bool, emails: seq<string>, offset: nat, head: seq<Issue>, rest: seq<Issue>)
    requires |emails| > 0
    requires head == if isEmail(emails[0]) then [] else [NotEmail(InviteEmail(offset))]
    requires IssuesSound(isEmail, emails[1..], offset + 1, rest)
    ensures IssuesSound(isEmail, emails, offset, head + rest)
  {
  }

  /** A malformed first address is named by the head; every other one by the rest. */
  lemma ConsComplete(isEmail: string -> bool, emails: seq<string>, offset: nat, head: seq<Issue>, rest: seq<Issue>)
    requires |emails| > 0
    requires head == if isEmail(emails[0]) then [] else [NotEmail(InviteEmail(offset))]
    requires IssuesComplete(isEmail, emails[1..], offset + 1, rest)
    ensures IssuesComplete(isEmail, emails, offset, head + rest)
  {
  }

  /** The head names the first position, which precedes every position the rest names. */
  lemma ConsOrdered(isEmail: string -> bool, emails: seq<string>, offset: nat, head: seq<Issue>, rest: seq<Issue>)
    requires |emails| > 0
    requires head == if isEmail(emails[0]) then [] else [NotEmail(InviteEmail(offset))]
    requires IssuesSound(isEmail, emails[1..], offset + 1, rest)
    requires IssuesOrdered(rest)
    ensures IssuesOrdered(head + rest)
  {
  }

  /** Every complaint of the body schema, in field order. */
  function SchemaIssues(p: Parsing, req: Request): seq<Issue>
  {
    (if |req.destination| < MinDestinationLength then [TooShort(Destination, MinDestinationLength)] else [])
    + (if !p.isValidDate(req.startsAt) then [InvalidDate(StartsAt)] else [])
    + (if !p.isValidDate(req.endsAt) then [InvalidDate(EndsAt)] else [])
    + (if !p.isEmail(req.ownerEmail) then [NotEmail(OwnerEmail)] else [])
    + InviteIssues(p.isEmail, req.emailsToInvite, 0)
  }

  /** What the schema demands of a body, stated field by field. */
  predicate WellFormed(p: Parsing, req: Request)
  {
    && |req.destination| >= MinDestinationLength
    && p.isValidDate(req.startsAt)
    && p.isValidDate(req.endsAt)
    && p.isEmail(req.ownerEmail)
    && forall i :: 0 <= i < |req.emailsToInvite| ==> p.isEmail(req.emailsToInvite[i])
  }

  /** The schema complains about nothing exactly when the body is well formed. */
  lemma SchemaAcceptsExactlyWellFormed(p: Parsing, req: Request)
    ensures SchemaIssues(p, req) == [] <==> WellFormed(p, req)
  {
  }

  /** Invitee rows: one per address, in order, carrying the address only. */
  function Invitees(tripId: TripId, emails: seq<string>): (ps: seq<Participant>)
    ensures |ps| == |emails|
    ensures forall i :: 0 <= i < |emails| ==> ps[i] == Participant(tripId, None, emails[i], false, false)
  {
    if |emails| == 0 then []
    else [Participant(tripId, None, emails[0], false, false)] + Invitees(tripId, emails[1..])
  }

  /** The owner row: named, owner, already confirmed. */
  function OwnerRow(tripId: TripId, req: Request): Participant
  {
    Participant(tripId, Some(req.ownerName), req.ownerEmail, true, true)
  }

  /** The participant rows created with the trip: the owner first, then every invitee, duplicates included. */
  function Participants(tripId: TripId, req: Request): (ps: seq<Participant>)
    ensures |ps| == 1 + |req.emailsToInvite|
    ensures ps[0] == Participant(tripId, Some(req.ownerName), req.ownerEmail, true, true)
    ensures forall i :: 0 <= i < |req.emailsToInvite| ==>
              ps[i + 1] == Participant(tripId, None, req.emailsToInvite[i], false, false)
    ensures forall i :: 0 <= i < |ps| ==> ps[i].tripId == tripId
  {
    [OwnerRow(tripId, req)] + Invitees(tripId, req.emailsToInvite)
  }

  /** Exactly one of the created rows is an owner row. */
  lemma {:induction false} ParticipantsHaveOneOwner(tripId: TripId, req: Request)
    ensures OwnerCount(Participants(tripId, req), tripId) == 1
  {
    var ps := Participants(tripId, req);
    assert ps == [ps[0]] + ps[1..];
    OwnerCountAppend([ps[0]], ps[1..], tripId);
    NoOwnerAmongInvitees(tripId, req.emailsToInvite, tripId);
    assert ps[1..] == Invitees(tripId, req.emailsToInvite);
  }

  lemma {:induction false} NoOwnerAmongInvitees(tripId: TripId, emails: seq<string>, id: TripId)
    ensures OwnerCount(Invitees(tripId, emails), id) == 0
    decreases |emails|
  {
    if |emails| > 0 {
      var ps := Invitees(tripId, emails);
      assert ps[1..] == Invitees(tripId, emails[1..]);
      NoOwnerAmongInvitees(tripId, emails[1..], id);
    }
  }

  /** Rows that belong to another trip are not owners of `id`. */
  lemma {:induction false} ForeignRowsOwnNothing(ps: seq<Participant>, id: TripId)
    requires forall i :: 0 <= i < |ps| ==> ps[i].tripId != id
    ensures OwnerCount(ps, id) == 0
    decreases |ps|
  {
    if |ps| > 0 {
      ForeignRowsOwnNothing(ps[1..], id);
    }
  }

  /** The confirmation link sent to the owner. */
  function ConfirmationLink(baseUrl: string, tripId: TripId): string
  {
    baseUrl + "/trips/" + tripId + "/confirm"
  }

  /** Recovers the trip identifier from a confirmation link built on `baseUrl`, if it is one. */
  function LinkTripId(baseUrl: string, link: string): (r: Option<TripId>)
    ensures r.Some? ==> ConfirmationLink(baseUrl, r.value) == link
  {
    var prefix := baseUrl + "/trips/";
    var suffix := "/confirm";
    if |link| >= |prefix| + |suffix|
       && link[..|prefix|] == prefix
       && link[|link| - |suffix|..] == suffix
    then
      var id := link[|prefix|..|link| - |suffix|];
      assert link == prefix + id + suffix;
      Some(id)
    else None
  }

  /** The link determines the trip: reading it back yields the identifier it was built from. */
  lemma LinkRoundTrip(baseUrl: string, tripId: TripId)
    ensures LinkTripId(baseUrl, ConfirmationLink(baseUrl, tripId)) == Some(tripId)
  {
  }

  /** Both dates are accepted by the engine's date constructor, so the store can take the row. */
  predicate Storable(p: Parsing, req: Request)
  {
    p.toInstant(req.startsAt).Some? && p.toInstant(req.endsAt).Some?
  }

  /** The trip row as stored; the range is stored as given, reversed or not. */
  function TripRow(p: Parsing, req: Request): Trip
    requires Storable(p, req)
  {
    Trip(req.destination, p.toInstant(req.startsAt).value, p.toInstant(req.endsAt).value, false)
  }

  /** The store after the trip and its participant rows are created under `tripId`. */
  function Persist(p: Parsing, store: Store, req: Request, tripId: TripId): Store
    requires Storable(p, req)
  {
    store.(trips := store.trips[tripId := TripRow(p, req)],
           participants := store.participants + Participants(tripId, req))
  }

  /**
   The handler proper. `tripId` is the identifier the database assigns and
   `mailDelivered` whether the mail client accepted the message.
   */
  function Handler(p: Parsing, baseUrl: string, store: Store, req: Request, tripId: TripId, mailDelivered: bool)
    : (o: TripOutcome)
    // a bad date stops the request before anything is persisted or mailed
    ensures !p.isValidDate(req.startsAt) || !p.isValidDate(req.endsAt) ==>
              o.store == store && o.effects == [] && o.result.Err? && o.result.error.ClientError?
    // a date the validator accepts but the store's date type cannot hold makes the write fail:
    // nothing is stored, no mail is attempted, and the error is not a client error
    ensures p.isValidDate(req.startsAt) && p.isValidDate(req.endsAt) && !Storable(p, req) ==>
              o == TripOutcome(Err(StorageFailed), store, [])
    // otherwise the trip is persisted first, then the mail is attempted, whatever its fate
    ensures p.isValidDate(req.startsAt) && p.isValidDate(req.endsAt) && Storable(p, req) ==>
              && o.store == Persist(p, store, req, tripId)
              && o.effects == [TripPersisted(tripId),
                               ConfirmationMailAttempted(req.ownerName, req.ownerEmail, ConfirmationLink(baseUrl, tripId))]
    // the identifier is answered only when the trip is stored and the mail went out
    ensures o.result.Ok? <==> p.isValidDate(req.startsAt) && p.isValidDate(req.endsAt) && Storable(p, req) && mailDelivered
    ensures o.result.Ok? ==> o.result.value == tripId
  {
    if !p.isValidDate(req.startsAt) then
      TripOutcome(Err(ClientError(InvalidStartMessage)), store, [])
    else if !p.isValidDate(req.endsAt) then
      TripOutcome(Err(ClientError(InvalidEndMessage)), store, [])
    else if !Storable(p, req) then
      TripOutcome(Err(StorageFailed), store, [])
    else
      var stored := Persist(p, store, req, tripId);
      var link := ConfirmationLink(baseUrl, tripId);
      var effects := [TripPersisted(tripId), ConfirmationMailAttempted(req.ownerName, req.ownerEmail, link)];
      if mailDelivered then TripOutcome(Ok(tripId), stored, effects)
      else TripOutcome(Err(ClientError(MailFailedMessage)), stored, effects)
  }

  /** The whole request: schema first, then the handler. */
  function Handle(p: Parsing, baseUrl: string, store: Store, req: Request, tripId: TripId, mailDelivered: bool)
    : (o: TripOutcome)
    ensures !WellFormed(p, req) ==>
              o.result.Err? && o.result.error.SchemaRejected? && o.store == store && o.effects == []
    ensures WellFormed(p, req) ==> o == Handler(p, baseUrl, store, req, tripId, mailDelivered)
  {
    var issues := SchemaIssues(p, req);
    if issues != [] then TripOutcome(Err(SchemaRejected(issues)), store, [])
    else Handler(p, baseUrl, store, req, tripId, mailDelivered)
  }

  /** The handler's own date checks repeat the schema's and can never fire on a request that reaches them. */
  lemma DateRechecksUnreachable(p: Parsing, baseUrl: string, store: Store, req: Request, tripId: TripId, mailDelivered: bool)
    ensures Handle(p, baseUrl, store, req, tripId, mailDelivered).result
            !in {Err(ClientError(InvalidStartMessage)), Err(ClientError(InvalidEndMessage))}
  {
  }

  /** A well-formed request is stored with its range as given, even when the start is after the end. */
  lemma ReversedRangeAccepted(p: Parsing, baseUrl: string, store: Store, req: Request, tripId: TripId, mailDelivered: bool)
    requires WellFormed(p, req)
    requires Storable(p, req)
    requires p.toInstant(req.startsAt).value > p.toInstant(req.endsAt).value
    ensures var o := Handle(p, baseUrl, store, req, tripId, mailDelivered);
            && tripId in o.store.trips
            && o.store.trips[tripId].startsAt > o.store.trips[tripId].endsAt
            && (mailDelivered ==> o.result == Ok(tripId))
  {
  }

  /**
   A failed mail reports an error although the trip and its participants are
   already stored; only a failed write, which comes before the mail, leaves
   the store untouched.
   */
  lemma MailFailureKeepsTrip(p: Parsing, baseUrl: string, store: Store, req: Request, tripId: TripId)
    requires WellFormed(p, req)
    ensures var o := Handle(p, baseUrl, store, req, tripId, false);
            if Storable(p, req) then
              && o.result == Err(ClientError(MailFailedMessage))
              && o.store.trips == store.trips[tripId := TripRow(p, req)]
              && |o.store.participants| == |store.participants| + 1 + |req.emailsToInvite|
            else
              o.result == Err(StorageFailed) && o.store == store && o.effects == []
  {
  }

  /** Creating a trip under a fresh identifier keeps the store consistent. */
  lemma HandlePreservesConsistency(p: Parsing, baseUrl: string, store: Store, req: Request, tripId: TripId, mailDelivered: bool)
    requires Consistent(store)
    requires tripId !in store.trips
    ensures Consistent(Handle(p, baseUrl, store, req, tripId, mailDelivered).store)
  {
    var o := Handle(p, baseUrl, store, req, tripId, mailDelivered);
    if o.store != store {
      var oldRows := store.participants;
      var newRows := Participants(tripId, req);
      assert o.store.participants == oldRows + newRows;
      forall id | id in o.store.trips
        ensures OwnerCount(o.store.participants, id) == 1
      {
        OwnerCountAppend(oldRows, newRows, id);
        if id == tripId {
          forall i | 0 <= i < |oldRows| ensures oldRows[i].tripId != id {
            assert oldRows[i].tripId in store.trips;
          }
          ForeignRowsOwnNothing(oldRows, id);
          ParticipantsHaveOneOwner(tripId, req);
        } else {
          ForeignRowsOwnNothing(newRows, id);
        }
      }
      forall i | 0 <= i < |o.store.activities|
        ensures o.store.activities[i].tripId in o.store.trips
        ensures WithinWindow(o.store.trips[o.store.activities[i].tripId], o.store.activities[i].occursAt)
      {
        assert o.store.activities[i].tripId in store.trips;
      }
    }
  }
}
