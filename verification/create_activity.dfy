/**
 The route that schedules an activity inside an existing trip
 (`POST /trips/:tripId/activities`): schema validation of the parameters and
 body, then the trip lookup, the two range checks and the insertion.
 */
module CreateActivity {
  import opened Domain

  const MinTitleLength: nat := 4

  const TripNotFoundMessage := "Trip not found"
  const BeforeStartMessage := "Activity date cannot be before the trip start date."
  const AfterEndMessage := "Activity date cannot be after the trip end date."

  /** The request after the body's date string has been turned into an instant. */
  datatype Request = Request(tripId: string, title: string, occursAt: Timestamp)

  /** The 201 response body. */
  datatype Created = Created(activityId: ActivityId, title: string, occursAt: Timestamp)

  /**
   Schema issues of a request. The path parameter is validated before the
   body, and only the first failing part is reported.
   */
  function SchemaIssues(isUuid: string -> bool, req: Request): seq<Issue>
  {
    if !isUuid(req.tripId) then [NotUuid(TripIdParam)]
    else if |req.title| < MinTitleLength then [TooShort(Title, MinTitleLength)]
    else []
  }

  /** The handler proper: look the trip up, check the window, insert the activity with id `newId`. */
  function Handler(store: Store, tripId: TripId, title: string, occursAt: Timestamp, newId: ActivityId)
    : (o: Outcome<Created>)
    // accepted exactly when the trip exists and the instant lies in its closed window
    ensures o.result.Ok? <==> tripId in store.trips && WithinWindow(store.trips[tripId], occursAt)
    // the lookup comes first: a missing trip never reaches a date comparison
    ensures tripId !in store.trips ==> o.result == Err(ClientError(TripNotFoundMessage))
    ensures tripId in store.trips && occursAt < store.trips[tripId].startsAt
            ==> o.result == Err(ClientError(BeforeStartMessage))
    ensures tripId in store.trips && store.trips[tripId].startsAt <= occursAt
            && store.trips[tripId].endsAt < occursAt
            ==> o.result == Err(ClientError(AfterEndMessage))
    // every rejection leaves the store as it was
    ensures o.result.Err? ==> o.store == store
    // an acceptance adds exactly one row and echoes what it stored
    ensures o.result.Ok? ==>
              && o.result.value == Created(newId, title, occursAt)
              && o.store.trips == store.trips
              && o.store.participants == store.participants
              && |o.store.activities| == |store.activities| + 1
              && o.store.activities[..|store.activities|] == store.activities
              && o.store.activities[|store.activities|] == Activity(newId, tripId, title, occursAt)
  {
    if tripId !in store.trips then
      Outcome(Err(ClientError(TripNotFoundMessage)), store)
    else
      var trip := store.trips[tripId];
      if occursAt < trip.startsAt then
        Outcome(Err(ClientError(BeforeStartMessage)), store)
      else if occursAt > trip.endsAt then
        Outcome(Err(ClientError(AfterEndMessage)), store)
      else
        var activity := Activity(newId, tripId, title, occursAt);
        Outcome(Ok(Created(activity.id, activity.title, activity.occursAt)),
                store.(activities := store.activities + [activity]))
  }

  /** The whole request: the schema runs to completion before the handler touches the store. */
  function Handle(isUuid: string -> bool, store: Store, req: Request, newId: ActivityId): (o: Outcome<Created>)
    ensures !isUuid(req.tripId) ==> o == Outcome(Err(SchemaRejected([NotUuid(TripIdParam)])), store)
    ensures isUuid(req.tripId) && |req.title| < MinTitleLength
            ==> o == Outcome(Err(SchemaRejected([TooShort(Title, MinTitleLength)])), store)
    ensures o.result.Ok? ==> isUuid(req.tripId) && |req.title| >= MinTitleLength
    ensures isUuid(req.tripId) && |req.title| >= MinTitleLength
            ==> o == Handler(store, req.tripId, req.title, req.occursAt, newId)
  {
    var issues := SchemaIssues(isUuid, req);
    if issues != [] then Outcome(Err(SchemaRejected(issues)), store)
    else Handler(store, req.tripId, req.title, req.occursAt, newId)
  }

  /** Both ends of the window are accepted, because the checks are strict. */
  lemma InclusiveBounds(store: Store, tripId: TripId, title: string, newId: ActivityId)
    requires tripId in store.trips
    requires store.trips[tripId].startsAt <= store.trips[tripId].endsAt
    ensures Handler(store, tripId, title, store.trips[tripId].startsAt, newId).result.Ok?
    ensures Handler(store, tripId, title, store.trips[tripId].endsAt, newId).result.Ok?
  {
  }

  /** A trip whose start lies after its end accepts nothing; the before-start message wins whenever both checks would fail. */
  lemma ReversedTripRejectsAll(store: Store, tripId: TripId, title: string, occursAt: Timestamp, newId: ActivityId)
    requires tripId in store.trips
    requires store.trips[tripId].startsAt > store.trips[tripId].endsAt
    ensures Handler(store, tripId, title, occursAt, newId).result.Err?
    ensures occursAt < store.trips[tripId].startsAt && occursAt > store.trips[tripId].endsAt
            ==> Handler(store, tripId, title, occursAt, newId).result == Err(ClientError(BeforeStartMessage))
  {
  }

  /** Scheduling an activity keeps the store consistent. */
  lemma HandlerPreservesConsistency(store: Store, tripId: TripId, title: string, occursAt: Timestamp, newId: ActivityId)
    requires Consistent(store)
    ensures Consistent(Handler(store, tripId, title, occursAt, newId).store)
  {
  }

  /** A whole request, schema included, keeps the store consistent. */
  lemma RequestPreservesConsistency(isUuid: string -> bool, store: Store, req: Request, newId: ActivityId)
    requires Consistent(store)
    ensures Consistent(Handle(isUuid, store, req, newId).store)
  {
  }
}
