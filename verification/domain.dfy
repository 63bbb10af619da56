/**
 The entities of the trip planner and the abstract store that the two
 backend routes read and write. Identifiers that the database generates are
 plain strings chosen by the caller of each operation; timestamps are parsed
 instants (milliseconds since the epoch) and are compared as integers.
 */
module Domain {

  type TripId = string
  type ActivityId = string

  /** A parsed instant. */
  type Timestamp = int

  datatype Option<+T> = None | Some(value: T)

  datatype Trip = Trip(
    destination: string,
    startsAt: Timestamp,
    endsAt: Timestamp,
    isConfirmed: bool)

  /** `name` is absent for invitees, who are stored with their email only. */
  datatype Participant = Participant(
    tripId: TripId,
    name: Option<string>,
    email: string,
    isOwner: bool,
    isConfirmed: bool)

  datatype Activity = Activity(
    id: ActivityId,
    tripId: TripId,
    title: string,
    occursAt: Timestamp)

  /** The relational store: trips by identifier, participant and activity rows in insertion order. */
  datatype Store = Store(
    trips: map<TripId, Trip>,
    participants: seq<Participant>,
    activities: seq<Activity>)

  const EmptyStore := Store(map[], [], [])

  /** The request fields a schema can complain about. */
  datatype Field =
    | TripIdParam
    | Title
    | Destination
    | StartsAt
    | EndsAt
    | OwnerEmail
    | InviteEmail(index: nat)

  /** One complaint of request-schema validation. */
  datatype Issue =
    | TooShort(field: Field, minimum: nat)
    | NotUuid(field: Field)
    | InvalidDate(field: Field)
    | NotEmail(field: Field)

  /**
   A request fails at the schema, before any handler code runs; with a
   handler's `ClientError`; or because the store refused a write, which is an
   exception of the store and not a `ClientError`.
   */
  datatype Error =
    | SchemaRejected(issues: seq<Issue>)
    | ClientError(message: string)
    | StorageFailed

  datatype Result<+T> = Ok(value: T) | Err(error: Error)

  /** What a request answers and the store it leaves behind. */
  datatype Outcome<+T> = Outcome(result: Result<T>, store: Store)

  /** The closed window of a trip: both ends belong to it. */
  predicate WithinWindow(trip: Trip, t: Timestamp)
  {
    trip.startsAt <= t <= trip.endsAt
  }

  /** Number of owner rows that belong to trip `id`. */
  function OwnerCount(ps: seq<Participant>, id: TripId): nat
  {
    if |ps| == 0 then 0
    else (if ps[0].tripId == id && ps[0].isOwner then 1 else 0) + OwnerCount(ps[1..], id)
  }

  /** Owner rows of a concatenation are those of its parts. */
  lemma {:induction false} OwnerCountAppend(a: seq<Participant>, b: seq<Participant>, id: TripId)
    ensures OwnerCount(a + b, id) == OwnerCount(a, id) + OwnerCount(b, id)
  {
    if |a| == 0 {
      assert a + b == b;
    } else {
      assert (a + b)[1..] == a[1..] + b;
      OwnerCountAppend(a[1..], b, id);
    }
  }

  /**
   The consistency the two routes maintain together: every row points at a
   stored trip, every activity lies in its trip's window, and every trip has
   exactly one owner.
   */
  predicate Consistent(s: Store)
  {
    && (forall i :: 0 <= i < |s.activities| ==>
          s.activities[i].tripId in s.trips
          && WithinWindow(s.trips[s.activities[i].tripId], s.activities[i].occursAt))
    && (forall i :: 0 <= i < |s.participants| ==> s.participants[i].tripId in s.trips)
    && (forall id :: id in s.trips ==> OwnerCount(s.participants, id) == 1)
  }

  lemma EmptyStoreConsistent()
    ensures Consistent(EmptyStore)
  {
  }
}
