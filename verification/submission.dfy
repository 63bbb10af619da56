/**
 The client's submit guard against the server's trip schema: what the page
 posts and what the route then does with it.
 */
module Submission {
  import opened Domain
  import InviteForm
  import CreateTrip

  /** The request body the route receives for a payload; `render` is how the client serialises an instant. */
  function ToRequest(pl: InviteForm.Payload, render: Timestamp -> string): CreateTrip.Request
  {
    CreateTrip.Request(pl.destination, render(pl.startsAt), render(pl.endsAt),
                       pl.ownerName, pl.ownerEmail, pl.emailsToInvite)
  }

  /**
   The client only asks for a non-empty destination while the server wants at
   least four characters: a one- to three-character destination is posted and
   then refused by the schema, with nothing stored and no mail sent.
   */
  lemma ShortDestinationPostedThenRejected(
    f: InviteForm.Form, render: Timestamp -> string,
    p: CreateTrip.Parsing, baseUrl: string, store: Store, tripId: TripId, mailDelivered: bool)
    requires InviteForm.ReadyToSubmit(f)
    requires |f.destination| < CreateTrip.MinDestinationLength
    ensures InviteForm.Submit(f).Post?
    ensures var o := CreateTrip.Handle(p, baseUrl, store, ToRequest(InviteForm.Submit(f).payload, render), tripId, mailDelivered);
            && o.result.Err?
            && o.result.error.SchemaRejected?
            && o.result.error.issues[0] == TooShort(Destination, CreateTrip.MinDestinationLength)
            && o.store == store
            && o.effects == []
  {
  }
}
