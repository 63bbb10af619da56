/**
 The trip-creation page of the client: the list of guest addresses the user
 edits before submitting, and the chain of checks that decides whether the
 form is posted to `POST /trips`.
 */
module InviteForm {
  import opened Domain

  /** The list the page starts with. */
  const InitialInvites: seq<string> := ["gustavo@32344.com.br"]

  predicate NoDuplicates(s: seq<string>)
  {
    forall i, j :: 0 <= i < j < |s| ==> s[i] != s[j]
  }

  /**
   Adds the address typed into the form field; `None` stands for a form
   without that field. Empty and already listed addresses are ignored.
   */
  function AddEmail(list: seq<string>, email: Option<string>): (r: seq<string>)
    // the old list is kept as a prefix and at most one address is appended
    ensures |list| <= |r| <= |list| + 1
    ensures r[..|list|] == list
    // what is listed afterwards: the old addresses plus the typed one, if it is not empty
    ensures forall x :: x in r <==> x in list || (email == Some(x) && x != "")
    ensures NoDuplicates(list) ==> NoDuplicates(r)
    // an empty, missing or already listed address changes nothing; any other is appended
    ensures email.None? || email.value == "" || email.value in list ==> r == list
    ensures email.Some? && email.value != "" && email.value !in list ==> r == list + [email.value]
  {
    if email.None? || email.value == "" then list
    else if email.value in list then list
    else list + [email.value]
  }

  /** Removes every occurrence of `email`, keeping the other addresses in order. */
  function RemoveEmail(list: seq<string>, email: string): (r: seq<string>)
    ensures forall x :: x in r <==> x in list && x != email
    ensures multiset(r) == multiset(list)[email := 0]
    ensures |r| <= |list|
  {
    if |list| == 0 then []
    else if list[0] == email then
      assert list == [list[0]] + list[1..];
      RemoveEmail(list[1..], email)
    else
      assert list == [list[0]] + list[1..];
      [list[0]] + RemoveEmail(list[1..], email)
  }

  lemma InitialInvitesHaveNoDuplicates()
    ensures NoDuplicates(InitialInvites)
  {
  }

  /**
   Removal is a filter: it distributes over concatenation and keeps or drops
   single addresses, so the surviving addresses keep their relative order.
   */
  lemma {:induction false} RemoveDistributes(a: seq<string>, b: seq<string>, email: string)
    ensures RemoveEmail(a + b, email) == RemoveEmail(a, email) + RemoveEmail(b, email)
    ensures RemoveEmail([email], email) == []
    ensures forall x :: x != email ==> RemoveEmail([x], email) == [x]
    decreases |a|
  {
    RemoveSingle(email);
    if |a| == 0 {
      assert a + b == b;
    } else {
      assert (a + b)[0] == a[0];
      assert (a + b)[1..] == a[1..] + b;
      RemoveDistributes(a[1..], b, email);
    }
  }

  lemma RemoveSingle(email: string)
    ensures RemoveEmail([email], email) == []
    ensures forall x :: x != email ==> RemoveEmail([x], email) == [x]
  {
  }

  /** Removing an address that is not listed changes nothing. */
  lemma {:induction false} RemoveAbsentIsIdentity(list: seq<string>, email: string)
    requires email !in list
    ensures RemoveEmail(list, email) == list
    decreases |list|
  {
    if |list| > 0 {
      assert list == [list[0]] + list[1..];
      RemoveAbsentIsIdentity(list[1..], email);
    }
  }

  /** Removal keeps a duplicate-free list duplicate-free. */
  lemma {:induction false} RemovePreservesNoDuplicates(list: seq<string>, email: string)
    requires NoDuplicates(list)
    ensures NoDuplicates(RemoveEmail(list, email))
    decreases |list|
  {
    if |list| > 0 {
      var rest := list[1..];
      assert NoDuplicates(rest) by {
        forall i, j | 0 <= i < j < |rest| ensures rest[i] != rest[j] {
          assert rest[i] == list[i + 1] && rest[j] == list[j + 1];
        }
      }
      RemovePreservesNoDuplicates(rest, email);
      assert list[0] !in rest by {
        forall k | 0 <= k < |rest| ensures rest[k] != list[0] {
          assert rest[k] == list[k + 1];
        }
      }
    }
  }

  /** Adding a new address and then removing it gives back the list. */
  lemma AddThenRemove(list: seq<string>, email: string)
    requires email != ""
    requires email !in list
    ensures RemoveEmail(AddEmail(list, Some(email)), email) == list
  {
    RemoveDistributes(list, [email], email);
    RemoveAbsentIsIdentity(list, email);
  }

  /** The date range picked in the calendar; either end may be unset. */
  datatype DateRange = DateRange(from: Option<Timestamp>, to: Option<Timestamp>)

  /** The page state the submit handler reads. */
  datatype Form = Form(
    destination: string,
    dates: Option<DateRange>,
    emailsToInvite: seq<string>,
    ownerName: string,
    ownerEmail: string)

  /** Why a submission was stopped, in the order the checks run. */
  datatype Blocked = MissingDestination | MissingDates | NoInvitees | MissingOwner

  /** The body posted to the server. */
  datatype Payload = Payload(
    destination: string,
    startsAt: Timestamp,
    endsAt: Timestamp,
    emailsToInvite: seq<string>,
    ownerName: string,
    ownerEmail: string)

  datatype Submission = Stop(reason: Blocked) | Post(payload: Payload)

  predicate HasBothDates(dates: Option<DateRange>)
  {
    dates.Some? && dates.value.from.Some? && dates.value.to.Some?
  }

  /** Every check of the submit handler passes. */
  predicate ReadyToSubmit(f: Form)
  {
    && f.destination != ""
    && HasBothDates(f.dates)
    && |f.emailsToInvite| > 0
    && f.ownerName != ""
    && f.ownerEmail != ""
  }

  /** The submit handler: the first failing check stops it, otherwise the form is posted. */
  function Submit(f: Form): (s: Submission)
    // a post happens exactly when every check passes
    ensures s.Post? <==> ReadyToSubmit(f)
    // each stop names the first check that failed
    ensures s == Stop(MissingDestination) <==> f.destination == ""
    ensures s == Stop(MissingDates) <==> f.destination != "" && !HasBothDates(f.dates)
    ensures s == Stop(NoInvitees) <==>
              f.destination != "" && HasBothDates(f.dates) && |f.emailsToInvite| == 0
    ensures s == Stop(MissingOwner) <==>
              f.destination != "" && HasBothDates(f.dates) && |f.emailsToInvite| > 0
              && (f.ownerName == "" || f.ownerEmail == "")
    // the payload maps the range onto the two dates and passes the rest through
    ensures s.Post? ==>
              && s.payload.startsAt == f.dates.value.from.value
              && s.payload.endsAt == f.dates.value.to.value
              && s.payload.destination == f.destination
              && s.payload.emailsToInvite == f.emailsToInvite
              && s.payload.ownerName == f.ownerName
              && s.payload.ownerEmail == f.ownerEmail
  {
    if f.destination == "" then Stop(MissingDestination)
    else if f.dates.None? || f.dates.value.from.None? || f.dates.value.to.None? then Stop(MissingDates)
    else if |f.emailsToInvite| == 0 then Stop(NoInvitees)
    else if f.ownerName == "" || f.ownerEmail == "" then Stop(MissingOwner)
    else
      Post(Payload(f.destination, f.dates.value.from.value, f.dates.value.to.value,
                   f.emailsToInvite, f.ownerName, f.ownerEmail))
  }
}
