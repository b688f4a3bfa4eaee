/** `POST /api/bookings`: the booking rate limit, the authentication guard,
    the booking schema, then the same reservation step as the service, for
    the session user or the seeded 'anonymous' user. */
module BookingsRoute {
  import opened Common
  import opened Store
  import opened Http
  import opened AuthGuards
  import opened RateLimit
  import opened Validation
  import opened Bookings
  import BookingService

  const CreateFailed: Response := Fail(500, "Failed to create booking")

  /** `session?.user?.id || 'anonymous'`. */
  function BookingUser(session: Option<Session>): (u: Id)
    ensures SignedIn(session) && session.value.user.value.id != "" ==> u == session.value.user.value.id
    ensures !(SignedIn(session) && session.value.user.value.id != "") ==> u == "anonymous"
  {
    if session.Some? && session.value.user.Some? && session.value.user.value.id != "" then
      session.value.user.value.id
    else "anonymous"
  }

  /** The response for each outcome of the reservation step. */
  function StepResponse(step: Step): (resp: Response)
    ensures resp.status == 200 <==> step.Reserved?
    ensures step.Reserved? ==> resp.body == BookingBody(step.id, step.booking, "/checkout/" + step.id)
    ensures step.Missing? ==> resp == Fail(404, "Activity or Slot not found")
    ensures step.Full? ==> resp == Fail(400, "Not enough capacity available")
    ensures step.InsertFailed? || step.IncrementFailed? ==> resp == CreateFailed
  {
    match step
    case Missing => Fail(404, "Activity or Slot not found")
    case Full => Fail(400, "Not enough capacity available")
    case InsertFailed => CreateFailed
    case IncrementFailed(_, _) => CreateFailed
    case Reserved(id, b) => Response(200, BookingBody(id, b, RedirectUrl(id)))
  }

  function Post(s: State, req: Request, allowed: string -> bool, session: Option<Session>,
                f: Formats, d: Draw): (out: Outcome)
    ensures !allowed(Identifier(BookingLimit, req)) ==> out == Outcome(s, TooManyRequests)
    ensures allowed(Identifier(BookingLimit, req)) && !SignedIn(session) ==> out == Outcome(s, Unauthenticated)
    ensures allowed(Identifier(BookingLimit, req)) && SignedIn(session) && req.body.MalformedBody? ==>
      out == Outcome(s, CreateFailed)
    ensures allowed(Identifier(BookingLimit, req)) && SignedIn(session) && req.body.JsonBody?
            && ParseBooking(f, req.body.json).Rejected? ==>
      out == Outcome(s, Fail(400, ParseBooking(f, req.body.json).issues[0]))
    ensures out.response.status != 200 && !d.incrementFails ==> out.state == s
    ensures out.response.status != 200 ==> out.state.slots == s.slots
    ensures out.response.status == 200 ==>
      && out.response.body.BookingBody?
      && out.response.body.id in out.state.bookings
      && out.response.body.booking == out.state.bookings[out.response.body.id]
      && out.response.body.booking.userId == BookingUser(session)
      && out.response.body.booking.status == Pending
      && 1 <= out.response.body.booking.participants <= 20
      && var b := out.response.body.booking;
      && out.response.body.id !in s.bookings
      && out.state.bookings == s.bookings[out.response.body.id := b]
      && b.activityId in s.activities && b.slotId in s.slots
      && b.totalPrice == s.activities[b.activityId].price * b.participants
      && out.state.slots == s.slots[b.slotId := s.slots[b.slotId].(booked := s.slots[b.slotId].booked + b.participants)]
      && out.state == s.(bookings := out.state.bookings, slots := out.state.slots)
  {
    var limited := RateLimit.Check(BookingLimit, req, allowed);
    if limited.Some? then Outcome(s, limited.value)
    else
      var auth := RequireAuth(session);
      if auth.Some? then Outcome(s, auth.value)
      else if req.body.MalformedBody? then Outcome(s, CreateFailed)
      else
        var parsed := ParseBooking(f, req.body.json);
        var v := ValidateRequest(parsed);
        if !v.success then
          FirstIssueReported(f, req.body.json, BookingShape);
          Outcome(s, Fail(400, v.error.value))
        else
          var data := v.data.value;
          var flow := Flow(s, Reservation(data.activityId, data.slotId, data.participants, BookingUser(session)), d);
          Outcome(flow.state, StepResponse(flow.step))
  }

  /** The route repeats the service: once the guards and the schema pass, it
      writes what `createBooking` writes and answers with the service's
      result (its status and message on a refusal, 500 where the service
      throws). */
  lemma PostAgreesWithService(s: State, req: Request, allowed: string -> bool, session: Option<Session>,
                              f: Formats, d: Draw)
    requires allowed(Identifier(BookingLimit, req)) && SignedIn(session) && req.body.JsonBody?
    requires ParseBooking(f, req.body.json).Parsed?
    ensures var data := ParseBooking(f, req.body.json).data;
      var svc := BookingService.CreateBooking(
        s, Reservation(data.activityId, data.slotId, data.participants, BookingUser(session)), d);
      var out := Post(s, req, allowed, session, f, d);
      && out.state == svc.state
      && (svc.result.Created? ==>
            out.response == Response(200, BookingBody(svc.result.id, svc.result.booking, svc.result.redirectUrl)))
      && (svc.result.Refused? ==> out.response == Fail(svc.result.status, svc.result.error))
      && (svc.result.Threw? ==> out.response == CreateFailed)
  {
  }

  /** When the slot update throws after the insert, the client gets 500 but
      the pending booking stays in the store, uncounted by its slot. */
  lemma PostIncrementFailure(s: State, req: Request, allowed: string -> bool, session: Option<Session>,
                             f: Formats, d: Draw)
    requires allowed(Identifier(BookingLimit, req)) && SignedIn(session) && req.body.JsonBody?
    requires ParseBooking(f, req.body.json).Parsed?
    requires var data := ParseBooking(f, req.body.json).data;
      var r := Reservation(data.activityId, data.slotId, data.participants, BookingUser(session));
      Found(s, r) && Fits(s.slots[r.slotId], r.participants) && !InsertRejected(s, r, d.newId)
    requires d.incrementFails
    ensures var out := Post(s, req, allowed, session, f, d);
      && out.response == CreateFailed
      && d.newId in out.state.bookings && out.state.bookings[d.newId].status == Pending
      && d.newId !in s.bookings
      && out.state.slots == s.slots
  {
    var data := ParseBooking(f, req.body.json).data;
    IncrementFailureKeepsBooking(s, Reservation(data.activityId, data.slotId, data.participants, BookingUser(session)), d);
  }

  /** Schema-valid parties are at least one, so the route keeps the store's
      integrity whatever the request. */
  lemma PostKeepsValid(s: State, req: Request, allowed: string -> bool, session: Option<Session>,
                       f: Formats, d: Draw)
    requires Valid(s)
    ensures Valid(Post(s, req, allowed, session, f, d).state)
    ensures SnapshotsKept(s, Post(s, req, allowed, session, f, d).state)
  {
    if allowed(Identifier(BookingLimit, req)) && SignedIn(session) && req.body.JsonBody?
       && ParseBooking(f, req.body.json).Parsed? {
      var data := ParseBooking(f, req.body.json).data;
      var r := Reservation(data.activityId, data.slotId, data.participants, BookingUser(session));
      FlowKeepsValid(s, r, d);
      FlowKeepsTheRest(s, r, d);
    }
  }

  /** A signed-in session user with no id books as the seeded 'anonymous'
      user, and the insert fails with 500 when that user is not in the store. */
  lemma EmptyIdBooksAsAnonymous(s: State, req: Request, allowed: string -> bool, session: Option<Session>,
                                f: Formats, d: Draw)
    requires allowed(Identifier(BookingLimit, req)) && SignedIn(session) && req.body.JsonBody?
    requires session.value.user.value.id == ""
    requires ParseBooking(f, req.body.json).Parsed?
    requires var data := ParseBooking(f, req.body.json).data;
      && data.activityId in s.activities && data.slotId in s.slots
      && Fits(s.slots[data.slotId], data.participants)
    ensures BookingUser(session) == "anonymous"
    ensures "anonymous" !in s.users ==> Post(s, req, allowed, session, f, d) == Outcome(s, CreateFailed)
    ensures "anonymous" in s.users && d.newId !in s.bookings ==>
      Post(s, req, allowed, session, f, d).state.bookings[d.newId].userId == "anonymous"
  {
  }
}
