/** `POST /api/payments/create-intent`: the booking rate limit, the
    authentication guard, the booking-id schema, the booking lookup and the
    Stripe key check; then a payment intent for the booking's price and an
    upsert of the booking's payment with the intent's id, pending. Stripe is
    the input `stripe`, its answer to the intent request. */
module CreateIntent {
  import opened Common
  import opened Store
  import opened Http
  import opened AuthGuards
  import opened RateLimit
  import opened Validation

  /** The fields of `paymentIntents.create` the route fills in: the amount in
      cents and the metadata. */
  datatype IntentRequest = IntentRequest(amountCents: int, bookingId: Id, reference: string)

  /** Stripe's answer: the intent's id and client secret, or the message of
      the error the call throws. */
  datatype Intent = IntentCreated(id: string, clientSecret: Option<string>) | IntentError(message: string)

  datatype IntentOutcome = IntentOutcome(state: State, response: Response, requested: Option<IntentRequest>)

  const NotConfigured: Response :=
    Fail(500, "Stripe is not configured. Please add your STRIPE_SECRET_KEY to the .env file.")

  /** `Math.round(totalPrice * 100)`: with prices held in cents it is the
      price itself. */
  function AmountCents(totalPrice: Money): Money {
    totalPrice
  }

  function Post(s: State, req: Request, allowed: string -> bool, session: Option<Session>,
                f: Formats, stripeKey: Option<string>, stripe: Intent): (out: IntentOutcome)
    ensures !allowed(Identifier(BookingLimit, req)) ==> out == IntentOutcome(s, TooManyRequests, None)
    ensures allowed(Identifier(BookingLimit, req)) && !SignedIn(session) ==>
      out == IntentOutcome(s, Unauthenticated, None)
    ensures out.state != s ==> out.response.status == 200
    ensures allowed(Identifier(BookingLimit, req)) && SignedIn(session) && req.body.JsonBody?
            && ParseBookingId(f, req.body.json).Parsed? && ParseBookingId(f, req.body.json).data in s.bookings
            && Present(stripeKey) && stripe.IntentCreated? ==>
      (out.response.status == 200 <==> !StripeIdTaken(s, ParseBookingId(f, req.body.json).data, stripe.id))
    ensures out.requested.Some? ==>
      && out.requested.value.bookingId in s.bookings
      && var b := s.bookings[out.requested.value.bookingId];
      && out.requested.value.amountCents == AmountCents(b.totalPrice)
      && out.requested.value.reference == b.reference
      && Present(stripeKey)
    ensures out.response.status == 200 ==>
      && out.requested.Some? && stripe.IntentCreated?
      && out.response.body == ClientSecretBody(stripe.clientSecret)
      && var bid := out.requested.value.bookingId;
      && out.state == UpsertPayment(s, bid, Payment(stripe.id, s.bookings[bid].totalPrice, PaymentPending))
      && !StripeIdTaken(s, bid, stripe.id)
  {
    var limited := RateLimit.Check(BookingLimit, req, allowed);
    if limited.Some? then IntentOutcome(s, limited.value, None)
    else
      var auth := RequireAuth(session);
      if auth.Some? then IntentOutcome(s, auth.value, None)
      else if req.body.MalformedBody? then IntentOutcome(s, Fail(500, req.body.message), None)
      else
        var v := ValidateRequest(ParseBookingId(f, req.body.json));
        if !v.success then IntentOutcome(s, Fail(400, v.error.value), None)
        else
          var bid := v.data.value;
          if bid !in s.bookings then IntentOutcome(s, Fail(404, "Booking not found"), None)
          else if !Present(stripeKey) then IntentOutcome(s, NotConfigured, None)
          else
            var b := s.bookings[bid];
            var request := Some(IntentRequest(AmountCents(b.totalPrice), bid, b.reference));
            match stripe
            case IntentError(m) => IntentOutcome(s, Fail(500, m), request)
            case IntentCreated(id, secret) =>
              if StripeIdTaken(s, bid, id) then IntentOutcome(s, Response(500, StoreFailureBody), request)
              else
                IntentOutcome(UpsertPayment(s, bid, Payment(id, b.totalPrice, PaymentPending)),
                              Response(200, ClientSecretBody(secret)), request)
  }

  /** The error answers once the guards pass, in the order the route checks
      them. */
  lemma PostRefusals(s: State, req: Request, allowed: string -> bool, session: Option<Session>,
                     f: Formats, stripeKey: Option<string>, stripe: Intent)
    requires allowed(Identifier(BookingLimit, req)) && SignedIn(session) && req.body.JsonBody?
    ensures var out := Post(s, req, allowed, session, f, stripeKey, stripe);
      var p := ParseBookingId(f, req.body.json);
      && (p.Rejected? ==> out == IntentOutcome(s, Fail(400, p.issues[0]), None))
      && (p.Parsed? && p.data !in s.bookings ==> out == IntentOutcome(s, Fail(404, "Booking not found"), None))
      && (p.Parsed? && p.data in s.bookings && !Present(stripeKey) ==> out == IntentOutcome(s, NotConfigured, None))
      && (p.Parsed? && p.data in s.bookings && Present(stripeKey) && stripe.IntentError? ==>
            out.state == s && out.response == Fail(500, stripe.message) && out.requested.Some?)
      && (p.Parsed? && p.data in s.bookings && Present(stripeKey) && stripe.IntentCreated? ==>
            && (out.response.status == 200 <==> !StripeIdTaken(s, p.data, stripe.id))
            && (StripeIdTaken(s, p.data, stripe.id) ==> out.state == s && out.response == Response(500, StoreFailureBody)))
  {
    var p := ParseBookingId(f, req.body.json);
    if p.Rejected? {
      FirstIssueReported(f, req.body.json, BookingIdShape);
    }
  }

  /** The route keeps the store's integrity: the upsert is refused rather
      than let two payments share an intent id, and it only writes the
      payment of a booking that exists. */
  lemma PostKeepsValid(s: State, req: Request, allowed: string -> bool, session: Option<Session>,
                       f: Formats, stripeKey: Option<string>, stripe: Intent)
    requires Valid(s)
    ensures Valid(Post(s, req, allowed, session, f, stripeKey, stripe).state)
    ensures SnapshotsKept(s, Post(s, req, allowed, session, f, stripeKey, stripe).state)
    ensures Post(s, req, allowed, session, f, stripeKey, stripe).state.bookings == s.bookings
  {
    var out := Post(s, req, allowed, session, f, stripeKey, stripe);
    if out.state != s {
      var bid := out.requested.value.bookingId;
      UpsertKeepsStripeIdsUnique(s, bid, Payment(stripe.id, s.bookings[bid].totalPrice, PaymentPending));
    }
  }

  /** Nothing stops a second intent for a booking already paid: its payment
      goes back to pending under the new intent's id while the booking stays
      confirmed. */
  lemma RetryResetsPaidPayment(s: State, req: Request, allowed: string -> bool, session: Option<Session>,
                               f: Formats, stripeKey: Option<string>, stripe: Intent, bid: Id)
    requires allowed(Identifier(BookingLimit, req)) && SignedIn(session) && req.body.JsonBody?
    requires ParseBookingId(f, req.body.json) == Parsed(bid)
    requires Present(stripeKey) && stripe.IntentCreated? && !StripeIdTaken(s, bid, stripe.id)
    requires bid in s.bookings && s.bookings[bid].status == Confirmed
    requires bid in s.payments && s.payments[bid].status == PaymentSucceeded
    ensures var out := Post(s, req, allowed, session, f, stripeKey, stripe);
      && out.response == Response(200, ClientSecretBody(stripe.clientSecret))
      && out.state.payments[bid] == Payment(stripe.id, s.bookings[bid].totalPrice, PaymentPending)
      && out.state.bookings[bid].status == Confirmed
  {
  }
}
