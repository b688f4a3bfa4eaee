/** `POST /api/webhooks/stripe`: the webhook rate limit, the signature
    check, then the two payment-intent events. A succeeded intent carrying a
    booking id confirms the booking and its payment in one transaction and
    asks for a confirmation email; a failed intent marks its payment failed.
    The transaction and the failed-intent update sit outside any handler, so
    a missing row escapes the route as an uncaught exception. Signature
    verification is the input `verification`; the email is recorded as a
    request to `sendBookingConfirmation`, whose delivery is not modelled. */
module StripeWebhook {
  import opened Common
  import opened Store
  import opened Http
  import opened RateLimit

  /** The fields of a Stripe event the route reads: its type, the payment
      intent's id and its `metadata.bookingId`. */
  datatype Event = Event(kind: string, intentId: string, bookingId: Option<string>)

  /** What `constructEvent` does with the body, signature and secret: the
      event, or the message of the error it throws. */
  datatype Verification = Verified(event: Event) | SignatureError(message: string)

  /** The arguments of one `sendBookingConfirmation` call. */
  datatype Mail = Mail(to: string, reference: string, activityTitle: string, totalPrice: Money, date: int)

  datatype WebhookOutcome = WebhookOutcome(state: State, response: Response, mails: seq<Mail>)

  const IntentSucceeded := "payment_intent.succeeded"
  const IntentFailed := "payment_intent.payment_failed"

  const Received: Response := Response(200, ReceivedBody)
  const Uncaught: Response := Response(500, UncaughtBody)
  const MissingSignature: Response := Fail(400, "Missing signature or secret")

  /** The confirmation lookup: one email when the booking, with its user,
      activity and slot, is found and the user has an email address. */
  function Confirmation(s: State, bookingId: Id): (m: seq<Mail>)
    ensures |m| <= 1
    ensures |m| == 1 ==>
      && bookingId in s.bookings
      && var b := s.bookings[bookingId];
      && b.userId in s.users && b.activityId in s.activities && b.slotId in s.slots
      && m[0] == Mail(s.users[b.userId].email, b.reference, s.activities[b.activityId].title,
                      b.totalPrice, s.slots[b.slotId].startTime)
      && m[0].to != ""
  {
    if bookingId !in s.bookings then []
    else
      var b := s.bookings[bookingId];
      if b.userId !in s.users || b.activityId !in s.activities || b.slotId !in s.slots then []
      else if s.users[b.userId].email == "" then []
      else [Mail(s.users[b.userId].email, b.reference, s.activities[b.activityId].title,
                 b.totalPrice, s.slots[b.slotId].startTime)]
  }

  /** Under the foreign keys, the email goes out exactly when the booking
      exists and its user has an address. */
  lemma ConfirmationSentIffAddress(s: State, bookingId: Id)
    requires Linked(s)
    ensures |Confirmation(s, bookingId)| == 1 <==>
      bookingId in s.bookings && s.users[s.bookings[bookingId].userId].email != ""
  {
  }

  /** The event switch, after the signature is accepted. */
  function Handle(s: State, e: Event): (out: WebhookOutcome)
    ensures e.kind == IntentSucceeded && Present(e.bookingId) ==>
      var bid := e.bookingId.value;
      if HasStripeId(s, e.intentId) && bid in s.bookings then
        && out.response == Received
        && out.state.bookings.Keys == s.bookings.Keys
        && out.state.bookings[bid].status == Confirmed
        && SameSnapshot(out.state.bookings[bid], s.bookings[bid])
        && (forall b :: b in s.bookings && b != bid ==> out.state.bookings[b] == s.bookings[b])
        && out.state.payments.Keys == s.payments.Keys
        && (forall b :: b in s.payments ==>
              out.state.payments[b] ==
                if s.payments[b].stripeId == e.intentId then s.payments[b].(status := PaymentSucceeded)
                else s.payments[b])
        && out.state == s.(bookings := out.state.bookings, payments := out.state.payments)
        && out.mails == Confirmation(out.state, bid)
      else out == WebhookOutcome(s, Uncaught, [])
    ensures e.kind == IntentFailed ==>
      if HasStripeId(s, e.intentId) then
        && out.response == Received && out.mails == []
        && out.state.payments.Keys == s.payments.Keys
        && (forall b :: b in s.payments ==>
              out.state.payments[b] ==
                if s.payments[b].stripeId == e.intentId then s.payments[b].(status := PaymentFailed)
                else s.payments[b])
        && out.state == s.(payments := out.state.payments)
      else out == WebhookOutcome(s, Uncaught, [])
    ensures (e.kind == IntentSucceeded && !Present(e.bookingId)) || (e.kind != IntentSucceeded && e.kind != IntentFailed) ==>
      out == WebhookOutcome(s, Received, [])
  {
    if e.kind == IntentSucceeded then
      if Present(e.bookingId) then
        var bid := e.bookingId.value;
        if !HasStripeId(s, e.intentId) || bid !in s.bookings then WebhookOutcome(s, Uncaught, [])
        else
          var s' := SetBookingStatus(SetStatusByStripeId(s, e.intentId, PaymentSucceeded), bid, Confirmed);
          WebhookOutcome(s', Received, Confirmation(s', bid))
      else WebhookOutcome(s, Received, [])
    else if e.kind == IntentFailed then
      if !HasStripeId(s, e.intentId) then WebhookOutcome(s, Uncaught, [])
      else WebhookOutcome(SetStatusByStripeId(s, e.intentId, PaymentFailed), Received, [])
    else WebhookOutcome(s, Received, [])
  }

  /** The route: the rate limit, then a missing signature or secret, then the
      signature check, then the event. */
  function Post(s: State, req: Request, allowed: string -> bool, secret: Option<string>,
                verification: Verification): (out: WebhookOutcome)
    ensures !allowed(Identifier(WebhookLimit, req)) ==> out == WebhookOutcome(s, TooManyRequests, [])
    ensures allowed(Identifier(WebhookLimit, req)) && !(Present(Header(req, "stripe-signature")) && Present(secret)) ==>
      out == WebhookOutcome(s, MissingSignature, [])
    ensures allowed(Identifier(WebhookLimit, req)) && Present(Header(req, "stripe-signature")) && Present(secret) ==>
      out == match verification
        case SignatureError(m) => WebhookOutcome(s, Fail(400, "Webhook Error: " + m), [])
        case Verified(e) => Handle(s, e)
  {
    var limited := RateLimit.Check(WebhookLimit, req, allowed);
    if limited.Some? then WebhookOutcome(s, limited.value, [])
    else if !Present(Header(req, "stripe-signature")) || !Present(secret) then WebhookOutcome(s, MissingSignature, [])
    else
      match verification
      case SignatureError(m) => WebhookOutcome(s, Fail(400, "Webhook Error: " + m), [])
      case Verified(e) => Handle(s, e)
  }

  // ---------------------------------------------------------------------
  // Properties

  /** Only a verified event of the two handled kinds writes the store. */
  lemma OnlyVerifiedEventsWrite(s: State, req: Request, allowed: string -> bool, secret: Option<string>,
                                verification: Verification)
    requires Post(s, req, allowed, secret, verification).state != s
    ensures allowed(Identifier(WebhookLimit, req))
    ensures Present(Header(req, "stripe-signature")) && Present(secret)
    ensures verification.Verified?
    ensures verification.event.kind == IntentSucceeded || verification.event.kind == IntentFailed
  {
  }

  /** Stripe retries deliveries: handling the same event twice leaves the
      store as handling it once, but the confirmation email is requested
      again. */
  lemma HandleIdempotent(s: State, e: Event)
    ensures Handle(Handle(s, e).state, e).state == Handle(s, e).state
    ensures Handle(s, e).response == Received ==>
      Handle(Handle(s, e).state, e).response == Received
      && Handle(Handle(s, e).state, e).mails == Handle(s, e).mails
  {
    var once := Handle(s, e);
    if e.kind == IntentSucceeded && Present(e.bookingId) && once.response == Received {
      var b :| b in s.payments && s.payments[b].stripeId == e.intentId;
      assert once.state.payments[b].stripeId == e.intentId;
    } else if e.kind == IntentFailed && once.response == Received {
      var b :| b in s.payments && s.payments[b].stripeId == e.intentId;
      assert once.state.payments[b].stripeId == e.intentId;
    }
  }

  /** Nothing orders the events: a late failure marks a paid booking's
      payment failed and leaves the booking confirmed, and a success confirms
      a booking an administrator has cancelled. */
  lemma EventsAreNotOrdered(s: State, e: Event)
    requires e.kind == IntentSucceeded && Present(e.bookingId) && e.bookingId.value in s.bookings
    requires HasStripeId(s, e.intentId) && s.bookings[e.bookingId.value].status == Cancelled
    ensures Handle(s, e).state.bookings[e.bookingId.value].status == Confirmed
    ensures var failed := Handle(Handle(s, e).state, Event(IntentFailed, e.intentId, None));
      failed.state.bookings[e.bookingId.value].status == Confirmed
      && forall b :: b in failed.state.payments && failed.state.payments[b].stripeId == e.intentId ==>
           failed.state.payments[b].status == PaymentFailed
  {
    var once := Handle(s, e);
    var b :| b in s.payments && s.payments[b].stripeId == e.intentId;
    assert once.state.payments[b].stripeId == e.intentId;
  }

  /** The webhook keeps the store's integrity and every booking's snapshot:
      it only ever changes statuses. */
  lemma HandleKeepsValid(s: State, e: Event)
    requires Valid(s)
    ensures Valid(Handle(s, e).state)
    ensures SnapshotsKept(s, Handle(s, e).state)
    ensures Handle(s, e).state.slots == s.slots
  {
    var out := Handle(s, e);
    if e.kind == IntentSucceeded && Present(e.bookingId) && HasStripeId(s, e.intentId) && e.bookingId.value in s.bookings {
      SetStatusKeepsStripeIdsUnique(s, e.intentId, PaymentSucceeded);
      StatusWriteKeepsValid(s, out.state);
    } else if e.kind == IntentFailed && HasStripeId(s, e.intentId) {
      SetStatusKeepsStripeIdsUnique(s, e.intentId, PaymentFailed);
      StatusWriteKeepsValid(s, out.state);
    }
  }

  /** Under the unique column a success touches exactly the one payment that
      carries the intent's id. */
  lemma SucceededTouchesOnePayment(s: State, e: Event, paid: Id)
    requires StripeIdsUnique(s)
    requires e.kind == IntentSucceeded && Present(e.bookingId) && e.bookingId.value in s.bookings
    requires paid in s.payments && s.payments[paid].stripeId == e.intentId
    ensures Handle(s, e).state.payments == s.payments[paid := s.payments[paid].(status := PaymentSucceeded)]
  {
    SetStatusByStripeIdTouchesOne(s, e.intentId, PaymentSucceeded, paid);
  }
}
