/** `POST /api/payments/paypal/capture-order`: no rate limit, no session
    check and no schema; the two fields must be truthy, the order is
    captured, and a completed capture confirms the booking and writes its
    payment, SUCCEEDED with the captured amount, in one transaction. PayPal
    is the input `capture`, its answer for the order. */
module PaypalCapture {
  import opened Common
  import opened Store
  import opened Http

  /** PayPal's answer to the capture call: the order's `status` and the
      first capture's amount (None when the path is missing), or the error
      the call throws. */
  datatype Capture = Captured(status: Option<string>, amount: Option<Money>) | CaptureThrew

  const CaptureFailed: Response := Fail(500, "Failed to capture PayPal payment")
  const MissingFields: Response := Fail(400, "Missing required fields")

  /** The provider reference a PayPal payment is stored under. */
  function PaypalRef(orderId: string): string {
    "paypal_" + orderId
  }

  /** The order id as the template literal `paypal_${orderID}` renders it:
      a string as itself, any other value through `stringify`. */
  function OrderText(j: Json, stringify: Json -> string): (t: string)
    ensures j.JStr? ==> t == j.s
  {
    if j.JStr? then j.s else stringify(j)
  }

  /** The route. `stringify` is the template literal's conversion of a
      non-string order id to text. */
  function Post(s: State, req: Request, stringify: Json -> string, capture: Capture): (out: Outcome)
    ensures req.body.MalformedBody? || (req.body.JsonBody? && req.body.json.JNull?) ==>
      out == Outcome(s, CaptureFailed)
    ensures req.body.JsonBody? && !req.body.json.JNull?
            && !(Truthy(Get(req.body.json, "orderID")) && Truthy(Get(req.body.json, "bookingId"))) ==>
      out == Outcome(s, MissingFields)
    ensures out.state != s ==>
      && out.response == Response(200, CaptureBody(true, None))
      && capture.Captured? && capture.status == Some("COMPLETED") && capture.amount.Some?
      && Get(req.body.json, "bookingId").JStr?
      && var bid := Get(req.body.json, "bookingId").s;
      && bid in s.bookings
      && var sid := PaypalRef(OrderText(Get(req.body.json, "orderID"), stringify));
      && !StripeIdTaken(s, bid, sid)
      && out.state == UpsertPayment(SetBookingStatus(s, bid, Confirmed), bid,
                                    Payment(sid, capture.amount.value, PaymentSucceeded))
    ensures req.body.JsonBody? && !req.body.json.JNull?
            && Truthy(Get(req.body.json, "orderID")) && Truthy(Get(req.body.json, "bookingId")) ==>
      && (capture.CaptureThrew? ==> out == Outcome(s, CaptureFailed))
      && (capture.Captured? && capture.status != Some("COMPLETED") ==>
            out == Outcome(s, Response(200, CaptureBody(false, capture.status))))
      && (capture.Captured? && capture.status == Some("COMPLETED") ==>
            var bookingId := Get(req.body.json, "bookingId");
            var sid := PaypalRef(OrderText(Get(req.body.json, "orderID"), stringify));
            if capture.amount.Some? && bookingId.JStr? && bookingId.s in s.bookings
               && !StripeIdTaken(s, bookingId.s, sid)
            then out == Outcome(UpsertPayment(SetBookingStatus(s, bookingId.s, Confirmed), bookingId.s,
                                              Payment(sid, capture.amount.value, PaymentSucceeded)),
                                Response(200, CaptureBody(true, None)))
            else out == Outcome(s, CaptureFailed))
  {
    if req.body.MalformedBody? then Outcome(s, CaptureFailed)
    else
      var body := req.body.json;
      if body.JNull? then Outcome(s, CaptureFailed)              // destructuring null throws
      else
        var orderId, bookingId := Get(body, "orderID"), Get(body, "bookingId");
        if !Truthy(orderId) || !Truthy(bookingId) then Outcome(s, MissingFields)
        else
          match capture
          case CaptureThrew => Outcome(s, CaptureFailed)
          case Captured(status, amount) =>
            if status != Some("COMPLETED") then Outcome(s, Response(200, CaptureBody(false, status)))
            else if amount.None? || !bookingId.JStr? || bookingId.s !in s.bookings then Outcome(s, CaptureFailed)
            else
              var bid, sid := bookingId.s, PaypalRef(OrderText(orderId, stringify));
              if StripeIdTaken(s, bid, sid) then Outcome(s, CaptureFailed)
              else
                var s1 := SetBookingStatus(s, bid, Confirmed);
                Outcome(UpsertPayment(s1, bid, Payment(sid, amount.value, PaymentSucceeded)),
                        Response(200, CaptureBody(true, None)))
  }

  /** The route trusts the caller: any completed PayPal order confirms any
      existing booking, without a session and whatever the captured amount,
      even one that differs from the booking's price. */
  lemma AnyCompletedOrderConfirms(s: State, orderId: string, bid: Id, stringify: Json -> string, amount: Money)
    requires orderId != "" && bid != "" && bid in s.bookings
    requires !StripeIdTaken(s, bid, "paypal_" + orderId)
    ensures var req := Request(map[], JsonBody(JObject(map["orderID" := JStr(orderId), "bookingId" := JStr(bid)])));
      var out := Post(s, req, stringify, Captured(Some("COMPLETED"), Some(amount)));
      && out.response == Response(200, CaptureBody(true, None))
      && out.state.bookings[bid].status == Confirmed
      && out.state.payments[bid] == Payment("paypal_" + orderId, amount, PaymentSucceeded)
  {
    var body := JObject(map["orderID" := JStr(orderId), "bookingId" := JStr(bid)]);
    assert Get(body, "orderID") == JStr(orderId);
    assert Get(body, "bookingId") == JStr(bid);
  }

  /** The route keeps the store's integrity: the transaction rolls back
      whenever the booking is missing or the reference is taken. */
  lemma PostKeepsValid(s: State, req: Request, stringify: Json -> string, capture: Capture)
    requires Valid(s)
    ensures Valid(Post(s, req, stringify, capture).state)
    ensures SnapshotsKept(s, Post(s, req, stringify, capture).state)
  {
    var out := Post(s, req, stringify, capture);
    if out.state != s {
      var bid := Get(req.body.json, "bookingId").s;
      var s1 := SetBookingStatus(s, bid, Confirmed);
      var p := Payment(PaypalRef(OrderText(Get(req.body.json, "orderID"), stringify)), capture.amount.value,
                       PaymentSucceeded);
      assert StripeIdsUnique(s1) && !StripeIdTaken(s1, bid, p.stripeId);
      UpsertKeepsStripeIdsUnique(s1, bid, p);
      StatusWriteKeepsValid(s, out.state);
    }
  }
}
