/** The application as a sequence of calls to its handlers, each with the
    inputs the world supplies, run one after the other against one store. */
module System {
  import opened Common
  import opened Store
  import opened Http
  import opened AuthGuards
  import opened Validation
  import RateLimit
  import Bookings
  import BookingService
  import BookingsRoute
  import StripeWebhook
  import CreateIntent
  import PaypalCapture
  import Newsletter
  import Register
  import Admin
  import Reviews

  datatype Call =
    | ServiceCall(r: Bookings.Reservation, d: Bookings.Draw)
    | BookingPost(req: Request, allowed: string -> bool, session: Option<Session>, f: Formats, d: Bookings.Draw)
    | WebhookPost(req: Request, allowed: string -> bool, secret: Option<string>, verification: StripeWebhook.Verification)
    | IntentPost(req: Request, allowed: string -> bool, session: Option<Session>, f: Formats,
                 stripeKey: Option<string>, stripe: CreateIntent.Intent)
    | CapturePost(req: Request, stringify: Json -> string, capture: PaypalCapture.Capture)
    | SubscribePost(req: Request, allowed: string -> bool, f: Formats)
    | RegisterPost(req: Request, allowed: string -> bool, f: Formats, hash: string -> string, newId: Id)
    | SetStatus(session: Option<Session>, id: Id, status: string)
    | NewDestination(session: Option<Session>, form: Admin.Form, isUrl: string -> bool, newId: Id)
    | DropDestination(session: Option<Session>, id: Id)
    | NewActivity(session: Option<Session>, form: Admin.Form, parseFloat: string -> Option<Money>, newId: Id)
    | DropActivity(session: Option<Session>, id: Id)
    | ReviewSubmit(session: Option<Session>, form: Reviews.Form, parseInt: string -> Option<int>, rejected: bool)

  /** The store after one call. */
  function Apply(s: State, c: Call): State {
    match c
    case ServiceCall(r, d) => BookingService.CreateBooking(s, r, d).state
    case BookingPost(req, allowed, session, f, d) => BookingsRoute.Post(s, req, allowed, session, f, d).state
    case WebhookPost(req, allowed, secret, v) => StripeWebhook.Post(s, req, allowed, secret, v).state
    case IntentPost(req, allowed, session, f, key, stripe) => CreateIntent.Post(s, req, allowed, session, f, key, stripe).state
    case CapturePost(req, stringify, capture) => PaypalCapture.Post(s, req, stringify, capture).state
    case SubscribePost(req, allowed, f) => Newsletter.Post(s, req, allowed, f).state
    case RegisterPost(req, allowed, f, hash, newId) => Register.Post(s, req, allowed, f, hash, newId).state
    case SetStatus(session, id, status) => Admin.UpdateBookingStatus(s, session, id, status).state
    case NewDestination(session, form, isUrl, newId) => Admin.CreateDestination(s, session, form, isUrl, newId).state
    case DropDestination(session, id) => Admin.DeleteDestination(s, session, id).state
    case NewActivity(session, form, parseFloat, newId) => Admin.CreateActivity(s, session, form, parseFloat, newId).state
    case DropActivity(session, id) => Admin.DeleteActivity(s, session, id).state
    case ReviewSubmit(session, form, parseInt, rejected) => Reviews.SubmitReview(s, session, form, parseInt, rejected).state
  }

  /** The service validates nothing, so its callers must pass a party of at
      least zero; every other handler validates its own input. */
  predicate Admissible(c: Call) {
    c.ServiceCall? ==> c.r.participants >= 0
  }

  function Run(s: State, calls: seq<Call>): State
    decreases |calls|
  {
    if calls == [] then s else Run(Apply(s, calls[0]), calls[1..])
  }

  /** Slots are never removed, their capacity never changes and their
      counters never go down: no handler releases capacity, a cancellation
      included. */
  ghost predicate CountersKept(s: State, s': State) {
    forall id :: id in s.slots ==>
      && id in s'.slots
      && s'.slots[id].capacity == s.slots[id].capacity
      && s'.slots[id].booked >= s.slots[id].booked
  }

  lemma FlowKeepsCounters(s: State, r: Bookings.Reservation, d: Bookings.Draw)
    requires r.participants >= 0
    ensures CountersKept(s, Bookings.Flow(s, r, d).state)
  {
  }

  /** What every handler keeps, stated once for the store it leaves. */
  ghost predicate Keeps(s: State, s': State) {
    Valid(s') && SnapshotsKept(s, s') && CountersKept(s, s')
  }

  lemma ServiceKeeps(s: State, r: Bookings.Reservation, d: Bookings.Draw)
    requires Valid(s) && r.participants >= 0
    ensures Keeps(s, BookingService.CreateBooking(s, r, d).state)
  {
    BookingService.CreateBookingKeepsValid(s, r, d);
    FlowKeepsCounters(s, r, d);
  }

  lemma BookingPostKeeps(s: State, req: Request, allowed: string -> bool, session: Option<Session>, f: Formats,
                         d: Bookings.Draw)
    requires Valid(s)
    ensures Keeps(s, BookingsRoute.Post(s, req, allowed, session, f, d).state)
  {
    BookingsRoute.PostKeepsValid(s, req, allowed, session, f, d);
    if allowed(RateLimit.Identifier(RateLimit.BookingLimit, req)) && SignedIn(session) && req.body.JsonBody?
       && ParseBooking(f, req.body.json).Parsed? {
      var data := ParseBooking(f, req.body.json).data;
      FlowKeepsCounters(s, Bookings.Reservation(data.activityId, data.slotId, data.participants,
                                                BookingsRoute.BookingUser(session)), d);
    }
  }

  lemma WebhookKeeps(s: State, req: Request, allowed: string -> bool, secret: Option<string>,
                     v: StripeWebhook.Verification)
    requires Valid(s)
    ensures Keeps(s, StripeWebhook.Post(s, req, allowed, secret, v).state)
  {
    var out := StripeWebhook.Post(s, req, allowed, secret, v);
    if out.state != s {
      assert v.Verified? && out.state == StripeWebhook.Handle(s, v.event).state;
      StripeWebhook.HandleKeepsValid(s, v.event);
      assert out.state.slots == s.slots;
    }
  }

  lemma IntentKeeps(s: State, req: Request, allowed: string -> bool, session: Option<Session>, f: Formats,
                    key: Option<string>, stripe: CreateIntent.Intent)
    requires Valid(s)
    ensures Keeps(s, CreateIntent.Post(s, req, allowed, session, f, key, stripe).state)
  {
    CreateIntent.PostKeepsValid(s, req, allowed, session, f, key, stripe);
  }

  lemma CaptureKeeps(s: State, req: Request, stringify: Json -> string, capture: PaypalCapture.Capture)
    requires Valid(s)
    ensures Keeps(s, PaypalCapture.Post(s, req, stringify, capture).state)
  {
    PaypalCapture.PostKeepsValid(s, req, stringify, capture);
  }

  lemma SubscribeKeeps(s: State, req: Request, allowed: string -> bool, f: Formats)
    requires Valid(s)
    ensures Keeps(s, Newsletter.Post(s, req, allowed, f).state)
  {
    Newsletter.PostKeepsValid(s, req, allowed, f);
  }

  lemma RegisterKeeps(s: State, req: Request, allowed: string -> bool, f: Formats, hash: string -> string, newId: Id)
    requires Valid(s)
    ensures Keeps(s, Register.Post(s, req, allowed, f, hash, newId).state)
  {
    Register.PostKeepsValid(s, req, allowed, f, hash, newId);
  }

  lemma SetStatusKeeps(s: State, session: Option<Session>, id: Id, status: string)
    requires Valid(s)
    ensures Keeps(s, Admin.UpdateBookingStatus(s, session, id, status).state)
  {
    Admin.UpdateBookingStatusKeepsValid(s, session, id, status);
  }

  lemma NewDestinationKeeps(s: State, session: Option<Session>, form: Admin.Form, isUrl: string -> bool, newId: Id)
    requires Valid(s)
    ensures Keeps(s, Admin.CreateDestination(s, session, form, isUrl, newId).state)
  {
    Admin.CreateDestinationKeepsValid(s, session, form, isUrl, newId);
  }

  lemma DropDestinationKeeps(s: State, session: Option<Session>, id: Id)
    requires Valid(s)
    ensures Keeps(s, Admin.DeleteDestination(s, session, id).state)
  {
    Admin.DeleteDestinationKeepsValid(s, session, id);
  }

  lemma NewActivityKeeps(s: State, session: Option<Session>, form: Admin.Form, parseFloat: string -> Option<Money>,
                         newId: Id)
    requires Valid(s)
    ensures Keeps(s, Admin.CreateActivity(s, session, form, parseFloat, newId).state)
  {
    Admin.CreateActivityKeepsValid(s, session, form, parseFloat, newId);
  }

  lemma DropActivityKeeps(s: State, session: Option<Session>, id: Id)
    requires Valid(s)
    ensures Keeps(s, Admin.DeleteActivity(s, session, id).state)
  {
    Admin.DeleteActivityKeepsValid(s, session, id);
  }

  lemma ReviewKeeps(s: State, session: Option<Session>, form: Reviews.Form, parseInt: string -> Option<int>,
                    rejected: bool)
    requires Valid(s)
    ensures Keeps(s, Reviews.SubmitReview(s, session, form, parseInt, rejected).state)
  {
    Reviews.SubmitKeepsValid(s, session, form, parseInt, rejected);
  }

  /** One admissible call keeps the store's integrity, every booking's
      snapshot and every slot's counter. */
  lemma ApplyKeepsValid(s: State, c: Call)
    requires Valid(s) && Admissible(c)
    ensures Keeps(s, Apply(s, c))
  {
    match c
    case ServiceCall(r, d) => ServiceKeeps(s, r, d);
    case BookingPost(req, allowed, session, f, d) => BookingPostKeeps(s, req, allowed, session, f, d);
    case WebhookPost(req, allowed, secret, v) => WebhookKeeps(s, req, allowed, secret, v);
    case IntentPost(req, allowed, session, f, key, stripe) => IntentKeeps(s, req, allowed, session, f, key, stripe);
    case CapturePost(req, stringify, capture) => CaptureKeeps(s, req, stringify, capture);
    case SubscribePost(req, allowed, f) => SubscribeKeeps(s, req, allowed, f);
    case RegisterPost(req, allowed, f, hash, newId) => RegisterKeeps(s, req, allowed, f, hash, newId);
    case SetStatus(session, id, status) => SetStatusKeeps(s, session, id, status);
    case NewDestination(session, form, isUrl, newId) => NewDestinationKeeps(s, session, form, isUrl, newId);
    case DropDestination(session, id) => DropDestinationKeeps(s, session, id);
    case NewActivity(session, form, parseFloat, newId) => NewActivityKeeps(s, session, form, parseFloat, newId);
    case DropActivity(session, id) => DropActivityKeeps(s, session, id);
    case ReviewSubmit(session, form, parseInt, rejected) => ReviewKeeps(s, session, form, parseInt, rejected);
  }

  lemma SnapshotsKeptTransitive(s1: State, s2: State, s3: State)
    requires SnapshotsKept(s1, s2) && SnapshotsKept(s2, s3)
    ensures SnapshotsKept(s1, s3)
  {
  }

  lemma CountersKeptTransitive(s1: State, s2: State, s3: State)
    requires CountersKept(s1, s2) && CountersKept(s2, s3)
    ensures CountersKept(s1, s3)
  {
  }

  /** Executed one after another, admissible calls keep every slot within
      its capacity and never negative, provider references and emails
      unique and foreign keys intact; no booking's price, party, owner or
      reference ever changes, and no slot's counter ever goes down. */
  lemma {:induction false} RunKeepsValid(s: State, calls: seq<Call>)
    requires Valid(s)
    requires forall i :: 0 <= i < |calls| ==> Admissible(calls[i])
    ensures Valid(Run(s, calls))
    ensures SnapshotsKept(s, Run(s, calls))
    ensures CountersKept(s, Run(s, calls))
    decreases |calls|
  {
    if calls != [] {
      var s1 := Apply(s, calls[0]);
      ApplyKeepsValid(s, calls[0]);
      assert Valid(s1) && SnapshotsKept(s, s1) && CountersKept(s, s1);
      assert forall i :: 0 <= i < |calls[1..]| ==> Admissible(calls[1..][i]) by {
        forall i | 0 <= i < |calls[1..]| ensures Admissible(calls[1..][i]) {
          assert calls[1..][i] == calls[i + 1];
        }
      }
      RunKeepsValid(s1, calls[1..]);
      SnapshotsKeptTransitive(s, s1, Run(s1, calls[1..]));
      CountersKeptTransitive(s, s1, Run(s1, calls[1..]));
    }
  }
}
