# Holiday booking platform: the booking and payment state layer in Dafny

This project models the server side of a holiday-booking web application:
- the booking service and the bookings route, which reserve slot capacity and create pending bookings;
- the Stripe webhook, the Stripe payment-intent route and the PayPal capture route, which create and settle payments;
- the administrator's server actions, the review action, newsletter subscription and user registration;
- the request schemas and `validateRequest`, the session guards and the rate-limit middleware in front of them.

The database is one immutable record of finite maps (`Store.State`). Every handler is a pure function. It takes the store, the request and whatever the outside world answered, and returns the new store and the response (`Http.Outcome`, or `Http.ActionOutcome` for a server action). The outside world's answers are:
- the rate limiter's verdict;
- the session;
- Stripe's signature check and intent;
- PayPal's capture;
- the password hash;
- `Math.random`, `Date.now` and the ids the store assigns.

Each handler's contract states:
- its guard order;
- its error answers, and that these leave the store unchanged;
- exactly what a success writes.

Separate lemmas relate the handlers to each other and to the store's integrity, `Store.Valid`. That predicate holds when:
- no slot is oversold;
- no slot's counter is negative;
- provider references are unique;
- user emails are unique;
- every activity's destination and category exist, and every slot's activity exists;
- every booking's user, activity and slot exist, and every payment's booking exists.

`System.RunKeepsValid` proves, by induction over any sequence of handler calls, three facts:
- the integrity holds after every call;
- no booking's price, party, owner or reference ever changes;
- no slot's counter ever goes down.

The model follows the code, including where the code differs from the behaviour one would design for a booking system. The proofs show:
- The capacity check and the counter update are separate writes, and the booking is inserted first. If the update throws, the client gets 500 while the pending booking stays, uncounted (`BookingsRoute.PostIncrementFailure`).
- Nothing checks that the slot belongs to the requested activity (`Bookings.ForeignSlotAccepted`).
- The service does not check the party size, so a negative party lowers the counter (`Bookings.NegativePartyLowersCounter`). The route's schema keeps parties between 1 and 20.
- An administrator may set any status over any other. Cancelling releases no capacity (`Admin.AnyTransitionAllowed`, `System.CountersKept`).
- The webhook confirms whatever booking the event names, including a cancelled one. A late failure event marks the payment failed but leaves the booking confirmed (`StripeWebhook.EventsAreNotOrdered`). A repeated success event changes nothing more but asks for the confirmation email again (`StripeWebhook.HandleIdempotent`).
- A second payment intent for a paid booking puts its payment back to pending (`CreateIntent.RetryResetsPaidPayment`).
- The PayPal capture route has no session check and no rate limit. Any completed order confirms any existing booking, whatever amount was captured (`PaypalCapture.AnyCompletedOrderConfirms`).

Three guarantees a booking system would usually give do not hold in the code:
- The reservation is not atomic. The booking insert and the counter update are separate writes (`BookingsRoute.PostIncrementFailure`).
- Status changes need not move forward. Any status may follow any other (`Admin.AnyTransitionAllowed`).
- The confirmation email is not sent only once. A repeated success event asks for it again (`StripeWebhook.HandleIdempotent`).

## Model

| member | source | states |
|---|---|---|
| Common.TakeUntil | src/lib/rate-limit-middleware.ts:7 | `split(sep)[0]`: the longest prefix without the separator, ending where the first separator stands |
| Common.TakeUntilUnique | src/lib/rate-limit-middleware.ts:7 | any prefix without the separator that ends at a separator or at the end is that first piece |
| Store.SetStatusByStripeId | src/app/api/webhooks/stripe/route.ts:41-44 | the update by provider reference changes the status of the payments that carry it and of no other payment, and no other table |
| Store.SetStatusByStripeIdTouchesOne | src/app/api/webhooks/stripe/route.ts:41-44 | under the unique column, that update changes exactly one payment |
| Store.SetBookingStatus | src/app/api/webhooks/stripe/route.ts:45-48 | the update by booking id changes that booking's status only; every other booking and table stays |
| Store.UpsertPayment | src/app/api/payments/create-intent/route.ts:59-72 | the upsert keyed by booking id leaves exactly one payment for the booking, the new one, whether or not one existed, and leaves every other payment alone |
| Store.UpsertKeepsStripeIdsUnique | src/app/api/payments/create-intent/route.ts:59-72 | an upsert whose reference no other booking's payment carries keeps references unique |
| Store.SetStatusKeepsStripeIdsUnique | src/app/api/webhooks/stripe/route.ts:70-77 | status updates keep references unique |
| Store.StatusWriteKeepsValid | src/app/api/webhooks/stripe/route.ts:40-75 | a write that changes only booking statuses and payments keeps the integrity and every snapshot, as long as references stay unique and every payment belongs to a booking |
| AuthGuards.RequireAuth | src/lib/auth-guards.ts:5-16 | 401 'Authentication required' exactly when the session or its user is missing, otherwise null |
| AuthGuards.RequireRole | src/lib/auth-guards.ts:18-32 | the 401 answer first; then null exactly when the role equals the required one and is non-empty, otherwise 403 'Insufficient permissions' |
| AuthGuards.RequireEmptyRoleRefusesAll | src/lib/auth-guards.ts:24 | an empty required role refuses every session, because an empty role is falsy |
| AuthGuards.RoleImpliesAuth | src/lib/auth-guards.ts:19-20 | passing the role guard implies passing the authentication guard |
| AuthGuards.AdminMatchesRequireRole | src/app/actions/admin.ts:10-16 | the admin check lets a session through exactly when the role guard for "ADMIN" does |
| RateLimit.KindName | src/lib/rate-limit-middleware.ts:28-34 | the limiter kinds' names, each non-empty and free of ':' |
| RateLimit.ClientIp | src/lib/rate-limit-middleware.ts:6-9 | the text before the first comma of a non-empty `x-forwarded-for`; otherwise a non-empty `x-real-ip`; otherwise "unknown" |
| RateLimit.IdentifierSplits | src/lib/rate-limit-middleware.ts:11 | the key `kind:ip` splits back at its first ':' into the kind and the address |
| RateLimit.IdentifierInjective | src/lib/rate-limit-middleware.ts:11 | equal keys come from the same kind and the same address |
| RateLimit.Check | src/lib/rate-limit-middleware.ts:12-24 | null exactly when the limiter allows the key, otherwise 429 'Too many requests' |
| Validation.TypeIssue | src/lib/validation.ts:5-70 | 'Required' for a missing value, otherwise 'Expected <type>, received <actual type>'; never empty |
| Validation.Search | src/lib/validation.ts:16-19 | the unanchored character-class test holds exactly when some character is in the class |
| Validation.FullMatch | src/lib/validation.ts:9 | the anchored `^[...]+$` test holds exactly when the text is non-empty and every character is in the class |
| Validation.NameIssues | src/lib/validation.ts:6-9 | no issue exactly when the name has 2 to 50 characters, each an ASCII letter, a whitespace, '-' or an apostrophe; the first issue has a message |
| Validation.EmailIssues | src/lib/validation.ts:10-12 | no issue exactly when the address is well-formed and at most 255 characters |
| Validation.StrongPasswordIssues | src/lib/validation.ts:13-19 | no issue exactly when the password has 12 to 128 characters and an upper-case letter, a lower-case letter, a digit and a character that is none of these |
| Validation.LoginPasswordIssues | src/lib/validation.ts:26-28 | no issue exactly when the password has 1 to 128 characters |
| Validation.ParticipantsIssues | src/lib/validation.ts:38-41 | no issue exactly when the value is an integer from 1 to 20; a fraction's first issue is 'Participants must be an integer'; an integer below 1 or above 20 gets only the matching bound message; a non-number gets only the type message |
| Validation.FieldIssues | src/lib/validation.ts:5-70 | a field value has no issue exactly when its rule accepts it |
| Validation.EntryIssues | src/lib/validation.ts:5-70 | the issues of one key of the body are empty exactly when the key's value is accepted |
| Validation.FieldsIssues | src/lib/validation.ts:5-70 | an object has no issue exactly when every field of the shape is accepted |
| Validation.FirstIssueOfFirstFailure | src/lib/validation.ts:83 | the first issue reported is the first issue of the first field, in shape order, that is rejected |
| Validation.SchemaIssues | src/lib/validation.ts:78 | no issue exactly when the body is an object whose fields are all accepted; a non-object gets one type issue |
| Validation.ParseRegister | src/lib/validation.ts:5-20 | registration data is parsed exactly when the name, email and password rules hold, and carries those three strings |
| Validation.ParseLogin | src/lib/validation.ts:22-29 | login data is parsed exactly when the email and login-password rules hold |
| Validation.ParseBooking | src/lib/validation.ts:32-43 | booking data is parsed exactly when both ids are UUIDs and the party is an integer from 1 to 20 |
| Validation.ParseSubscribe | src/lib/validation.ts:45-51 | the newsletter email is parsed exactly when it is well-formed and at most 255 characters |
| Validation.ParseBookingId | src/lib/validation.ts:53-64 | the payment and PayPal order schemas accept exactly a UUID booking id |
| Validation.ParseCaptureOrder | src/lib/validation.ts:66-69 | the capture schema accepts exactly a non-empty order id |
| Validation.ValidateRequest | src/lib/validation.ts:73-91 | success with the data and no error, or failure with no data and the first issue's message, or 'Invalid input' when that message is missing or empty |
| Validation.FirstIssueReported | src/lib/validation.ts:80-84 | every schema rejection reports the first issue of the first failing field, or the type issue of a non-object body; the 'Invalid input' fallback is never reached |
| Validation.FractionReportsInteger | src/lib/validation.ts:38-39 | with both ids valid, any fractional party is reported as 'Participants must be an integer' |
| Reference.Substring | src/lib/services/booking.ts:47 | `substring` with the ends clamped: within range it is the slice between them |
| Reference.ToUpper | src/lib/services/booking.ts:47 | `toUpperCase` keeps the length and upper-cases each ASCII letter in place |
| Reference.Decimal | src/lib/services/booking.ts:47 | the clock's decimal text is at least one digit and only digits |
| Reference.DecimalValue | src/lib/services/booking.ts:47 | the decimal text reads back as the number and has no more digits than needed |
| Reference.Last | src/lib/services/booking.ts:47 | `slice(-k)`: the last k characters, or all of a shorter text |
| Reference.LastDigitsValue | src/lib/services/booking.ts:47 | the last k digits of the clock denote the clock modulo 10^k |
| Reference.CodeShape | src/lib/services/booking.ts:47 | the random code has at most six characters, each an upper-case base-36 digit |
| Reference.ReferenceParts | src/lib/services/booking.ts:47 | a reference `HS-<code>-<time>` splits back into its code and its time suffix; the suffix has 1 to 4 digits and denotes the clock modulo 10000 |
| Bookings.Placed | src/lib/services/booking.ts:49-59 | the inserted booking copies the input, is priced at the activity's price times the party, carries the reference and is PENDING |
| Bookings.Flow | src/lib/services/booking.ts:24-64 | not found exactly when the activity or slot is missing; full exactly when the party does not fit; otherwise the insert and then the increment. Nothing is written on a refusal. A failed increment leaves the booking and no count. A reservation adds exactly the new booking and raises exactly its slot's counter by the party |
| Bookings.FlowKeepsCapacity | src/lib/services/booking.ts:38-45 | executed alone, the capacity check keeps every slot within its capacity |
| Bookings.FlowKeepsNonNegative | src/lib/services/booking.ts:61-64 | with a party of at least zero no counter goes negative |
| Bookings.IncrementFailureKeepsBooking | src/lib/services/booking.ts:49-64 | when the slot update throws after the insert, the pending booking stays and the slots are unchanged |
| Bookings.NegativePartyLowersCounter | src/lib/services/booking.ts:38-64 | an unvalidated negative party passes the capacity check and lowers the counter |
| Bookings.ForeignSlotAccepted | src/lib/services/booking.ts:24-45 | a slot of another activity is booked just the same |
| Bookings.FlowKeepsTheRest | src/lib/services/booking.ts:49-64 | every existing booking's snapshot is kept; payments, users and activities are unchanged and no slot appears or disappears; unique references, unique emails and the foreign keys carry over |
| Bookings.FlowKeepsValid | src/lib/services/booking.ts:24-64 | a reservation with a party of at least zero keeps the store's integrity |
| Bookings.PlacedReference | src/lib/services/booking.ts:47-59 | a new booking's reference reads back into the random code and the clock's last four digits |
| BookingService.CreateBooking | src/lib/services/booking.ts:19-71 | NOT_FOUND 404 exactly when a lookup fails; CONFLICT 400 exactly when the party does not fit; an exception exactly when the insert or the update throws; on success the booking, its id and `/checkout/<id>`, the booking PENDING at the activity's price times the party, the slot's counter raised by the party, and nothing else written |
| BookingService.RedirectNamesBooking | src/lib/services/booking.ts:66-70 | the redirect is `/checkout/` followed by the new booking's id, which is in the store |
| BookingService.CreateBookingKeepsValid | src/lib/services/booking.ts:19-71 | the service keeps the store's integrity and every booking's snapshot for parties of at least zero |
| BookingsRoute.BookingUser | src/app/api/bookings/route.ts:36 | the session user's id when it is non-empty, otherwise 'anonymous' |
| BookingsRoute.StepResponse | src/app/api/bookings/route.ts:44-87 | 200 with the booking and its redirect exactly for a reservation; 404 'Activity or Slot not found' for a missing row, 400 'Not enough capacity available' for a full slot, 500 'Failed to create booking' when the insert or the increment throws |
| BookingsRoute.Post | src/app/api/bookings/route.ts:10-88 | 429, then 401, then 500 for an unreadable body, then 400 with the first issue, each with the store unchanged; no failure touches a slot; a 200 booking is stored, PENDING, owned by the session user or 'anonymous', with a party from 1 to 20, priced at the activity's price times the party, its slot's counter raised by the party, and nothing else written |
| BookingsRoute.PostAgreesWithService | src/app/api/bookings/route.ts:39-87 | past the guards and the schema, the route writes what the service writes and answers with its status and message, or 500 where the service throws |
| BookingsRoute.PostIncrementFailure | src/app/api/bookings/route.ts:57-87 | when the slot update throws, the answer is 500 'Failed to create booking' while the new pending booking stays and no slot changes |
| BookingsRoute.PostKeepsValid | src/app/api/bookings/route.ts:10-88 | the route keeps the store's integrity and every booking's snapshot |
| BookingsRoute.EmptyIdBooksAsAnonymous | src/app/api/bookings/route.ts:36-67 | a session user without an id books as 'anonymous', and gets 500 when that user is not in the store |
| StripeWebhook.Confirmation | src/app/api/webhooks/stripe/route.ts:53-66 | at most one email, and only for a found booking whose user has an address; it carries the reference, title, price and start time |
| StripeWebhook.ConfirmationSentIffAddress | src/app/api/webhooks/stripe/route.ts:58 | under the foreign keys, the email is requested exactly when the booking exists and its user's address is non-empty |
| StripeWebhook.Handle | src/app/api/webhooks/stripe/route.ts:32-83 | a success with a booking id sets its payments SUCCEEDED and the booking CONFIRMED, or writes nothing and escapes as a 500 when either row is missing; a failure sets its payments FAILED and touches no booking; other events and a success without a booking id write nothing |
| StripeWebhook.Post | src/app/api/webhooks/stripe/route.ts:10-30 | 429 first; 400 'Missing signature or secret'; 400 'Webhook Error: <message>' on a bad signature; otherwise the event's handling |
| StripeWebhook.OnlyVerifiedEventsWrite | src/app/api/webhooks/stripe/route.ts:11-81 | a write implies the limiter allowed the request, signature and secret were present, the event verified and it was one of the two handled kinds |
| StripeWebhook.HandleIdempotent | src/app/api/webhooks/stripe/route.ts:34-66 | handling an event twice leaves the store as once, and a repeated success requests the same email again |
| StripeWebhook.EventsAreNotOrdered | src/app/api/webhooks/stripe/route.ts:34-77 | a success confirms a cancelled booking; a later failure leaves it confirmed and marks the payment FAILED |
| StripeWebhook.HandleKeepsValid | src/app/api/webhooks/stripe/route.ts:32-83 | the webhook keeps the store's integrity and every booking's snapshot |
| StripeWebhook.SucceededTouchesOnePayment | src/app/api/webhooks/stripe/route.ts:41-44 | under the unique column a success changes exactly the payment carrying the intent's id |
| CreateIntent.Post | src/app/api/payments/create-intent/route.ts:8-83 | 429 and 401 first with the store unchanged; only a 200 writes. Stripe is asked for the booking's price in cents with its id and reference, and only once the booking and the key exist. A 200 carries the client secret, and the booking's payment becomes that intent, PENDING, for the booking's price. Once the guards pass, for a stored booking with the key set and an intent created, the answer is 200 exactly when no other booking's payment already carries the intent's id |
| CreateIntent.PostRefusals | src/app/api/payments/create-intent/route.ts:19-82 | 400 with the first issue, 404 'Booking not found', 500 for a missing key and 500 with Stripe's message, each with no payment written; with an intent created, 200 exactly when the intent id is not another booking's, and otherwise a 500 store failure with no change |
| CreateIntent.PostKeepsValid | src/app/api/payments/create-intent/route.ts:29-76 | the route keeps the store's integrity and every booking's snapshot, and leaves the bookings table unchanged |
| CreateIntent.RetryResetsPaidPayment | src/app/api/payments/create-intent/route.ts:59-72 | a new intent for a paid, confirmed booking puts its payment back to PENDING under the new id while the booking stays confirmed |
| PaypalCapture.OrderText | src/app/api/payments/paypal/capture-order/route.ts:25-31 | a string order id is rendered as itself in `paypal_${orderID}` |
| PaypalCapture.Post | src/app/api/payments/paypal/capture-order/route.ts:5-47 | 500 for an unreadable or null body; 400 'Missing required fields' unless both fields are truthy; once both fields are truthy, a thrown capture answers 500, any non-COMPLETED status answers 200 `success: false` with its status, and a COMPLETED capture answers `success: true` with the write exactly when the amount is present, the booking id is a stored booking's and the reference is unused, otherwise 500, in each refusal writing nothing; a write means a completed capture with an amount for a stored booking and an unused reference, and it confirms the booking and upserts its payment `paypal_<order>` SUCCEEDED for the captured amount, where a string order id is used as it is |
| PaypalCapture.AnyCompletedOrderConfirms | src/app/api/payments/paypal/capture-order/route.ts:5-38 | with no session, any completed order confirms any existing booking and records payment `"paypal_" + orderID`, SUCCEEDED, for whatever amount was captured |
| PaypalCapture.PostKeepsValid | src/app/api/payments/paypal/capture-order/route.ts:15-36 | the transaction keeps the store's integrity and every booking's snapshot |
| Admin.CheckAdmin | src/app/actions/admin.ts:10-16 | the action proceeds exactly for an "ADMIN" session, otherwise it throws 'Unauthorized' |
| Admin.ParseStatus | src/app/actions/admin.ts:75 | only the three status names parse, each to the status it names |
| Admin.ParseStatusName | src/app/actions/admin.ts:75 | every status's name parses back to it |
| Admin.UpdateBookingStatus | src/app/actions/admin.ts:77-96 | 'Unauthorized', then 'Invalid status', then 'Failed to update booking' for a missing booking, each with no change; success writes the status over any current one and changes nothing else |
| Admin.AnyTransitionAllowed | src/app/actions/admin.ts:85-89 | any status goes to any other, CANCELLED to PENDING included, with slots and payments untouched |
| Admin.UpdateBookingStatusKeepsValid | src/app/actions/admin.ts:77-96 | status changes keep the store's integrity and every booking's snapshot |
| Admin.CreateDestination | src/app/actions/admin.ts:37-62 | 'Unauthorized'; 'Invalid data' unless the name has 2 characters, the description is present and the image is empty or a URL; for an admin with a valid form, success exactly when the id is free, and 'Failed to create destination' on a taken id; success adds exactly that destination |
| Admin.MissingDescriptionRefused | src/app/actions/admin.ts:18-22 | a form without a description is refused although the schema calls it optional, because a missing form field reads as null |
| Admin.DeleteDestination | src/app/actions/admin.ts:64-73 | success exactly for an admin deleting an existing destination no activity refers to; otherwise 'Failed to delete destination' and no change |
| Admin.Field | src/app/actions/admin.ts:101-107 | `formData.get`: the field's text, or null when missing |
| Admin.ListField | src/app/actions/admin.ts:108-111 | a missing or empty list field becomes '[]', any other text is kept |
| Admin.ReadActivityForm | src/app/actions/admin.ts:101-112 | a present price field's value is its parse, and a missing one reads as NaN; the four list fields are never empty |
| Admin.CreateActivity | src/app/actions/admin.ts:98-132 | 'Unauthorized', then 'Invalid activity data' unless title has 5 characters, description 10, price is positive, duration 2 and both ids 1; for an admin with a valid form, success exactly when the insert is not refused, and 'Failed to create activity' with no change when a taken id or a missing destination or category refuses it; success adds exactly that activity |
| Admin.ListFieldsDefault | src/app/actions/admin.ts:108 | an activity created without images stores '[]' |
| Admin.DeleteActivity | src/app/actions/admin.ts:134-144 | success exactly for an admin deleting an existing activity no slot, booking or review refers to; otherwise 'Failed to delete activity' and no change |
| Admin.CreateDestinationKeepsValid | src/app/actions/admin.ts:37-62 | creating a destination keeps the store's integrity |
| Admin.CreateActivityKeepsValid | src/app/actions/admin.ts:98-132 | creating an activity keeps the store's integrity |
| Admin.DeleteDestinationKeepsValid | src/app/actions/admin.ts:64-73 | deleting a destination keeps the store's integrity, including that every activity's destination exists, because a destination an activity uses is not deleted |
| Admin.DeleteActivityKeepsValid | src/app/actions/admin.ts:134-144 | deleting only an unreferenced activity keeps the foreign keys and every booking |
| Reviews.ReadReviewForm | src/app/actions/reviews.ts:22-26 | the form's activity id and comment, or null when missing; a present rating field's value is its integer parse, and a missing one reads as none |
| Reviews.SubmitReview | src/app/actions/reviews.ts:15-62 | the login message, then the schema message, then the booking-gate message, each with no change; past those, success exactly when the store accepts the insert, otherwise 'Failed to submit review. Maybe you already reviewed this?' with no change; success means a confirmed booking of the activity by the user and appends exactly that review |
| Reviews.OnlyConfirmedBookingsQualify | src/app/actions/reviews.ts:34-44 | when the user's bookings of the activity are all pending or cancelled, the review is refused |
| Reviews.SubmitAppendsOne | src/app/actions/reviews.ts:47-54 | a success appends one review with the user, the activity and a rating from 1 to 5, keeping the earlier reviews in order and every other table |
| Reviews.SubmitKeepsValid | src/app/actions/reviews.ts:15-62 | reviewing keeps the store's integrity |
| Newsletter.Post | src/app/api/newsletter/subscribe/route.ts:6-39 | 429; 500 for an unreadable body; 400 with the first issue; 200 'Already subscribed' with no change; 201 'Successfully subscribed' adding the address |
| Newsletter.PostOnlyAdds | src/app/api/newsletter/subscribe/route.ts:22-34 | the subscriber set only grows, by at most one address, and nothing else changes |
| Newsletter.PostIdempotent | src/app/api/newsletter/subscribe/route.ts:22-34 | subscribing twice leaves the set subscribing once leaves, and the second answer is 'Already subscribed' |
| Newsletter.PostKeepsValid | src/app/api/newsletter/subscribe/route.ts:6-39 | subscribing keeps the store's integrity |
| Register.Post | src/app/api/auth/register/route.ts:6-69 | 429; 500 for an unreadable body; 400 with the first issue; 400 'User with this email already exists'; for a valid registration with an unused email, 201 exactly when the store accepts the new id, otherwise 500; only a 201 writes, adding a user with the name, email and hashed password and answering with id, name and email only |
| Register.PostKeepsEmailsUnique | src/app/api/auth/register/route.ts:27-49 | sequential registrations keep user emails unique |
| Register.CreatedAnswerMatchesStore | src/app/api/auth/register/route.ts:39-62 | the 201 answer's id, name and email are the stored user's, and the stored password is the hash of the submitted one |
| Register.SecondRegistrationRefused | src/app/api/auth/register/route.ts:27-36 | registering the same request again is refused with no change |
| Register.PostKeepsValid | src/app/api/auth/register/route.ts:6-69 | registration keeps the store's integrity |
| System.FlowKeepsCounters | src/lib/services/booking.ts:61-64 | a reservation with a party of at least zero never lowers a counter nor changes a capacity |
| System.ApplyKeepsValid | src/lib/services/booking.ts:19-71 | any one admissible handler call keeps the integrity, the snapshots and the counters |
| System.RunKeepsValid | src/app/api/bookings/route.ts:10-88 | any sequence of admissible handler calls keeps every slot within capacity and non-negative, references and emails unique and foreign keys intact; no booking snapshot changes and no counter goes down |
| Scenarios.SixFillTheSlot | src/lib/services/booking.ts:24-64 | with the seeded guest user and the seeded six-seat Traditional Tea Ceremony, a party of six is reserved at six times the price and fills the slot; a further party of one is then refused as full and writes nothing |
| Scenarios.Booked | src/lib/services/booking.ts:46-64 | the guest's party of six leaves one pending booking of the ceremony at 27000 cents on a stored slot, with users, activities and payments untouched |
| Scenarios.Paid | src/app/api/webhooks/stripe/route.ts:32-83 | once the intent's payment is recorded, Stripe's success confirms that booking, marks the payment succeeded and sends one mail to the guest's address |
| Scenarios.Reviewed | src/app/actions/reviews.ts:15-62 | a signed-in guest with a confirmed booking of the ceremony gets a well-formed review accepted |
| Scenarios.BookPayReview | src/app/api/webhooks/stripe/route.ts:32-83 | the seeded guest books, the intent's payment is recorded, Stripe's success confirms the booking and pays the payment, one confirmation goes to the guest's address, and the review gate then accepts a review of that activity |

## Left out

- Concurrency: the model runs one handler at a time. Two concurrent requests can both pass the capacity check before either increments, and the model claims no atomicity or locking for that pair. A slot update that throws after the insert is an input (`incrementFails`), not a model of a race.
- Floating point: money is an integer number of cents. `price * participants` is exact. `Math.round(totalPrice * 100)` is the price itself (`CreateIntent.AmountCents`). `parseFloat` of the admin price and of the PayPal amount is an input that answers in cents. `toFixed` in the email is not modelled.
- String lengths count characters, not UTF-16 code units as the validation library does. The two agree on the Basic Multilingual Plane.
- The syntax of emails, UUIDs and URLs is left abstract (`Validation.Formats`), and so is the integer parse of the review rating.
- Messages of store exceptions are not modelled. The create-intent route answers a refused upsert with the store's message, shown as `StoreFailureBody`. An exception that escapes a route is `UncaughtBody` with status 500.
- What the store refuses: an insert is refused on a taken id or a missing referenced row. A delete is refused while rows still refer to it, which is the store's default for required relations; the database schema is not part of this model. A review insert can also be refused for a reason of the store's own (`rejected`).
- `StripeWebhook.Confirmation`: records the request to send the email. The mail service, its API key check and its delivery errors are not modelled.
- The 429 response's rate-limit headers, and the limiter's sliding window in a remote store, are left out; the limiter is its verdict.
- The session is looked up twice by the bookings route and by `requireRole`. Within one request the model uses one session.
- `emailVerified` set at registration is not stored in the model.
- `getAuthenticatedUser` in `src/lib/auth-guards.ts` only forwards to the session lookup.
- The PayPal create-order route only reads and calls PayPal, so it is not modelled; its schema is (`Validation.ParseBookingId`).
- JSON values are modelled only as far as the handlers read them. Every non-integer number is one `JFrac` carrying its floor. Arrays are opaque, and number and boolean fields matter only for their truthiness or type.
- `PaypalCapture.Post`: a string order id is rendered as itself (`PaypalCapture.OrderText`). A non-string order id is turned into text by the input `stringify`, the template literal's conversion, so no claim is made about how it is rendered.
- Booking reference uniqueness: the model does not treat a reference collision as a store refusal (`Bookings.InsertRejected`). If the database made `bookingReference` unique, a colliding reference would throw and the route would answer 500 where the model reserves. The database schema is not part of this model.
- The validation messages "Required" and "Expected <type>, received <type>" (`Validation.TypeIssue`) are the wording of major version 3 of the validation library (zod). The package manifest is not part of this model, so that version is assumed.
- UI components, configuration, the generative-AI helpers and the seed script are not part of this model.
