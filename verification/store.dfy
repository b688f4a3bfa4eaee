/** The relational store as one immutable record of finite maps, with the
    entity records the handlers read and write, the integrity properties the
    handlers are proved to keep, and the keyed writes they share. */
module Store {
  import opened Common

  datatype BookingStatus = Pending | Confirmed | Cancelled

  datatype PaymentStatus = PaymentPending | PaymentSucceeded | PaymentFailed

  /** Money is an integer number of cents. */
  type Money = int

  datatype Activity = Activity(
    title: string,
    description: string,
    price: Money,
    duration: string,
    destinationId: Id,
    categoryId: Id,
    images: string,      // JSON-serialised array, '[]' when empty
    included: string,
    excluded: string,
    itinerary: string)

  datatype Slot = Slot(activityId: Id, startTime: int, endTime: int, capacity: int, booked: int)

  datatype Booking = Booking(
    userId: Id,
    activityId: Id,
    slotId: Id,
    participants: int,
    totalPrice: Money,
    reference: string,
    status: BookingStatus)

  /** One payment attempt; the store keys payments by booking id. `stripeId`
      also carries PayPal references, prefixed `paypal_`. */
  datatype Payment = Payment(stripeId: string, amount: Money, status: PaymentStatus)

  datatype Review = Review(userId: Id, activityId: Id, rating: int, comment: string)

  /** `password` is the stored hash; seeded users have none. */
  datatype User = User(name: string, email: string, password: Option<string>)

  datatype Destination = Destination(name: string, description: string, image: string)

  datatype State = State(
    activities: map<Id, Activity>,
    slots: map<Id, Slot>,
    bookings: map<Id, Booking>,
    payments: map<Id, Payment>,    // keyed by booking id
    reviews: seq<Review>,
    subscribers: set<string>,
    users: map<Id, User>,
    destinations: map<Id, Destination>,
    categories: set<Id>)

  // ---------------------------------------------------------------------
  // Integrity properties

  /** No slot is oversold. */
  ghost predicate WithinCapacity(s: State) {
    forall id :: id in s.slots ==> s.slots[id].booked <= s.slots[id].capacity
  }

  /** No slot has a negative counter. */
  ghost predicate NonNegativeBooked(s: State) {
    forall id :: id in s.slots ==> 0 <= s.slots[id].booked
  }

  /** `stripeId` is a unique column: no two payments share a provider reference. */
  ghost predicate StripeIdsUnique(s: State) {
    forall b1, b2 ::
      b1 in s.payments && b2 in s.payments && s.payments[b1].stripeId == s.payments[b2].stripeId
      ==> b1 == b2
  }

  /** `email` is a unique column of users. */
  ghost predicate EmailsUnique(s: State) {
    forall u1, u2 ::
      u1 in s.users && u2 in s.users && s.users[u1].email == s.users[u2].email
      ==> u1 == u2
  }

  /** The foreign keys: every activity's destination and category exist,
      every slot's activity exists, every booking's user, activity and slot
      exist, and every payment belongs to a booking. */
  ghost predicate Linked(s: State) {
    && (forall a :: a in s.activities ==>
          s.activities[a].destinationId in s.destinations && s.activities[a].categoryId in s.categories)
    && (forall sl :: sl in s.slots ==> s.slots[sl].activityId in s.activities)
    && (forall id :: id in s.bookings ==>
          && s.bookings[id].userId in s.users
          && s.bookings[id].activityId in s.activities
          && s.bookings[id].slotId in s.slots)
    && s.payments.Keys <= s.bookings.Keys
  }

  ghost predicate Valid(s: State) {
    WithinCapacity(s) && NonNegativeBooked(s) && StripeIdsUnique(s) && EmailsUnique(s) && Linked(s)
  }

  /** Two bookings agree on everything except their status. */
  predicate SameSnapshot(b1: Booking, b2: Booking) {
    b1.(status := Pending) == b2.(status := Pending)
  }

  /** Every booking of `s` survives into `s'` with its price, reference,
      participants and owner untouched. */
  ghost predicate SnapshotsKept(s: State, s': State) {
    forall id :: id in s.bookings ==> id in s'.bookings && SameSnapshot(s.bookings[id], s'.bookings[id])
  }

  /** A write that only changes booking statuses and payments keeps the
      integrity, provided the references stay unique and every payment still
      belongs to a booking. */
  lemma StatusWriteKeepsValid(s: State, s': State)
    requires Valid(s)
    requires s' == s.(bookings := s'.bookings, payments := s'.payments)
    requires s'.bookings.Keys == s.bookings.Keys
    requires forall id :: id in s.bookings ==> SameSnapshot(s.bookings[id], s'.bookings[id])
    requires s'.payments.Keys <= s'.bookings.Keys && StripeIdsUnique(s')
    ensures Valid(s') && SnapshotsKept(s, s')
  {
    forall id | id in s'.bookings
      ensures s'.bookings[id].userId in s'.users && s'.bookings[id].activityId in s'.activities
              && s'.bookings[id].slotId in s'.slots
    {
      assert SameSnapshot(s.bookings[id], s'.bookings[id]);
      assert s'.bookings[id].(status := Pending) == s.bookings[id].(status := Pending);
    }
  }

  // ---------------------------------------------------------------------
  // Keyed reads and writes

  /** Some payment carries the provider reference `sid` (what an update
      `where: { stripeId }` needs in order not to throw). */
  predicate HasStripeId(s: State, sid: string) {
    exists b :: b in s.payments && s.payments[b].stripeId == sid
  }

  /** A payment of a booking other than `bookingId` already carries `sid`, so
      writing `sid` into the payment of `bookingId` violates the unique column. */
  predicate StripeIdTaken(s: State, bookingId: Id, sid: string) {
    exists b :: b in s.payments && b != bookingId && s.payments[b].stripeId == sid
  }

  /** `update where: { stripeId: sid }`: the payment carrying `sid` takes status `st`. */
  function SetStatusByStripeId(s: State, sid: string, st: PaymentStatus): (s': State)
    ensures s'.payments.Keys == s.payments.Keys
    ensures forall b :: b in s.payments && s.payments[b].stripeId == sid ==>
      s'.payments[b] == s.payments[b].(status := st)
    ensures forall b :: b in s.payments && s.payments[b].stripeId != sid ==>
      s'.payments[b] == s.payments[b]
    ensures s' == s.(payments := s'.payments)
  {
    s.(payments := map b | b in s.payments ::
         if s.payments[b].stripeId == sid then s.payments[b].(status := st) else s.payments[b])
  }

  /** Under the unique column, that update touches exactly one payment. */
  lemma SetStatusByStripeIdTouchesOne(s: State, sid: string, st: PaymentStatus, b: Id)
    requires StripeIdsUnique(s)
    requires b in s.payments && s.payments[b].stripeId == sid
    ensures SetStatusByStripeId(s, sid, st).payments == s.payments[b := s.payments[b].(status := st)]
  {
  }

  /** `update where: { id }` on a booking's status. */
  function SetBookingStatus(s: State, id: Id, st: BookingStatus): (s': State)
    requires id in s.bookings
    ensures s'.bookings.Keys == s.bookings.Keys
    ensures s'.bookings[id].status == st && SameSnapshot(s'.bookings[id], s.bookings[id])
    ensures forall b :: b in s.bookings && b != id ==> s'.bookings[b] == s.bookings[b]
    ensures s' == s.(bookings := s'.bookings)
  {
    s.(bookings := s.bookings[id := s.bookings[id].(status := st)])
  }

  /** `upsert where: { bookingId }`: create or overwrite the payment of one booking. */
  function UpsertPayment(s: State, bookingId: Id, p: Payment): (s': State)
    ensures s'.payments.Keys == s.payments.Keys + {bookingId}
    ensures s'.payments[bookingId] == p
    ensures forall b :: b in s.payments && b != bookingId ==> s'.payments[b] == s.payments[b]
    ensures s' == s.(payments := s'.payments)
  {
    s.(payments := s.payments[bookingId := p])
  }

  /** An upsert that respects the unique column keeps it. */
  lemma UpsertKeepsStripeIdsUnique(s: State, bookingId: Id, p: Payment)
    requires StripeIdsUnique(s)
    requires !StripeIdTaken(s, bookingId, p.stripeId)
    ensures StripeIdsUnique(UpsertPayment(s, bookingId, p))
  {
  }

  /** Changing statuses never touches references. */
  lemma SetStatusKeepsStripeIdsUnique(s: State, sid: string, st: PaymentStatus)
    requires StripeIdsUnique(s)
    ensures StripeIdsUnique(SetStatusByStripeId(s, sid, st))
  {
  }
}
