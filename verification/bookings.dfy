/** The reservation step shared by the booking service and the bookings
    route: look up the activity and the slot, refuse an overfull slot, insert
    a pending booking priced at the activity's price per participant, then
    raise the slot's counter. */
module Bookings {
  import opened Common
  import opened Store
  import Reference

  /** `CreateBookingInput`. */
  datatype Reservation = Reservation(activityId: Id, slotId: Id, participants: int, userId: Id)

  /** What the store and the runtime supply to one reservation: the id the
      insert assigns, `Math.random().toString(36)`, `Date.now()`, and whether
      the slot update throws after the insert (a lost connection, or the slot
      deleted in between by another request). */
  datatype Draw = Draw(newId: Id, random36: string, now: nat, incrementFails: bool)

  datatype Step =
    | Missing                           // activity or slot not found
    | Full                              // not enough capacity
    | InsertFailed                      // the insert threw
    | IncrementFailed(id: Id, booking: Booking)   // the insert held, the slot update threw
    | Reserved(id: Id, booking: Booking)

  datatype FlowOutcome = FlowOutcome(state: State, step: Step)

  function RedirectUrl(id: Id): string {
    "/checkout/" + id
  }

  predicate Found(s: State, r: Reservation) {
    r.activityId in s.activities && r.slotId in s.slots
  }

  /** The capacity check: the slot takes the party without going over. */
  predicate Fits(slot: Slot, participants: int) {
    slot.booked + participants <= slot.capacity
  }

  /** The insert violates the primary key or the booking's user reference. */
  predicate InsertRejected(s: State, r: Reservation, newId: Id) {
    newId in s.bookings || r.userId !in s.users
  }

  /** The pending booking the insert writes. */
  function Placed(s: State, r: Reservation, d: Draw): (b: Booking)
    requires r.activityId in s.activities
    ensures b.status == Pending && b.participants == r.participants
    ensures b.totalPrice == s.activities[r.activityId].price * r.participants
    ensures b.userId == r.userId && b.activityId == r.activityId && b.slotId == r.slotId
    ensures b.reference == Reference.Make(d.random36, d.now)
  {
    Booking(r.userId, r.activityId, r.slotId, r.participants,
            s.activities[r.activityId].price * r.participants,
            Reference.Make(d.random36, d.now), Pending)
  }

  /** Lookup, capacity check, insert, increment. Nothing is written unless
      the booking is reserved; a reservation adds exactly the new booking and
      raises exactly its slot's counter by the party size. */
  function Flow(s: State, r: Reservation, d: Draw): (out: FlowOutcome)
    ensures out.step.Missing? <==> !Found(s, r)
    ensures out.step.Full? <==> Found(s, r) && !Fits(s.slots[r.slotId], r.participants)
    ensures out.step.InsertFailed? <==>
      Found(s, r) && Fits(s.slots[r.slotId], r.participants) && InsertRejected(s, r, d.newId)
    ensures out.step.IncrementFailed? <==>
      Found(s, r) && Fits(s.slots[r.slotId], r.participants) && !InsertRejected(s, r, d.newId) && d.incrementFails
    ensures out.step.IncrementFailed? ==>
      && out.step.id == d.newId && d.newId !in s.bookings
      && out.step.booking == Placed(s, r, d)
      && out.state == s.(bookings := s.bookings[d.newId := out.step.booking])
    ensures !out.step.Reserved? && !out.step.IncrementFailed? ==> out.state == s
    ensures out.step.Reserved? ==>
      && Found(s, r)
      && out.step.id == d.newId && d.newId !in s.bookings
      && out.step.booking == Placed(s, r, d)
      && out.state.bookings == s.bookings[d.newId := out.step.booking]
      && out.state.slots.Keys == s.slots.Keys
      && out.state.slots[r.slotId] == s.slots[r.slotId].(booked := s.slots[r.slotId].booked + r.participants)
      && (forall id :: id in s.slots && id != r.slotId ==> out.state.slots[id] == s.slots[id])
      && out.state == s.(bookings := out.state.bookings, slots := out.state.slots)
  {
    if !Found(s, r) then FlowOutcome(s, Missing)
    else
      var slot := s.slots[r.slotId];
      if !Fits(slot, r.participants) then FlowOutcome(s, Full)
      else if InsertRejected(s, r, d.newId) then FlowOutcome(s, InsertFailed)
      else
        var b := Placed(s, r, d);
        var s1 := s.(bookings := s.bookings[d.newId := b]);
        if d.incrementFails then FlowOutcome(s1, IncrementFailed(d.newId, b))
        else
          var s2 := s1.(slots := s1.slots[r.slotId := slot.(booked := slot.booked + r.participants)]);
          FlowOutcome(s2, Reserved(d.newId, b))
  }

  // ---------------------------------------------------------------------
  // What a reservation keeps

  /** The capacity check keeps every slot within its capacity. */
  lemma FlowKeepsCapacity(s: State, r: Reservation, d: Draw)
    requires WithinCapacity(s)
    ensures WithinCapacity(Flow(s, r, d).state)
  {
    var out := Flow(s, r, d);
    if out.step.Reserved? {
      forall id | id in out.state.slots
        ensures out.state.slots[id].booked <= out.state.slots[id].capacity
      {
        if id != r.slotId {
          assert out.state.slots[id] == s.slots[id];
        }
      }
    }
  }

  /** With a party of at least zero no counter goes negative. */
  lemma FlowKeepsNonNegative(s: State, r: Reservation, d: Draw)
    requires NonNegativeBooked(s)
    requires r.participants >= 0
    ensures NonNegativeBooked(Flow(s, r, d).state)
  {
    var out := Flow(s, r, d);
    if out.step.Reserved? {
      forall id | id in out.state.slots
        ensures 0 <= out.state.slots[id].booked
      {
        if id != r.slotId {
          assert out.state.slots[id] == s.slots[id];
        }
      }
    }
  }

  /** The insert comes before the increment and the two are not one
      transaction: when the slot update throws, the pending booking stays
      while the slot's counter does not count it. */
  lemma IncrementFailureKeepsBooking(s: State, r: Reservation, d: Draw)
    requires Found(s, r) && Fits(s.slots[r.slotId], r.participants) && !InsertRejected(s, r, d.newId)
    requires d.incrementFails
    ensures var out := Flow(s, r, d);
      && out.step.IncrementFailed?
      && d.newId in out.state.bookings && out.state.bookings[d.newId].status == Pending
      && out.state.slots == s.slots
  {
  }

  /** The service itself does not check the party size: a negative one passes
      the capacity check and lowers the slot's counter. */
  lemma NegativePartyLowersCounter(s: State, r: Reservation, d: Draw)
    requires Found(s, r) && !InsertRejected(s, r, d.newId) && !d.incrementFails
    requires s.slots[r.slotId].booked <= s.slots[r.slotId].capacity
    requires r.participants < 0
    ensures Flow(s, r, d).step.Reserved?
    ensures Flow(s, r, d).state.slots[r.slotId].booked < s.slots[r.slotId].booked
  {
  }

  /** The slot is not checked against the activity: a slot of another
      activity is booked just the same, and the booking is priced at the
      requested activity's price. */
  lemma ForeignSlotAccepted(s: State, r: Reservation, d: Draw)
    requires Found(s, r) && s.slots[r.slotId].activityId != r.activityId
    requires Fits(s.slots[r.slotId], r.participants) && !InsertRejected(s, r, d.newId) && !d.incrementFails
    ensures Flow(s, r, d).step.Reserved?
    ensures Flow(s, r, d).step.booking.activityId != Flow(s, r, d).state.slots[r.slotId].activityId
  {
  }

  /** A reservation leaves every existing booking as it was and keeps the
      other integrity properties, whose tables it does not write. */
  lemma FlowKeepsTheRest(s: State, r: Reservation, d: Draw)
    ensures SnapshotsKept(s, Flow(s, r, d).state)
    ensures StripeIdsUnique(s) ==> StripeIdsUnique(Flow(s, r, d).state)
    ensures EmailsUnique(s) ==> EmailsUnique(Flow(s, r, d).state)
    ensures Linked(s) ==> Linked(Flow(s, r, d).state)
    ensures Flow(s, r, d).state.payments == s.payments && Flow(s, r, d).state.users == s.users
    ensures Flow(s, r, d).state.activities == s.activities && Flow(s, r, d).state.slots.Keys == s.slots.Keys
  {
  }

  lemma FlowKeepsValid(s: State, r: Reservation, d: Draw)
    requires Valid(s) && r.participants >= 0
    ensures Valid(Flow(s, r, d).state)
  {
    FlowKeepsCapacity(s, r, d);
    FlowKeepsNonNegative(s, r, d);
    FlowKeepsTheRest(s, r, d);
  }

  /** The reference of a new booking reads back into the random code and the
      last four digits of the clock. */
  lemma PlacedReference(s: State, r: Reservation, d: Draw)
    requires Reference.RandomRendering(d.random36)
    requires Flow(s, r, d).step.Reserved? || Flow(s, r, d).step.IncrementFailed?
    ensures Reference.Split(Flow(s, r, d).step.booking.reference)
         == Some((Reference.Code(d.random36), Reference.TimeSuffix(d.now)))
    ensures Reference.DigitsValue(Reference.TimeSuffix(d.now)) == d.now % 10000
  {
    Reference.ReferenceParts(d.random36, d.now);
  }
}
