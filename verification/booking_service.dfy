/** `createBooking`, the reusable booking service: no authentication and no
    validation of its input, a typed result for the two refusals, and the
    insert's exception left to the caller. */
module BookingService {
  import opened Common
  import opened Store
  import opened Bookings

  datatype FailureCode = NotFound | Conflict

  datatype ServiceResult =
    | Created(id: Id, booking: Booking, redirectUrl: string)
    | Refused(error: string, status: int, code: FailureCode)
    | Threw                               // the insert's exception propagates

  datatype ServiceOutcome = ServiceOutcome(state: State, result: ServiceResult)

  function CreateBooking(s: State, r: Reservation, d: Draw): (out: ServiceOutcome)
    ensures out.result == Refused("Activity or Slot not found", 404, NotFound) <==> !Found(s, r)
    ensures out.result == Refused("Not enough capacity available", 400, Conflict) <==>
      Found(s, r) && !Fits(s.slots[r.slotId], r.participants)
    ensures out.result.Threw? <==>
      Found(s, r) && Fits(s.slots[r.slotId], r.participants) && (InsertRejected(s, r, d.newId) || d.incrementFails)
    ensures out.result.Refused? || (out.result.Threw? && InsertRejected(s, r, d.newId)) ==> out.state == s
    ensures out.result.Created? ==>
      && out.result.id == d.newId
      && out.result.redirectUrl == "/checkout/" + d.newId
      && Found(s, r) && d.newId !in s.bookings
      && out.state.bookings == s.bookings[d.newId := out.result.booking]
      && out.result.booking == Placed(s, r, d)
      && out.result.booking.totalPrice == s.activities[r.activityId].price * r.participants
      && out.result.booking.status == Pending
      && out.state.slots == s.slots[r.slotId := s.slots[r.slotId].(booked := s.slots[r.slotId].booked + r.participants)]
      && out.state == s.(bookings := out.state.bookings, slots := out.state.slots)
  {
    var f := Flow(s, r, d);
    var result := match f.step
      case Missing => Refused("Activity or Slot not found", 404, NotFound)
      case Full => Refused("Not enough capacity available", 400, Conflict)
      case InsertFailed => Threw
      case IncrementFailed(_, _) => Threw
      case Reserved(id, b) => Created(id, b, RedirectUrl(id));
    ServiceOutcome(f.state, result)
  }

  /** A created booking's redirect names it, and the path reads back into the id. */
  lemma RedirectNamesBooking(s: State, r: Reservation, d: Draw)
    requires CreateBooking(s, r, d).result.Created?
    ensures var res := CreateBooking(s, r, d).result;
      res.redirectUrl[..10] == "/checkout/" && res.redirectUrl[10..] == res.id
      && res.id in CreateBooking(s, r, d).state.bookings
  {
  }

  /** The service keeps the store's integrity for any party of at least zero. */
  lemma CreateBookingKeepsValid(s: State, r: Reservation, d: Draw)
    requires Valid(s) && r.participants >= 0
    ensures Valid(CreateBooking(s, r, d).state)
    ensures SnapshotsKept(s, CreateBooking(s, r, d).state)
  {
    FlowKeepsValid(s, r, d);
    FlowKeepsTheRest(s, r, d);
  }
}
