/** The administrator's server actions: every one starts with `checkAdmin`,
    which throws unless the session user's role is "ADMIN". Form data is a
    map from field name to text; a missing field reads as null. */
module Admin {
  import opened Common
  import opened Store
  import opened Http
  import opened AuthGuards

  type Form = map<string, string>

  const Unauthorized := ActionThrew("Unauthorized")

  /** `checkAdmin`: None lets the action go on. */
  function CheckAdmin(session: Option<Session>): (r: Option<ActionResult>)
    ensures r.None? <==> IsAdmin(session)
    ensures r.Some? ==> r.value == Unauthorized
  {
    if IsAdmin(session) then None else Some(Unauthorized)
  }

  // ---------------------------------------------------------------------
  // Booking status

  function StatusName(st: BookingStatus): string {
    match st
    case Pending => "PENDING"
    case Confirmed => "CONFIRMED"
    case Cancelled => "CANCELLED"
  }

  /** `BookingStatusSchema`: exactly the three status names. */
  function ParseStatus(text: string): (r: Option<BookingStatus>)
    ensures r.Some? ==> StatusName(r.value) == text
  {
    if text == "PENDING" then Some(Pending)
    else if text == "CONFIRMED" then Some(Confirmed)
    else if text == "CANCELLED" then Some(Cancelled)
    else None
  }

  /** The schema accepts every status name and reads it back. */
  lemma ParseStatusName(st: BookingStatus)
    ensures ParseStatus(StatusName(st)) == Some(st)
  {
  }

  /** `updateBookingStatus`: any valid status is written over any current
      one; nothing else changes. */
  function UpdateBookingStatus(s: State, session: Option<Session>, id: Id, status: string): (out: ActionOutcome)
    ensures !IsAdmin(session) ==> out == ActionOutcome(s, Unauthorized)
    ensures IsAdmin(session) && ParseStatus(status).None? ==> out == ActionOutcome(s, ActionError("Invalid status"))
    ensures IsAdmin(session) && ParseStatus(status).Some? && id !in s.bookings ==>
      out == ActionOutcome(s, ActionError("Failed to update booking"))
    ensures out.result == ActionOk ==>
      && id in s.bookings && ParseStatus(status).Some?
      && out.state.bookings == s.bookings[id := s.bookings[id].(status := ParseStatus(status).value)]
      && out.state == s.(bookings := out.state.bookings)
    ensures out.result != ActionOk ==> out.state == s
  {
    var denied := CheckAdmin(session);
    if denied.Some? then ActionOutcome(s, denied.value)
    else
      var st := ParseStatus(status);
      if st.None? then ActionOutcome(s, ActionError("Invalid status"))
      else if id !in s.bookings then ActionOutcome(s, ActionError("Failed to update booking"))
      else ActionOutcome(SetBookingStatus(s, id, st.value), ActionOk)
  }

  /** Every transition is allowed, a cancelled booking back to pending
      included, and cancelling releases no capacity: slots and payments are
      untouched. */
  lemma AnyTransitionAllowed(s: State, session: Option<Session>, id: Id, from: BookingStatus, to: BookingStatus)
    requires IsAdmin(session) && id in s.bookings && s.bookings[id].status == from
    ensures var out := UpdateBookingStatus(s, session, id, StatusName(to));
      && out.result == ActionOk
      && out.state.bookings[id].status == to
      && SameSnapshot(out.state.bookings[id], s.bookings[id])
      && out.state.slots == s.slots && out.state.payments == s.payments
  {
    ParseStatusName(to);
  }

  lemma UpdateBookingStatusKeepsValid(s: State, session: Option<Session>, id: Id, status: string)
    requires Valid(s)
    ensures Valid(UpdateBookingStatus(s, session, id, status).state)
    ensures SnapshotsKept(s, UpdateBookingStatus(s, session, id, status).state)
  {
  }

  // ---------------------------------------------------------------------
  // Destinations

  /** `DestinationSchema` on the three form fields. A missing description or
      image reads as null, which `optional()` does not accept; an empty image
      passes through the `''` literal. */
  predicate ValidDestination(isUrl: string -> bool, form: Form) {
    && "name" in form && |form["name"]| >= 2
    && "description" in form
    && "image" in form && (form["image"] == "" || isUrl(form["image"]))
  }

  function CreateDestination(s: State, session: Option<Session>, form: Form, isUrl: string -> bool,
                             newId: Id): (out: ActionOutcome)
    ensures !IsAdmin(session) ==> out == ActionOutcome(s, Unauthorized)
    ensures IsAdmin(session) && !ValidDestination(isUrl, form) ==> out == ActionOutcome(s, ActionError("Invalid data"))
    ensures IsAdmin(session) && ValidDestination(isUrl, form) && newId in s.destinations ==>
      out == ActionOutcome(s, ActionError("Failed to create destination"))
    ensures IsAdmin(session) && ValidDestination(isUrl, form) ==> (out.result == ActionOk <==> newId !in s.destinations)
    ensures out.result == ActionOk ==>
      && ValidDestination(isUrl, form) && newId !in s.destinations
      && out.state == s.(destinations := s.destinations[newId := Destination(form["name"], form["description"], form["image"])])
    ensures out.result != ActionOk ==> out.state == s
  {
    var denied := CheckAdmin(session);
    if denied.Some? then ActionOutcome(s, denied.value)
    else if !ValidDestination(isUrl, form) then ActionOutcome(s, ActionError("Invalid data"))
    else if newId in s.destinations then ActionOutcome(s, ActionError("Failed to create destination"))
    else
      var d := Destination(form["name"], form["description"], form["image"]);
      ActionOutcome(s.(destinations := s.destinations[newId := d]), ActionOk)
  }

  /** A form without a description is refused, though the schema calls the
      field optional: the form reads a missing field as null. */
  lemma MissingDescriptionRefused(s: State, session: Option<Session>, form: Form, isUrl: string -> bool, newId: Id)
    requires IsAdmin(session) && "description" !in form
    ensures CreateDestination(s, session, form, isUrl, newId) == ActionOutcome(s, ActionError("Invalid data"))
  {
  }

  /** `deleteDestination`. The store refuses to delete a destination an
      activity still refers to. */
  function DeleteDestination(s: State, session: Option<Session>, id: Id): (out: ActionOutcome)
    ensures !IsAdmin(session) ==> out == ActionOutcome(s, Unauthorized)
    ensures out.result == ActionOk <==>
      IsAdmin(session) && id in s.destinations && (forall a :: a in s.activities ==> s.activities[a].destinationId != id)
    ensures out.result == ActionOk ==> out.state == s.(destinations := s.destinations - {id})
    ensures out.result.ActionError? ==> out == ActionOutcome(s, ActionError("Failed to delete destination"))
    ensures out.result != ActionOk ==> out.state == s
  {
    var denied := CheckAdmin(session);
    if denied.Some? then ActionOutcome(s, denied.value)
    else if id !in s.destinations || (exists a :: a in s.activities && s.activities[a].destinationId == id) then
      ActionOutcome(s, ActionError("Failed to delete destination"))
    else ActionOutcome(s.(destinations := s.destinations - {id}), ActionOk)
  }

  // ---------------------------------------------------------------------
  // Activities

  /** The untyped fields the action assembles, before the schema. */
  datatype ActivityForm = ActivityForm(
    title: Option<string>,
    description: Option<string>,
    price: Option<Money>,     // None: `parseFloat` gave NaN
    duration: Option<string>,
    destinationId: Option<string>,
    categoryId: Option<string>,
    images: string,
    included: string,
    excluded: string,
    itinerary: string)

  function Field(form: Form, key: string): (r: Option<string>)
    ensures r.Some? <==> key in form
    ensures r.Some? ==> r.value == form[key]
  {
    if key in form then Some(form[key]) else None
  }

  /** `formData.get(key) as string || '[]'`. */
  function ListField(form: Form, key: string): (r: string)
    ensures key in form && form[key] != "" ==> r == form[key]
    ensures !(key in form && form[key] != "") ==> r == "[]"
  {
    if key in form && form[key] != "" then form[key] else "[]"
  }

  /** The data object of `createActivity`. `parseFloat` is the price parser;
      a missing price reads as `parseFloat(null)`, which is NaN. */
  function ReadActivityForm(form: Form, parseFloat: string -> Option<Money>): (a: ActivityForm)
    ensures "price" in form ==> a.price == parseFloat(form["price"])
    ensures "price" !in form ==> a.price.None?
    ensures a.images != "" && a.included != "" && a.excluded != "" && a.itinerary != ""
  {
    ActivityForm(
      Field(form, "title"), Field(form, "description"),
      if "price" in form then parseFloat(form["price"]) else None,
      Field(form, "duration"), Field(form, "destinationId"), Field(form, "categoryId"),
      ListField(form, "images"), ListField(form, "included"), ListField(form, "excluded"), ListField(form, "itinerary"))
  }

  predicate MinLength(v: Option<string>, n: nat) {
    v.Some? && |v.value| >= n
  }

  /** `ActivitySchema`. */
  predicate ValidActivity(a: ActivityForm) {
    && MinLength(a.title, 5)
    && MinLength(a.description, 10)
    && a.price.Some? && a.price.value > 0
    && MinLength(a.duration, 2)
    && MinLength(a.destinationId, 1)
    && MinLength(a.categoryId, 1)
  }

  function ToActivity(a: ActivityForm): Activity
    requires ValidActivity(a)
  {
    Activity(a.title.value, a.description.value, a.price.value, a.duration.value,
             a.destinationId.value, a.categoryId.value, a.images, a.included, a.excluded, a.itinerary)
  }

  /** The insert fails on a taken id or a destination or category that does
      not exist. */
  predicate ActivityInsertRejected(s: State, a: Activity, newId: Id) {
    newId in s.activities || a.destinationId !in s.destinations || a.categoryId !in s.categories
  }

  function CreateActivity(s: State, session: Option<Session>, form: Form, parseFloat: string -> Option<Money>,
                          newId: Id): (out: ActionOutcome)
    ensures !IsAdmin(session) ==> out == ActionOutcome(s, Unauthorized)
    ensures IsAdmin(session) && !ValidActivity(ReadActivityForm(form, parseFloat)) ==>
      out == ActionOutcome(s, ActionError("Invalid activity data"))
    ensures out.result == ActionOk ==>
      && ValidActivity(ReadActivityForm(form, parseFloat))
      && var a := ToActivity(ReadActivityForm(form, parseFloat));
      && !ActivityInsertRejected(s, a, newId)
      && out.state == s.(activities := s.activities[newId := a])
      && a.price > 0 && |a.title| >= 5 && |a.description| >= 10 && |a.duration| >= 2
    ensures out.result.ActionError? && out.result.message != "Invalid activity data" ==>
      out.result.message == "Failed to create activity"
    ensures IsAdmin(session) && ValidActivity(ReadActivityForm(form, parseFloat)) ==>
      (out.result == ActionOk <==> !ActivityInsertRejected(s, ToActivity(ReadActivityForm(form, parseFloat)), newId))
    ensures IsAdmin(session) && ValidActivity(ReadActivityForm(form, parseFloat))
            && ActivityInsertRejected(s, ToActivity(ReadActivityForm(form, parseFloat)), newId) ==>
      out == ActionOutcome(s, ActionError("Failed to create activity"))
    ensures out.result != ActionOk ==> out.state == s
  {
    var denied := CheckAdmin(session);
    if denied.Some? then ActionOutcome(s, denied.value)
    else
      var a := ReadActivityForm(form, parseFloat);
      if !ValidActivity(a) then ActionOutcome(s, ActionError("Invalid activity data"))
      else
        var act := ToActivity(a);
        if ActivityInsertRejected(s, act, newId) then ActionOutcome(s, ActionError("Failed to create activity"))
        else ActionOutcome(s.(activities := s.activities[newId := act]), ActionOk)
  }

  /** Missing or empty list fields are stored as an empty JSON array. */
  lemma ListFieldsDefault(s: State, session: Option<Session>, form: Form, parseFloat: string -> Option<Money>, newId: Id)
    requires CreateActivity(s, session, form, parseFloat, newId).result == ActionOk
    requires "images" !in form || form["images"] == ""
    ensures CreateActivity(s, session, form, parseFloat, newId).state.activities[newId].images == "[]"
  {
  }

  /** `deleteActivity`. The store refuses to delete an activity a slot, a
      booking or a review still refers to. */
  predicate ActivityReferenced(s: State, id: Id) {
    || (exists sl :: sl in s.slots && s.slots[sl].activityId == id)
    || (exists b :: b in s.bookings && s.bookings[b].activityId == id)
    || (exists i :: 0 <= i < |s.reviews| && s.reviews[i].activityId == id)
  }

  function DeleteActivity(s: State, session: Option<Session>, id: Id): (out: ActionOutcome)
    ensures !IsAdmin(session) ==> out == ActionOutcome(s, Unauthorized)
    ensures out.result == ActionOk <==> IsAdmin(session) && id in s.activities && !ActivityReferenced(s, id)
    ensures out.result == ActionOk ==> out.state == s.(activities := s.activities - {id})
    ensures out.result.ActionError? ==> out == ActionOutcome(s, ActionError("Failed to delete activity"))
    ensures out.result != ActionOk ==> out.state == s
  {
    var denied := CheckAdmin(session);
    if denied.Some? then ActionOutcome(s, denied.value)
    else if id !in s.activities || ActivityReferenced(s, id) then
      ActionOutcome(s, ActionError("Failed to delete activity"))
    else ActionOutcome(s.(activities := s.activities - {id}), ActionOk)
  }

  /** No admin action breaks the store's integrity. */
  lemma CreateDestinationKeepsValid(s: State, session: Option<Session>, form: Form, isUrl: string -> bool, newId: Id)
    requires Valid(s)
    ensures Valid(CreateDestination(s, session, form, isUrl, newId).state)
  {
  }

  lemma CreateActivityKeepsValid(s: State, session: Option<Session>, form: Form, parseFloat: string -> Option<Money>,
                                 newId: Id)
    requires Valid(s)
    ensures Valid(CreateActivity(s, session, form, parseFloat, newId).state)
  {
  }

  /** Deleting only what nothing refers to keeps the foreign keys. */
  lemma DeleteDestinationKeepsValid(s: State, session: Option<Session>, id: Id)
    requires Valid(s)
    ensures Valid(DeleteDestination(s, session, id).state)
  {
  }

  lemma DeleteActivityKeepsValid(s: State, session: Option<Session>, id: Id)
    requires Valid(s)
    ensures Valid(DeleteActivity(s, session, id).state)
    ensures SnapshotsKept(s, DeleteActivity(s, session, id).state)
  {
    var out := DeleteActivity(s, session, id);
    if out.result == ActionOk {
      forall b | b in out.state.bookings
        ensures out.state.bookings[b].activityId in out.state.activities
      {
        assert s.bookings[b].activityId != id;
      }
    }
  }
}
