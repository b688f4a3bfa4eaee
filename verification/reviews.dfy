/** `submitReview`: a signed-in user, a valid form, and a confirmed booking
    of the activity by that user; then one review is appended. */
module Reviews {
  import opened Common
  import opened Store
  import opened Http
  import opened AuthGuards

  type Form = map<string, string>

  const NotLoggedIn := ActionError("You must be logged in to leave a review.")
  const InvalidReview := ActionError("Invalid review data. Comment must be 5-500 characters.")
  const NotBooked := ActionError("You can only review activities you have successfully booked and completed.")
  const SubmitFailed := ActionError("Failed to submit review. Maybe you already reviewed this?")

  /** The form after `parseInt` of the rating (None for NaN). */
  datatype ReviewForm = ReviewForm(activityId: Option<string>, rating: Option<int>, comment: Option<string>)

  function ReadReviewForm(form: Form, parseInt: string -> Option<int>): (r: ReviewForm)
    ensures r.activityId.Some? <==> "activityId" in form
    ensures r.activityId.Some? ==> r.activityId.value == form["activityId"]
    ensures "rating" in form ==> r.rating == parseInt(form["rating"])
    ensures "rating" !in form ==> r.rating.None?
    ensures r.comment.Some? <==> "comment" in form
    ensures r.comment.Some? ==> r.comment.value == form["comment"]
  {
    ReviewForm(
      if "activityId" in form then Some(form["activityId"]) else None,
      if "rating" in form then parseInt(form["rating"]) else None,
      if "comment" in form then Some(form["comment"]) else None)
  }

  /** `ReviewSchema`. */
  predicate ValidReview(r: ReviewForm) {
    && r.activityId.Some?
    && r.rating.Some? && 1 <= r.rating.value <= 5
    && r.comment.Some? && 5 <= |r.comment.value| <= 500
  }

  /** The booking gate: a CONFIRMED booking of the activity by the user. A
      user without an id leaves `userId` undefined, which drops that filter,
      so any confirmed booking of the activity passes. */
  predicate HasConfirmedBooking(s: State, userId: Id, activityId: Id) {
    exists b :: b in s.bookings && s.bookings[b].activityId == activityId && s.bookings[b].status == Confirmed
                && (userId == "" || s.bookings[b].userId == userId)
  }

  /** The insert fails without a user id, on a user or activity that does
      not exist, or when the store refuses it for a reason of its own
      (`rejected`, such as a unique index on the pair). */
  predicate ReviewInsertRejected(s: State, review: Review, rejected: bool) {
    rejected || review.userId == "" || review.userId !in s.users || review.activityId !in s.activities
  }

  function SubmitReview(s: State, session: Option<Session>, form: Form, parseInt: string -> Option<int>,
                        rejected: bool): (out: ActionOutcome)
    ensures !SignedIn(session) ==> out == ActionOutcome(s, NotLoggedIn)
    ensures SignedIn(session) && !ValidReview(ReadReviewForm(form, parseInt)) ==> out == ActionOutcome(s, InvalidReview)
    ensures SignedIn(session) && ValidReview(ReadReviewForm(form, parseInt))
            && !HasConfirmedBooking(s, session.value.user.value.id, form["activityId"]) ==>
      out == ActionOutcome(s, NotBooked)
    ensures out.result == ActionOk ==>
      && SignedIn(session)
      && var r := ReadReviewForm(form, parseInt);
      && ValidReview(r)
      && var review := Review(session.value.user.value.id, r.activityId.value, r.rating.value, r.comment.value);
      && HasConfirmedBooking(s, review.userId, review.activityId)
      && !ReviewInsertRejected(s, review, rejected)
      && out.state == s.(reviews := s.reviews + [review])
    ensures SignedIn(session) && ValidReview(ReadReviewForm(form, parseInt))
            && HasConfirmedBooking(s, session.value.user.value.id, form["activityId"]) ==>
      var r := ReadReviewForm(form, parseInt);
      var review := Review(session.value.user.value.id, r.activityId.value, r.rating.value, r.comment.value);
      && (out.result == ActionOk <==> !ReviewInsertRejected(s, review, rejected))
      && (ReviewInsertRejected(s, review, rejected) ==> out == ActionOutcome(s, SubmitFailed))
    ensures out.result != ActionOk ==> out.state == s
  {
    if !SignedIn(session) then ActionOutcome(s, NotLoggedIn)
    else
      var r := ReadReviewForm(form, parseInt);
      if !ValidReview(r) then ActionOutcome(s, InvalidReview)
      else
        var userId := session.value.user.value.id;
        if !HasConfirmedBooking(s, userId, r.activityId.value) then ActionOutcome(s, NotBooked)
        else
          var review := Review(userId, r.activityId.value, r.rating.value, r.comment.value);
          if ReviewInsertRejected(s, review, rejected) then ActionOutcome(s, SubmitFailed)
          else ActionOutcome(s.(reviews := s.reviews + [review]), ActionOk)
  }

  /** Pending and cancelled bookings do not open the gate. */
  lemma OnlyConfirmedBookingsQualify(s: State, session: Option<Session>, form: Form, parseInt: string -> Option<int>,
                                     rejected: bool)
    requires SignedIn(session) && session.value.user.value.id != ""
    requires ValidReview(ReadReviewForm(form, parseInt))
    requires forall b ::
      (b in s.bookings && s.bookings[b].userId == session.value.user.value.id && s.bookings[b].activityId == form["activityId"])
      ==> s.bookings[b].status != Confirmed
    ensures SubmitReview(s, session, form, parseInt, rejected) == ActionOutcome(s, NotBooked)
  {
  }

  /** A success appends exactly one review and keeps the earlier ones in
      order; nothing but the reviews changes. */
  lemma SubmitAppendsOne(s: State, session: Option<Session>, form: Form, parseInt: string -> Option<int>,
                         rejected: bool)
    requires SubmitReview(s, session, form, parseInt, rejected).result == ActionOk
    ensures var s' := SubmitReview(s, session, form, parseInt, rejected).state;
      && |s'.reviews| == |s.reviews| + 1
      && s'.reviews[..|s.reviews|] == s.reviews
      && s'.reviews[|s.reviews|].userId == session.value.user.value.id
      && s'.reviews[|s.reviews|].activityId == form["activityId"]
      && 1 <= s'.reviews[|s.reviews|].rating <= 5
      && s' == s.(reviews := s'.reviews)
  {
    var s' := SubmitReview(s, session, form, parseInt, rejected).state;
    var r := ReadReviewForm(form, parseInt);
    assert s'.reviews == s.reviews + [Review(session.value.user.value.id, r.activityId.value, r.rating.value, r.comment.value)];
  }

  lemma SubmitKeepsValid(s: State, session: Option<Session>, form: Form, parseInt: string -> Option<int>,
                         rejected: bool)
    requires Valid(s)
    ensures Valid(SubmitReview(s, session, form, parseInt, rejected).state)
    ensures SnapshotsKept(s, SubmitReview(s, session, form, parseInt, rejected).state)
  {
  }
}
