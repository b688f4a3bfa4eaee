/** Worked runs against a store holding part of the seed data: the guest
    user 'anonymous', the Kyoto destination, the Cultural category and the
    Traditional Tea Ceremony at 45.00 with its one slot of capacity 6,
    nothing booked. Ids are short names, the slot's times are small
    integers, and the itinerary, which the seed leaves unset, is '[]'. */
module Scenarios {
  import opened Common
  import opened Store
  import opened AuthGuards
  import opened Bookings
  import StripeWebhook
  import Reviews

  const TeaCeremony: Activity := Activity(
    "Traditional Tea Ceremony",
    "Experience the art of the Japanese tea ceremony in a historic teahouse. Learn about matcha, zen, and the etiquette of this ancient ritual.",
    4500, "2 hours", "kyoto", "cultural",
    "[\"https://images.unsplash.com/photo-1493976040374-85c8e12f0c0e\"]",
    "[\"Kimono rental\",\"Tea\",\"Sweets\"]", "[]", "[]")

  const Kyoto: Destination := Destination(
    "Kyoto, Japan",
    "Famous for its numerous classical Buddhist temples, as well as gardens, imperial palaces, Shinto shrines and traditional wooden houses.",
    "https://images.unsplash.com/photo-1493976040374-85c8e12f0c0e")

  const Seed: State := State(
    map["ceremony" := TeaCeremony],
    map["slot" := Slot("ceremony", 1000, 2000, 6, 0)],
    map[], map[], [], {},
    map["anonymous" := User("Guest User", "guest@holidaysync.com", None)],
    map["kyoto" := Kyoto],
    {"cultural"})

  const Party: Reservation := Reservation("ceremony", "slot", 6, "anonymous")

  /** A party of six fills the slot, priced at six times the activity; a
      further party of one is then refused as full and writes nothing. */
  lemma SixFillTheSlot(d1: Draw, d2: Draw)
    requires d1.newId == "b1" && !d1.incrementFails
    ensures var first := Flow(Seed, Party, d1);
      && first.step.Reserved?
      && first.step.booking.totalPrice == 27000
      && first.state.slots["slot"].booked == 6
      && var second := Flow(first.state, Reservation("ceremony", "slot", 1, "anonymous"), d2);
      && second.step == Full
      && second.state == first.state
  {
    var first := Flow(Seed, Party, d1);
    assert Found(Seed, Party) && Fits(Seed.slots["slot"], 6) && !InsertRejected(Seed, Party, "b1");
    assert first.state.slots["slot"].booked == 6;
  }

  /** The guest's booking of the whole slot, before payment. */
  lemma Booked(d: Draw)
    requires d.newId == "b1" && !d.incrementFails
    ensures var s := Flow(Seed, Party, d).state;
      && "b1" in s.bookings && s.bookings["b1"].status == Pending
      && s.bookings["b1"].userId == "anonymous" && s.bookings["b1"].activityId == "ceremony"
      && s.bookings["b1"].totalPrice == 27000 && s.bookings["b1"].slotId in s.slots
      && s.users == Seed.users && s.payments == map[] && s.activities == Seed.activities
  {
    assert Found(Seed, Party) && Fits(Seed.slots["slot"], 6) && !InsertRejected(Seed, Party, "b1");
  }

  /** Stripe's success for the recorded intent confirms the booking, pays
      the payment and mails the guest. */
  lemma Paid(booked: State)
    requires "b1" in booked.bookings && booked.bookings["b1"].status == Pending
    requires booked.bookings["b1"].userId == "anonymous" && booked.bookings["b1"].activityId == "ceremony"
    requires booked.bookings["b1"].slotId in booked.slots
    requires booked.users == Seed.users && booked.payments == map[] && booked.activities == Seed.activities
    ensures var paid := UpsertPayment(booked, "b1", Payment("pi_1", 27000, PaymentPending));
      var hook := StripeWebhook.Handle(paid, StripeWebhook.Event(StripeWebhook.IntentSucceeded, "pi_1", Some("b1")));
      && hook.state.bookings["b1"].status == Confirmed
      && hook.state.bookings["b1"].userId == "anonymous" && hook.state.bookings["b1"].activityId == "ceremony"
      && hook.state.payments["b1"].status == PaymentSucceeded
      && hook.state.users == Seed.users && hook.state.activities == Seed.activities
      && |hook.mails| == 1 && hook.mails[0].to == "guest@holidaysync.com"
  {
    var paid := UpsertPayment(booked, "b1", Payment("pi_1", 27000, PaymentPending));
    assert paid.payments == map["b1" := Payment("pi_1", 27000, PaymentPending)];
    assert HasStripeId(paid, "pi_1");
    var hook := StripeWebhook.Handle(paid, StripeWebhook.Event(StripeWebhook.IntentSucceeded, "pi_1", Some("b1")));
    assert hook.state.bookings["b1"].slotId in hook.state.slots;
    assert hook.state.users["anonymous"].email == "guest@holidaysync.com";
  }

  /** A confirmed booking of the ceremony opens the review gate for the guest. */
  lemma Reviewed(s: State, parseInt: string -> Option<int>)
    requires "b1" in s.bookings && s.bookings["b1"].status == Confirmed
    requires s.bookings["b1"].userId == "anonymous" && s.bookings["b1"].activityId == "ceremony"
    requires "anonymous" in s.users && "ceremony" in s.activities
    requires parseInt("5") == Some(5)
    ensures var session := Some(Session(Some(SessionUser("anonymous", None))));
      var form := map["activityId" := "ceremony", "rating" := "5", "comment" := "Wonderful evening"];
      Reviews.SubmitReview(s, session, form, parseInt, false).result.ActionOk?
  {
    var form := map["activityId" := "ceremony", "rating" := "5", "comment" := "Wonderful evening"];
    assert Reviews.ValidReview(Reviews.ReadReviewForm(form, parseInt));
    assert Reviews.HasConfirmedBooking(s, "anonymous", "ceremony");
  }

  /** Book, record the intent's payment, receive Stripe's success, then
      review: the booking is confirmed, the guest gets the email, and the
      review gate opens. */
  lemma BookPayReview(d: Draw, parseInt: string -> Option<int>)
    requires d.newId == "b1" && !d.incrementFails
    requires parseInt("5") == Some(5)
    ensures var booked := Flow(Seed, Party, d).state;
      var paid := UpsertPayment(booked, "b1", Payment("pi_1", 27000, PaymentPending));
      var hook := StripeWebhook.Handle(paid, StripeWebhook.Event(StripeWebhook.IntentSucceeded, "pi_1", Some("b1")));
      var session := Some(Session(Some(SessionUser("anonymous", None))));
      var form := map["activityId" := "ceremony", "rating" := "5", "comment" := "Wonderful evening"];
      && hook.state.bookings["b1"].status == Confirmed
      && hook.state.payments["b1"].status == PaymentSucceeded
      && |hook.mails| == 1 && hook.mails[0].to == "guest@holidaysync.com"
      && Reviews.SubmitReview(hook.state, session, form, parseInt, false).result.ActionOk?
  {
    var booked := Flow(Seed, Party, d).state;
    Booked(d);
    Paid(booked);
    var paid := UpsertPayment(booked, "b1", Payment("pi_1", 27000, PaymentPending));
    var hook := StripeWebhook.Handle(paid, StripeWebhook.Event(StripeWebhook.IntentSucceeded, "pi_1", Some("b1")));
    Reviewed(hook.state, parseInt);
  }
}
