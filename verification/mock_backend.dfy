/** The in-memory mock store the client falls back to when the edge server
    is unreachable: two maps (payments and bookings) and one profile slot.
    Every operation is a pure transition from one store to the next. The
    clock is a parameter: `now` is the millisecond timestamp that the source
    reads from `Date.now()` (and bakes into ids), `nowIso` its ISO rendering. */
module MockBackend {
  import opened Wrappers
  import opened Json
  import Text
  import Anxiety
  import Catalog

  datatype PaymentStatus = Pending | Succeeded | Failed
  datatype PaymentMethod = Card | PayPal
  datatype BookingStatus = Confirmed | Cancelled
  datatype BookingPayment = PaymentPending | PaymentCompleted

  /** Fields copied from a request body keep their JSON value, or are
      `None` when the body lacks them (JavaScript `undefined`). */
  datatype Payment = Payment(
    id: string,
    userId: string,
    bookingId: Option<Json>,
    amount: Option<Json>,
    currency: Option<Json>,
    description: Option<Json>,
    status: PaymentStatus,
    paymentMethod: PaymentMethod,
    paypalOrderId: Option<string>,
    createdAt: string)

  datatype Booking = Booking(
    id: string,
    userId: Option<Json>,
    classId: Option<Json>,
    sessionId: Option<Json>,
    bookedAt: string,
    status: BookingStatus,
    paymentStatus: BookingPayment)

  type Profile = map<string, Json>

  /** `bookingOrder` is the insertion order of the bookings map, which
      `Array.from(map.values())` follows. */
  datatype Store = Store(
    payments: map<string, Payment>,
    bookings: map<string, Booking>,
    bookingOrder: seq<string>,
    userId: string,
    profile: Option<Profile>)

  datatype IntentReply = IntentReply(id: string, status: PaymentStatus, clientSecret: string)
  datatype PayPalReply = PayPalReply(id: string, status: PaymentStatus, paypalOrderId: string, approvalUrl: Option<string>)
  datatype MockPrediction = MockPrediction(prediction: Anxiety.Prediction, timestamp: string)

  const PaymentNotFound := "Payment not found"

  /** The insertion order lists each stored booking exactly once. */
  ghost predicate Valid(s: Store) {
    && (forall i, j :: 0 <= i < j < |s.bookingOrder| ==> s.bookingOrder[i] != s.bookingOrder[j])
    && (forall k :: k in s.bookingOrder <==> k in s.bookings)
  }

  function Stamp(prefix: string, now: nat): string {
    prefix + Text.NatToString(now)
  }

  function Init(now: nat): (s: Store)
    ensures Valid(s)
    ensures s.payments == map[] && s.bookings == map[] && s.profile.None?
  {
    Store(map[], map[], [], Stamp("mock_user_", now), None)
  }

  // ---------------------------------------------------------------- bookings

  /** `map.set(key, value)` on an insertion-ordered map: a new key goes last,
      an existing key keeps its place. */
  function OrderAfterSet(order: seq<string>, key: string): (r: seq<string>)
    ensures key in order ==> r == order
    ensures key !in order ==> r == order + [key]
  {
    if key in order then order else order + [key]
  }

  function CreateBooking(s: Store, data: map<string, Json>, now: nat, nowIso: string): (r: (Store, Booking))
    ensures r.1.id == Stamp("mock_booking_", now)
    ensures r.1.userId == Field(data, "userId")
    ensures r.1.classId == Field(data, "classId") && r.1.sessionId == Field(data, "sessionId")
    ensures r.1.status == Confirmed && r.1.paymentStatus == PaymentPending
    ensures r.0.bookings == s.bookings[r.1.id := r.1]
    ensures r.0.payments == s.payments && r.0.profile == s.profile && r.0.userId == s.userId
  {
    var id := Stamp("mock_booking_", now);
    var b := Booking(id, Field(data, "userId"), Field(data, "classId"), Field(data, "sessionId"),
                     nowIso, Confirmed, PaymentPending);
    (s.(bookings := s.bookings[id := b], bookingOrder := OrderAfterSet(s.bookingOrder, id)), b)
  }

  /** `Array.from(bookings.values())`. */
  function GetBookings(s: Store): seq<Booking> {
    InOrder(s.bookingOrder, s.bookings)
  }

  function InOrder(order: seq<string>, m: map<string, Booking>): (r: seq<Booking>)
    ensures |r| <= |order|
    ensures forall b :: b in r ==> b in m.Values
  {
    if order == [] then []
    else (if order[0] in m then [m[order[0]]] else []) + InOrder(order[1..], m)
  }

  lemma {:induction false} InOrderAppend(a: seq<string>, b: seq<string>, m: map<string, Booking>)
    ensures InOrder(a + b, m) == InOrder(a, m) + InOrder(b, m)
  {
    if a == [] {
      assert a + b == b;
    } else {
      assert (a + b)[1..] == a[1..] + b;
      InOrderAppend(a[1..], b, m);
    }
  }

  /** Updating a key that is not listed does not change the listing. */
  lemma {:induction false} InOrderUnlisted(order: seq<string>, m: map<string, Booking>, k: string, v: Booking)
    requires k !in order
    ensures InOrder(order, m[k := v]) == InOrder(order, m)
  {
    if order != [] {
      InOrderUnlisted(order[1..], m, k, v);
    }
  }

  /** A listing over keys that are all stored has one entry per key. */
  lemma {:induction false} InOrderLength(order: seq<string>, m: map<string, Booking>)
    requires forall k :: k in order ==> k in m
    ensures |InOrder(order, m)| == |order|
  {
    if order != [] {
      InOrderLength(order[1..], m);
    }
  }

  /** Creating a booking with a fresh id appends exactly that booking to the
      listing; every earlier booking keeps its place. */
  lemma CreateBookingListed(s: Store, data: map<string, Json>, now: nat, nowIso: string)
    requires Valid(s)
    requires Stamp("mock_booking_", now) !in s.bookings
    ensures Valid(CreateBooking(s, data, now, nowIso).0)
    ensures GetBookings(CreateBooking(s, data, now, nowIso).0)
            == GetBookings(s) + [CreateBooking(s, data, now, nowIso).1]
  {
    var (s', b) := CreateBooking(s, data, now, nowIso);
    assert s'.bookingOrder == s.bookingOrder + [b.id];
    InOrderAppend(s.bookingOrder, [b.id], s'.bookings);
    InOrderUnlisted(s.bookingOrder, s.bookings, b.id, b);
    assert InOrder([b.id], s'.bookings) == [b];
    forall i, j | 0 <= i < j < |s'.bookingOrder|
      ensures s'.bookingOrder[i] != s'.bookingOrder[j]
    {
      if j == |s.bookingOrder| {
        assert s'.bookingOrder[i] in s.bookingOrder;
      }
    }
  }

  /** Whatever its id, a created booking is in the listing afterwards. */
  lemma CreateBookingVisible(s: Store, data: map<string, Json>, now: nat, nowIso: string)
    requires Valid(s)
    ensures Valid(CreateBooking(s, data, now, nowIso).0)
    ensures CreateBooking(s, data, now, nowIso).1 in GetBookings(CreateBooking(s, data, now, nowIso).0)
  {
    var (s', b) := CreateBooking(s, data, now, nowIso);
    if b.id in s.bookings {
      assert s'.bookingOrder == s.bookingOrder;
      InOrderContains(s'.bookingOrder, s'.bookings, b.id);
    } else {
      CreateBookingListed(s, data, now, nowIso);
    }
  }

  lemma {:induction false} InOrderContains(order: seq<string>, m: map<string, Booking>, k: string)
    requires k in order && k in m
    ensures m[k] in InOrder(order, m)
  {
    if order[0] != k {
      InOrderContains(order[1..], m, k);
    }
  }

  /** Two bookings created in the same millisecond share an id: the second
      overwrites the first, and the store still holds one booking for it. */
  lemma SameMillisecondOverwrites(s: Store, d1: map<string, Json>, d2: map<string, Json>, now: nat, iso: string)
    ensures var s1 := CreateBooking(s, d1, now, iso).0;
            var r2 := CreateBooking(s1, d2, now, iso);
            r2.0.bookings == s.bookings[r2.1.id := r2.1]
            && r2.0.bookingOrder == s1.bookingOrder
  {
  }

  // ---------------------------------------------------------------- payments

  function NewPayment(s: Store, data: map<string, Json>, id: string, kind: PaymentMethod,
                      orderId: Option<string>, nowIso: string): Payment
  {
    Payment(id, s.userId, Field(data, "bookingId"), Field(data, "amount"), Field(data, "currency"),
            Field(data, "description"), Pending, kind, orderId, nowIso)
  }

  function CreatePaymentIntent(s: Store, data: map<string, Json>, now: nat, nowIso: string): (r: (Store, IntentReply))
    ensures var id := Stamp("mock_payment_", now);
            && r.1 == IntentReply(id, Pending, Stamp("mock_secret_", now))
            && id in r.0.payments
            && r.0.payments[id].status == Pending && r.0.payments[id].paymentMethod == Card
            && r.0.payments[id].bookingId == Field(data, "bookingId")
            && r.0.payments[id].amount == Field(data, "amount")
            && r.0.payments[id].currency == Field(data, "currency")
            && r.0.payments[id].userId == s.userId
            && (forall k :: k != id ==> (k in r.0.payments <==> k in s.payments))
            && (forall k :: k != id && k in s.payments ==> r.0.payments[k] == s.payments[k])
    ensures r.0.bookings == s.bookings && r.0.bookingOrder == s.bookingOrder && r.0.profile == s.profile
  {
    var id := Stamp("mock_payment_", now);
    var p := NewPayment(s, data, id, Card, None, nowIso);
    (s.(payments := s.payments[id := p]), IntentReply(id, Pending, Stamp("mock_secret_", now)))
  }

  function CreatePayPalPayment(s: Store, data: map<string, Json>, now: nat, nowIso: string): (r: (Store, PayPalReply))
    ensures var id := Stamp("mock_payment_", now);
            && r.1 == PayPalReply(id, Pending, Stamp("PAYPAL_", now), None)
            && id in r.0.payments
            && r.0.payments[id].status == Pending && r.0.payments[id].paymentMethod == PayPal
            && r.0.payments[id].bookingId == Field(data, "bookingId")
            && r.0.payments[id].amount == Field(data, "amount")
            && r.0.payments[id].currency == Field(data, "currency")
            && r.0.payments[id].paypalOrderId == Some(r.1.paypalOrderId)
            && (forall k :: k != id ==> (k in r.0.payments <==> k in s.payments))
            && (forall k :: k != id && k in s.payments ==> r.0.payments[k] == s.payments[k])
    ensures r.0.bookings == s.bookings && r.0.bookingOrder == s.bookingOrder && r.0.profile == s.profile
  {
    var id := Stamp("mock_payment_", now);
    var orderId := Stamp("PAYPAL_", now);
    var p := NewPayment(s, data, id, PayPal, Some(orderId), nowIso);
    (s.(payments := s.payments[id := p]), PayPalReply(id, Pending, orderId, None))
  }

  /** The booking a payment points at, when its `bookingId` is a stored key. */
  function LinkedBooking(bookings: map<string, Booking>, p: Payment): (k: Option<string>)
    ensures k.Some? <==> (p.bookingId.Some? && p.bookingId.value.JStr? && p.bookingId.value.s in bookings)
    ensures k.Some? ==> p.bookingId == Some(JStr(k.value))
  {
    if p.bookingId.Some? && p.bookingId.value.JStr? && p.bookingId.value.s in bookings
    then Some(p.bookingId.value.s) else None
  }

  /** The shared body of `confirmPayment` and `capturePayPalPayment`: mark
      the payment succeeded and its linked booking paid. */
  function Settle(s: Store, paymentId: string): (r: (Store, Result<Payment, string>))
    ensures paymentId !in s.payments ==> r == (s, Failure(PaymentNotFound))
    ensures paymentId in s.payments ==>
              && r.1 == Success(s.payments[paymentId].(status := Succeeded))
              && r.0.payments == s.payments[paymentId := r.1.value]
              && r.0.bookingOrder == s.bookingOrder && r.0.profile == s.profile && r.0.userId == s.userId
              && r.0.bookings.Keys == s.bookings.Keys
              && (forall k :: k in s.bookings && Some(k) != LinkedBooking(s.bookings, r.1.value)
                    ==> r.0.bookings[k] == s.bookings[k])
              && (forall k :: k in s.bookings && Some(k) == LinkedBooking(s.bookings, r.1.value)
                    ==> r.0.bookings[k] == s.bookings[k].(paymentStatus := PaymentCompleted))
  {
    if paymentId !in s.payments then (s, Failure(PaymentNotFound))
    else
      var p := s.payments[paymentId].(status := Succeeded);
      var bookings' := match LinkedBooking(s.bookings, p)
        case Some(k) => s.bookings[k := s.bookings[k].(paymentStatus := PaymentCompleted)]
        case None => s.bookings;
      (s.(payments := s.payments[paymentId := p], bookings := bookings'), Success(p))
  }

  /** `confirmPayment(paymentId, paymentMethodId)`; the method id is unused. */
  function ConfirmPayment(s: Store, paymentId: string, paymentMethodId: Json): (Store, Result<Payment, string>) {
    Settle(s, paymentId)
  }

  /** `capturePayPalPayment(paymentId, paypalOrderId)`; the order id is unused. */
  function CapturePayPalPayment(s: Store, paymentId: string, paypalOrderId: Json): (Store, Result<Payment, string>) {
    Settle(s, paymentId)
  }

  /** Confirming a card payment and capturing a PayPal one are the same
      operation: neither the method id nor the order id plays any part, and
      an unknown payment id fails with "Payment not found" either way. */
  lemma ConfirmAndCaptureAgree(s: Store, paymentId: string, methodId: Json, orderId: Json)
    ensures ConfirmPayment(s, paymentId, methodId) == CapturePayPalPayment(s, paymentId, orderId)
    ensures paymentId !in s.payments ==> ConfirmPayment(s, paymentId, methodId) == (s, Failure(PaymentNotFound))
    ensures paymentId in s.payments ==> ConfirmPayment(s, paymentId, methodId).1.value.status == Succeeded
  {
  }

  /** Paying by card for a stored booking: the intent created for it, once
      confirmed, has succeeded, and the booking, still in place, is paid. */
  lemma CardPaymentPaysBooking(s: Store, data: map<string, Json>, bookingId: string, now: nat, nowIso: string, methodId: Json)
    requires bookingId in s.bookings && "bookingId" in data && data["bookingId"] == JStr(bookingId)
    ensures var (s1, intent) := CreatePaymentIntent(s, data, now, nowIso);
            var (s2, paid) := ConfirmPayment(s1, intent.id, methodId);
            && paid.Success? && paid.value.id == intent.id && paid.value.status == Succeeded
            && bookingId in s2.bookings
            && s2.bookings[bookingId] == s.bookings[bookingId].(paymentStatus := PaymentCompleted)
            && s2.bookings.Keys == s.bookings.Keys && s2.bookingOrder == s.bookingOrder
  {
    var (s1, intent) := CreatePaymentIntent(s, data, now, nowIso);
    var (s2, paid) := Settle(s1, intent.id);
    assert LinkedBooking(s1.bookings, paid.value) == Some(bookingId);
  }

  /** The same for PayPal: the order created for a stored booking, once
      captured, has succeeded and the booking is paid. */
  lemma PayPalPaymentPaysBooking(s: Store, data: map<string, Json>, bookingId: string, now: nat, nowIso: string, orderId: Json)
    requires bookingId in s.bookings && "bookingId" in data && data["bookingId"] == JStr(bookingId)
    ensures var (s1, order) := CreatePayPalPayment(s, data, now, nowIso);
            var (s2, paid) := CapturePayPalPayment(s1, order.id, orderId);
            && paid.Success? && paid.value.id == order.id && paid.value.status == Succeeded
            && paid.value.paypalOrderId == Some(order.paypalOrderId)
            && bookingId in s2.bookings
            && s2.bookings[bookingId] == s.bookings[bookingId].(paymentStatus := PaymentCompleted)
            && s2.bookings.Keys == s.bookings.Keys && s2.bookingOrder == s.bookingOrder
  {
    var (s1, order) := CreatePayPalPayment(s, data, now, nowIso);
    var (s2, paid) := Settle(s1, order.id);
    assert LinkedBooking(s1.bookings, paid.value) == Some(bookingId);
  }

  /** Settling twice leaves the store as settling once did. */
  lemma SettleIdempotent(s: Store, paymentId: string)
    ensures Settle(Settle(s, paymentId).0, paymentId).0 == Settle(s, paymentId).0
  {
    if paymentId in s.payments {
      var (s1, r1) := Settle(s, paymentId);
      var p := r1.value;
      assert s1.payments[paymentId] == p;
      assert p.(status := Succeeded) == p;
      var (s2, r2) := Settle(s1, paymentId);
      assert s2.payments == s1.payments;
      assert LinkedBooking(s1.bookings, p) == LinkedBooking(s.bookings, p);
      assert s2.bookings == s1.bookings;
    }
  }

  /** A payment whose booking id names no stored booking changes only itself. */
  lemma SettleUnlinked(s: Store, paymentId: string)
    requires paymentId in s.payments
    requires LinkedBooking(s.bookings, s.payments[paymentId]).None?
    ensures Settle(s, paymentId).0 == s.(payments := s.payments[paymentId := s.payments[paymentId].(status := Succeeded)])
  {
  }

  /** Settling keeps the listing invariant. */
  lemma SettleValid(s: Store, paymentId: string)
    requires Valid(s)
    ensures Valid(Settle(s, paymentId).0)
  {
  }

  // ---------------------------------------------------------------- profile

  function DefaultProfile(userId: string, nowIso: string): Profile {
    map[
      "id" := JStr(userId),
      "email" := JStr("demo@soulcare.com"),
      "fullName" := JStr("Demo User"),
      "phone" := JStr("+91 9876543210"),
      "profileComplete" := JBool(false),
      "joinedAt" := JStr(nowIso)]
  }

  /** `getProfile`: create the demo profile on first use, then return the slot. */
  function GetProfile(s: Store, nowIso: string): (r: (Store, Profile))
    ensures s.profile.Some? ==> r == (s, s.profile.value)
    ensures s.profile.None? ==> r.1 == DefaultProfile(s.userId, nowIso)
    ensures s.profile.None? ==> "profileComplete" in r.1 && r.1["profileComplete"] == JBool(false)
    ensures r.0 == s.(profile := Some(r.1))
  {
    match s.profile
    case Some(p) => (s, p)
    case None =>
      var p := DefaultProfile(s.userId, nowIso);
      (s.(profile := Some(p)), p)
  }

  /** `{...this.profile, ...data, profileComplete: true, updatedAt}`. */
  function UpdateProfile(s: Store, data: map<string, Json>, nowIso: string): (r: (Store, Profile))
    ensures r.0 == s.(profile := Some(r.1))
    ensures r.1.Keys == s.profile.GetOr(map[]).Keys + data.Keys + {"profileComplete", "updatedAt"}
    ensures r.1["profileComplete"] == JBool(true) && r.1["updatedAt"] == JStr(nowIso)
    ensures forall k :: k in data && k != "profileComplete" && k != "updatedAt" ==> r.1[k] == data[k]
    ensures forall k ::
              (s.profile.Some? && k in s.profile.value && k !in data && k != "profileComplete" && k != "updatedAt")
              ==> r.1[k] == s.profile.value[k]
  {
    var base := s.profile.GetOr(map[]);
    var p := base + data + map["profileComplete" := JBool(true), "updatedAt" := JStr(nowIso)];
    (s.(profile := Some(p)), p)
  }

  /** The profile is created once: a second `getProfile` returns the first
      one's profile and leaves the store alone. */
  lemma GetProfileStable(s: Store, iso1: string, iso2: string)
    ensures var (s1, p1) := GetProfile(s, iso1);
            GetProfile(s1, iso2) == (s1, p1)
  {
  }

  /** An update before any read still yields a complete profile, and a later
      read returns that merged profile as it is: the demo defaults (such as
      `id`) are never filled in. */
  lemma UpdateBeforeGet(s: Store, data: map<string, Json>, iso1: string, iso2: string)
    requires s.profile.None?
    requires "id" !in data
    ensures var (s1, p1) := UpdateProfile(s, data, iso1);
            && p1["profileComplete"] == JBool(true)
            && GetProfile(s1, iso2).1 == p1
            && "id" !in p1
  {
  }

  // ---------------------------------------------------------------- reads

  function GetClasses(): (cs: seq<Catalog.ClassItem>)
    ensures |cs| == 2
  {
    [ Catalog.ClassItem("class_1", "Brain Gym Morning Session", "Uncle Raj", "9:00 AM - 9:45 AM",
                        "6-10 years", "Monday", "Brain Gym", Some(500)),
      Catalog.ClassItem("class_2", "Little Yogis Meditation", "Aunt Priya", "4:00 PM - 4:30 PM",
                        "4-8 years", "Tuesday", "Meditation", Some(400)) ]
  }

  /** The two canned doctor sessions, dated today. */
  function GetDoctorSessions(today: string): (ss: seq<Catalog.SessionListing>)
    ensures |ss| == 2
    ensures forall i :: 0 <= i < |ss| ==> ss[i].sessionDate == today && ss[i].status == "scheduled"
  {
    [ Catalog.SessionListing("session_1", "patient_001", "Anxiety Management", today, "10:00", "scheduled"),
      Catalog.SessionListing("session_2", "patient_002", "Meditation Session", today, "11:30", "scheduled") ]
  }

  /** `predictAnxiety`: the shared score, stamped with the current time. */
  function PredictAnxiety(stress: real, sleep: real, overwhelmed: bool, nowIso: string): (r: MockPrediction)
    ensures r.prediction == Anxiety.Predict(stress, sleep, overwhelmed)
    ensures 0 <= r.prediction.score <= 100
    ensures r.timestamp == nowIso
  {
    MockPrediction(Anxiety.Predict(stress, sleep, overwhelmed), nowIso)
  }
}
