/** The doctor-booking dialog: session pricing from the doctor's price
    label, the booking form's validation, the temporary booking handed to
    the payment dialog, the server booking made only after payment, and the
    calendar's selectable dates. Calendar dates are day numbers; the clock
    is a millisecond count `now` on the same (local) time line. */
module BookingModal {
  import opened Wrappers
  import opened Json
  import Text

  // ------------------------------------------------------------ pricing

  /** `s.replace(/[₹,]/g, '')`: the price label without rupee signs and
      thousands separators. */
  function StripPrice(s: string): (r: string)
    ensures forall i :: 0 <= i < |r| ==> r[i] != '\U{20B9}' && r[i] != ','
    ensures |r| <= |s|
  {
    if s == [] then []
    else (if s[0] == '\U{20B9}' || s[0] == ',' then [] else [s[0]]) + StripPrice(s[1..])
  }

  lemma {:induction false} StripPriceOfDigits(s: string)
    requires Text.AllDigits(s)
    ensures StripPrice(s) == s
  {
    if s != [] {
      StripPriceOfDigits(s[1..]);
      assert s == [s[0]] + s[1..];
    }
  }

  /** The doctor's base price: `parseInt` of the stripped label, `None`
      standing for `NaN`. */
  function BasePrice(priceLabel: string): Option<int> {
    Text.ParseInt(StripPrice(priceLabel))
  }

  /** A label "₹" followed by a rendered price parses back to that price. */
  lemma BasePriceOfLabel(n: nat)
    ensures BasePrice("\U{20B9}" + Text.NatToString(n)) == Some(n)
  {
    var digits := Text.NatToString(n);
    StripPriceOfDigits(digits);
    var s := "\U{20B9}" + digits;
    assert s[1..] == digits;
    assert StripPrice(s) == StripPrice(digits);
    Text.ParseIntOfNatToString(n);
  }

  /** `NaN` plus or minus anything stays `NaN`. */
  function Shift(base: Option<int>, offset: int): (r: Option<int>)
    ensures r.Some? <==> base.Some?
    ensures r.Some? ==> r.value - offset == base.value
  {
    if base.Some? then Some(base.value + offset) else None
  }

  datatype SessionType = SessionType(value: string, title: string, offset: int)

  /** The five session types and their offsets from the base price. */
  const SessionTypes: seq<SessionType> := [
    SessionType("consultation", "General Consultation", 0),
    SessionType("anxiety", "Anxiety Support Session", 200),
    SessionType("meditation", "Guided Meditation", -300),
    SessionType("spiritual", "Spiritual Guidance", 100),
    SessionType("workshop", "Personal Workshop", 500)
  ]

  /** `types.find(t => t.value === value)`. */
  function FindType(types: seq<SessionType>, value: string): (r: Option<SessionType>)
    ensures r.Some? ==> r.value in types && r.value.value == value
    ensures r.None? <==> forall i :: 0 <= i < |types| ==> types[i].value != value
    ensures r.Some? && types != [] && types[0].value == value ==> r.value == types[0]
  {
    if types == [] then None
    else if types[0].value == value then Some(types[0])
    else FindType(types[1..], value)
  }

  /** `getSessionPrice`: the selected type's price, else the base price. */
  function GetSessionPrice(priceLabel: string, sessionType: string): (r: Option<int>)
    ensures sessionType == "consultation" ==> r == BasePrice(priceLabel)
    ensures sessionType == "anxiety" ==> r == Shift(BasePrice(priceLabel), 200)
    ensures sessionType == "meditation" ==> r == Shift(BasePrice(priceLabel), -300)
    ensures sessionType == "spiritual" ==> r == Shift(BasePrice(priceLabel), 100)
    ensures sessionType == "workshop" ==> r == Shift(BasePrice(priceLabel), 500)
    ensures sessionType !in {"consultation", "anxiety", "meditation", "spiritual", "workshop"} ==>
              r == BasePrice(priceLabel)
  {
    var found := FindType(SessionTypes, sessionType);
    if found.Some? then Shift(BasePrice(priceLabel), found.value.offset) else BasePrice(priceLabel)
  }

  /** With a readable base price, the five types are ordered meditation,
      consultation, spiritual, anxiety, workshop from cheapest up. */
  lemma PriceOrder(priceLabel: string)
    requires BasePrice(priceLabel).Some?
    ensures GetSessionPrice(priceLabel, "meditation").value < GetSessionPrice(priceLabel, "consultation").value
            < GetSessionPrice(priceLabel, "spiritual").value < GetSessionPrice(priceLabel, "anxiety").value
            < GetSessionPrice(priceLabel, "workshop").value
  {
  }

  lemma {:induction false} StripPriceAppend(a: string, b: string)
    ensures StripPrice(a + b) == StripPrice(a) + StripPrice(b)
  {
    if a != [] {
      StripPriceAppend(a[1..], b);
      assert (a + b)[1..] == a[1..] + b;
    } else {
      assert a + b == b;
    }
  }

  lemma StripExample()
    ensures StripPrice("\U{20B9}1,500") == "1500"
  {
    assert "\U{20B9}1,500" == "\U{20B9}1" + ",500";
    StripPriceAppend("\U{20B9}1", ",500");
    assert StripPrice("\U{20B9}1") == "1" by {
      assert "\U{20B9}1"[1..] == "1";
    }
    assert StripPrice(",500") == "500" by {
      assert ",500"[1..] == "500";
      StripPriceOfDigits("500");
    }
  }

  lemma RenderExample()
    ensures Text.NatToString(1500) == "1500"
  {
    assert Text.NatToString(1) == "1";
    assert Text.NatToString(15) == "15";
    assert Text.NatToString(150) == "150";
  }

  lemma ParseExample()
    ensures Text.ParseInt("1500") == Some(1500)
  {
    RenderExample();
    Text.ParseIntOfNatToString(1500);
  }

  /** A directory price of "₹1,500" makes a meditation session 1,200. */
  lemma DirectoryPriceExample()
    ensures BasePrice("\U{20B9}1,500") == Some(1500)
    ensures GetSessionPrice("\U{20B9}1,500", "meditation") == Some(1200)
  {
    StripExample();
    ParseExample();
  }

  // ------------------------------------------------------------ the form

  datatype BookingForm = BookingForm(sessionType: string, timeSlot: string, duration: string,
                                     notes: string, urgency: string)

  datatype Stage = Booking | Payment

  /** The booking handed to the payment dialog before anything is stored. */
  datatype TempBooking = TempBooking(id: string, doctorId: nat, sessionDay: int, sessionTime: string,
                                     sessionType: string, duration: string, notes: string, urgency: string)

  /** `bookingResult`: nothing, the temporary booking, or the session the
      server stored. */
  datatype Held = NoBooking | Temp(temp: TempBooking) | Booked(session: Json)

  datatype Dialog = Dialog(loading: bool, error: string, success: bool, stage: Stage,
                           paymentOpen: bool, held: Held, date: Option<int>, form: BookingForm)

  const EmptyBookingForm := BookingForm("", "", "60", "", "normal")

  /** `resetForm`: no date, the empty form with duration "60" and urgency
      "normal", no error, no success, the booking stage, nothing held. */
  function ResetForm(d: Dialog): (r: Dialog)
    ensures r.date.None? && r.form == EmptyBookingForm && r.held.NoBooking?
    ensures r.error == "" && !r.success && r.stage == Booking
    ensures r.loading == d.loading && r.paymentOpen == d.paymentOpen
  {
    d.(date := None, form := EmptyBookingForm, error := "", success := false, stage := Booking,
       held := NoBooking)
  }

  /** `handleClose`: ignored while loading; otherwise the dialog resets and
      closes. */
  function HandleClose(d: Dialog): (r: (Dialog, bool))
    ensures d.loading ==> r == (d, false)
    ensures !d.loading ==> r == (ResetForm(d), true)
  {
    if d.loading then (d, false) else (ResetForm(d), true)
  }

  /** Resetting twice is resetting once, and a reset form asks for a date. */
  lemma ResetIdempotent(d: Dialog)
    ensures ResetForm(ResetForm(d)) == ResetForm(d)
    ensures ValidateBooking(ResetForm(d).date, ResetForm(d).form) == Some("Please select a date")
  {
  }

  /** `validateBooking`: the first missing choice, in the order date,
      session type, time slot. */
  function ValidateBooking(date: Option<int>, f: BookingForm): (r: Option<string>)
    ensures r.None? <==> date.Some? && f.sessionType != "" && f.timeSlot != ""
    ensures date.None? ==> r == Some("Please select a date")
    ensures date.Some? && f.sessionType == "" ==> r == Some("Please select a session type")
    ensures date.Some? && f.sessionType != "" && f.timeSlot == "" ==> r == Some("Please select a time slot")
  {
    if date.None? then Some("Please select a date")
    else if f.sessionType == "" then Some("Please select a session type")
    else if f.timeSlot == "" then Some("Please select a time slot")
    else None
  }

  /** `handleBooking`: after validation and the sign-in check, hold a
      temporary booking stamped "temp_" + `now` and open the payment
      dialog; nothing is sent to the server. */
  function HandleBooking(d: Dialog, signedIn: bool, doctorId: nat, now: nat): (r: Dialog)
    ensures ValidateBooking(d.date, d.form).Some? ==>
              r == d.(error := ValidateBooking(d.date, d.form).value)
    ensures ValidateBooking(d.date, d.form).None? && !signedIn ==>
              r == d.(error := "Please sign in to book a session")
    ensures r.paymentOpen != d.paymentOpen || r.held != d.held ==>
              ValidateBooking(d.date, d.form).None? && signedIn
    ensures ValidateBooking(d.date, d.form).None? && signedIn ==>
              && r.paymentOpen && r.error == "" && r.held.Temp?
              && Text.StartsWith(r.held.temp.id, "temp_")
              && r.held.temp.doctorId == doctorId
              && Some(r.held.temp.sessionDay) == d.date
              && r.held.temp.sessionTime == d.form.timeSlot
              && r.held.temp.sessionType == d.form.sessionType
              && r.held.temp.duration == d.form.duration
              && r.held.temp.notes == d.form.notes
              && r.held.temp.urgency == d.form.urgency
  {
    var v := ValidateBooking(d.date, d.form);
    if v.Some? then d.(error := v.value)
    else if !signedIn then d.(error := "Please sign in to book a session")
    else
      var temp := TempBooking("temp_" + Text.NatToString(now), doctorId, d.date.value, d.form.timeSlot,
                              d.form.sessionType, d.form.duration, d.form.notes, d.form.urgency);
      d.(error := "", held := Temp(temp), paymentOpen := true)
  }

  // ------------------------------------------------------------ after payment

  const BookingFailed := "Payment successful but booking failed. Please contact support."

  /** The server's answer to the booking request: the stored session, or a
      thrown error. */
  datatype BookAnswer = BookedSession(session: Json) | BookThrew

  /** The body posted to `/doctors/{id}/book`: the held booking's fields. */
  function BookBody(t: TempBooking): (b: map<string, Json>)
    ensures b.Keys == {"sessionDate", "sessionTime", "sessionType", "duration", "notes", "urgency"}
    ensures b["sessionTime"] == JStr(t.sessionTime) && b["sessionType"] == JStr(t.sessionType)
    ensures b["duration"] == JStr(t.duration) && b["notes"] == JStr(t.notes) && b["urgency"] == JStr(t.urgency)
    ensures b["sessionDate"] == JNum(t.sessionDay as real)
  {
    map["sessionDate" := JNum(t.sessionDay as real), "sessionTime" := JStr(t.sessionTime),
        "sessionType" := JStr(t.sessionType), "duration" := JStr(t.duration),
        "notes" := JStr(t.notes), "urgency" := JStr(t.urgency)]
  }

  /** `handlePaymentSuccess`: the payment dialog closes, and only now is
      the booking sent; without a token nothing is sent. The request (path
      and body), if any, is returned beside the dialog. The payment dialog
      is shown only for a held temporary booking, and only from the form,
      which the success view replaces. */
  function HandlePaymentSuccess(d: Dialog, doctorId: nat, token: Option<string>, answer: BookAnswer)
    : (r: (Dialog, Option<(string, map<string, Json>)>))
    requires d.held.Temp? && !d.success
    ensures !r.0.paymentOpen && !r.0.loading
    ensures r.1.Some? <==> token.Some? && token.value != ""
    ensures r.1.Some? ==> r.1.value == ("/doctors/" + Text.NatToString(doctorId) + "/book", BookBody(d.held.temp))
    ensures r.0.success <==> r.1.Some? && answer.BookedSession?
    ensures r.0.success ==> r.0.held == Booked(answer.session) && r.0.error == d.error
    ensures !r.0.success ==> r.0.error == BookingFailed && r.0.held == d.held && r.0.success == d.success
  {
    var closing := d.(paymentOpen := false, loading := true);
    if token.None? || token.value == "" then
      (closing.(error := BookingFailed, loading := false), None)
    else
      var request := ("/doctors/" + Text.NatToString(doctorId) + "/book", BookBody(d.held.temp));
      match answer
      case BookedSession(session) =>
        (closing.(held := Booked(session), success := true, loading := false), Some(request))
      case BookThrew =>
        (closing.(error := BookingFailed, loading := false), Some(request))
  }

  /** Booking and paying in one go: a valid, signed-in form whose payment
      succeeds and whose server booking is accepted ends in success, and
      the request carries the form's choices. */
  lemma BookThenPay(d: Dialog, doctorId: nat, now: nat, token: string, session: Json)
    requires ValidateBooking(d.date, d.form).None? && token != "" && !d.success
    ensures var held := HandleBooking(d, true, doctorId, now);
            var r := HandlePaymentSuccess(held, doctorId, Some(token), BookedSession(session));
            && r.0.success && r.0.held == Booked(session)
            && r.1.Some? && r.1.value.1["sessionTime"] == JStr(d.form.timeSlot)
            && r.1.value.1["sessionType"] == JStr(d.form.sessionType)
  {
  }

  // ------------------------------------------------------------ calendar

  const DayMs: nat := 86_400_000

  /** The day number `now` falls on. */
  function Today(now: nat): (t: nat)
    ensures t * DayMs <= now < (t + 1) * DayMs
  {
    now / DayMs
  }

  /** `isDateDisabled` as written: the calendar's midnight date is compared
      with the current instant and with the instant thirty days later. */
  predicate DateDisabledAsWritten(day: int, now: nat) {
    day * DayMs < now || day * DayMs > now + 30 * DayMs
  }

  /** The selectable window evidently intended: today through thirty days
      from today. It differs from the code as written on today alone, which
      the code disables at every instant but midnight. */
  function DayDisabled(day: int, now: nat): (r: bool)
    ensures r <==> DateDisabledAsWritten(day, now) && day != Today(now)
  {
    CorrectionOnlyToday(day, now);
    day < Today(now) || day > Today(now) + 30
  }

  lemma CorrectionOnlyToday(day: int, now: nat)
    ensures (day < Today(now) || day > Today(now) + 30) <==> DateDisabledAsWritten(day, now) && day != Today(now)
  {
    var t := Today(now);
    if day < t {
      assert day * DayMs <= (t - 1) * DayMs;
    } else if day > t + 30 {
      assert day * DayMs >= (t + 31) * DayMs;
    } else if day > t {
      assert day * DayMs <= (t + 30) * DayMs;
    }
  }

  /** As written, today is selectable only at the stroke of midnight. */
  lemma TodayDisabledAsWritten(now: nat)
    ensures DateDisabledAsWritten(Today(now), now) <==> now % DayMs != 0
    ensures !DayDisabled(Today(now), now)
  {
  }

  /** At one in the morning of day 0, the code as written refuses day 0. */
  lemma TodayRefusedExample()
    ensures DateDisabledAsWritten(0, 3_600_000) && !DayDisabled(0, 3_600_000)
  {
    TodayDisabledAsWritten(3_600_000);
  }

  /** The corrected window holds exactly thirty-one days. */
  lemma WindowSize(now: nat)
    ensures forall day :: Today(now) <= day <= Today(now) + 30 ==> !DayDisabled(day, now)
    ensures DayDisabled(Today(now) - 1, now) && DayDisabled(Today(now) + 31, now)
  {
  }
}
