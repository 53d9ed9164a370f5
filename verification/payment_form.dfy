/** The payment dialog: the card-field formatters and validator, the PayPal
    currency conversion, and the card and PayPal flows as transitions of
    the dialog's state. Network answers and the access token are inputs. */
module PaymentForm {
  import opened Wrappers
  import Text
  import Json

  // ---------------------------------------------------------------- formatters

  function Min(a: int, b: int): int { if a <= b then a else b }

  /** Groups of four separated by single spaces; only the last group may be
      shorter: a space stands exactly at the positions 4, 9, 14, ... and the
      text does not end with one. */
  predicate SpacedInFours(s: string) {
    && |s| % 5 != 0
    && forall i :: 0 <= i < |s| ==> (s[i] == ' ' <==> i % 5 == 4) && (s[i] != ' ' ==> Text.IsDigit(s[i]))
  }

  /** `parts.join(' ')` over the four-character chunks of `m`. */
  function Group(m: string): (r: string)
    decreases |m|
  {
    if |m| <= 4 then m else m[..4] + " " + Group(m[4..])
  }

  /** Grouping digits puts the spaces where `SpacedInFours` says and keeps
      the digits. */
  lemma {:induction false} GroupShape(m: string)
    requires |m| >= 1 && Text.AllDigits(m)
    ensures SpacedInFours(Group(m))
    ensures Text.Digits(Group(m)) == m
    decreases |m|
  {
    if |m| > 4 {
      var rest := Group(m[4..]);
      GroupShape(m[4..]);
      var r := m[..4] + " " + rest;
      assert r == Group(m);
      forall i | 0 <= i < |r|
        ensures (r[i] == ' ' <==> i % 5 == 4) && (r[i] != ' ' ==> Text.IsDigit(r[i]))
      {
        if i >= 5 {
          assert r[i] == rest[i - 5];
        }
      }
      Text.DigitsAppend(m[..4] + " ", rest);
      Text.DigitsAppend(m[..4], " ");
      assert m == m[..4] + m[4..];
    }
  }

  /** `formatCardNumber`: the digits of the input (whitespace and every
      other character dropped); with at least four, the first sixteen of
      them grouped in fours, otherwise the bare digits. */
  function FormatCardNumber(value: string): (r: string)
    ensures var v := Text.Digits(value);
            && (|v| < 4 ==> r == v)
            && (|v| >= 4 ==> SpacedInFours(r) && Text.Digits(r) == v[..Min(16, |v|)])
  {
    var v := Text.Digits(value);
    if |v| >= 4 then
      GroupShape(v[..Min(16, |v|)]);
      Group(v[..Min(16, |v|)])
    else v
  }

  /** Reformatting a formatted card number changes nothing. */
  lemma FormatCardNumberIdempotent(value: string)
    ensures FormatCardNumber(FormatCardNumber(value)) == FormatCardNumber(value)
  {
    var v := Text.Digits(value);
    if |v| >= 4 {
      var w := v[..Min(16, |v|)];
      assert Text.Digits(FormatCardNumber(value)) == w;
      assert w[..Min(16, |w|)] == w;
    }
  }

  /** At most nineteen characters come out, so the input's length limit of
      19 never cuts a formatted number. */
  lemma FormattedCardFits(value: string)
    ensures |FormatCardNumber(value)| <= 19
  {
    var v := Text.Digits(value);
    if |v| >= 4 {
      GroupLength(v[..Min(16, |v|)]);
    }
  }

  lemma {:induction false} GroupLength(m: string)
    requires |m| >= 1 && Text.AllDigits(m)
    ensures |Group(m)| == |m| + (|m| - 1) / 4
    decreases |m|
  {
    if |m| > 4 {
      GroupLength(m[4..]);
    }
  }

  /** `formatExpiryDate`: the digits of the input; with at least two, the
      first two, a slash, and at most the next two. */
  function FormatExpiryDate(value: string): (r: string)
    ensures var v := Text.Digits(value);
            && (|v| < 2 ==> r == v)
            && (|v| >= 2 ==> 3 <= |r| <= 5 && r[2] == '/' && r[..2] == v[..2] && r[3..] == v[2..Min(4, |v|)])
  {
    var v := Text.Digits(value);
    if |v| >= 2 then v[..2] + "/" + v[2..Min(4, |v|)] else v
  }

  /** Reformatting a formatted expiry date changes nothing. */
  lemma FormatExpiryDateIdempotent(value: string)
    ensures FormatExpiryDate(FormatExpiryDate(value)) == FormatExpiryDate(value)
  {
    var v := Text.Digits(value);
    if |v| >= 2 {
      var r := FormatExpiryDate(value);
      var tail := v[2..Min(4, |v|)];
      Text.DigitsAppend(v[..2] + "/", tail);
      Text.DigitsAppend(v[..2], "/");
      assert r == v[..2] + "/" + tail;
      assert Text.Digits(r) == v[..2] + tail;
    }
  }

  // ---------------------------------------------------------------- validation

  datatype CardForm = CardForm(
    cardNumber: string,
    expiryDate: string,
    cvv: string,
    cardholderName: string,
    billingAddress: string,
    city: string,
    postalCode: string,
    country: string)

  /** `/^\d{2}\/\d{2}$/`: two digits, a slash, two digits (the month is
      not range-checked). */
  predicate ExpiryShape(e: string) {
    |e| == 5 && Text.IsDigit(e[0]) && Text.IsDigit(e[1]) && e[2] == '/' && Text.IsDigit(e[3]) && Text.IsDigit(e[4])
  }

  /** `validateCard`: the message of the first failing check, or `None`. */
  function ValidateCard(f: CardForm): (r: Option<string>)
    ensures r.None? <==>
              && 13 <= |Text.RemoveSpaces(f.cardNumber)| <= 19
              && ExpiryShape(f.expiryDate)
              && 3 <= |f.cvv| <= 4
              && !Text.IsBlank(f.cardholderName)
    ensures !(13 <= |Text.RemoveSpaces(f.cardNumber)| <= 19) ==> r == Some("Invalid card number length")
    ensures (13 <= |Text.RemoveSpaces(f.cardNumber)| <= 19 && !ExpiryShape(f.expiryDate))
            ==> r == Some("Invalid expiry date format (MM/YY)")
    ensures (13 <= |Text.RemoveSpaces(f.cardNumber)| <= 19 && ExpiryShape(f.expiryDate) && !(3 <= |f.cvv| <= 4))
            ==> r == Some("Invalid CVV")
    ensures (13 <= |Text.RemoveSpaces(f.cardNumber)| <= 19 && ExpiryShape(f.expiryDate) && 3 <= |f.cvv| <= 4
             && Text.IsBlank(f.cardholderName))
            ==> r == Some("Cardholder name is required")
  {
    var n := |Text.RemoveSpaces(f.cardNumber)|;
    if n < 13 || n > 19 then Some("Invalid card number length")
    else if !ExpiryShape(f.expiryDate) then Some("Invalid expiry date format (MM/YY)")
    else if |f.cvv| < 3 || |f.cvv| > 4 then Some("Invalid CVV")
    else if Text.IsBlank(f.cardholderName) then Some("Cardholder name is required")
    else None
  }

  /** A formatted expiry typed from four or more digits has the shape the
      validator expects. */
  lemma FormattedExpiryValidates(value: string)
    requires |Text.Digits(value)| >= 4
    ensures ExpiryShape(FormatExpiryDate(value))
  {
    var v := Text.Digits(value);
    var r := FormatExpiryDate(value);
    assert r == v[..2] + "/" + v[2..4];
    assert r[0] == v[0] && r[1] == v[1] && r[3] == v[2] && r[4] == v[3];
  }

  /** The formatter keeps at most sixteen digits, so of the lengths the
      validator accepts (13 to 19) only 13 to 16 can be typed. */
  lemma FormattedCardLength(value: string)
    ensures var n := |Text.RemoveSpaces(FormatCardNumber(value))|;
            n == Min(16, |Text.Digits(value)|)
  {
    var v := Text.Digits(value);
    var r := FormatCardNumber(value);
    RemoveSpacesOfDigitsAndSpaces(r);
    if |v| < 4 {
      assert Text.AllDigits(r);
    }
  }

  /** On text made of digits and spaces, removing whitespace keeps exactly
      the digits. */
  lemma {:induction false} RemoveSpacesOfDigitsAndSpaces(s: string)
    requires forall i :: 0 <= i < |s| ==> s[i] == ' ' || Text.IsDigit(s[i])
    ensures Text.RemoveSpaces(s) == Text.Digits(s)
  {
    if s != [] {
      RemoveSpacesOfDigitsAndSpaces(s[1..]);
    }
  }

  // ---------------------------------------------------------------- currency

  /** `Math.ceil(amount / 83)`, exactly. */
  function CeilDiv83(amount: int): (r: int)
    ensures 83 * (r - 1) < amount <= 83 * r
  {
    -((-amount) / 83)
  }

  /** The amount sent to PayPal: rupees become whole dollars at 83 per
      dollar, rounded up; other currencies pass through. */
  function UsdAmount(amount: int, currency: string): (r: int)
    ensures currency == "INR" ==> 83 * (r - 1) < amount <= 83 * r
    ensures currency != "INR" ==> r == amount
  {
    if currency == "INR" then CeilDiv83(amount) else amount
  }

  // ---------------------------------------------------------------- dialog state

  datatype Step = Details | Processing | Complete
  datatype Method = Card | PayPal

  datatype Modal = Modal(
    loading: bool,
    error: string,
    success: bool,
    step: Step,
    payMethod: Method,
    paypalOrderId: Option<string>,
    paypalTriggered: bool,
    form: CardForm)

  const EmptyForm := CardForm("", "", "", "", "", "", "", "IN")

  /** `resetForm`: empty fields, country 'IN', step 'details', method
      'card', no order id, and the PayPal auto-trigger re-armed. */
  function ResetForm(m: Modal): (r: Modal)
    ensures r.form == EmptyForm && r.error == "" && !r.success && r.step == Details
    ensures r.payMethod == Card && r.paypalOrderId.None? && !r.paypalTriggered
    ensures r.loading == m.loading
  {
    Modal(m.loading, "", false, Details, Card, None, false, EmptyForm)
  }

  /** `handleClose`: ignored while a payment is in flight. */
  function Close(m: Modal): (r: (Modal, bool))
    ensures m.loading ==> r == (m, false)
    ensures !m.loading ==> r == (ResetForm(m), true)
  {
    if m.loading then (m, false) else (ResetForm(m), true)
  }

  /** Switching tabs; choosing PayPal starts the PayPal flow the first time
      only (until the next reset). The flag says whether it starts. */
  function SelectMethod(m: Modal, choice: Method): (r: (Modal, bool))
    ensures r.0 == m.(payMethod := choice, paypalTriggered := m.paypalTriggered || choice == PayPal)
    ensures r.1 <==> choice == PayPal && !m.paypalTriggered
  {
    var starts := choice == PayPal && !m.paypalTriggered;
    (m.(payMethod := choice, paypalTriggered := m.paypalTriggered || starts), starts)
  }

  /** The auto-trigger fires at most once between resets. */
  lemma PayPalTriggersOnce(m: Modal, a: Method, b: Method)
    ensures var (m1, t1) := SelectMethod(m, a);
            var (_, t2) := SelectMethod(m1, b);
            !(t1 && t2)
    ensures SelectMethod(ResetForm(m), PayPal).1
  {
  }

  // ---------------------------------------------------------------- card flow

  /** The answer to creating a payment intent: its payment id, or a thrown
      error's message. */
  datatype IntentOutcome = IntentOk(paymentId: string) | IntentThrew(message: string)

  /** The answer to confirming: the payment's status and failure reason, or
      a thrown error's message. */
  datatype ConfirmOutcome = ConfirmOk(status: string, failureReason: Option<string>) | ConfirmThrew(message: string)

  /** The dialog after the flow, whether `onPaymentSuccess` was called, and
      the confirm endpoint that was posted to (if any). */
  datatype CardRun = CardRun(modal: Modal, paid: bool, confirmPath: Option<string>)

  /** `handleCardPayment`. */
  function CardPayment(m: Modal, token: Option<string>, intent: IntentOutcome, confirm: ConfirmOutcome): (r: CardRun)
    requires m.step == Details
    ensures ValidateCard(m.form).Some? ==>
              r == CardRun(m.(error := ValidateCard(m.form).value), false, None)
    ensures r.paid <==> r.modal.step == Complete
    ensures r.modal.step == Complete <==>
              && ValidateCard(m.form).None? && token.Some? && token.value != ""
              && intent.IntentOk? && confirm.ConfirmOk? && confirm.status == "succeeded"
    ensures ValidateCard(m.form).None? ==> !r.modal.loading && r.modal.step != Processing
    ensures r.modal.step == Complete ==> r.modal.success && r.modal.error == ""
    ensures r.confirmPath.Some? <==> ValidateCard(m.form).None? && token.Some? && token.value != "" && intent.IntentOk?
    ensures r.confirmPath.Some? ==> r.confirmPath.value == "/payments/" + intent.paymentId + "/confirm"
    ensures r.modal.form == m.form && r.modal.payMethod == m.payMethod && r.modal.paypalTriggered == m.paypalTriggered
    ensures ValidateCard(m.form).None? && (token.None? || token.value == "") ==>
              r.modal.error == "Please sign in to continue" && r.modal.step == Details
    ensures ValidateCard(m.form).None? && token.Some? && token.value != "" && intent.IntentThrew? ==>
              r.modal.error == intent.message && r.modal.step == Details
    ensures r.confirmPath.Some? && confirm.ConfirmThrew? ==> r.modal.error == confirm.message && r.modal.step == Details
    ensures r.confirmPath.Some? && confirm.ConfirmOk? && confirm.status != "succeeded" ==>
              && r.modal.error == Json.StrOr(confirm.failureReason, "Payment failed")
              && r.modal.step == Details
  {
    var v := ValidateCard(m.form);
    if v.Some? then CardRun(m.(error := v.value), false, None)
    else
      var started := m.(error := "", loading := true, step := Processing);
      if token.None? || token.value == "" then
        CardRun(Fail(started, "Please sign in to continue"), false, None)
      else
        match intent
        case IntentThrew(msg) => CardRun(Fail(started, msg), false, None)
        case IntentOk(id) =>
          var path := Some("/payments/" + id + "/confirm");
          match confirm
          case ConfirmThrew(msg) => CardRun(Fail(started, msg), false, path)
          case ConfirmOk(status, reason) =>
            if status == "succeeded" then
              CardRun(started.(step := Complete, success := true, loading := false), true, path)
            else
              var msg := Json.StrOr(reason, "Payment failed");
              CardRun(Fail(started, msg), false, path)
  }

  /** The catch and finally clauses: show the message, back to 'details',
      no longer loading. */
  function Fail(m: Modal, message: string): Modal
  {
    m.(error := message, step := Details, loading := false)
  }

  /** A validation error never leaves the details step and sends nothing. */
  lemma InvalidCardStaysOnDetails(m: Modal, token: Option<string>, intent: IntentOutcome, confirm: ConfirmOutcome)
    requires m.step == Details && ValidateCard(m.form).Some?
    ensures var r := CardPayment(m, token, intent, confirm);
            r.modal.step == Details && r.confirmPath.None? && !r.paid
  {
  }

  // ---------------------------------------------------------------- PayPal flow

  datatype BookingDetails = BookingDetails(id: string, amount: int, currency: string, description: string)

  /** The body posted to create a PayPal payment. */
  datatype PayPalCreate = PayPalCreate(amount: int, currency: string, bookingId: string, description: string)

  /** The answer to creating a PayPal payment: its id, order id and approval
      url (`None` or empty from the mock), or a thrown error's message. */
  datatype CreateOutcome = Created(paymentId: string, orderId: string, approvalUrl: Option<string>)
                         | CreateThrew(message: string)

  /** The answer to capturing: the payment's status, or a thrown message. */
  datatype CaptureOutcome = Captured(status: string) | CaptureThrew(message: string)

  /** The dialog after the flow, whether `onPaymentSuccess` was called, the
      create request (if sent), and the capture request's path and order id
      (if sent). */
  datatype PayPalRun = PayPalRun(modal: Modal, paid: bool, create: Option<PayPalCreate>,
                                 capture: Option<(string, string)>)

  function PayPalCreateBody(b: BookingDetails): (c: PayPalCreate)
    ensures c.amount == UsdAmount(b.amount, b.currency) && c.currency == "USD" && c.bookingId == b.id
  {
    PayPalCreate(UsdAmount(b.amount, b.currency), "USD", b.id,
                 b.description + " (Originally \U{20B9}" + Text.IntToString(b.amount) + ")")
  }

  /** The immediate capture of a mock PayPal payment: the dialog completes
      exactly when the capture reports "succeeded". */
  function PayPalCapture(waiting: Modal, body: PayPalCreate, path: string, orderId: string,
                         captured: CaptureOutcome): (r: PayPalRun)
    ensures r.create == Some(body) && r.capture == Some((path, orderId))
    ensures r.paid <==> r.modal.step == Complete
    ensures r.modal.step == Complete <==> captured == Captured("succeeded")
    ensures r.modal.step != Complete ==> r.modal.step == Details && !r.modal.loading
    ensures captured.CaptureThrew? ==> r.modal.error == captured.message
    ensures captured.Captured? && captured.status != "succeeded" ==> r.modal.error == NotCompleted
  {
    var capture := Some((path, orderId));
    match captured
    case Captured(status) =>
      if status == "succeeded" then
        PayPalRun(waiting.(step := Complete, success := true, loading := false), true, Some(body), capture)
      else PayPalRun(Fail(waiting, NotCompleted), false, Some(body), capture)
    case CaptureThrew(msg) => PayPalRun(Fail(waiting, msg), false, Some(body), capture)
  }

  /** The PayPal flow's catch clause wraps any thrown message. */
  function PayPalError(message: string): (r: string)
    ensures Text.StartsWith(r, "PayPal error: ")
    ensures |r| == |"PayPal error: "| + |message| + |". Please try card payment instead."|
    ensures r[|"PayPal error: "|..|"PayPal error: "| + |message|] == message
    ensures r[|"PayPal error: "| + |message|..] == ". Please try card payment instead."
  {
    var r := "PayPal error: " + message + ". Please try card payment instead.";
    assert r[..|"PayPal error: "|] == "PayPal error: ";
    assert r[|"PayPal error: "|..|"PayPal error: "| + |message|] == message;
    r
  }

  /** Messages the PayPal flow shows. */
  const NotCompleted := "PayPal payment was not completed"
  const PayPalSignIn := PayPalError("Please sign in to continue")
  const PopupMessage := "PayPal popup was blocked. Please allow popups and try again."
  const PopupBlocked := PayPalError(PopupMessage)

  /** The popup message already ends in a full stop, so the user sees two
      in a row before the card-payment advice. */
  lemma PopupBlockedText()
    ensures PopupBlocked == "PayPal error: " + PopupMessage + ". Please try card payment instead."
    ensures var k := |"PayPal error: "| + |PopupMessage|;
            PopupBlocked[k - 1..k + 2] == ".. "
  {
    var k := |"PayPal error: "| + |PopupMessage|;
    var advice0 := ". Please try card payment instead.";
    assert PopupBlocked == ("PayPal error: " + PopupMessage) + advice0;
    assert PopupBlocked[k - 1] == PopupMessage[|PopupMessage| - 1] == '.';
    assert PopupBlocked[k] == advice0[0] == '.';
    assert PopupBlocked[k + 1] == advice0[1] == ' ';
    assert PopupBlocked[k - 1..k + 2] == [PopupBlocked[k - 1], PopupBlocked[k], PopupBlocked[k + 1]];
  }

  /** The capture's order id: the one the dialog held when the flow
      started, else a fresh "mock_order_" stamp at `now`. */
  function CaptureOrderId(prior: Option<string>, now: nat): (o: string)
    ensures prior.Some? && prior.value != "" ==> o == prior.value
    ensures (prior.None? || prior.value == "") ==> Text.StartsWith(o, "mock_order_")
  {
    if prior.Some? && prior.value != "" then prior.value else "mock_order_" + Text.NatToString(now)
  }

  /** What follows the create request. Without an approval url (the mock)
      the payment is captured at once; with one, a popup opens and the
      dialog waits in 'processing' (the polling is not modelled). */
  function PayPalAfterCreate(started: Modal, body: PayPalCreate, created: CreateOutcome,
                             prior: Option<string>, popupOpened: bool, captured: CaptureOutcome,
                             now: nat): (r: PayPalRun)
    requires started.step == Processing && started.loading
    ensures r.create == Some(body)
    ensures r.paid <==> r.modal.step == Complete
    ensures r.modal.step == Complete <==>
              && created.Created?
              && (created.approvalUrl.None? || created.approvalUrl.value == "")
              && captured == Captured("succeeded")
    ensures r.capture.Some? ==>
              && created.Created?
              && r.capture.value.0 == "/payments/paypal/" + created.paymentId + "/capture"
              && r.capture.value.1 == CaptureOrderId(prior, now)
    ensures r.modal.step == Processing ==> r.modal.loading && created.Created? && r.capture.None?
    ensures created.CreateThrew? ==>
              r.modal.error == PayPalError(created.message) && r.modal.step == Details && r.capture.None?
    ensures created.Created? && created.approvalUrl.Some? && created.approvalUrl.value != "" && !popupOpened ==>
              r.modal.error == PopupBlocked && r.modal.step == Details && r.capture.None?
    ensures created.Created? && (created.approvalUrl.None? || created.approvalUrl.value == "") ==>
              && (captured.CaptureThrew? ==> r.modal.error == captured.message)
              && (captured.Captured? && captured.status != "succeeded" ==> r.modal.error == NotCompleted)
  {
    match created
    case CreateThrew(msg) =>
      PayPalRun(Fail(started, PayPalError(msg)), false, Some(body), None)
    case Created(id, orderId, url) =>
      var waiting := started.(paypalOrderId := Some(orderId));
      if url.None? || url.value == "" then
        PayPalCapture(waiting, body, "/payments/paypal/" + id + "/capture", CaptureOrderId(prior, now), captured)
      else if popupOpened then PayPalRun(waiting, false, Some(body), None)
      else
        PayPalRun(Fail(waiting, PopupBlocked),
                  false, Some(body), None)
  }

  /** `handlePayPalPayment` up to the capture: nothing is sent without a
      sign-in token. */
  function PayPalPayment(m: Modal, b: BookingDetails, token: Option<string>, created: CreateOutcome,
                         popupOpened: bool, captured: CaptureOutcome, now: nat): (r: PayPalRun)
    requires m.step == Details
    ensures (token.None? || token.value == "") ==>
              r.modal.error == PayPalSignIn
              && r.modal.step == Details && r.create.None? && !r.paid
    ensures token.Some? && token.value != "" ==>
              r == PayPalAfterCreate(m.(error := "", loading := true, step := Processing), PayPalCreateBody(b),
                                     created, m.paypalOrderId, popupOpened, captured, now)
  {
    var started := m.(error := "", loading := true, step := Processing);
    if token.None? || token.value == "" then
      PayPalRun(Fail(started, PayPalSignIn), false, None, None)
    else
      PayPalAfterCreate(started, PayPalCreateBody(b), created, m.paypalOrderId, popupOpened, captured, now)
  }

  /** A rupee booking of 2,000 is sent to PayPal as 25 dollars. */
  lemma RupeeConversionExample()
    ensures UsdAmount(2000, "INR") == 25 && UsdAmount(2000, "USD") == 2000
  {
  }
}
