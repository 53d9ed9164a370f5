# SoulCare booking app: a Dafny model

SoulCare is a wellness-booking web application. Patients browse
practitioners, book sessions and children's classes, and pay for them by
card or PayPal. Doctors get a dashboard or a portal of their patients.
This project models the application's logic as pure Dafny functions over
immutable datatypes, and proves what that logic promises.

The model covers:

- **The API client** (`ApiClient`, `src/utils/supabase/client.ts`):
  - the one-way "use the mock" latch and the health probe;
  - the request headers and the errors thrown for non-2xx answers;
  - the routing table that sends a request to the in-memory backend when
    the latch is set.
- **The in-memory backend** (`MockBackend`, `src/utils/mockBackend.ts`):
  - bookings, kept in insertion order;
  - payments, and how settling a payment marks its booking paid;
  - the lazily created profile and its merge-update;
  - the anxiety predictor.
- **The scoring rule** (`Anxiety`). The client and the edge server each
  carry their own copy.
- **The edge server** (`Server`, `src/supabase/functions/server/index.tsx`):
  - token verification for phone sessions and provider tokens;
  - doctor booking;
  - the two session listings;
  - the prediction endpoint.
- **The screens**, as state-transition functions:
  - the booking dialog and the payment dialog;
  - the patient questionnaire;
  - the doctor directory filter;
  - the doctor portal and the doctor dashboard;
  - the Gita chat classifier;
  - the children's platform and the user dashboard;
  - the authentication provider and the application shell.

Shared helpers are in four modules:

- `Wrappers` holds `Option` and `Result`.
- `Json` holds JSON values and JavaScript truthiness.
- `Text` holds digits, ASCII lower case, substring search, `split` and JavaScript whitespace.
- `Catalog` holds the listed classes and sessions.

The clock, generated ids, the time zone, network answers and the identity
provider's verdicts are parameters. Every function is total over them.

## Model

| member | source | states |
|---|---|---|
| Anxiety.Clamp | src/utils/mockBackend.ts:155 | the result lies in [0, 100]; a score already inside is kept, and one outside goes to the nearer bound |
| Anxiety.RawScoreIsReference | src/utils/mockBackend.ts:139-155 | the accumulated weights (stress/10)·40, (deviation/7.5)·30 and the overwhelmed 30 equal 4·stress + 4·\|sleep − 7.5\| + 30, clamped |
| Anxiety.LevelOf | src/utils/mockBackend.ts:161-188 | the level is low below 35, moderate from 35 to below 65, and high from 65, each in both directions |
| Anxiety.Recommendations | src/utils/mockBackend.ts:161-188 | low, moderate and high carry 4, 5 and 6 recommendations |
| Anxiety.Round | src/utils/mockBackend.ts:193 | the rounded score lies within half a point of the exact one, with halves going up |
| Anxiety.Predict | src/utils/mockBackend.ts:139-197 | the reported score is the rounded reference score, in [0, 100]; the level comes from the unrounded score; the recommendations are the level's list |
| Anxiety.BandBoundaries | src/utils/mockBackend.ts:161-169 | exactly 35 is moderate, exactly 65 is high, and everything below 35 is low |
| Anxiety.WorkedExamples | src/utils/mockBackend.ts:139-196 | stress 5 with 7 hours of sleep scores 22 (low); stress 10 with no sleep while overwhelmed is clamped to 100 (high) |
| Anxiety.ReportedScoreCanSitAboveItsBand | src/utils/mockBackend.ts:161-193 | the level is decided before rounding, so a reported 35 can still be low |
| Anxiety.ScoreMonotoneInStress | src/utils/mockBackend.ts:142 | more stress never lowers the score |
| MockBackend.Init | src/utils/mockBackend.ts:28-32 | a fresh store holds no payments, no bookings and no profile, and satisfies the listing invariant |
| MockBackend.OrderAfterSet | src/utils/mockBackend.ts:396 | a Map's insertion order gains a key only on its first `set` |
| MockBackend.CreateBooking | src/utils/mockBackend.ts:375-403 | the new booking has a timestamp id, the body's user, class and session, and is confirmed with payment pending; it is stored under its id and nothing else changes |
| MockBackend.CreateBookingListed | src/utils/mockBackend.ts:88-95 | after a booking with a fresh id, `getBookings` lists the old bookings in order and then the new one |
| MockBackend.CreateBookingVisible | src/utils/mockBackend.ts:88-95 | whatever the id, the booking just created is among those `getBookings` returns |
| MockBackend.SameMillisecondOverwrites | src/utils/mockBackend.ts:384-396 | two bookings made in the same millisecond share an id, so the second replaces the first |
| MockBackend.CreatePaymentIntent | src/utils/mockBackend.ts:309-343 | a pending card payment is stored under a timestamp id with the body's amount and booking, and the reply carries its id and a client secret; bookings and profile are untouched |
| MockBackend.CreatePayPalPayment | src/utils/mockBackend.ts:238-278 | a pending PayPal payment is stored with its order id and approval link, and the reply returns them; bookings and profile are untouched |
| MockBackend.LinkedBooking | src/utils/mockBackend.ts:294-297 | a payment is linked to a booking exactly when its booking id is a string naming a stored booking |
| MockBackend.Settle | src/utils/mockBackend.ts:345-372 | an unknown payment fails with "Payment not found" and changes nothing; a known one becomes succeeded, and only its linked booking (if any) becomes paid |
| MockBackend.ConfirmAndCaptureAgree | src/utils/mockBackend.ts:280-306 | confirming a card payment and capturing a PayPal one act identically; the method id and the order id play no part |
| MockBackend.CardPaymentPaysBooking | src/utils/mockBackend.ts:280-343 | an intent created for a stored booking, once confirmed, has succeeded and that booking is paid, the rest of the bookings in place |
| MockBackend.PayPalPaymentPaysBooking | src/utils/mockBackend.ts:238-306 | a PayPal order created for a stored booking, once captured, has succeeded with its order id and that booking is paid |
| MockBackend.SettleIdempotent | src/utils/mockBackend.ts:345-372 | settling a payment twice leaves the store as settling it once did |
| MockBackend.SettleUnlinked | src/utils/mockBackend.ts:360-365 | a payment with no stored booking changes only its own status |
| MockBackend.SettleValid | src/utils/mockBackend.ts:345-372 | settling keeps every booking listed, in order |
| MockBackend.GetProfile | src/utils/mockBackend.ts:201-217 | the first read creates the default profile, which is not yet complete; later reads return the stored one unchanged |
| MockBackend.UpdateProfile | src/utils/mockBackend.ts:220-236 | the update merges: old keys stay, the body's keys win, and the profile is marked complete and stamped |
| MockBackend.GetProfileStable | src/utils/mockBackend.ts:205-216 | a second read returns the same profile as the first |
| MockBackend.UpdateBeforeGet | src/utils/mockBackend.ts:201-236 | after an update with no prior read, a read returns the merged object without the default fields |
| MockBackend.GetClasses | src/utils/mockBackend.ts:35-75 | two canned classes are listed |
| MockBackend.GetDoctorSessions | src/utils/mockBackend.ts:107-130 | two scheduled sessions are listed, both dated today |
| MockBackend.PredictAnxiety | src/utils/mockBackend.ts:134-198 | the mock's prediction is the shared scoring rule's, stamped with the current time |
| ApiClient.ShouldUseMock | src/utils/supabase/client.ts:19-46 | a set latch answers yes without probing; otherwise the answer, and the new latch, is yes exactly when the probe did not return 2xx |
| ApiClient.AuthHeaders | src/utils/supabase/client.ts:47-59 | exactly two headers are sent: a JSON content type, and a bearer credential that is the token when one is given and the public key otherwise |
| ApiClient.NonOkError | src/utils/supabase/client.ts:86-91 | for GET and POST a truthy `error` field of an object body is thrown as `String` writes it (a number in decimal, `true`, `[object Object]`, an array comma-joined); a body without one, or not an object, gives "HTTP status: text"; an unparsable body gives the network error and a `null` body the null-read TypeError; PUT uses the status alone |
| Json.JsString | src/utils/supabase/client.ts:91 | `String` of a value: a string itself, `null`, `true`/`false`, `[object Object]`, a whole number in decimal text that parses back to it; an empty array gives nothing and a one-element array its element's text, with `null` as nothing (longer arrays: `Json.ArrayCons`) |
| Json.NumberTexts | src/utils/supabase/client.ts:91 | -42 is written "-42"; a fraction is outside the modelled numbers |
| Json.ArrayCons | src/utils/supabase/client.ts:91 | an array of two or more elements is written as its first element's text (nothing for `null`), a comma, and the text of the rest, and has no modelled text exactly when one of those has none |
| Json.ArrayText | src/utils/supabase/client.ts:91 | `[1, null, "a"]` is written "1,,a", by two steps of `Json.ArrayCons` |
| ApiClient.Request | src/utils/supabase/client.ts:61-104 | a request is sent only when the latch is clear and the probe passed; a 2xx JSON answer is returned as it came and leaves the latch alone; a 2xx answer that is not JSON raises a SyntaxError; a non-2xx answer raises `NonOkError`, unless its message sends the call to the mock, which sets the latch and routes the call by `Dispatch`; a network failure outside the fallback re-raises its own error |
| ApiClient.LatchIsOneWay | src/utils/supabase/client.ts:16-46 | once set, the latch stays set and nothing more reaches the wire |
| ApiClient.ServerErrorTextCanLatch | src/utils/supabase/client.ts:86-101 | a 500 answer whose error text is "Failed to fetch" sets the latch and is served by the mock |
| ApiClient.WithMockUser | src/utils/supabase/client.ts:155-158 | a booking body keeps its own fields, and its user becomes "mock_user" |
| ApiClient.Segment | src/utils/supabase/client.ts:140 | a path segment exists exactly when the split is long enough, and holds no slash |
| ApiClient.Dispatch | src/utils/supabase/client.ts:107-177 | GET goes only to listings; a booking path goes to `createBooking` as the mock user; anything unmatched is echoed back; capture and confirm take the payment id from segments 3 and 2 |
| ApiClient.GetTable | src/utils/supabase/client.ts:111-131 | the six GET paths `/classes`, `/sessions`, `/bookings`, `/user-classes`, `/profile` and `/doctors/sessions` each reach their own listing or profile read |
| ApiClient.CreateRoutes | src/utils/supabase/client.ts:134-146 | for POST and PUT, `/payments/paypal/create` creates a PayPal order and `/payments/create-intent` a card intent, each with the request body |
| ApiClient.ProfileAndPredictRoutes | src/utils/supabase/client.ts:134-170 | `/profile/complete` and `/ml/predict-anxiety` fall through every payment and booking pattern to the profile update and the prediction |
| ApiClient.PutRoutesAsPost | src/utils/supabase/client.ts:134-176 | a PUT is routed exactly as a POST |
| ApiClient.CaptureRoute | src/utils/supabase/client.ts:139-141 | the capture path the payment form posts reaches `capturePayPalPayment` with its own id |
| ApiClient.ConfirmIsNotCapture | src/utils/supabase/client.ts:139-150 | a confirm path never takes the capture branch that is tested before it |
| ApiClient.ConfirmRoute | src/utils/supabase/client.ts:148-151 | the confirm path the card flow posts reaches `confirmPayment` with its own id |
| ApiClient.NotAPaymentPath | src/utils/supabase/client.ts:135-151 | no session, class or doctor booking path is caught by the payment branches tested before it |
| ApiClient.BookingRoute | src/utils/supabase/client.ts:154-159 | every session, class and doctor booking path reaches `createBooking` as the mock user |
| ApiClient.Execute | src/utils/supabase/client.ts:107-176 | each route's answer: listings (all classes, all sessions, the mock user's classes and bookings, the doctor's sessions) and the profile read come from the store; the profile update keeps old fields and takes the body's; creating an order or intent stores a pending payment for the body's booking; confirm and capture settle the named payment, and a missing id fails; the prediction is the shared score of numeric inputs; a booking stores one booking under its id; an echo returns the body; a `null` body for a route that reads a field raises the TypeError naming that field, and changes nothing |
| ApiClient.NullReadError | src/utils/supabase/client.ts:107-176 | reading a field of `null` throws a TypeError whose message names the field |
| ApiClient.ExecuteBooking | src/utils/supabase/client.ts:154-159 | a routed booking is stored for "mock_user" and appears in the listing |
| ApiClient.DoctorBookingRoute | src/utils/supabase/client.ts:154-159 | a doctor's numeric booking path is a booking path |
| ApiClient.MockDoctorBooking | src/utils/supabase/client.ts:61-68 | with the latch set, booking a doctor sends nothing and stores a booking for "mock_user" |
| ApiClient.MockCardConfirm | src/utils/supabase/client.ts:148-151 | with the latch set, confirming a card payment settles exactly that payment; with a `null` body it raises the TypeError for `paymentMethodId` and changes nothing |
| Server.BearerToken | src/supabase/functions/server/index.tsx:45-46 | the token is the text after the header's first space; it has no space and is absent without a header |
| Server.VerifyUser | src/supabase/functions/server/index.tsx:43-97 | phone tokens are checked against their stored session, and others go to the provider; only an expired phone session is removed, and it is refused; a provider error is reported as "Authentication failed: " with its message, or "Invalid token" when it has none or finds no user, and a provider that throws gives "Authentication error" |
| Server.PhoneTokenAccepted | src/supabase/functions/server/index.tsx:56-80 | a phone token is accepted exactly when its session exists and has not expired |
| Server.ProviderTokenVerdict | src/supabase/functions/server/index.tsx:83-92 | a non-phone token is accepted exactly when the provider returns a user, and the phone sessions are untouched |
| Server.BookDoctorSession | src/supabase/functions/server/index.tsx:203-242 | an unverified caller gets 401; a body without date or time gets 400; otherwise one session is stored for the caller and this doctor, scheduled and unpaid |
| Server.BookingDropsExtras | src/supabase/functions/server/index.tsx:211-230 | the duration and urgency sent by the booking form are not stored |
| Server.FilterSessions | src/supabase/functions/server/index.tsx:253 | a listing keeps exactly the sessions whose owner field matches |
| Server.UserSessions | src/supabase/functions/server/index.tsx:245-260 | a verified caller gets exactly their own sessions as patient; an unverified one gets the verification error |
| Server.DoctorSessions | src/supabase/functions/server/index.tsx:263-282 | a verified caller gets exactly the sessions booked with them as doctor |
| Server.FilterAppend | src/supabase/functions/server/index.tsx:253 | filtering keeps the store's order |
| Server.ListingsPartition | src/supabase/functions/server/index.tsx:252-275 | every stored session is listed for its patient and for its doctor, and for nobody else |
| Server.SimulatePrediction | src/supabase/functions/server/index.tsx:291-347 | the server's score lies in [0, 100] |
| Server.SimulateScore | src/supabase/functions/server/index.tsx:296-312 | the server's unrounded score lies in [0, 100] |
| Server.RecommendationsAgree | src/supabase/functions/server/index.tsx:317-344 | the server's recommendation lists match the mock's word for word |
| Server.ScoresAgree | src/supabase/functions/server/index.tsx:296-312 | the server and the mock compute the same unrounded score |
| Server.ServerAgreesWithMock | src/supabase/functions/server/index.tsx:291-347 | the server and the mock give the same prediction for every input |
| Server.JsNumber | src/supabase/functions/server/index.tsx:362-363 | a JSON number converts to itself and null to 0 |
| Server.PredictEndpoint | src/supabase/functions/server/index.tsx:350-379 | a missing input is refused with 400; otherwise the answer is the shared prediction of the converted inputs |
| Server.PredictRoute | src/supabase/functions/server/index.tsx:350-379 | a body that is not JSON, or is `null`, ends in the 500 answer "Failed to run prediction"; any other non-object body lacks the inputs and gets the 400 answer; only an object body can be scored |
| BookingModal.StripPrice | src/components/booking/BookingModal.tsx:90 | removing the rupee sign and commas leaves none of either, and never lengthens the text |
| BookingModal.BasePriceOfLabel | src/components/booking/BookingModal.tsx:90 | a price label "₹n" parses back to n |
| BookingModal.Shift | src/components/booking/BookingModal.tsx:91-94 | an offset price exists exactly when the base price does, and differs from it by the offset |
| BookingModal.FindType | src/components/booking/BookingModal.tsx:120 | the found type is the first with that value, and none is found exactly when no type has it |
| BookingModal.GetSessionPrice | src/components/booking/BookingModal.tsx:89-122 | consultation costs the base price; anxiety +200, meditation −300, spiritual +100, workshop +500; any other type costs the base price |
| BookingModal.PriceOrder | src/components/booking/BookingModal.tsx:89-95 | meditation is always cheaper than a consultation |
| BookingModal.DirectoryPriceExample | src/components/booking/BookingModal.tsx:89-95 | the directory's "₹1,500" parses to 1500, and meditation then costs 1200 |
| BookingModal.ResetForm | src/components/booking/BookingModal.tsx:97-110 | the reset clears the date, the form, the held booking, the error and the success flag, and returns to the booking stage |
| BookingModal.HandleClose | src/components/booking/BookingModal.tsx:112-117 | closing is refused while loading, and otherwise resets and closes |
| BookingModal.ResetIdempotent | src/components/booking/BookingModal.tsx:97-129 | resetting twice is resetting once, and a reset form asks for a date first |
| BookingModal.ValidateBooking | src/components/booking/BookingModal.tsx:124-129 | the form passes exactly when date, type and time are all set, and the first missing one is named |
| BookingModal.HandleBooking | src/components/booking/BookingModal.tsx:131-161 | an invalid form shows its error; a signed-out user is told to sign in; otherwise a temporary booking is held and payment opens |
| BookingModal.BookBody | src/components/booking/BookingModal.tsx:174-181 | the booking request carries the six held fields, each unchanged (the date as its day number) |
| BookingModal.HandlePaymentSuccess | src/components/booking/BookingModal.tsx:163-200 | after payment the booking is posted only with a token; success means the server booked it; a failure shows the payment-received error and keeps the held booking |
| BookingModal.BookThenPay | src/components/booking/BookingModal.tsx:131-200 | a valid form, then payment, then a successful post ends in success holding the server's session |
| BookingModal.DayDisabled | src/components/booking/BookingModal.tsx:202-207 | the calendar allows exactly today through 30 days ahead |
| BookingModal.TodayDisabledAsWritten | src/components/booking/BookingModal.tsx:202-207 | as written, today is disabled at every instant except exact midnight |
| BookingModal.TodayRefusedExample | src/components/booking/BookingModal.tsx:202-207 | at 01:00 on day 0, day 0 is disabled as written and allowed by the correction |
| BookingModal.WindowSize | src/components/booking/BookingModal.tsx:202-207 | the corrected window is 31 days: yesterday and day 31 are both disabled |
| PaymentForm.GroupShape | src/components/payments/PaymentModal.tsx:79-89 | grouping digits yields groups of four separated by single spaces, and keeps the digits |
| PaymentForm.FormatCardNumber | src/components/payments/PaymentModal.tsx:75-90 | the formatted number keeps the first 16 digits of the input, in groups of four |
| PaymentForm.FormatCardNumberIdempotent | src/components/payments/PaymentModal.tsx:75-90 | formatting a formatted card number changes nothing |
| PaymentForm.FormattedCardFits | src/components/payments/PaymentModal.tsx:75-90 | a formatted card number fits the field's 19 characters |
| PaymentForm.FormatExpiryDate | src/components/payments/PaymentModal.tsx:92-98 | the expiry keeps the first four digits, with a slash after the second once there are two |
| PaymentForm.FormatExpiryDateIdempotent | src/components/payments/PaymentModal.tsx:92-98 | formatting a formatted expiry changes nothing |
| PaymentForm.ValidateCard | src/components/payments/PaymentModal.tsx:100-119 | a card passes exactly when it has 13–19 digits, an MM/YY expiry and a 3- or 4-digit code and a cardholder name that is not blank; the first failing check is named, the blank name as "Cardholder name is required" |
| PaymentForm.FormattedExpiryValidates | src/components/payments/PaymentModal.tsx:92-107 | any input with four digits formats to an expiry that passes the check |
| PaymentForm.FormattedCardLength | src/components/payments/PaymentModal.tsx:75-104 | the length check sees min(16, n) digits for an input with n digits, so an input of 13 or more digits formats to a number that passes it |
| PaymentForm.CeilDiv83 | src/components/payments/PaymentModal.tsx:134 | the result is the smallest whole number of dollars covering the amount at 83 rupees each |
| PaymentForm.UsdAmount | src/components/payments/PaymentModal.tsx:133-135 | rupees are converted up to whole dollars, and other currencies pass through |
| PaymentForm.RupeeConversionExample | src/components/payments/PaymentModal.tsx:133-135 | ₹2000 becomes $25 |
| PaymentForm.ResetForm | src/components/payments/PaymentModal.tsx:49-66 | the reset empties the form, returns to the details step with card selected, and clears the PayPal state |
| PaymentForm.Close | src/components/payments/PaymentModal.tsx:68-73 | closing is refused while loading, and otherwise resets and closes |
| PaymentForm.SelectMethod | src/components/payments/PaymentModal.tsx:308-314 | choosing PayPal starts a PayPal payment only the first time |
| PaymentForm.PayPalTriggersOnce | src/components/payments/PaymentModal.tsx:308-314 | two selections start at most one PayPal payment, and a reset allows another |
| PaymentForm.CardPayment | src/components/payments/PaymentModal.tsx:236-290 | an invalid card shows its error; otherwise the payment completes exactly when a token, the intent and the confirmation all succeed, and the confirm path names the intent's payment; a missing token shows "Please sign in to continue", a thrown intent or confirmation shows its own message, and a confirmation that is not "succeeded" shows its failure reason or "Payment failed" |
| PaymentForm.InvalidCardStaysOnDetails | src/components/payments/PaymentModal.tsx:240-244 | an invalid card sends nothing and stays on the details step |
| PaymentForm.PayPalCreateBody | src/components/payments/PaymentModal.tsx:133-144 | the PayPal order is in dollars at the converted amount, for this booking |
| PaymentForm.PayPalCapture | src/components/payments/PaymentModal.tsx:204-234 | the payment completes exactly when the capture answers "succeeded"; otherwise the form returns to details, showing the thrown message or "PayPal payment was not completed" |
| PaymentForm.CaptureOrderId | src/components/payments/PaymentModal.tsx:212 | the stored order id is used, or a mock order id is made up |
| PaymentForm.PayPalAfterCreate | src/components/payments/PaymentModal.tsx:146-201 | after the order is created it is captured and completes only on success, and the capture's own error shows as it is; a failed creation shows "PayPal error: " + its message + ". Please try card payment instead."; a blocked popup shows that sentence around the popup message |
| PaymentForm.PayPalError | src/components/payments/PaymentModal.tsx:196-200 | the PayPal error text is "PayPal error: ", then the thrown message unchanged, then ". Please try card payment instead." |
| PaymentForm.PopupBlockedText | src/components/payments/PaymentModal.tsx:173-198 | the blocked-popup text carries two periods in a row, since the popup message already ends in one |
| PaymentForm.PayPalPayment | src/components/payments/PaymentModal.tsx:121-202 | without a token nothing is sent; otherwise an order is created for the converted amount |
| PatientDetails.Remove | src/components/profile/PatientDetailsModal.tsx:111 | unticking removes every copy of the item and keeps every other entry |
| PatientDetails.RemoveAppend | src/components/profile/PatientDetailsModal.tsx:111 | removal keeps the list's order |
| PatientDetails.Toggle | src/components/profile/PatientDetailsModal.tsx:109-111 | ticking appends the item; unticking removes it and nothing else |
| PatientDetails.CheckThenUncheck | src/components/profile/PatientDetailsModal.tsx:109-111 | ticking then unticking an item that was absent restores the list |
| PatientDetails.HandleCheckboxChange | src/components/profile/PatientDetailsModal.tsx:105-142 | each category's tick changes that list alone; an unknown category changes nothing |
| PatientDetails.Back | src/components/profile/PatientDetailsModal.tsx:780-789 | Back moves one step down unless on the first step or loading |
| PatientDetails.Forward | src/components/profile/PatientDetailsModal.tsx:791-798 | Next moves one step up unless on the last step or loading |
| PatientDetails.HandleSubmit | src/components/profile/PatientDetailsModal.tsx:144-176 | submitting acts only on the last step when not loading; without a token it shows "Please sign in to continue" and sends nothing; with one it posts the questionnaire and completion instant to `/profile/complete`, then shows success, or the thrown error's message when the post fails |
| PatientDetails.ProfileBody | src/components/profile/PatientDetailsModal.tsx:154-160 | the posted body has exactly the keys personalDetails, medicalHistory, mentalHealthInfo, preferences and completedAt, each section carrying its answers and its lists |
| PatientDetails.ProfileBodyRoundTrip | src/components/profile/PatientDetailsModal.tsx:154-162 | reading the posted body back gives the whole questionnaire and the completion instant |
| PatientDetails.SubmissionCarriesQuestionnaire | src/components/profile/PatientDetailsModal.tsx:144-176 | whatever a submission posts goes to `/profile/complete` and carries the questionnaire; the dialog reports success exactly when the post was sent and went through |
| PatientDetails.HandleClose | src/components/profile/PatientDetailsModal.tsx:178-185 | closing is refused while loading, and otherwise reopens at step 1 |
| PatientDetails.Run | src/components/profile/PatientDetailsModal.tsx:780-807 | no sequence of button presses leaves the wizard's steps 1 to 4 |
| PatientDetails.ThreeNextsReachSubmit | src/components/profile/PatientDetailsModal.tsx:791-798 | three Next presses reach the submit step |
| DoctorDirectory.FilteredDoctors | src/components/DoctorDirectory.tsx:122-133 | exactly the doctors matching search, problem, tradition and availability are shown, in directory order |
| DoctorDirectory.FilterAppend | src/components/DoctorDirectory.tsx:122-133 | filtering two lists joined is joining their filtered lists |
| DoctorDirectory.FilterIdempotent | src/components/DoctorDirectory.tsx:122-133 | filtering again with the same query changes nothing |
| DoctorDirectory.ShowAllKeepsEveryone | src/components/DoctorDirectory.tsx:122-133 | an empty search with every selector on "all" shows everyone |
| DoctorDirectory.NarrowingShortens | src/components/DoctorDirectory.tsx:126-127 | choosing a tradition never shows more doctors |
| DoctorDirectory.LowerCaseIncludes | src/components/DoctorDirectory.tsx:123-129 | the search matches regardless of the case of the search term |
| DoctorDirectory.ShowingCount | src/components/DoctorDirectory.tsx:205 | the shown count never exceeds the total, and equals it exactly when every doctor matches |
| DrPortal.PatientLetter | src/components/DrPortal.tsx:56 | the i-th patient is lettered A + i |
| DrPortal.Transform | src/components/DrPortal.tsx:54-63 | each field keeps the listed value, or takes its positional default when missing or empty; risk and name come from the position |
| DrPortal.TransformAll | src/components/DrPortal.tsx:54-63 | every listed session is transformed at its own position |
| DrPortal.ListedFieldsKept | src/components/DrPortal.tsx:54-63 | a fully filled session keeps all its listed fields |
| DrPortal.PatientNamesDistinct | src/components/DrPortal.tsx:56 | the first 26 patients get different names |
| DrPortal.DatedOn | src/components/DrPortal.tsx:114-116 | the sessions dated on the day, each as often as listed and in listing order; its size is the day's count |
| DrPortal.LoadedStats | src/components/DrPortal.tsx:112-128 | today's count is the number of listed sessions dated today, the week's count the listing's size, the high-risk count the size of the high-risk list; nothing completed today |
| DrPortal.Load | src/components/DrPortal.tsx:47-163 | a failed listing shows the error demo; an empty one shows the empty demo; otherwise the transformed list; stats are counted from what is shown |
| DrPortal.ErrorStatsMatchDemo | src/components/DrPortal.tsx:132-159 | the fixed error-case stats are exactly the error demo's counts |
| DrPortal.EmptyDemoStats | src/components/DrPortal.tsx:66-128 | the empty-case demo yields 2 today, 4 this week, 1 high-risk |
| DrPortal.OneHighRisk | src/components/DrPortal.tsx:62 | a non-empty listing has exactly one high-risk patient, the first |
| DrPortal.StartSession | src/components/DrPortal.tsx:165-170 | starting marks the named session in progress and leaves the others alone |
| DrPortal.CompleteSession | src/components/DrPortal.tsx:172-180 | completing marks the named session completed and adds one to today's completed count |
| DrPortal.ClickAdvancesOne | src/components/DrPortal.tsx:332-351 | a button press moves at most the pressed session, by one stage; the completed counter rises exactly when a session completes |
| DrPortal.ClickKeepsIds | src/components/DrPortal.tsx:165-180 | button presses never change which sessions are listed |
| DrPortal.Upcoming | src/components/DrPortal.tsx:182 | the upcoming list is the sessions not completed, each as often as listed and in listing order |
| DrPortal.UpcomingPartition | src/components/DrPortal.tsx:182 | upcoming plus completed sessions account for every session |
| DrPortal.HighRisk | src/components/DrPortal.tsx:183 | the high-risk list is the high-risk sessions, each as often as listed and in listing order |
| DoctorDashboard.Enrich | src/components/DoctorDashboard.tsx:57-63 | the i-th booking gets patient i+1's name, email and phone, not yet completed |
| DoctorDashboard.EnrichAll | src/components/DoctorDashboard.tsx:57-63 | every booking is enriched at its own position |
| DoctorDashboard.BookingsForDate | src/components/DoctorDashboard.tsx:99-103 | the bookings on the chosen local day are kept, each as often as listed and in listing order |
| DoctorDashboard.UserIds | src/components/DoctorDashboard.tsx:75 | the patient set is exactly the bookings' user ids |
| DoctorDashboard.UserIdsBound | src/components/DoctorDashboard.tsx:75 | there are never more patients than bookings, and at least one when there are bookings |
| DoctorDashboard.CountsPartition | src/components/DoctorDashboard.tsx:76-77 | completed and pending bookings account for every booking |
| DoctorDashboard.StatsOf | src/components/DoctorDashboard.tsx:68-78 | today's count is the number of bookings made on today's local day, the patient count the number of distinct user ids, the completed and upcoming counts split every booking between them |
| DoctorDashboard.Load | src/components/DoctorDashboard.tsx:50-84 | a failed load changes nothing; otherwise nothing is completed and every booking is upcoming |
| DoctorDashboard.MarkComplete | src/components/DoctorDashboard.tsx:86-97 | marking flags the named booking and moves one session from upcoming to completed |
| DoctorDashboard.MarkKeepsSum | src/components/DoctorDashboard.tsx:92-96 | marking keeps completed plus upcoming unchanged |
| DoctorDashboard.MarkKeepsConsistent | src/components/DoctorDashboard.tsx:238-252 | marking a pending booking keeps the stats equal to the rows' own counts |
| DoctorDashboard.LoadConsistent | src/components/DoctorDashboard.tsx:57-78 | a loaded board's stats match its rows |
| DoctorDashboard.MarkKeepsDays | src/components/DoctorDashboard.tsx:86-103 | marking never changes how many bookings fall on a day |
| DoctorDashboard.ShownForSelection | src/components/DoctorDashboard.tsx:105 | nothing is shown until a date is chosen, then that date's bookings |
| GitaChat.FirstHitIsEarliest | src/components/GitaChatBot.tsx:46-217 | the reply's topic is the earliest keyword group the message hits; with no hit it is general |
| GitaChat.GeneralIffNoHit | src/components/GitaChatBot.tsx:219-254 | the general reply comes exactly when no group is hit |
| GitaChat.ClassifyIsEarliest | src/components/GitaChatBot.tsx:39-255 | on the lower-cased message, the topic is the earliest group hit, and general exactly when none is |
| GitaChat.KarmaBeforeLaterTopics | src/components/GitaChatBot.tsx:46-57 | a message hitting karma but not dharma gets the karma reply, whatever else it mentions |
| GitaChat.SatisfactionIsKarma | src/components/GitaChatBot.tsx:56 | "satisfaction" contains "action", so it gets the karma reply |
| GitaChat.KarmaAndFearIsKarma | src/components/GitaChatBot.tsx:56-121 | a question about karma and fear gets the karma reply, not the fear reply |
| GitaChat.SendMessage | src/components/GitaChatBot.tsx:257-293 | a blank input, or a send while loading, changes nothing; otherwise the question (its id the send instant) and the answer or apology (its id one millisecond after the reply instant, which is at least one second after the send) are appended and the input clears |
| GitaChat.QuestionAndAnswerIdsDiffer | src/components/GitaChatBot.tsx:257-293 | the question's id reads back as the send instant and the answer's as the reply instant plus one, so the two ids differ |
| GitaChat.KeyPress | src/components/GitaChatBot.tsx:295-300 | Enter without Shift sends; every other key does nothing |
| GitaChat.SendKeepsAlternation | src/components/GitaChatBot.tsx:257-293 | after the greeting, user and bot messages alternate |
| ChildrenPlatform.Enrich | src/components/ChildrenPlatform.tsx:51-57 | the first two classes are labelled Today and Tomorrow; Uncle Raj gets his picture; nothing else changes |
| ChildrenPlatform.EnrichAll | src/components/ChildrenPlatform.tsx:51-57 | every class is enriched at its own position |
| ChildrenPlatform.ImageByInstructor | src/components/ChildrenPlatform.tsx:53-55 | the picture depends on the instructor alone |
| ChildrenPlatform.LaterClassesKeepTheirDay | src/components/ChildrenPlatform.tsx:56 | from the third class on, the class is shown as listed |
| ChildrenPlatform.LoadClasses | src/components/ChildrenPlatform.tsx:43-83 | a failed load shows the one fallback class and the connection error; otherwise every listed class in order, the first labelled "Today", the second "Tomorrow", each with its instructor's picture |
| ChildrenPlatform.FilterByAge | src/components/ChildrenPlatform.tsx:197-199 | "all" keeps every class; otherwise the classes whose age group contains the tab, each as often as listed and in listing order |
| ChildrenPlatform.OwnGroupKept | src/components/ChildrenPlatform.tsx:199 | classes always appear under their own age tab |
| ChildrenPlatform.TypeColor | src/components/ChildrenPlatform.tsx:201-208 | the three class types get their own colour and every other type gets gray |
| ChildrenPlatform.TypeColorsDistinct | src/components/ChildrenPlatform.tsx:201-208 | the three class types get three different colours |
| ChildrenPlatform.VirtueColor | src/components/ChildrenPlatform.tsx:210-220 | a virtue's colour comes from the six-colour palette |
| ChildrenPlatform.VirtueColorCycle | src/components/ChildrenPlatform.tsx:210-220 | names whose lengths differ by a multiple of six share a colour; lengths 0 to 5 get six different colours |
| ChildrenPlatform.HandleClassBooking | src/components/ChildrenPlatform.tsx:155-188 | signed out opens sign-in; no token alerts; otherwise the class is booked; payment opens for the class on success and a thrown error is alerted with its message |
| ChildrenPlatform.BookedClassIsCharged | src/components/ChildrenPlatform.tsx:155-188 | the payment dialog opens exactly for an accepted, signed-in booking with a token, and then charges the class's own non-zero price, or 500 |
| ChildrenPlatform.PaymentAmount | src/components/ChildrenPlatform.tsx:491 | the class price is charged, or 500 when it is missing or zero; never 0 |
| ChildrenPlatform.FallbackAmount | src/components/ChildrenPlatform.tsx:491 | the fallback class costs 500 |
| UserDashboard.DoctorInfo | src/components/UserDashboard.tsx:129 | a known doctor id gives its table entry; any other gives "Dr. Unknown (ID: …)" |
| UserDashboard.KnownNamesAreNotUnknown | src/components/UserDashboard.tsx:103-129 | a known doctor is never shown as unknown |
| UserDashboard.UnknownIffNotInTable | src/components/UserDashboard.tsx:103-141 | a session card shows an unknown doctor exactly when the doctor id is not in the table |
| UserDashboard.ToCard | src/components/UserDashboard.tsx:113-141 | a children's class shows its instructor, class, age group and duration; a session shows its doctor and 60 minutes; the status defaults to confirmed |
| UserDashboard.UpcomingSessions | src/components/UserDashboard.tsx:113-173 | the panel shows the first three entries, in order, or the three placeholders when there are none |
| UserDashboard.CardStatus | src/components/UserDashboard.tsx:113-141 | a card's status is the entry's own, or "confirmed" |
| UserDashboard.LoadSessions | src/components/UserDashboard.tsx:64-100 | without a token nothing changes; otherwise the sessions (or the old list) come first, then the classes |
| UserDashboard.ClassesAfterSessions | src/components/UserDashboard.tsx:82-90 | when both loads succeed, all sessions come before all classes |
| UserDashboard.WithDemo | src/components/UserDashboard.tsx:37-62 | two demo sessions appear only once loading has ended with none |
| UserDashboard.DemoCards | src/components/UserDashboard.tsx:37-141 | the demo sessions show as Dr. Ananda Sharma's and Dr. Priya Mehta's |
| UserDashboard.UserStats | src/components/UserDashboard.tsx:175-191 | the profile's truthy progress numbers win, with the given defaults otherwise; each truthy progress number is kept as it is, each falsy one replaced by the session count, 85 or 4.8; without a recorded number the days active are the whole days since joining, and unknown when the join date does not parse; with no profile only the session count is known |
| UserDashboard.RecordedCountIgnoresSessions | src/components/UserDashboard.tsx:186 | a recorded non-zero session count makes the statistics independent of the session list |
| UserDashboard.DaysActiveGrow | src/components/UserDashboard.tsx:187 | days active derived from the join date never decrease as time passes |
| AuthProvider.DoctorAccount | src/components/auth/AuthProvider.tsx:102-110 | a doctor whose email names Ananda or Priya gets that fixed account, Ananda's first |
| AuthProvider.MakeUser | src/components/auth/AuthProvider.tsx:99-118 | the user keeps the role and the provider's email; the id and name come from the doctor account when there is one |
| AuthProvider.LocalPart | src/components/auth/AuthProvider.tsx:100 | the name fallback is the email up to its first "@" |
| AuthProvider.SignIn | src/components/auth/AuthProvider.tsx:87-127 | an error is thrown exactly when the provider fails, with "Sign in failed" for an empty message; on success the user is set and stored |
| AuthProvider.SignUp | src/components/auth/AuthProvider.tsx:129-175 | the same as sign-in, with the form's name and "Sign up failed" |
| AuthProvider.AnandaWins | src/components/auth/AuthProvider.tsx:103-108 | an email naming both doctors selects Ananda |
| AuthProvider.NamedDoctorAccount | src/components/auth/AuthProvider.tsx:102-110 | a doctor naming Ananda or Priya signs in and up as that fixed account |
| AuthProvider.ProviderIdKept | src/components/auth/AuthProvider.tsx:99-110 | everyone else keeps the provider's id |
| AuthProvider.SameIdEitherWay | src/components/auth/AuthProvider.tsx:150-158 | signing in and signing up give a doctor the same id |
| AuthProvider.NamesAreSubstringTests | src/components/auth/AuthProvider.tsx:103-107 | the exact-address tests add nothing to the substring tests |
| AuthProvider.SignOut | src/components/auth/AuthProvider.tsx:179-193 | storage is always cleared; the user is cleared unless the provider's sign-out fails |
| AuthProvider.SignInThenOut | src/components/auth/AuthProvider.tsx:179-193 | signing in then out leaves nobody signed in and nothing stored |
| AuthProvider.CheckSession | src/components/auth/AuthProvider.tsx:46-73 | a stored user is restored, and otherwise the user is unchanged |
| AuthProvider.ReloadRestores | src/components/auth/AuthProvider.tsx:49-57 | after a sign-in, a reload restores the same user |
| AuthProvider.AccessToken | src/components/auth/AuthProvider.tsx:195-217 | the session's token wins; else a demo token for the signed-in user; else none, and none on failure |
| AppShell.Redirect | src/App.tsx:92-111 | admins go to admin, patients to the dashboard, the fixed doctors to the portal, other doctors to the doctor view; signed-out users stay |
| AppShell.Sections | src/App.tsx:232-250 | each view shows exactly for its role and tab; the public tabs show for visitors and patients |
| AppShell.OneViewAfterRedirect | src/App.tsx:92-111 | after the redirect, a signed-in user sees exactly the one view for their role |
| AppShell.SignedOutSeesPublicTabs | src/App.tsx:247 | signed out, only the public tabs show |
| AppShell.NamedDoctorLandsOnPortal | src/App.tsx:89-111 | a doctor signing in with Ananda's or Priya's email lands on the portal |
| AppShell.OtherDoctorLandsOnDashboard | src/App.tsx:89-111 | any other doctor lands on the doctor dashboard |
| AppShell.PublicTabList | src/App.tsx:250-276 | the dashboard tab appears exactly for a signed-in user, between the fixed first two and last two tabs |
| AppShell.Columns | src/App.tsx:250 | the grid has one column per tab |
| AppShell.NavButtons | src/App.tsx:145-184 | visitors get Home and Find Doctors; patients also get their dashboard or the portal; the fixed doctors get the portal |
| AppShell.NavTargetsAreShown | src/App.tsx:145-184 | every navigation button leads to a tab the user can see |
| AppShell.RoleLabel | src/App.tsx:198 | the label is the role name with its first letter capitalised: lowering it gives the role name back |
| AppShell.RoleLabelInjective | src/App.tsx:198 | different roles show different labels |
| AppShell.RoleLabels | src/App.tsx:198 | the labels read Patient, Doctor and Admin |
| AppShell.BadgeColor | src/App.tsx:75-86 | patients (and no role) get teal, doctors blue, admins purple |
| AppShell.BadgesDistinct | src/App.tsx:75-86 | the three roles get three different badges |
| AppShell.HandleSignOut | src/App.tsx:47-54 | signing out clears storage and returns to the home tab |
| AppShell.SignOutShowsLanding | src/App.tsx:47-54 | after signing out, the landing page shows with four tabs |

## Where the code and its description differ

The model follows the code in each of these cases.

- `shouldUseMock` never remembers a successful probe. While the latch is clear, every request probes the health endpoint again.
- The catch block of `get` and `post` also catches the error they throw themselves for a non-2xx answer. A server whose error text is exactly "Failed to fetch" therefore sets the latch (`ApiClient.ServerErrorTextCanLatch`).
- Suppose `updateProfile` runs before any `getProfile`. The stored profile is then the merged body. A later `getProfile` returns it without the default id, email and name (`MockBackend.UpdateBeforeGet`).
- The anxiety level is decided on the unrounded score, while the reported score is rounded. A reported 35 can therefore sit in the low band (`Anxiety.ReportedScoreCanSitAboveItsBand`).

## Findings

| source | as written | input that shows it | evidently intended | confidence | as-written member | corrected member |
|---|---|---|---|---|---|---|
| src/components/booking/BookingModal.tsx:202-207 | `date < today` compares the calendar's midnight with the current instant, so today counts as past | 01:00 on day 0 (instant 3,600,000 ms): day 0 is disabled | bookable from today through 30 days ahead | not executed | BookingModal.TodayRefusedExample | BookingModal.DayDisabled |

## Left out

- Networking, timers, popups and polling are not modelled. This covers the 3 s probe and 10 s request timeouts, the simulated latency, and the PayPal popup, its polling and its 10-minute limit. Each outcome of these is an input.
- The clock, generated ids and random values are parameters. The random statistics shown without a profile are modelled as `None`.
- Numbers are exact rationals. The model has no IEEE rounding and no NaN, and `Number()` is modelled only on JSON numbers, null and booleans.
- Case mapping is ASCII only, and lengths count code points rather than UTF-16 units.
- Dates are day numbers with a fixed time-zone offset. Locale formatting (`toLocaleString`, `toLocaleDateString`) is not modelled.
- ApiClient.NonOkError: an `error` field holding a fractional number, a number of magnitude 10^21 or more, or an array containing one, gives the "HTTP status: text" fallback here. JavaScript would throw that number's own text, and number formatting beyond whole decimals is not modelled (`Json.JsString` is `None` for these).
- BookingModal.HandlePaymentSuccess: the booking date is sent as a day number, not as the `yyyy-MM-dd` text the dialog sends, because calendar formatting is left out.
- BookingModal.BookBody: the date is carried as the held day number rather than the `yyyy-MM-dd` text, for the same reason.
- Local storage never fails to parse here. A stored user is read as an already-parsed value.
- Rendering, icons, CSS classes beyond the named colours, and `getRoleIcon` are left out, because they are presentation only.
- JSON decoding of request bodies is left out. Only the routing decision and the stored fields are modelled.
- The auth state listener (`onAuthStateChange`) and `loadUserProfile` are left out, because they only mirror provider events.
- The placeholder card ids are numbers in the source and strings here.
- PaymentForm.PayPalCapture: the capture's second read of the access token is assumed to succeed, so its "Invalid payment session" path is not modelled.
- ChildrenPlatform's `handlePaymentSuccess` is left out, because it only shows an alert and resets the selection.
- The order of the server's key-value prefix scan is taken to be the store's order.
- The server's health route, its CORS handling, `initializeSampleData` and `generateOTP` are not part of this model.
- PaymentForm.FormatCardNumber and the other formatters: only ASCII digits count as digits.
- Server.SimulatePrediction: its contract states only the score's range; its agreement with the mock is stated separately by `Server.ServerAgreesWithMock`.
- ApiClient.Execute: a string or array body spread into the profile update or a booking (`{...data}`) copies its index keys ("0", "1", …) in JavaScript; here such a body adds no fields (`ApiClient.Spread` gives the empty map), because only object bodies are sent by the screens.
- ApiClient.Execute: a prediction whose stress or sleep is not a JSON number is `Unscored` here; JavaScript would compute with the value, giving `NaN` for most strings, and NaN is not modelled.
- PatientDetails.HandleSubmit: the `onComplete` callback and the two-second timer that closes the dialog after success are not modelled; the close itself is `PatientDetails.HandleClose`.
- MockBackend.GetClasses: only the count of the canned classes is stated, because their contents are fixed data.
