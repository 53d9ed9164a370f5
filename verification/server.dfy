/** The edge server's rules: bearer-token classification, booking a doctor
    session, the per-user and per-doctor session listings, and the
    prediction endpoint. The key-value store and the hosted auth provider
    are given as values (a map of phone sessions, the provider's answer);
    the clock is a parameter. */
module Server {
  import opened Wrappers
  import opened Json
  import Text
  import Anxiety

  // ---------------------------------------------------------------- verifyUser

  /** A stored phone session. `expiresAt` is the parsed expiry instant in
      milliseconds, `None` when the stored text does not parse as a date. */
  datatype PhoneSession = PhoneSession(userId: string, phone: string, expiresAt: Option<int>)

  /** What the hosted auth provider answered for a token: a user, an error
      (whose message may be empty), neither, or a thrown exception. */
  datatype ProviderAnswer = ProviderUser(id: string) | ProviderError(message: string) | NoUser | ProviderThrew

  datatype User = PhoneUser(id: string, phone: string) | AccountUser(id: string)

  datatype Verified = Verified(user: User) | Denied(error: string)

  const PhonePrefix := "phone_token_"

  /** The kv key of a phone session. */
  function SessionKey(token: string): string {
    "phone_session:" + token
  }

  /** `authHeader?.split(' ')[1]`: the text after the first space, up to the
      next one; `None` when the header is missing or has no space. */
  function BearerToken(authHeader: Option<string>): (t: Option<string>)
    ensures authHeader.None? ==> t.None?
    ensures t.Some? ==> ' ' !in t.value
  {
    match authHeader
    case None => None
    case Some(h) =>
      var parts := Text.Split(h, ' ');
      Text.SplitPiecesFree(h, ' ');
      if |parts| >= 2 then Some(parts[1]) else None
  }

  /** `verifyUser`: returns the verdict and the phone-session table after the
      call (an expired session is deleted). The provider is consulted only
      for tokens that are not phone tokens. */
  function VerifyUser(authHeader: Option<string>, phoneSessions: map<string, PhoneSession>,
                      provider: ProviderAnswer, now: int): (r: (Verified, map<string, PhoneSession>))
    ensures var tok := BearerToken(authHeader);
            && (tok.None? || tok.value == "" ==> r == (Denied("No access token provided"), phoneSessions))
            && (tok.Some? && tok.value != "" && Text.StartsWith(tok.value, PhonePrefix) ==>
                  var key := SessionKey(tok.value);
                  && (key !in phoneSessions ==> r == (Denied("Invalid phone session token"), phoneSessions))
                  && (key in phoneSessions && Expired(phoneSessions[key], now) ==>
                        r == (Denied("Phone session expired"), phoneSessions - {key}))
                  && (key in phoneSessions && !Expired(phoneSessions[key], now) ==>
                        r == (Verified(PhoneUser(phoneSessions[key].userId, phoneSessions[key].phone)), phoneSessions)))
    ensures var tok := BearerToken(authHeader);
            tok.Some? && tok.value != "" && !Text.StartsWith(tok.value, PhonePrefix) ==>
              && r.1 == phoneSessions
              && (provider.ProviderUser? ==> r.0 == Verified(AccountUser(provider.id)))
              && (provider.ProviderError? && provider.message != "" ==>
                    r.0 == Denied("Authentication failed: " + provider.message))
              && ((provider.ProviderError? && provider.message == "") || provider.NoUser? ==>
                    r.0 == Denied("Authentication failed: Invalid token"))
              && (provider.ProviderThrew? ==> r.0 == Denied("Authentication error"))
    ensures r.0.Verified? && r.0.user.PhoneUser? ==> r.1 == phoneSessions
    ensures r.1 != phoneSessions ==> r.0 == Denied("Phone session expired")
  {
    var tok := BearerToken(authHeader);
    if tok.None? || tok.value == "" then (Denied("No access token provided"), phoneSessions)
    else if Text.StartsWith(tok.value, PhonePrefix) then
      var key := SessionKey(tok.value);
      if key !in phoneSessions then (Denied("Invalid phone session token"), phoneSessions)
      else if Expired(phoneSessions[key], now) then (Denied("Phone session expired"), phoneSessions - {key})
      else (Verified(PhoneUser(phoneSessions[key].userId, phoneSessions[key].phone)), phoneSessions)
    else
      match provider
      case ProviderUser(id) => (Verified(AccountUser(id)), phoneSessions)
      case ProviderError(m) => (Denied("Authentication failed: " + (if m == "" then "Invalid token" else m)), phoneSessions)
      case NoUser => (Denied("Authentication failed: Invalid token"), phoneSessions)
      case ProviderThrew => (Denied("Authentication error"), phoneSessions)
  }

  /** `new Date() > new Date(expiresAt)`: an unparseable expiry compares
      false, so such a session never expires. */
  predicate Expired(p: PhoneSession, now: int) {
    p.expiresAt.Some? && now > p.expiresAt.value
  }

  /** A phone token is accepted exactly when its session exists and the
      clock has not passed its expiry; the user is the session's user. */
  lemma PhoneTokenAccepted(token: string, phoneSessions: map<string, PhoneSession>,
                           provider: ProviderAnswer, now: int)
    requires ' ' !in token && Text.StartsWith(token, PhonePrefix)
    ensures var (v, _) := VerifyUser(Some("Bearer " + token), phoneSessions, provider, now);
            && (v.Verified? <==> SessionKey(token) in phoneSessions && !Expired(phoneSessions[SessionKey(token)], now))
            && (v.Verified? ==> v.user.id == phoneSessions[SessionKey(token)].userId)
  {
    BearerOf(token);
  }

  /** The provider's verdict never touches the phone sessions, and a
      provider error always denies. */
  lemma ProviderTokenVerdict(token: string, phoneSessions: map<string, PhoneSession>,
                             provider: ProviderAnswer, now: int)
    requires ' ' !in token && token != "" && !Text.StartsWith(token, PhonePrefix)
    ensures var (v, sessions') := VerifyUser(Some("Bearer " + token), phoneSessions, provider, now);
            && sessions' == phoneSessions
            && (v.Verified? <==> provider.ProviderUser?)
            && (v.Verified? ==> v.user == AccountUser(provider.id))
  {
    BearerOf(token);
  }

  lemma BearerOf(token: string)
    requires ' ' !in token
    ensures BearerToken(Some("Bearer " + token)) == Some(token)
  {
    Text.SplitNoSep(token, ' ');
    Text.SplitCons("Bearer", ' ', token);
    assert "Bearer" + [' '] + token == "Bearer " + token;
  }

  // ---------------------------------------------------------------- doctor sessions

  /** A session as the booking endpoint stores it: the listed fields only. */
  datatype DoctorSession = DoctorSession(
    id: string,
    userId: string,
    doctorId: string,
    sessionDate: Json,
    sessionTime: Json,
    sessionType: Json,
    notes: Json,
    status: string,
    bookedAt: string,
    paymentStatus: string)

  datatype BookResponse =
    | BookUnauthorized(error: string)
    | BookBadRequest(error: string)
    | BookFailed(error: string)
    | BookOk(message: string, session: DoctorSession)

  function BookStatus(r: BookResponse): nat {
    match r
    case BookUnauthorized(_) => 401
    case BookBadRequest(_) => 400
    case BookFailed(_) => 500
    case BookOk(_, _) => 200
  }

  /** A destructured request field: `undefined` when the body is not an
      object or lacks the key. */
  function BodyField(body: Json, key: string): (r: Option<Json>)
    ensures r.Some? ==> body.JObj? && key in body.fields && r.value == body.fields[key]
  {
    if body.JObj? then Field(body.fields, key) else None
  }

  /** `POST /doctors/:doctorId/book`. `body` is `None` when the request body
      is not JSON; destructuring a `null` body throws. On success the
      session is stored under "session:" + its id. */
  function BookDoctorSession(verdict: Verified, doctorId: string, body: Option<Json>,
                             sessions: map<string, DoctorSession>, now: nat, nowIso: string)
    : (r: (BookResponse, map<string, DoctorSession>))
    ensures verdict.Denied? ==> r == (BookUnauthorized(verdict.error), sessions)
    ensures verdict.Verified? && (body.None? || body == Some(JNull)) ==> r == (BookFailed("Failed to book session"), sessions)
    ensures (verdict.Verified? && body.Some? && body.value != JNull
             && (!Present(BodyField(body.value, "sessionDate")) || !Present(BodyField(body.value, "sessionTime"))))
            ==> r == (BookBadRequest("Session date and time are required"), sessions)
    ensures r.0.BookOk? <==>
              (&& verdict.Verified? && body.Some? && body.value != JNull
               && Present(BodyField(body.value, "sessionDate")) && Present(BodyField(body.value, "sessionTime")))
    ensures r.0.BookOk? ==>
              var s := r.0.session;
              && s.userId == verdict.user.id && s.doctorId == doctorId
              && s.id == "session_" + verdict.user.id + "_" + doctorId + "_" + Text.NatToString(now)
              && Some(s.sessionDate) == BodyField(body.value, "sessionDate")
              && Some(s.sessionTime) == BodyField(body.value, "sessionTime")
              && s.sessionType == OrElse(BodyField(body.value, "sessionType"), JStr("consultation"))
              && s.notes == OrElse(BodyField(body.value, "notes"), JStr(""))
              && s.status == "scheduled" && s.paymentStatus == "pending" && s.bookedAt == nowIso
              && r.1 == sessions["session:" + s.id := s]
    ensures !r.0.BookOk? ==> r.1 == sessions
  {
    if verdict.Denied? then (BookUnauthorized(verdict.error), sessions)
    else if body.None? || body.value == JNull then (BookFailed("Failed to book session"), sessions)
    else
      var b := body.value;
      var date := BodyField(b, "sessionDate");
      var time := BodyField(b, "sessionTime");
      if !Present(date) || !Present(time) then (BookBadRequest("Session date and time are required"), sessions)
      else
        var id := "session_" + verdict.user.id + "_" + doctorId + "_" + Text.NatToString(now);
        var s := DoctorSession(id, verdict.user.id, doctorId, date.value, time.value,
                               OrElse(BodyField(b, "sessionType"), JStr("consultation")),
                               OrElse(BodyField(b, "notes"), JStr("")),
                               "scheduled", nowIso, "pending");
        (BookOk("Doctor session booked successfully", s), sessions["session:" + s.id := s])
  }

  /** A booking form's extra fields (duration, urgency) are not stored, and
      empty optional fields fall back to their defaults. */
  lemma BookingDropsExtras(u: User, doctorId: string, date: string, time: string,
                           sessions: map<string, DoctorSession>, now: nat, nowIso: string)
    requires date != "" && time != ""
    ensures var body := JObj(map["sessionDate" := JStr(date), "sessionTime" := JStr(time),
                                 "sessionType" := JStr(""), "notes" := JStr(""),
                                 "duration" := JStr("60"), "urgency" := JStr("normal")]);
            var (resp, _) := BookDoctorSession(Verified(u), doctorId, Some(body), sessions, now, nowIso);
            && resp.BookOk?
            && resp.session.sessionType == JStr("consultation") && resp.session.notes == JStr("")
            && resp.session.sessionDate == JStr(date) && resp.session.sessionTime == JStr(time)
  {
  }

  /** `array.filter(p)` keeping order. */
  function FilterSessions(all: seq<DoctorSession>, byDoctor: bool, who: string): (r: seq<DoctorSession>)
    ensures |r| <= |all|
    ensures forall s :: s in r <==> s in all && Owner(s, byDoctor) == who
    decreases |all|
  {
    if all == [] then []
    else
      var rest := FilterSessions(all[1..], byDoctor, who);
      assert all == [all[0]] + all[1..];
      if Owner(all[0], byDoctor) == who then [all[0]] + rest else rest
  }

  /** The field a listing filters on: the patient, or the doctor. */
  function Owner(s: DoctorSession, byDoctor: bool): string {
    if byDoctor then s.doctorId else s.userId
  }

  /** `GET /sessions`: the caller's own sessions. */
  function UserSessions(verdict: Verified, all: seq<DoctorSession>): (r: Result<seq<DoctorSession>, string>)
    ensures verdict.Denied? ==> r == Failure(verdict.error)
    ensures verdict.Verified? ==> r.Success? && forall s :: s in r.value <==> s in all && s.userId == verdict.user.id
  {
    if verdict.Denied? then Failure(verdict.error) else Success(FilterSessions(all, false, verdict.user.id))
  }

  /** `GET /doctors/sessions`: the sessions booked with the caller. */
  function DoctorSessions(verdict: Verified, all: seq<DoctorSession>): (r: Result<seq<DoctorSession>, string>)
    ensures verdict.Denied? ==> r == Failure(verdict.error)
    ensures verdict.Verified? ==> r.Success? && forall s :: s in r.value <==> s in all && s.doctorId == verdict.user.id
  {
    if verdict.Denied? then Failure(verdict.error) else Success(FilterSessions(all, true, verdict.user.id))
  }

  /** Filtering keeps the listing's order: filtering a concatenation is
      concatenating the filtered parts. */
  lemma {:induction false} FilterAppend(a: seq<DoctorSession>, b: seq<DoctorSession>, byDoctor: bool, who: string)
    ensures FilterSessions(a + b, byDoctor, who) == FilterSessions(a, byDoctor, who) + FilterSessions(b, byDoctor, who)
    decreases |a|
  {
    if a == [] {
      assert a + b == b;
    } else {
      assert (a + b)[0] == a[0] && (a + b)[1..] == a[1..] + b;
      FilterAppend(a[1..], b, byDoctor, who);
    }
  }

  /** Every session of the store is listed for its patient and for its
      doctor, and for nobody else. */
  lemma {:induction false} ListingsPartition(all: seq<DoctorSession>, s: DoctorSession, u: User)
    requires s in all
    ensures s in UserSessions(Verified(u), all).value <==> s.userId == u.id
    ensures s in DoctorSessions(Verified(u), all).value <==> s.doctorId == u.id
  {
  }

  // ---------------------------------------------------------------- prediction

  /** The server's copy of the scoring rule, as it is written there. */
  function SimulatePrediction(stress: real, sleep: real, overwhelmed: bool): (p: Anxiety.Prediction)
    ensures 0 <= p.score <= 100
  {
    var score := SimulateScore(stress, sleep, overwhelmed);
    var level := if score < 35.0 then Anxiety.Low else if score < 65.0 then Anxiety.Moderate else Anxiety.High;
    Anxiety.Prediction(level, (score + 0.5).Floor, ServerRecommendations(level))
  }

  /** The score before rounding, accumulated and clamped as the server does. */
  function SimulateScore(stress: real, sleep: real, overwhelmed: bool): (score: real)
    ensures 0.0 <= score <= 100.0
  {
    var score := 0.0 + (stress / 10.0) * 40.0;
    var sleepDeviation := Anxiety.Abs(sleep - 7.5);
    var score := score + (sleepDeviation / 7.5) * 30.0;
    var score := if overwhelmed then score + 30.0 else score;
    Min(100.0, Max(0.0, score))
  }

  /** The server's recommendation lists, written out again there. */
  function ServerRecommendations(level: Anxiety.Level): seq<string> {
    if level == Anxiety.Low then ServerLowAdvice
    else if level == Anxiety.Moderate then ServerModerateAdvice
    else ServerHighAdvice
  }

  const ServerLowAdvice: seq<string> := [
    "Maintain your current healthy habits",
    "Continue regular sleep schedule",
    "Practice daily mindfulness for prevention",
    "Stay connected with support network"
  ]

  const ServerModerateAdvice: seq<string> := [
    "Consider booking a session with one of our spiritual doctors",
    "Practice daily meditation (15-20 minutes)",
    "Improve sleep hygiene - aim for 7-9 hours",
    "Try breathing exercises when feeling stressed",
    "Engage in regular physical activity"
  ]

  const ServerHighAdvice: seq<string> := [
    "\U{26A0}\U{FE0F} We recommend booking an immediate consultation with a doctor",
    "Practice grounding techniques (5-4-3-2-1 method)",
    "Reach out to a trusted friend or family member",
    "Consider professional counseling services",
    "Use our guided meditation resources in the Kids Zone",
    "Avoid caffeine and maintain regular meals"
  ]

  function Min(a: real, b: real): real { if a <= b then a else b }
  function Max(a: real, b: real): real { if a >= b then a else b }

  /** Both copies carry the same recommendation lists. */
  lemma RecommendationsAgree(level: Anxiety.Level)
    ensures ServerRecommendations(level) == Anxiety.Recommendations(level)
  {
  }

  /** Both copies compute the same unrounded score. */
  lemma ScoresAgree(stress: real, sleep: real, overwhelmed: bool)
    ensures SimulateScore(stress, sleep, overwhelmed) == Anxiety.RawScore(stress, sleep, overwhelmed)
  {
  }

  /** The server's copy and the mock store's copy give the same level,
      rounded score and recommendations for every input. */
  lemma ServerAgreesWithMock(stress: real, sleep: real, overwhelmed: bool)
    ensures SimulatePrediction(stress, sleep, overwhelmed) == Anxiety.Predict(stress, sleep, overwhelmed)
  {
    ScoresAgree(stress, sleep, overwhelmed);
    var level := Anxiety.LevelOf(Anxiety.RawScore(stress, sleep, overwhelmed));
    RecommendationsAgree(level);
  }

  /** `Number(x)` for the JSON values it is modelled on: numbers, booleans
      and `null`; `None` for values whose conversion is not modelled. */
  function JsNumber(j: Json): (r: Option<real>)
    ensures j.JNum? ==> r == Some(j.n)
    ensures j == JNull ==> r == Some(0.0)
  {
    match j
    case JNum(n) => Some(n)
    case JBool(b) => Some(if b then 1.0 else 0.0)
    case JNull => Some(0.0)
    case _ => None
  }

  datatype PredictResponse =
    | MissingInputs(error: string)
    | PredictOk(message: string, prediction: Anxiety.Prediction, timestamp: string)
    | Unconverted
    | PredictFailed(error: string)

  /** `POST /ml/predict-anxiety` on a JSON object body. An input is missing
      only when its key is absent (`undefined`); `null` is present and is
      converted like any other value. */
  function PredictEndpoint(body: map<string, Json>, nowIso: string): (r: PredictResponse)
    ensures ("stress" !in body || "sleep" !in body || "overwhelmed" !in body)
            <==> r == MissingInputs("Missing required inputs: stress, sleep, overwhelmed")
    ensures r.PredictOk? ==>
              && "stress" in body && "sleep" in body && "overwhelmed" in body
              && JsNumber(body["stress"]).Some? && JsNumber(body["sleep"]).Some?
              && r.prediction == Anxiety.Predict(JsNumber(body["stress"]).value, JsNumber(body["sleep"]).value,
                                                 Truthy(body["overwhelmed"]))
              && r.timestamp == nowIso
    ensures ("stress" in body && "sleep" in body && "overwhelmed" in body
             && JsNumber(body["stress"]).Some? && JsNumber(body["sleep"]).Some?) ==> r.PredictOk?
  {
    if "stress" !in body || "sleep" !in body || "overwhelmed" !in body then
      MissingInputs("Missing required inputs: stress, sleep, overwhelmed")
    else
      var stress := JsNumber(body["stress"]);
      var sleep := JsNumber(body["sleep"]);
      if stress.None? || sleep.None? then Unconverted
      else
        ServerAgreesWithMock(stress.value, sleep.value, Truthy(body["overwhelmed"]));
        PredictOk("ML Prediction successful",
                  SimulatePrediction(stress.value, sleep.value, Truthy(body["overwhelmed"])), nowIso)
  }

  /** The route as a whole. `body` is the parsed request body, `None` when
      it is not JSON: parsing then throws, and so does destructuring
      `null`, and both end in the 500 answer. Any other non-object body has
      none of the three keys. */
  function PredictRoute(body: Option<Json>, nowIso: string): (r: PredictResponse)
    ensures (body.None? || body == Some(JNull)) <==> r == PredictFailed("Failed to run prediction")
    ensures body.Some? && !body.value.JObj? && body.value != JNull ==>
              r == MissingInputs("Missing required inputs: stress, sleep, overwhelmed")
    ensures r.PredictOk? ==> body.Some? && body.value.JObj?
    ensures body.Some? && body.value.JObj? ==> r == PredictEndpoint(body.value.fields, nowIso)
  {
    match body
    case None => PredictFailed("Failed to run prediction")
    case Some(JNull) => PredictFailed("Failed to run prediction")
    case Some(JObj(fields)) => PredictEndpoint(fields, nowIso)
    case Some(_) => MissingInputs("Missing required inputs: stress, sleep, overwhelmed")
  }
}
