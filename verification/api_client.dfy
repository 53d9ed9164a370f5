/** The browser-side API client: every request first consults a one-way
    latch; while the latch is clear a health probe decides, and once it is
    set every request is answered by the in-memory mock backend. Network
    effects are parameters: the probe's outcome and the fetch's outcome are
    given, and the model says what the client does with them. */
module ApiClient {
  import opened Wrappers
  import opened Json
  import Text
  import MockBackend
  import Catalog

  datatype Verb = Get | Post | Put

  /** What the health probe observed: a 2xx answer, a non-2xx answer, or a
      thrown error (network failure or the 3-second abort). */
  datatype Probe = ProbeOk | ProbeNotOk | ProbeThrew

  /** The process-wide state of the client: the mock latch. */
  datatype Client = Client(useMock: bool)

  /** `shouldUseMock`: a set latch answers without probing; otherwise only
      a 2xx probe keeps the remote path, and anything else sets the latch. */
  function ShouldUseMock(c: Client, probe: Probe): (r: (Client, bool))
    ensures r.1 == r.0.useMock
    ensures c.useMock ==> r.1
    ensures !c.useMock ==> (r.1 <==> probe != ProbeOk)
  {
    if c.useMock then (c, true)
    else if probe == ProbeOk then (c, false)
    else (Client(true), true)
  }

  /** `getAuthHeaders`: a JSON content type, and a bearer credential that is
      the caller's token when it is non-empty and the public key otherwise. */
  function AuthHeaders(token: Option<string>, anonKey: string): (h: map<string, string>)
    ensures h.Keys == {"Content-Type", "Authorization"}
    ensures h["Content-Type"] == "application/json"
    ensures token.Some? && token.value != "" ==> h["Authorization"] == "Bearer " + token.value
    ensures token.None? || token.value == "" ==> h["Authorization"] == "Bearer " + anonKey
  {
    var credential := if token.Some? && token.value != "" then token.value else anonKey;
    map["Content-Type" := "application/json", "Authorization" := "Bearer " + credential]
  }

  /** Where the edge functions live, and the public key. */
  datatype Env = Env(baseUrl: string, anonKey: string)

  datatype HttpRequest = HttpRequest(verb: Verb, url: string, headers: map<string, string>, body: Option<Json>)

  /** A response body: valid JSON, or text whose parse throws a SyntaxError. */
  datatype Reply = Parsed(value: Json) | NotJson(syntaxMessage: string)

  /** What `fetch` produced: a response, or a thrown error. A timeout is a
      thrown error named "AbortError"; an unreachable host is a TypeError
      whose message is "Failed to fetch". */
  datatype Fetched =
    | Responded(ok: bool, status: nat, statusText: string, reply: Reply)
    | Threw(name: string, message: string)

  datatype Thrown = Thrown(name: string, message: string)

  /** The outcome of one request, seen from the caller. */
  datatype Outcome = Remote(value: Json) | Mocked(call: MockCall) | Raised(error: Thrown)

  /** The client after the request, the request put on the wire (if any),
      and the outcome. */
  datatype Step = Step(client: Client, sent: Option<HttpRequest>, outcome: Outcome)

  /** The text V8 gives the TypeError of reading `.error` from `null`. */
  const NullReadMessage := NullReadError("error").message

  /** The catch clause's test for falling back to the mock. */
  predicate FallsBack(e: Thrown) {
    e.name == "AbortError" || e.message == "Failed to fetch"
  }

  /** The error thrown for a non-2xx response. PUT ignores the body; GET and
      POST prefer the body's truthy `error` field, as `String` writes it,
      then a status line. */
  function NonOkError(verb: Verb, status: nat, statusText: string, reply: Reply): (e: Thrown)
    ensures verb == Put ==> e == Thrown("Error", "HTTP error! status: " + Text.NatToString(status))
    ensures verb != Put && reply.NotJson? ==>
              e == Thrown("Error", "Network error: " + Text.NatToString(status) + " " + statusText)
    ensures verb != Put && reply == Parsed(JNull) ==> e == Thrown("TypeError", NullReadMessage)
    ensures (verb != Put && reply.Parsed? && reply.value.JObj? && "error" in reply.value.fields
             && Truthy(reply.value.fields["error"]) && JsString(reply.value.fields["error"]).Some?)
            ==> e == Thrown("Error", JsString(reply.value.fields["error"]).value)
    ensures (verb != Put && reply.Parsed? && reply.value.JObj?
             && !("error" in reply.value.fields && Truthy(reply.value.fields["error"])))
            ==> e == Thrown("Error", "HTTP " + Text.NatToString(status) + ": " + statusText)
    ensures (verb != Put && reply.Parsed? && !reply.value.JObj? && !reply.value.JNull?)
            ==> e == Thrown("Error", "HTTP " + Text.NatToString(status) + ": " + statusText)
  {
    if verb == Put then Thrown("Error", "HTTP error! status: " + Text.NatToString(status))
    else
      var fallback := "HTTP " + Text.NatToString(status) + ": " + statusText;
      match reply
      case NotJson(_) => Thrown("Error", "Network error: " + Text.NatToString(status) + " " + statusText)
      case Parsed(JNull) => Thrown("TypeError", NullReadMessage)
      case Parsed(JObj(f)) =>
        if "error" in f && Truthy(f["error"]) && JsString(f["error"]).Some? then Thrown("Error", JsString(f["error"]).value)
        else Thrown("Error", fallback)
      case Parsed(_) => Thrown("Error", fallback)
  }

  /** The body the mock sees: GET always passes `{}`. */
  function MockData(verb: Verb, data: Json): Json {
    if verb == Get then JObj(map[]) else data
  }

  /** `get`, `post` and `put`. The 2xx body is returned unawaited, so a
      SyntaxError from parsing it escapes the catch clause and never falls
      back; every other failure goes through the catch clause. */
  function Request(c: Client, verb: Verb, endpoint: string, data: Json, token: Option<string>,
                   env: Env, probe: Probe, fetched: Fetched): (r: Step)
    ensures c.useMock ==> r.client.useMock && r.sent.None?
    ensures r.outcome.Mocked? <==> r.client.useMock
    ensures r.outcome.Mocked? ==> r.outcome.call == Dispatch(endpoint, MockData(verb, data), verb)
    ensures r.sent.Some? <==> !c.useMock && probe == ProbeOk
    ensures r.sent.Some? ==>
              && r.sent.value.url == env.baseUrl + endpoint
              && r.sent.value.headers == AuthHeaders(token, env.anonKey)
              && (r.sent.value.body.Some? <==> verb != Get)
              && (verb != Get ==> r.sent.value.body == Some(data))
    ensures r.outcome.Remote? ==> fetched.Responded? && fetched.ok && fetched.reply == Parsed(r.outcome.value)
    ensures r.outcome.Raised? ==> r.client == c
    ensures r.sent.Some? && fetched.Threw? ==>
              (r.outcome.Mocked? <==> FallsBack(Thrown(fetched.name, fetched.message)))
    ensures r.sent.Some? && fetched.Threw? && !FallsBack(Thrown(fetched.name, fetched.message)) ==>
              r.outcome == Raised(Thrown(fetched.name, fetched.message))
    ensures r.sent.Some? && fetched.Responded? && fetched.ok && fetched.reply.Parsed? ==>
              r.outcome == Remote(fetched.reply.value) && r.client == c
    ensures r.sent.Some? && fetched.Responded? && fetched.ok && fetched.reply.NotJson? ==>
              r.outcome == Raised(Thrown("SyntaxError", fetched.reply.syntaxMessage)) && r.client == c
    ensures r.sent.Some? && fetched.Responded? && !fetched.ok ==>
              var e := NonOkError(verb, fetched.status, fetched.statusText, fetched.reply);
              && (FallsBack(e) ==> r.client.useMock && r.outcome == Mocked(Dispatch(endpoint, MockData(verb, data), verb)))
              && (!FallsBack(e) ==> r.client == c && r.outcome == Raised(e))
  {
    var (c1, useMock) := ShouldUseMock(c, probe);
    var mocked := Mocked(Dispatch(endpoint, MockData(verb, data), verb));
    if useMock then Step(c1, None, mocked)
    else
      var sent := HttpRequest(verb, env.baseUrl + endpoint, AuthHeaders(token, env.anonKey),
                              if verb == Get then None else Some(data));
      match fetched
      case Responded(true, _, _, Parsed(v)) => Step(c1, Some(sent), Remote(v))
      case Responded(true, _, _, NotJson(m)) => Step(c1, Some(sent), Raised(Thrown("SyntaxError", m)))
      case Responded(false, status, statusText, reply) =>
        var e := NonOkError(verb, status, statusText, reply);
        if FallsBack(e) then Step(Client(true), Some(sent), mocked) else Step(c1, Some(sent), Raised(e))
      case Threw(name, message) =>
        if FallsBack(Thrown(name, message)) then Step(Client(true), Some(sent), mocked)
        else Step(c1, Some(sent), Raised(Thrown(name, message)))
  }

  /** Once set, the latch stays set, and no later request reaches the wire,
      whatever the probe and the fetch would have produced. */
  lemma LatchIsOneWay(c: Client, verb: Verb, endpoint: string, data: Json, token: Option<string>,
                      env: Env, probe1: Probe, fetched1: Fetched, probe2: Probe, fetched2: Fetched)
    requires c.useMock
    ensures var r1 := Request(c, verb, endpoint, data, token, env, probe1, fetched1);
            var r2 := Request(c, verb, endpoint, data, token, env, probe2, fetched2);
            r1 == r2 && r1.client.useMock && r1.sent.None?
  {
  }

  /** A server that answers a GET or POST with a non-2xx status and the body
      `{"error": "Failed to fetch"}` is taken for an unreachable host: the
      client latches onto the mock. The same answer to a PUT is raised. */
  lemma ServerErrorTextCanLatch(endpoint: string, data: Json, env: Env)
    ensures var f := Responded(false, 500, "Internal Server Error",
                               Parsed(JObj(map["error" := JStr("Failed to fetch")])));
            && Request(Client(false), Post, endpoint, data, None, env, ProbeOk, f).client.useMock
            && Request(Client(false), Put, endpoint, data, None, env, ProbeOk, f).outcome
                 == Raised(Thrown("Error", "HTTP error! status: 500"))
  {
    assert Text.NatToString(500) == "500" by {
      assert Text.NatToString(5) == "5";
      assert Text.NatToString(50) == "50";
    }
  }

  // ---------------------------------------------------------------- mock routing

  /** The mock operation a request is routed to, with the arguments taken
      from the endpoint and the body. */
  datatype MockCall =
    | ListClasses | ListSessions | ListBookings | ListUserClasses | ReadProfile | ListDoctorSessions
    | EmptyListing
    | CreatePayPal(data: Json)
    | CapturePayPal(paymentId: Option<string>, data: Json)
    | CreateIntent(data: Json)
    | ConfirmCard(paymentId: Option<string>, data: Json)
    | BookAs(data: Json)
    | CompleteProfile(data: Json)
    | PredictAnxiety(data: Json)
    | Echo(data: Json)

  /** The own keys an object spread `{...data}` copies. */
  function Spread(data: Json): (m: map<string, Json>)
    ensures data.JObj? ==> m == data.fields
  {
    if data.JObj? then data.fields else map[]
  }

  /** `{...data, userId: 'mock_user'}`. */
  function WithMockUser(data: Json): (r: Json)
    ensures r.JObj? && "userId" in r.fields && r.fields["userId"] == JStr("mock_user")
    ensures forall k :: k in Spread(data) && k != "userId" ==> k in r.fields && r.fields[k] == Spread(data)[k]
    ensures forall k :: k in r.fields ==> k == "userId" || k in Spread(data)
  {
    JObj(Spread(data)["userId" := JStr("mock_user")])
  }

  /** `endpoint.split('/')[n]`, `None` standing for `undefined`. */
  function Segment(endpoint: string, n: nat): (r: Option<string>)
    ensures r.Some? <==> n < |Text.Split(endpoint, '/')|
    ensures r.Some? ==> '/' !in r.value
  {
    var parts := Text.Split(endpoint, '/');
    Text.SplitPiecesFree(endpoint, '/');
    if n < |parts| then Some(parts[n]) else None
  }

  predicate IsBookingPath(endpoint: string) {
    || Text.MatchesThen(endpoint, "/sessions/", "/book")
    || Text.MatchesThen(endpoint, "/classes/", "/book")
    || Text.MatchesThen(endpoint, "/doctors/", "/book")
  }

  /** `handleMockRequest`: GET has its own table; every other verb goes
      through the same checks, in order. */
  function Dispatch(endpoint: string, data: Json, verb: Verb): (r: MockCall)
    ensures verb == Get ==> r.ListClasses? || r.ListSessions? || r.ListBookings? || r.ListUserClasses?
                            || r.ReadProfile? || r.ListDoctorSessions? || r.EmptyListing?
    ensures r.EmptyListing? <==>
              (verb == Get && endpoint !in {"/classes", "/sessions", "/bookings", "/user-classes", "/profile", "/doctors/sessions"})
    ensures r.BookAs? ==> verb != Get && r.data == WithMockUser(data) && IsBookingPath(endpoint)
    ensures r.Echo? ==> r.data == data && verb != Get && !IsBookingPath(endpoint)
    ensures r.CapturePayPal? ==> r.paymentId == Segment(endpoint, 3)
    ensures r.ConfirmCard? ==> r.paymentId == Segment(endpoint, 2)
  {
    if verb == Get then
      if endpoint == "/classes" then ListClasses
      else if endpoint == "/sessions" then ListSessions
      else if endpoint == "/bookings" then ListBookings
      else if endpoint == "/user-classes" then ListUserClasses
      else if endpoint == "/profile" then ReadProfile
      else if endpoint == "/doctors/sessions" then ListDoctorSessions
      else EmptyListing
    else if endpoint == "/payments/paypal/create" then CreatePayPal(data)
    else if Text.MatchesThen(endpoint, "/payments/paypal/", "/capture") then CapturePayPal(Segment(endpoint, 3), data)
    else if endpoint == "/payments/create-intent" then CreateIntent(data)
    else if Text.MatchesThen(endpoint, "/payments/", "/confirm") then ConfirmCard(Segment(endpoint, 2), data)
    else if IsBookingPath(endpoint) then BookAs(WithMockUser(data))
    else if endpoint == "/profile/complete" then CompleteProfile(data)
    else if endpoint == "/ml/predict-anxiety" then PredictAnxiety(data)
    else Echo(data)
  }

  /** The GET table: each of the six listing paths reaches its own mock
      operation. */
  lemma GetTable(data: Json)
    ensures Dispatch("/classes", data, Get) == ListClasses
    ensures Dispatch("/sessions", data, Get) == ListSessions
    ensures Dispatch("/bookings", data, Get) == ListBookings
    ensures Dispatch("/user-classes", data, Get) == ListUserClasses
    ensures Dispatch("/profile", data, Get) == ReadProfile
    ensures Dispatch("/doctors/sessions", data, Get) == ListDoctorSessions
  {
  }

  /** The two creation paths are matched exactly, before any pattern, for
      POST and PUT alike. */
  lemma CreateRoutes(data: Json, verb: Verb)
    requires verb != Get
    ensures Dispatch("/payments/paypal/create", data, verb) == CreatePayPal(data)
    ensures Dispatch("/payments/create-intent", data, verb) == CreateIntent(data)
  {
  }

  /** `s` holds `sub` nowhere: checked on `sub`'s first two and last
      characters. */
  lemma Absent(s: string, sub: string)
    requires |sub| >= 2
    requires forall i :: 0 <= i && i + |sub| <= |s| ==>
               s[i] != sub[0] || s[i + 1] != sub[1] || s[i + |sub| - 1] != sub[|sub| - 1]
    ensures !Text.Contains(s, sub)
  {
    forall i | 0 <= i <= |s|
      ensures !Text.OccursAt(s, sub, i)
    {
      if i + |sub| <= |s| {
        var w := s[i..i + |sub|];
        assert w[0] == s[i] && w[1] == s[i + 1] && w[|sub| - 1] == s[i + |sub| - 1];
      }
    }
  }

  /** A string without `a` anywhere matches no `a.*b` pattern. */
  lemma NoMatchWithout(s: string, a: string, b: string)
    requires !Text.Contains(s, a)
    ensures !Text.MatchesThen(s, a, b)
  {
  }

  /** The profile-completion and prediction paths fall through every
      payment and booking pattern to their own operations. */
  lemma ProfileAndPredictRoutes(data: Json, verb: Verb)
    requires verb != Get
    ensures Dispatch("/profile/complete", data, verb) == CompleteProfile(data)
    ensures Dispatch("/ml/predict-anxiety", data, verb) == PredictAnxiety(data)
  {
    var p := "/profile/complete";
    var m := "/ml/predict-anxiety";
    forall w | w in ["/payments/paypal/", "/payments/", "/sessions/", "/classes/", "/doctors/"]
      ensures !Text.Contains(p, w) && !Text.Contains(m, w)
    {
      Absent(p, w);
      Absent(m, w);
    }
    NoMatchWithout(p, "/payments/paypal/", "/capture");
    NoMatchWithout(p, "/payments/", "/confirm");
    NoMatchWithout(m, "/payments/paypal/", "/capture");
    NoMatchWithout(m, "/payments/", "/confirm");
    NoMatchWithout(p, "/sessions/", "/book");
    NoMatchWithout(p, "/classes/", "/book");
    NoMatchWithout(p, "/doctors/", "/book");
    NoMatchWithout(m, "/sessions/", "/book");
    NoMatchWithout(m, "/classes/", "/book");
    NoMatchWithout(m, "/doctors/", "/book");
  }

  /** PUT has no table of its own: it is routed exactly as POST is. */
  lemma PutRoutesAsPost(endpoint: string, data: Json)
    ensures Dispatch(endpoint, data, Put) == Dispatch(endpoint, data, Post)
  {
  }

  predicate NoLineBreak(s: string) {
    forall i :: 0 <= i < |s| ==> !Text.IsLineTerminator(s[i])
  }

  /** `a` occurs in `x + a + y`, right after `x`, on one line. */
  lemma FoundAfter(x: string, a: string, y: string, b: string)
    requires NoLineBreak(y + b)
    ensures var s := x + a + y + b;
            && Text.OccursAt(s, a, |x|)
            && Text.Contains(Text.LinePrefix(s[|x| + |a|..]), b)
  {
    var s := x + a + y + b;
    assert s[|x|..|x| + |a|] == a;
    assert s[|x| + |a|..] == y + b;
    Text.LinePrefixOfClean(y + b);
    assert Text.OccursAt(y + b, b, |y|) by { assert (y + b)[|y|..|y| + |b|] == b; }
  }

  /** The segments of a capture endpoint. */
  lemma CaptureSegments(id: string)
    requires '/' !in id
    ensures Text.Split("/payments/paypal/" + id + "/capture", '/') == ["", "payments", "paypal", id, "capture"]
  {
    var parts := ["", "payments", "paypal", id, "capture"];
    assert Text.Join(parts[4..], '/') == "capture";
    assert Text.Join(parts[3..], '/') == id + "/capture";
    assert Text.Join(parts[2..], '/') == "paypal/" + id + "/capture";
    assert Text.Join(parts[1..], '/') == "payments/paypal/" + id + "/capture";
    assert Text.Join(parts, '/') == "/payments/paypal/" + id + "/capture";
    Text.SplitJoin(parts, '/');
  }

  lemma DispatchCapture(s: string, data: Json)
    requires s != "/payments/paypal/create" && Text.MatchesThen(s, "/payments/paypal/", "/capture")
    ensures Dispatch(s, data, Post) == CapturePayPal(Segment(s, 3), data)
  {
  }

  /** `a`, then an id and `b` on the same line, matches the pattern `a.*b`. */
  lemma PatternFound(a: string, id: string, b: string)
    requires NoLineBreak(id) && NoLineBreak(b)
    ensures Text.MatchesThen(a + id + b, a, b)
  {
    assert NoLineBreak(id + b) by {
      forall i | 0 <= i < |id + b|
        ensures !Text.IsLineTerminator((id + b)[i])
      {
        if i < |id| {
          assert (id + b)[i] == id[i];
        } else {
          assert (id + b)[i] == b[i - |id|];
        }
      }
    }
    FoundAfter("", a, id, b);
    assert "" + a + id + b == a + id + b;
  }

  lemma CaptureIsNotCreate(id: string)
    ensures "/payments/paypal/" + id + "/capture" != "/payments/paypal/create"
  {
    var s := "/payments/paypal/" + id + "/capture";
    assert |s| == |id| + 25;
    if |id| == 0 {
      assert s[17] == '/';
    }
  }

  lemma CaptureSegment(id: string)
    requires '/' !in id
    ensures Segment("/payments/paypal/" + id + "/capture", 3) == Some(id)
  {
    CaptureSegments(id);
  }

  /** The capture endpoint the payment form posts to reaches the capture
      operation, with the payment id taken from the fourth segment. */
  lemma CaptureRoute(id: string, data: Json)
    requires '/' !in id && NoLineBreak(id)
    ensures Dispatch("/payments/paypal/" + id + "/capture", data, Post) == CapturePayPal(Some(id), data)
  {
    PatternFound("/payments/paypal/", id, "/capture");
    CaptureIsNotCreate(id);
    CaptureSegment(id);
    DispatchCapture("/payments/paypal/" + id + "/capture", data);
  }

  /** Where the slashes of `"/" + kind + "/" + id + "/" + tail` are. */
  lemma SlashesOf(kind: string, id: string, tail: string)
    requires '/' !in kind && '/' !in id && '/' !in tail
    ensures var s := "/" + kind + "/" + id + "/" + tail;
            forall p :: 0 <= p < |s| ==> (s[p] == '/' <==> p == 0 || p == |kind| + 1 || p == |kind| + |id| + 2)
  {
    var s := "/" + kind + "/" + id + "/" + tail;
    forall p | 0 <= p < |s|
      ensures s[p] == '/' <==> p == 0 || p == |kind| + 1 || p == |kind| + |id| + 2
    {
      if 1 <= p <= |kind| {
        assert s[p] == kind[p - 1];
      } else if |kind| + 2 <= p < |kind| + |id| + 2 {
        assert s[p] == id[p - |kind| - 2];
      } else if p > |kind| + |id| + 2 {
        assert s[p] == tail[p - |kind| - |id| - 3];
      }
    }
  }

  /** The segments of a confirm endpoint. */
  lemma ConfirmSegments(id: string)
    requires '/' !in id
    ensures Text.Split("/payments/" + id + "/confirm", '/') == ["", "payments", id, "confirm"]
  {
    var parts := ["", "payments", id, "confirm"];
    assert Text.Join(parts[3..], '/') == "confirm";
    assert Text.Join(parts[2..], '/') == id + "/confirm";
    assert Text.Join(parts[1..], '/') == "payments/" + id + "/confirm";
    assert Text.Join(parts, '/') == "/payments/" + id + "/confirm";
    Text.SplitJoin(parts, '/');
  }

  /** A confirm endpoint holds "/payments/paypal/" only when the id is
      "paypal", and then "/capture" does not fit after it. */
  lemma ConfirmIsNotCapture(id: string)
    requires '/' !in id
    ensures !Text.MatchesThen("/payments/" + id + "/confirm", "/payments/paypal/", "/capture")
  {
    var s := "/payments/" + id + "/confirm";
    assert s == "/" + "payments" + "/" + id + "/" + "confirm";
    SlashesOf("payments", id, "confirm");
    forall i | 0 <= i <= |s| && Text.OccursAt(s, "/payments/paypal/", i)
      ensures i + 24 == |s| + 0 && |s[i + 17..]| < 8
    {
      var w := s[i..i + 17];
      assert w == "/payments/paypal/";
      assert w[0] == '/' && w[9] == '/' && w[16] == '/';
      assert s[i] == w[0] && s[i + 9] == w[9] && s[i + 16] == w[16];
    }
  }

  lemma DispatchConfirm(s: string, data: Json)
    requires s != "/payments/paypal/create" && s != "/payments/create-intent"
    requires !Text.MatchesThen(s, "/payments/paypal/", "/capture") && Text.MatchesThen(s, "/payments/", "/confirm")
    ensures Dispatch(s, data, Post) == ConfirmCard(Segment(s, 2), data)
  {
  }

  lemma ConfirmIsNotCreate(id: string)
    requires '/' !in id
    ensures "/payments/" + id + "/confirm" != "/payments/paypal/create"
    ensures "/payments/" + id + "/confirm" != "/payments/create-intent"
  {
    var s := "/payments/" + id + "/confirm";
    assert s[|id| + 10] == '/';
  }

  lemma ConfirmSegment(id: string)
    requires '/' !in id
    ensures Segment("/payments/" + id + "/confirm", 2) == Some(id)
  {
    ConfirmSegments(id);
  }

  /** The confirm endpoint the card flow posts to reaches the confirm
      operation, with the payment id taken from the third segment. */
  lemma ConfirmRoute(id: string, data: Json)
    requires '/' !in id && NoLineBreak(id)
    ensures Dispatch("/payments/" + id + "/confirm", data, Post) == ConfirmCard(Some(id), data)
  {
    PatternFound("/payments/", id, "/confirm");
    ConfirmIsNotCreate(id);
    ConfirmIsNotCapture(id);
    ConfirmSegment(id);
    DispatchConfirm("/payments/" + id + "/confirm", data);
  }

  /** In a booking endpoint "/payments/" can only stand where the id is
      the word "payments", with nothing but "book" after it. */
  lemma PaymentsInBookingPath(kind: string, id: string, i: nat)
    requires kind in {"sessions", "classes", "doctors"}
    requires '/' !in id
    requires Text.OccursAt("/" + kind + "/" + id + "/book", "/payments/", i)
    ensures i + 14 == |"/" + kind + "/" + id + "/book"|
  {
    var s := "/" + kind + "/" + id + "/book";
    assert s == "/" + kind + "/" + id + "/" + "book";
    SlashesOf(kind, id, "book");
    assert s[i..i + 10] == "/payments/";
    assert s[i] == '/' && s[i + 9] == '/' && s[i + 1] == 'p';
    assert s[1] == kind[0];
  }

  /** A booking endpoint (`/sessions/{id}/book`, `/classes/{id}/book`,
      `/doctors/{id}/book`) never matches a payment pattern. */
  lemma NotAPaymentPath(kind: string, id: string)
    requires kind in {"sessions", "classes", "doctors"}
    requires '/' !in id
    ensures MissesPayments("/" + kind + "/" + id + "/book")
  {
    var s := "/" + kind + "/" + id + "/book";
    assert s[|s| - 1] == 'k';
    forall i | 0 <= i <= |s| && Text.OccursAt(s, "/payments/paypal/", i)
      ensures false
    {
      assert s[i..i + 10] == s[i..i + 17][..10];
      PaymentsInBookingPath(kind, id, i);
    }
    forall i | 0 <= i <= |s| && Text.OccursAt(s, "/payments/", i)
      ensures !Text.Contains(Text.LinePrefix(s[i + 10..]), "/confirm")
    {
      PaymentsInBookingPath(kind, id, i);
    }
  }

  /** The POST checks that precede the booking check all fail on `s`. */
  predicate MissesPayments(s: string) {
    && s != "/payments/paypal/create" && s != "/payments/create-intent"
    && !Text.MatchesThen(s, "/payments/paypal/", "/capture")
    && !Text.MatchesThen(s, "/payments/", "/confirm")
  }

  lemma DispatchBooking(s: string, data: Json)
    requires MissesPayments(s) && IsBookingPath(s)
    ensures Dispatch(s, data, Post) == BookAs(WithMockUser(data))
  {
  }

  lemma BookingPathFound(kind: string, id: string)
    requires kind in {"sessions", "classes", "doctors"}
    requires NoLineBreak(id)
    ensures IsBookingPath("/" + kind + "/" + id + "/book")
  {
    var w := "/" + kind + "/";
    BookingPrefix(kind);
    var s := "/" + kind + "/" + id + "/book";
    FoundAfter("", w, id, "/book");
    assert "" + w + id + "/book" == s;
    assert Text.OccursAt(s, w, 0) && Text.Contains(Text.LinePrefix(s[|w|..]), "/book");
    BookingPathOf(s, w);
  }

  lemma BookingPrefix(kind: string)
    requires kind in {"sessions", "classes", "doctors"}
    ensures "/" + kind + "/" in {"/sessions/", "/classes/", "/doctors/"}
  {
    if kind == "sessions" {
      assert "/" + kind + "/" == "/sessions/";
    } else if kind == "classes" {
      assert "/" + kind + "/" == "/classes/";
    } else {
      assert "/" + kind + "/" == "/doctors/";
    }
  }

  lemma BookingPathOf(s: string, w: string)
    requires w in {"/sessions/", "/classes/", "/doctors/"}
    requires Text.OccursAt(s, w, 0) && Text.Contains(Text.LinePrefix(s[|w|..]), "/book")
    ensures IsBookingPath(s)
  {
    assert Text.MatchesThen(s, w, "/book");
  }

  /** Each booking endpoint reaches `createBooking`, with the user forced
      to 'mock_user'. */
  lemma BookingRoute(kind: string, id: string, data: Json)
    requires kind in {"sessions", "classes", "doctors"}
    requires '/' !in id && NoLineBreak(id)
    ensures Dispatch("/" + kind + "/" + id + "/book", data, Post) == BookAs(WithMockUser(data))
  {
    NotAPaymentPath(kind, id);
    BookingPathFound(kind, id);
    DispatchBooking("/" + kind + "/" + id + "/book", data);
  }

  // ---------------------------------------------------------------- mock execution

  /** The mock backend's answer to a routed call. */
  datatype MockReply =
    | ClassList(classes: seq<Catalog.ClassItem>)
    | SessionList(sessions: seq<Catalog.SessionListing>)
    | BookingList(bookings: seq<MockBackend.Booking>)
    | ProfileData(profile: MockBackend.Profile)
    | Listing
    | PayPalCreated(paypal: MockBackend.PayPalReply)
    | IntentCreated(intent: MockBackend.IntentReply)
    | Settled(result: Result<MockBackend.Payment, string>)
    | Booked(booking: MockBackend.Booking)
    | Predicted(prediction: MockBackend.MockPrediction)
    | Unscored
    | Echoed(data: Json)
    | NullRead(key: string)

  /** The TypeError of reading `key` from a `null` body. */
  function NullReadError(key: string): (e: Thrown)
    ensures e.name == "TypeError"
    ensures Text.StartsWith(e.message, "Cannot read properties of null (reading '")
  {
    Thrown("TypeError", "Cannot read properties of null (reading '" + key + "')")
  }

  /** `data.key`, `undefined` (here `null`) when absent. */
  function Member(data: Json, key: string): Json {
    if data.JObj? && key in data.fields then data.fields[key] else JNull
  }

  predicate IsRead(call: MockCall) {
    call.ListClasses? || call.ListSessions? || call.ListBookings? || call.ListUserClasses?
    || call.ListDoctorSessions? || call.EmptyListing? || call.ReadProfile?
  }

  predicate IsPayment(call: MockCall) {
    call.CreatePayPal? || call.CapturePayPal? || call.CreateIntent? || call.ConfirmCard?
  }

  /** The listings and the profile read. */
  function ExecuteRead(s: MockBackend.Store, call: MockCall, nowIso: string): (r: (MockBackend.Store, MockReply))
    requires IsRead(call)
    ensures !call.ReadProfile? ==> r.0 == s
    ensures call.ListClasses? ==> r.1 == ClassList(MockBackend.GetClasses())
    ensures call.ListSessions? ==> r.1 == SessionList([])
    ensures call.ListBookings? ==> r.1 == BookingList(MockBackend.GetBookings(s))
    ensures call.ListUserClasses? ==> r.1 == ClassList([])
    ensures call.ListDoctorSessions? ==>
              r.1 == SessionList(MockBackend.GetDoctorSessions(Text.Split(nowIso, 'T')[0]))
    ensures call.EmptyListing? ==> r.1 == Listing
    ensures call.ReadProfile? ==>
              r == (MockBackend.GetProfile(s, nowIso).0, ProfileData(MockBackend.GetProfile(s, nowIso).1))
  {
    match call
    case ListClasses => (s, ClassList(MockBackend.GetClasses()))
    case ListSessions => (s, SessionList([]))
    case ListBookings => (s, BookingList(MockBackend.GetBookings(s)))
    case ListUserClasses => (s, ClassList([]))
    case ReadProfile =>
      var (s', p) := MockBackend.GetProfile(s, nowIso);
      (s', ProfileData(p))
    case ListDoctorSessions => (s, SessionList(MockBackend.GetDoctorSessions(Text.Split(nowIso, 'T')[0])))
    case EmptyListing => (s, Listing)
  }

  /** The payment calls; each reads a field of its body first. */
  function ExecutePayment(s: MockBackend.Store, call: MockCall, now: nat, nowIso: string)
    : (r: (MockBackend.Store, MockReply))
    requires IsPayment(call)
    ensures call.CreatePayPal? && call.data != JNull ==>
              r == (MockBackend.CreatePayPalPayment(s, Spread(call.data), now, nowIso).0,
                    PayPalCreated(MockBackend.CreatePayPalPayment(s, Spread(call.data), now, nowIso).1))
    ensures call.CreateIntent? && call.data != JNull ==>
              r == (MockBackend.CreatePaymentIntent(s, Spread(call.data), now, nowIso).0,
                    IntentCreated(MockBackend.CreatePaymentIntent(s, Spread(call.data), now, nowIso).1))
    ensures (call.CreatePayPal? || call.CreateIntent?) && call.data == JNull ==> r == (s, NullRead("bookingId"))
    ensures call.CapturePayPal? && call.data == JNull ==> r == (s, NullRead("paypalOrderId"))
    ensures call.ConfirmCard? && call.data == JNull ==> r == (s, NullRead("paymentMethodId"))
    ensures (call.ConfirmCard? || call.CapturePayPal?) && call.data != JNull && call.paymentId.Some? ==>
              r == (MockBackend.Settle(s, call.paymentId.value).0, Settled(MockBackend.Settle(s, call.paymentId.value).1))
    ensures (call.ConfirmCard? || call.CapturePayPal?) && call.data != JNull && call.paymentId.None? ==>
              r == (s, Settled(Failure(MockBackend.PaymentNotFound)))
  {
    match call
    case CreatePayPal(d) =>
      if d == JNull then (s, NullRead("bookingId"))
      else
        var (s', rep) := MockBackend.CreatePayPalPayment(s, Spread(d), now, nowIso);
        (s', PayPalCreated(rep))
    case CapturePayPal(id, d) =>
      if d == JNull then (s, NullRead("paypalOrderId"))
      else if id.None? then (s, Settled(Failure(MockBackend.PaymentNotFound)))
      else
        var (s', res) := MockBackend.CapturePayPalPayment(s, id.value, Member(d, "paypalOrderId"));
        (s', Settled(res))
    case CreateIntent(d) =>
      if d == JNull then (s, NullRead("bookingId"))
      else
        var (s', rep) := MockBackend.CreatePaymentIntent(s, Spread(d), now, nowIso);
        (s', IntentCreated(rep))
    case ConfirmCard(id, d) =>
      if d == JNull then (s, NullRead("paymentMethodId"))
      else if id.None? then (s, Settled(Failure(MockBackend.PaymentNotFound)))
      else
        var (s', res) := MockBackend.ConfirmPayment(s, id.value, Member(d, "paymentMethodId"));
        (s', Settled(res))
  }

  /** Runs a routed call against the store at time `now` (`nowIso`). A
      `null` body makes the operations that read a field of it throw a
      TypeError (`NullRead` names the field read first) and leaves the store
      as it was; a spread of `null` copies nothing. */
  function Execute(s: MockBackend.Store, call: MockCall, now: nat, nowIso: string): (r: (MockBackend.Store, MockReply))
    ensures (call.ListClasses? || call.ListSessions? || call.ListBookings? || call.ListUserClasses?
             || call.ListDoctorSessions? || call.EmptyListing? || call.Echo? || call.PredictAnxiety?) ==> r.0 == s
    ensures call.ListClasses? ==> r.1 == ClassList(MockBackend.GetClasses())
    ensures call.ListSessions? ==> r.1 == SessionList([])
    ensures call.ListBookings? ==> r.1 == BookingList(MockBackend.GetBookings(s))
    ensures call.ListUserClasses? ==> r.1 == ClassList([])
    ensures call.ListDoctorSessions? ==>
              r.1 == SessionList(MockBackend.GetDoctorSessions(Text.Split(nowIso, 'T')[0]))
    ensures call.EmptyListing? ==> r.1 == Listing
    ensures call.ReadProfile? ==>
              r == (MockBackend.GetProfile(s, nowIso).0, ProfileData(MockBackend.GetProfile(s, nowIso).1))
    ensures call.CompleteProfile? ==>
              r == (MockBackend.UpdateProfile(s, Spread(call.data), nowIso).0,
                    ProfileData(MockBackend.UpdateProfile(s, Spread(call.data), nowIso).1))
    ensures call.CreatePayPal? && call.data != JNull ==>
              r == (MockBackend.CreatePayPalPayment(s, Spread(call.data), now, nowIso).0,
                    PayPalCreated(MockBackend.CreatePayPalPayment(s, Spread(call.data), now, nowIso).1))
    ensures call.CreateIntent? && call.data != JNull ==>
              r == (MockBackend.CreatePaymentIntent(s, Spread(call.data), now, nowIso).0,
                    IntentCreated(MockBackend.CreatePaymentIntent(s, Spread(call.data), now, nowIso).1))
    ensures call.CreatePayPal? && call.data == JNull ==> r == (s, NullRead("bookingId"))
    ensures call.CreateIntent? && call.data == JNull ==> r == (s, NullRead("bookingId"))
    ensures call.CapturePayPal? && call.data == JNull ==> r == (s, NullRead("paypalOrderId"))
    ensures call.ConfirmCard? && call.data == JNull ==> r == (s, NullRead("paymentMethodId"))
    ensures call.PredictAnxiety? && call.data == JNull ==> r.1 == NullRead("stress")
    ensures call.ConfirmCard? && call.data != JNull && call.paymentId.Some? ==>
              r == (MockBackend.Settle(s, call.paymentId.value).0, Settled(MockBackend.Settle(s, call.paymentId.value).1))
    ensures call.CapturePayPal? && call.data != JNull && call.paymentId.Some? ==>
              r == (MockBackend.Settle(s, call.paymentId.value).0, Settled(MockBackend.Settle(s, call.paymentId.value).1))
    ensures (call.ConfirmCard? || call.CapturePayPal?) && call.data != JNull && call.paymentId.None? ==>
              r == (s, Settled(Failure(MockBackend.PaymentNotFound)))
    ensures call.PredictAnxiety? && Member(call.data, "stress").JNum? && Member(call.data, "sleep").JNum? ==>
              r.1 == Predicted(MockBackend.PredictAnxiety(Member(call.data, "stress").n, Member(call.data, "sleep").n,
                                                          Truthy(Member(call.data, "overwhelmed")), nowIso))
    ensures call.PredictAnxiety? && call.data != JNull && !(Member(call.data, "stress").JNum? && Member(call.data, "sleep").JNum?) ==>
              r.1 == Unscored
    ensures call.BookAs? ==> r.1.Booked? && r.0.bookings.Keys == s.bookings.Keys + {r.1.booking.id}
    ensures call.Echo? ==> r.1 == Echoed(call.data)
  {
    if IsRead(call) then ExecuteRead(s, call, nowIso)
    else if IsPayment(call) then ExecutePayment(s, call, now, nowIso)
    else
      match call
      case BookAs(d) =>
        var (s', b) := MockBackend.CreateBooking(s, Spread(d), now, nowIso);
        (s', Booked(b))
      case CompleteProfile(d) =>
        var (s', p) := MockBackend.UpdateProfile(s, Spread(d), nowIso);
        (s', ProfileData(p))
      case PredictAnxiety(d) =>
        if d == JNull then (s, NullRead("stress"))
        else
          var stress := Member(d, "stress");
          var sleep := Member(d, "sleep");
          if stress.JNum? && sleep.JNum? then
            (s, Predicted(MockBackend.PredictAnxiety(stress.n, sleep.n, Truthy(Member(d, "overwhelmed")), nowIso)))
          else (s, Unscored)
      case Echo(d) => (s, Echoed(d))
  }

  /** A decimal id is a single path segment on a single line. */
  lemma DecimalSegment(n: nat)
    ensures '/' !in Text.NatToString(n) && NoLineBreak(Text.NatToString(n))
  {
    var id := Text.NatToString(n);
    forall i | 0 <= i < |id| ensures id[i] != '/' && !Text.IsLineTerminator(id[i]) {
      assert Text.IsDigit(id[i]);
    }
  }

  /** Executing a routed booking stores a booking for the body's user that
      the next booking listing shows. */
  lemma ExecuteBooking(s: MockBackend.Store, data: Json, now: nat, nowIso: string)
    requires MockBackend.Valid(s)
    ensures var (s', reply) := Execute(s, BookAs(WithMockUser(data)), now, nowIso);
            && MockBackend.Valid(s')
            && reply.Booked? && reply.booking.userId == Some(JStr("mock_user"))
            && reply.booking in MockBackend.GetBookings(s')
  {
    MockBackend.CreateBookingVisible(s, Spread(WithMockUser(data)), now, nowIso);
  }

  /** A doctor's numeric booking endpoint is a booking path. */
  lemma DoctorBookingRoute(doctorId: nat, data: Json)
    ensures Dispatch("/doctors/" + Text.NatToString(doctorId) + "/book", data, Post) == BookAs(WithMockUser(data))
  {
    var id := Text.NatToString(doctorId);
    DecimalSegment(doctorId);
    BookingRoute("doctors", id, data);
    DoctorsPath(id);
  }

  lemma DoctorsPath(id: string)
    ensures "/" + "doctors" + "/" + id + "/book" == "/doctors/" + id + "/book"
  {
  }

  /** With the latch set, booking a doctor stores a booking for
      'mock_user' that the next booking listing shows. */
  lemma MockDoctorBooking(c: Client, doctorId: nat, data: Json, token: Option<string>, env: Env,
                          probe: Probe, fetched: Fetched, s: MockBackend.Store, now: nat, nowIso: string)
    requires c.useMock && MockBackend.Valid(s)
    ensures var r := Request(c, Post, "/doctors/" + Text.NatToString(doctorId) + "/book", data, token, env, probe, fetched);
            && r.outcome == Mocked(BookAs(WithMockUser(data)))
            && var (s', reply) := Execute(s, r.outcome.call, now, nowIso);
            && MockBackend.Valid(s')
            && reply.Booked? && reply.booking.userId == Some(JStr("mock_user"))
            && reply.booking in MockBackend.GetBookings(s')
  {
    DoctorBookingRoute(doctorId, data);
    ExecuteBooking(s, data, now, nowIso);
  }

  /** With the latch set, confirming a card payment settles exactly that
      payment in the mock store. */
  lemma MockCardConfirm(c: Client, paymentId: string, data: Json, token: Option<string>, env: Env,
                        probe: Probe, fetched: Fetched, s: MockBackend.Store, now: nat, nowIso: string)
    requires c.useMock && '/' !in paymentId && NoLineBreak(paymentId)
    requires paymentId in s.payments
    ensures var r := Request(c, Post, "/payments/" + paymentId + "/confirm", data, token, env, probe, fetched);
            && r.outcome.Mocked?
            && var (s', reply) := Execute(s, r.outcome.call, now, nowIso);
            && (data != JNull ==>
                  && reply == Settled(Success(s.payments[paymentId].(status := MockBackend.Succeeded)))
                  && s'.payments[paymentId].status == MockBackend.Succeeded)
            && (data == JNull ==> reply == NullRead("paymentMethodId") && s' == s)
  {
    ConfirmRoute(paymentId, data);
  }
}
