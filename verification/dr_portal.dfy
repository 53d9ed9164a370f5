/** The doctor portal: the session list built from the server's listing
    (with demo sessions when it is empty or the request fails), the header
    statistics, and the start/complete buttons of each session. */
module DrPortal {
  import opened Wrappers
  import Text
  import Json
  import Seqs

  datatype Risk = High | Medium | Low

  datatype PatientSession = PatientSession(id: string, patientName: string, patientId: string,
                                           sessionType: string, sessionDate: string,
                                           sessionTime: string, status: string, risk: Risk)

  /** A session as listed by the server; a missing or empty field is `None`
      or "" and both fall back to the default (`a || b`). */
  datatype RawSession = RawSession(id: Option<string>, userId: Option<string>, sessionType: Option<string>,
                                   sessionDate: Option<string>, sessionTime: Option<string>,
                                   status: Option<string>)

  datatype Stats = Stats(todayPatients: nat, weeklyPatients: nat, completedToday: nat, highRiskPatients: nat)

  /** `String.fromCharCode(65 + i)`; a lone surrogate code unit, which a
      Dafny character cannot hold, is shown as U+FFFD. */
  function PatientLetter(i: nat): (c: char)
    ensures i < 26 ==> c as int == 65 + i
  {
    var code := (65 + i) % 65536;
    if 0xD800 <= code < 0xE000 then '\U{FFFD}' else code as char
  }

  /** The risk the portal assigns by position: high, medium, then low. */
  function RiskAt(i: nat): Risk {
    if i == 0 then High else if i == 1 then Medium else Low
  }

  /** One listed session at position `i`, with its defaults. */
  function Transform(s: RawSession, i: nat, todayIso: string): (p: PatientSession)
    ensures p.patientName == "Patient " + [PatientLetter(i)]
    ensures p.id == Json.StrOr(s.id, "session-" + Text.NatToString(i))
    ensures p.patientId == Json.StrOr(s.userId, "patient-" + Text.NatToString(i))
    ensures p.sessionType == Json.StrOr(s.sessionType, "General Consultation")
    ensures p.sessionDate == Json.StrOr(s.sessionDate, todayIso)
    ensures p.sessionTime == Json.StrOr(s.sessionTime, Text.NatToString(10 + i) + ":00")
    ensures p.status == Json.StrOr(s.status, "scheduled")
    ensures p.risk == RiskAt(i)
  {
    PatientSession(Json.StrOr(s.id, "session-" + Text.NatToString(i)), "Patient " + [PatientLetter(i)],
                   Json.StrOr(s.userId, "patient-" + Text.NatToString(i)),
                   Json.StrOr(s.sessionType, "General Consultation"), Json.StrOr(s.sessionDate, todayIso),
                   Json.StrOr(s.sessionTime, Text.NatToString(10 + i) + ":00"), Json.StrOr(s.status, "scheduled"), RiskAt(i))
  }

  /** `sessions.map(transform)` starting at position `from`. */
  function TransformAll(raw: seq<RawSession>, from: nat, todayIso: string): (r: seq<PatientSession>)
    ensures |r| == |raw|
    ensures forall i :: 0 <= i < |raw| ==> r[i] == Transform(raw[i], from + i, todayIso)
    decreases |raw|
  {
    if raw == [] then [] else [Transform(raw[0], from, todayIso)] + TransformAll(raw[1..], from + 1, todayIso)
  }

  /** A listing entry with every field filled keeps all of them; only the
      name and the risk are made up. */
  lemma ListedFieldsKept(s: RawSession, i: nat, todayIso: string)
    requires s.id.Some? && s.userId.Some? && s.sessionType.Some? && s.sessionDate.Some?
    requires s.sessionTime.Some? && s.status.Some?
    requires s.id.value != "" && s.userId.value != "" && s.sessionType.value != ""
    requires s.sessionDate.value != "" && s.sessionTime.value != "" && s.status.value != ""
    ensures var p := Transform(s, i, todayIso);
            && p.id == s.id.value && p.patientId == s.userId.value && p.sessionType == s.sessionType.value
            && p.sessionDate == s.sessionDate.value && p.sessionTime == s.sessionTime.value
            && p.status == s.status.value
  {
  }

  /** The first twenty-six listed patients get twenty-six different names
      ("Patient A" to "Patient Z"). */
  lemma PatientNamesDistinct(raw: seq<RawSession>, todayIso: string, i: nat, j: nat)
    requires i < j < |raw| && j < 26
    ensures TransformAll(raw, 0, todayIso)[i].patientName != TransformAll(raw, 0, todayIso)[j].patientName
  {
    var r := TransformAll(raw, 0, todayIso);
    assert r[i].patientName[8] == PatientLetter(i);
    assert r[j].patientName[8] == PatientLetter(j);
  }

  /** The four demo sessions shown when the listing is empty. */
  function EmptyDemo(todayIso: string, tomorrowIso: string): seq<PatientSession> {
    [PatientSession("demo-1", "Rahul Kumar", "patient-001", "Anxiety Management", todayIso, "10:00", "scheduled", High),
     PatientSession("demo-2", "Priya Sharma", "patient-002", "Meditation Session", todayIso, "11:30", "scheduled", Medium),
     PatientSession("demo-3", "Amit Patel", "patient-003", "Spiritual Guidance", tomorrowIso, "14:00", "scheduled", Low),
     PatientSession("demo-4", "Anjali Singh", "patient-004", "Stress Management", tomorrowIso, "16:30", "scheduled", Low)]
  }

  /** The two demo sessions shown when the request fails, with their fixed
      statistics. */
  function ErrorDemo(todayIso: string): seq<PatientSession> {
    EmptyDemo(todayIso, todayIso)[..2]
  }

  const ErrorStats := Stats(2, 2, 0, 1)

  function CountOn(sessions: seq<PatientSession>, day: string): (n: nat)
    ensures n <= |sessions|
  {
    if sessions == [] then 0 else (if sessions[0].sessionDate == day then 1 else 0) + CountOn(sessions[1..], day)
  }

  function CountHigh(sessions: seq<PatientSession>): (n: nat)
    ensures n <= |sessions|
  {
    if sessions == [] then 0 else (if sessions[0].risk == High then 1 else 0) + CountHigh(sessions[1..])
  }

  /** `sessions.filter(s => s.sessionDate === day)`, in listing order. */
  function DatedOn(sessions: seq<PatientSession>, day: string): (r: seq<PatientSession>)
    ensures Seqs.IsSubsequence(r, sessions)
    ensures forall s :: multiset(r)[s] == (if s.sessionDate == day then multiset(sessions)[s] else 0)
    ensures |r| == CountOn(sessions, day)
  {
    if sessions == [] then []
    else
      assert sessions == [sessions[0]] + sessions[1..];
      Seqs.KeepOrDrop(sessions[0], sessions[1..], DatedOn(sessions[1..], day), sessions[0].sessionDate == day);
      (if sessions[0].sessionDate == day then [sessions[0]] else []) + DatedOn(sessions[1..], day)
  }

  /** The statistics computed after a successful load: today's count is the
      number of listed sessions dated today and the high-risk count the
      number of high-risk sessions. */
  function LoadedStats(sessions: seq<PatientSession>, todayIso: string): (s: Stats)
    ensures s.todayPatients == |DatedOn(sessions, todayIso)|
    ensures s.highRiskPatients == |HighRisk(sessions)|
    ensures s.todayPatients <= s.weeklyPatients == |sessions|
    ensures s.highRiskPatients <= s.weeklyPatients && s.completedToday == 0
  {
    Stats(CountOn(sessions, todayIso), |sessions|, 0, CountHigh(sessions))
  }

  /** The outcome of `GET /doctors/sessions`: the `sessions` field (absent
      as `None`), or a thrown error. */
  datatype Listing = Listed(sessions: Option<seq<RawSession>>) | ListingFailed

  /** `loadDoctorSessions`. */
  function Load(listing: Listing, todayIso: string, tomorrowIso: string): (r: (seq<PatientSession>, Stats))
    ensures listing.ListingFailed? ==> r == (ErrorDemo(todayIso), ErrorStats)
    ensures listing.Listed? && listing.sessions.Some? && listing.sessions.value != [] ==>
              r.0 == TransformAll(listing.sessions.value, 0, todayIso)
    ensures (listing.Listed? && (listing.sessions.None? || listing.sessions.value == [])) ==>
              r.0 == EmptyDemo(todayIso, tomorrowIso)
    ensures listing.Listed? ==> r.1 == LoadedStats(r.0, todayIso)
  {
    match listing
    case ListingFailed => (ErrorDemo(todayIso), ErrorStats)
    case Listed(sessions) =>
      var listed := TransformAll(if sessions.Some? then sessions.value else [], 0, todayIso);
      var shown := if listed == [] then EmptyDemo(todayIso, tomorrowIso) else listed;
      (shown, LoadedStats(shown, todayIso))
  }

  /** The fixed statistics on failure are the ones the two error demo
      sessions would produce. */
  lemma ErrorStatsMatchDemo(todayIso: string)
    ensures LoadedStats(ErrorDemo(todayIso), todayIso) == ErrorStats
  {
    var d := ErrorDemo(todayIso);
    assert |d| == 2 && d[1..][1..] == [];
    assert CountOn(d[1..], todayIso) == 1 && CountHigh(d[1..]) == 0;
  }

  /** An empty listing shows two patients today, four this week and one
      high-risk patient. */
  lemma EmptyDemoStats(todayIso: string, tomorrowIso: string)
    requires tomorrowIso != todayIso
    ensures LoadedStats(EmptyDemo(todayIso, tomorrowIso), todayIso) == Stats(2, 4, 0, 1)
  {
    var d := EmptyDemo(todayIso, tomorrowIso);
    assert d[1..][1..][1..][1..] == [];
    assert CountOn(d[3..], todayIso) == 0 && CountHigh(d[3..]) == 0;
    assert d[2..][1..] == d[3..] && d[1..][1..] == d[2..];
    assert CountOn(d[2..], todayIso) == 0 && CountHigh(d[2..]) == 0;
    assert CountOn(d[1..], todayIso) == 1 && CountHigh(d[1..]) == 0;
  }

  /** The first listed session is the only high-risk one. */
  lemma {:induction false} OneHighRisk(raw: seq<RawSession>, from: nat, todayIso: string)
    ensures CountHigh(TransformAll(raw, from, todayIso)) == (if raw != [] && from == 0 then 1 else 0)
    decreases |raw|
  {
    if raw != [] {
      OneHighRisk(raw[1..], from + 1, todayIso);
    }
  }

  // ------------------------------------------------------------ lifecycle

  /** `prev.map(s => s.id === id ? {...s, status} : s)`. */
  function SetStatus(sessions: seq<PatientSession>, id: string, status: string): (r: seq<PatientSession>)
    ensures |r| == |sessions|
    ensures forall i :: 0 <= i < |sessions| ==>
              r[i] == (if sessions[i].id == id then sessions[i].(status := status) else sessions[i])
  {
    if sessions == [] then []
    else [if sessions[0].id == id then sessions[0].(status := status) else sessions[0]]
         + SetStatus(sessions[1..], id, status)
  }

  /** `handleStartSession`. */
  function StartSession(sessions: seq<PatientSession>, id: string): (r: seq<PatientSession>)
    ensures |r| == |sessions|
    ensures forall i :: 0 <= i < |sessions| && sessions[i].id == id ==> r[i].status == "in-progress"
    ensures forall i :: 0 <= i < |sessions| && sessions[i].id != id ==> r[i] == sessions[i]
  {
    SetStatus(sessions, id, "in-progress")
  }

  /** `handleCompleteSession`: the session completes and the day's counter
      rises by one. */
  function CompleteSession(sessions: seq<PatientSession>, stats: Stats, id: string): (r: (seq<PatientSession>, Stats))
    ensures |r.0| == |sessions|
    ensures forall i :: 0 <= i < |sessions| && sessions[i].id == id ==> r.0[i].status == "completed"
    ensures forall i :: 0 <= i < |sessions| && sessions[i].id != id ==> r.0[i] == sessions[i]
    ensures r.1 == stats.(completedToday := stats.completedToday + 1)
  {
    (SetStatus(sessions, id, "completed"), stats.(completedToday := stats.completedToday + 1))
  }

  /** The position of a status in the lifecycle. */
  function Stage(status: string): int {
    if status == "scheduled" then 0 else if status == "in-progress" then 1 else if status == "completed" then 2 else -1
  }

  predicate DistinctIds(sessions: seq<PatientSession>) {
    forall i, j :: 0 <= i < j < |sessions| ==> sessions[i].id != sessions[j].id
  }

  /** The buttons of the session at row `i`: Start shows only for a
      scheduled session, Complete only for one in progress. */
  datatype Press = PressStart(row: nat) | PressComplete(row: nat)

  function Click(sessions: seq<PatientSession>, stats: Stats, p: Press): (r: (seq<PatientSession>, Stats))
    ensures |r.0| == |sessions|
  {
    if p.row >= |sessions| then (sessions, stats)
    else
      var s := sessions[p.row];
      match p
      case PressStart(_) => if s.status == "scheduled" then (StartSession(sessions, s.id), stats) else (sessions, stats)
      case PressComplete(_) => if s.status == "in-progress" then CompleteSession(sessions, stats, s.id) else (sessions, stats)
  }

  /** With distinct ids, a click moves one session exactly one stage
      forward (scheduled to in-progress, in-progress to completed) and
      leaves every other session as it was; the counter rises exactly when
      a session completes. */
  lemma ClickAdvancesOne(sessions: seq<PatientSession>, stats: Stats, p: Press)
    requires DistinctIds(sessions)
    ensures var r := Click(sessions, stats, p);
            && (forall i :: 0 <= i < |sessions| && i != p.row ==> r.0[i] == sessions[i])
            && (p.row < |sessions| && r.0[p.row] != sessions[p.row] ==>
                  Stage(r.0[p.row].status) == Stage(sessions[p.row].status) + 1 && Stage(sessions[p.row].status) >= 0)
            && (r.1.completedToday == stats.completedToday + 1 <==>
                  p.PressComplete? && p.row < |sessions| && sessions[p.row].status == "in-progress")
            && (r.1.completedToday != stats.completedToday + 1 ==> r.1 == stats)
  {
  }

  /** Distinct ids stay distinct. */
  lemma ClickKeepsIds(sessions: seq<PatientSession>, stats: Stats, p: Press)
    ensures forall i :: 0 <= i < |sessions| ==> Click(sessions, stats, p).0[i].id == sessions[i].id
  {
  }

  // ------------------------------------------------------------ views

  function Upcoming(sessions: seq<PatientSession>): (r: seq<PatientSession>)
    ensures forall s :: s in r <==> s in sessions && s.status != "completed"
    ensures Seqs.IsSubsequence(r, sessions)
    ensures forall s :: multiset(r)[s] == (if s.status != "completed" then multiset(sessions)[s] else 0)
    ensures |r| <= |sessions|
  {
    if sessions == [] then []
    else
      assert sessions == [sessions[0]] + sessions[1..];
      Seqs.KeepOrDrop(sessions[0], sessions[1..], Upcoming(sessions[1..]), sessions[0].status != "completed");
      (if sessions[0].status != "completed" then [sessions[0]] else []) + Upcoming(sessions[1..])
  }

  function CompletedCount(sessions: seq<PatientSession>): (n: nat)
    ensures n <= |sessions|
  {
    if sessions == [] then 0 else (if sessions[0].status == "completed" then 1 else 0) + CompletedCount(sessions[1..])
  }

  /** Every session is either upcoming or completed. */
  lemma {:induction false} UpcomingPartition(sessions: seq<PatientSession>)
    ensures |Upcoming(sessions)| + CompletedCount(sessions) == |sessions|
  {
    if sessions != [] {
      UpcomingPartition(sessions[1..]);
    }
  }

  function HighRisk(sessions: seq<PatientSession>): (r: seq<PatientSession>)
    ensures forall s :: s in r <==> s in sessions && s.risk == High
    ensures Seqs.IsSubsequence(r, sessions)
    ensures forall s :: multiset(r)[s] == (if s.risk == High then multiset(sessions)[s] else 0)
    ensures |r| == CountHigh(sessions)
  {
    if sessions == [] then []
    else
      assert sessions == [sessions[0]] + sessions[1..];
      Seqs.KeepOrDrop(sessions[0], sessions[1..], HighRisk(sessions[1..]), sessions[0].risk == High);
      (if sessions[0].risk == High then [sessions[0]] else []) + HighRisk(sessions[1..])
  }
}
