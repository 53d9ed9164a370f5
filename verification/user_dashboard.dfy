/** The user dashboard: the session list (sessions followed by classes, or
    two demo sessions when empty), the "upcoming sessions" cards, and the
    statistics derived from the profile. */
module UserDashboard {
  import opened Wrappers
  import Text

  /** A listed session or class. `doctorKey` is the doctor id as an object
      key (`String(doctorId)`, "undefined" when absent); a missing or empty
      optional field is falsy. */
  datatype Entry = Entry(id: string, kind: Option<string>, doctorKey: string, instructor: string,
                         className: string, ageGroup: string, sessionDate: string, sessionTime: string,
                         sessionType: string, duration: string, status: Option<string>)

  /** One card of the "upcoming sessions" panel. `isClass` is absent on the
      placeholder cards. */
  datatype Card = Card(id: string, doctor: string, doctorImage: string, date: string, time: string,
                       kind: string, duration: string, status: string, isClass: Option<bool>)

  const AnandaImage := "https://images.unsplash.com/photo-1582750433449-648ed127bb54?w=100&h=100&fit=crop&crop=face"
  const PriyaImage := "https://images.unsplash.com/photo-1559839734-2b71ea197ec2?w=100&h=100&fit=crop&crop=face"
  const RajeshImage := "https://images.unsplash.com/photo-1612349317150-e413f6a5b16d?w=100&h=100&fit=crop&crop=face"
  const KavitaImage := "https://images.unsplash.com/photo-1594824371018-07db21a24b2b?w=100&h=100&fit=crop&crop=face"
  const ArjunImage := "https://images.unsplash.com/photo-1507003211169-0a1dd7228f2d?w=100&h=100&fit=crop&crop=face"
  const SnehaImage := "https://images.unsplash.com/photo-1579952363873-27d3bfad9c0d?w=100&h=100&fit=crop&crop=face"

  /** The doctor table the dashboard looks names up in. */
  const Doctors: map<string, (string, string)> := map[
    "1" := ("Dr. Ananda Sharma", AnandaImage),
    "2" := ("Dr. Priya Mehta", PriyaImage),
    "3" := ("Dr. Rajesh Kumar", RajeshImage),
    "4" := ("Dr. Kavita Singh", KavitaImage),
    "5" := ("Dr. Arjun Patel", ArjunImage),
    "6" := ("Dr. Sneha Reddy", SnehaImage)
  ]

  /** `doctorsData[id] || {name: 'Dr. Unknown (ID: id)', ...}`. */
  function DoctorInfo(key: string): (r: (string, string))
    ensures key in Doctors ==> r == Doctors[key]
    ensures key !in Doctors ==> r == ("Dr. Unknown (ID: " + key + ")", AnandaImage)
  {
    if key in Doctors then Doctors[key] else ("Dr. Unknown (ID: " + key + ")", AnandaImage)
  }

  /** A doctor's name is never mistaken for an unknown one. */
  lemma KnownNamesAreNotUnknown(key: string)
    requires key in Doctors
    ensures !Text.StartsWith(DoctorInfo(key).0, "Dr. Unknown")
  {
    var n := DoctorInfo(key).0;
    assert n[4] != "Dr. Unknown"[4];
  }

  function StatusOr(status: Option<string>): (r: string)
    ensures status.Some? && status.value != "" ==> r == status.value
    ensures status.None? || status.value == "" ==> r == "confirmed"
  {
    if status.Some? && status.value != "" then status.value else "confirmed"
  }

  /** One listed entry as a card: a children's class shows its instructor,
      "class (age group)" and its own duration; anything else shows the
      doctor from the table and a 60-minute duration. */
  function ToCard(e: Entry): (c: Card)
    ensures c.id == e.id && c.time == e.sessionTime && c.status == StatusOr(e.status)
    ensures e.kind == Some("children_class") ==>
              c.doctor == e.instructor && c.kind == e.className + " (" + e.ageGroup + ")"
              && c.duration == e.duration + " mins" && c.isClass == Some(true)
    ensures e.kind != Some("children_class") ==>
              c.doctor == DoctorInfo(e.doctorKey).0 && c.doctorImage == DoctorInfo(e.doctorKey).1
              && c.kind == e.sessionType && c.duration == "60 mins" && c.isClass == Some(false)
  {
    if e.kind == Some("children_class") then
      Card(e.id, e.instructor, RajeshImage, e.sessionDate, e.sessionTime, e.className + " (" + e.ageGroup + ")",
           e.duration + " mins", StatusOr(e.status), Some(true))
    else
      Card(e.id, DoctorInfo(e.doctorKey).0, DoctorInfo(e.doctorKey).1, e.sessionDate, e.sessionTime,
           e.sessionType, "60 mins", StatusOr(e.status), Some(false))
  }

  function ToCards(es: seq<Entry>): (r: seq<Card>)
    ensures |r| == |es|
    ensures forall i :: 0 <= i < |es| ==> r[i] == ToCard(es[i])
  {
    if es == [] then [] else [ToCard(es[0])] + ToCards(es[1..])
  }

  /** The three placeholder cards shown with no sessions at all. */
  const PlaceholderCards: seq<Card> := [
    Card("1", "Dr. Ananda Sharma", AnandaImage, "Today", "3:00 PM", "Anxiety Management", "60 mins", "confirmed", None),
    Card("2", "Dr. Priya Meditation", PriyaImage, "Tomorrow", "11:00 AM", "Mindfulness Session", "45 mins", "confirmed", None),
    Card("3", "Dr. Rajesh Mindful", RajeshImage, "Thursday", "5:30 PM", "Procrastination Workshop", "90 mins", "pending", None)
  ]

  /** `upcomingSessions`: the first three entries as cards, in order, or
      the placeholders when there are none. */
  function UpcomingSessions(sessions: seq<Entry>): (r: seq<Card>)
    ensures sessions == [] ==> r == PlaceholderCards
    ensures sessions != [] ==> |r| == (if |sessions| < 3 then |sessions| else 3)
    ensures sessions != [] ==> forall i :: 0 <= i < |r| ==> r[i] == ToCard(sessions[i])
  {
    if sessions == [] then PlaceholderCards
    else ToCards(sessions[..if |sessions| < 3 then |sessions| else 3])
  }

  /** A session card names an unknown doctor exactly when the doctor id is
      missing from the table. */
  lemma UnknownIffNotInTable(e: Entry)
    requires e.kind != Some("children_class")
    ensures Text.StartsWith(ToCard(e).doctor, "Dr. Unknown") <==> e.doctorKey !in Doctors
  {
    if e.doctorKey in Doctors {
      KnownNamesAreNotUnknown(e.doctorKey);
    } else {
      assert ToCard(e).doctor == "Dr. Unknown" + (" (ID: " + e.doctorKey + ")");
    }
  }

  /** Cards never claim a status the entry did not have, except the
      "confirmed" default for a missing one. */
  lemma CardStatus(sessions: seq<Entry>, i: nat)
    requires i < |sessions| && i < 3
    ensures UpcomingSessions(sessions)[i].status == "confirmed" || Some(UpcomingSessions(sessions)[i].status) == sessions[i].status
  {
  }

  // ------------------------------------------------------------ loading

  /** An `allSettled` result: rejected, or the response's list (an absent
      list read as empty). */
  datatype Settled = Rejected | Fulfilled(items: seq<Entry>)

  /** The session list after `loadDashboardData`: the sessions response
      replaces the list, then the classes are appended to whatever the list
      is; with no token nothing changes. */
  function LoadSessions(prev: seq<Entry>, token: Option<string>, sessions: Settled, classes: Settled): (r: seq<Entry>)
    ensures token.None? || token.value == "" ==> r == prev
    ensures token.Some? && token.value != "" ==>
              r == (if sessions.Fulfilled? then sessions.items else prev) + (if classes.Fulfilled? then classes.items else [])
  {
    if token.None? || token.value == "" then prev
    else
      var base := if sessions.Fulfilled? then sessions.items else prev;
      base + (if classes.Fulfilled? then classes.items else [])
  }

  /** Classes come after sessions: with both fulfilled, the sessions come
      first, in order, then the classes. */
  lemma ClassesAfterSessions(prev: seq<Entry>, token: string, ss: seq<Entry>, cs: seq<Entry>)
    requires token != ""
    ensures var r := LoadSessions(prev, Some(token), Fulfilled(ss), Fulfilled(cs));
            r[..|ss|] == ss && r[|ss|..] == cs
  {
  }

  /** The two demo sessions put in when loading has finished with nothing. */
  function WithDemo(sessions: seq<Entry>, loading: bool, inTwoDays: string, inFiveDays: string): (r: seq<Entry>)
    ensures loading || sessions != [] ==> r == sessions
    ensures !loading && sessions == [] ==> |r| == 2 && r[0].doctorKey == "1" && r[1].doctorKey == "2"
  {
    if loading || sessions != [] then sessions
    else [Entry("demo_session_1", None, "1", "", "", "", inTwoDays, "10:00", "consultation", "60", Some("confirmed")),
          Entry("demo_session_2", None, "2", "", "", "", inFiveDays, "14:30", "meditation", "45", Some("confirmed"))]
  }

  /** The demo sessions show as Dr. Ananda Sharma's and Dr. Priya Mehta's. */
  lemma DemoCards(inTwoDays: string, inFiveDays: string)
    ensures var cards := UpcomingSessions(WithDemo([], false, inTwoDays, inFiveDays));
            |cards| == 2 && cards[0].doctor == "Dr. Ananda Sharma" && cards[1].doctor == "Dr. Priya Mehta"
  {
  }

  // ------------------------------------------------------------ statistics

  /** The profile's `progress` numbers (absent, or zero, is falsy) and its
      join instant (`None` when it does not parse). */
  datatype Progress = Progress(sessionsCompleted: Option<int>, daysActive: Option<int>,
                               goalProgress: Option<int>, wellnessScore: Option<real>)

  datatype Profile = Profile(progress: Progress, joinedAt: Option<int>)

  /** The statistics; `None` stands for a random value (no profile) or for
      `NaN` (an unparseable join date). */
  datatype Stats = Stats(sessionsCompleted: int, daysActive: Option<int>, goalProgress: Option<int>,
                         wellnessScore: Option<real>)

  function CompletedCount(sessions: seq<Entry>): (n: nat)
    ensures n <= |sessions|
  {
    if sessions == [] then 0
    else (if sessions[0].status == Some("completed") then 1 else 0) + CompletedCount(sessions[1..])
  }

  function TruthyOr(v: Option<int>, fallback: int): (r: int)
    ensures v.Some? && v.value != 0 ==> r == v.value
    ensures v.None? || v.value == 0 ==> r == fallback
  {
    if v.Some? && v.value != 0 then v.value else fallback
  }

  const DayMs: int := 86_400_000

  /** `getUserStats`. */
  function UserStats(profile: Option<Profile>, sessions: seq<Entry>, now: int): (s: Stats)
    ensures profile.None? ==> s == Stats(CompletedCount(sessions), None, None, None)
    ensures profile.Some? ==> s.sessionsCompleted == TruthyOr(profile.value.progress.sessionsCompleted, CompletedCount(sessions))
    ensures profile.Some? ==> s.goalProgress == Some(TruthyOr(profile.value.progress.goalProgress, 85))
    ensures profile.Some? && (profile.value.progress.wellnessScore.None? || profile.value.progress.wellnessScore.value == 0.0) ==>
              s.wellnessScore == Some(4.8)
    ensures profile.Some? && profile.value.progress.wellnessScore.Some? && profile.value.progress.wellnessScore.value != 0.0 ==>
              s.wellnessScore == profile.value.progress.wellnessScore
    ensures (profile.Some? && profile.value.progress.daysActive.Some? && profile.value.progress.daysActive.value != 0) ==>
              s.daysActive == profile.value.progress.daysActive
    ensures (profile.Some? && (profile.value.progress.daysActive.None? || profile.value.progress.daysActive.value == 0)
             && profile.value.joinedAt.Some?) ==>
              s.daysActive.Some? && s.daysActive.value * DayMs <= now - profile.value.joinedAt.value < (s.daysActive.value + 1) * DayMs
    ensures (profile.Some? && (profile.value.progress.daysActive.None? || profile.value.progress.daysActive.value == 0)
             && profile.value.joinedAt.None?) ==>
              s.daysActive.None?
  {
    if profile.None? then Stats(CompletedCount(sessions), None, None, None)
    else
      var p := profile.value.progress;
      var days := if p.daysActive.Some? && p.daysActive.value != 0 then p.daysActive
                  else if profile.value.joinedAt.Some? then Some((now - profile.value.joinedAt.value) / DayMs)
                  else None;
      Stats(TruthyOr(p.sessionsCompleted, CompletedCount(sessions)), days, Some(TruthyOr(p.goalProgress, 85)),
            if p.wellnessScore.Some? && p.wellnessScore.value != 0.0 then p.wellnessScore else Some(4.8))
  }

  /** A recorded, non-zero session count hides the session list: the
      statistics then do not depend on it. */
  lemma RecordedCountIgnoresSessions(p: Profile, a: seq<Entry>, b: seq<Entry>, now: int)
    requires p.progress.sessionsCompleted.Some? && p.progress.sessionsCompleted.value != 0
    ensures UserStats(Some(p), a, now) == UserStats(Some(p), b, now)
  {
  }

  /** Days active, when derived from the join instant, never decrease as
      time passes. */
  lemma {:induction false} DaysActiveGrow(p: Profile, sessions: seq<Entry>, t1: int, t2: int)
    requires p.progress.daysActive.None? || p.progress.daysActive.value == 0
    requires p.joinedAt.Some? && t1 <= t2
    ensures UserStats(Some(p), sessions, t1).daysActive.value <= UserStats(Some(p), sessions, t2).daysActive.value
  {
    var d1 := UserStats(Some(p), sessions, t1).daysActive.value;
    var d2 := UserStats(Some(p), sessions, t2).daysActive.value;
    var j := p.joinedAt.value;
    assert d1 * DayMs <= t1 - j <= t2 - j < (d2 + 1) * DayMs;
  }
}
