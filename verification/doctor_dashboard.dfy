/** The doctor dashboard: bookings enriched with demo patient details, the
    four counters, marking a booking complete, and the bookings of a
    calendar day. Instants are millisecond counts; `offsetMs` is the local
    time zone's offset, so a booking's calendar day is
    floor((bookedAt + offsetMs) / day). */
module DoctorDashboard {
  import opened Wrappers
  import Text
  import Seqs

  const DayMs: int := 86_400_000

  /** A booking as listed by `GET /bookings`; `bookedAt` is `None` when it
      does not parse as a date. */
  datatype Booking = Booking(id: string, userId: string, bookedAt: Option<int>, status: string,
                             paymentStatus: string)

  datatype Row = Row(booking: Booking, patientName: string, patientEmail: string, patientPhone: string,
                     completed: bool)

  datatype Stats = Stats(todayAppointments: int, totalPatients: int, completedSessions: int, upcomingSessions: int)

  /** The demo patient details of the booking at position `i`. */
  function Enrich(b: Booking, i: nat): (r: Row)
    ensures r.booking == b && !r.completed
    ensures r.patientName == "Patient " + Text.NatToString(i + 1)
    ensures r.patientEmail == "patient" + Text.NatToString(i + 1) + "@example.com"
    ensures r.patientPhone == "+91 98765" + Text.NatToString(43210 + i)
  {
    Row(b, "Patient " + Text.NatToString(i + 1), "patient" + Text.NatToString(i + 1) + "@example.com",
        "+91 98765" + Text.NatToString(43210 + i), false)
  }

  function EnrichAll(bs: seq<Booking>, from: nat): (r: seq<Row>)
    ensures |r| == |bs|
    ensures forall i :: 0 <= i < |bs| ==> r[i] == Enrich(bs[i], from + i)
    decreases |bs|
  {
    if bs == [] then [] else [Enrich(bs[0], from)] + EnrichAll(bs[1..], from + 1)
  }

  /** The calendar day of an instant in the local zone. */
  function DayOf(instant: int, offsetMs: int): int {
    (instant + offsetMs) / DayMs
  }

  predicate OnDay(r: Row, day: int, offsetMs: int) {
    r.booking.bookedAt.Some? && DayOf(r.booking.bookedAt.value, offsetMs) == day
  }

  /** `getBookingsForDate`: the rows booked on `day`, in order. */
  function BookingsForDate(rows: seq<Row>, day: int, offsetMs: int): (r: seq<Row>)
    ensures forall x :: x in r <==> x in rows && OnDay(x, day, offsetMs)
    ensures Seqs.IsSubsequence(r, rows)
    ensures forall x :: multiset(r)[x] == (if OnDay(x, day, offsetMs) then multiset(rows)[x] else 0)
    ensures |r| <= |rows|
  {
    if rows == [] then []
    else
      assert rows == [rows[0]] + rows[1..];
      Seqs.KeepOrDrop(rows[0], rows[1..], BookingsForDate(rows[1..], day, offsetMs), OnDay(rows[0], day, offsetMs));
      (if OnDay(rows[0], day, offsetMs) then [rows[0]] else []) + BookingsForDate(rows[1..], day, offsetMs)
  }

  /** `new Set(rows.map(b => b.userId))`. */
  function UserIds(rows: seq<Row>): (s: set<string>)
    ensures forall u :: u in s <==> exists i :: 0 <= i < |rows| && rows[i].booking.userId == u
  {
    if rows == [] then {}
    else
      assert forall i :: 1 <= i < |rows| ==> rows[i] == rows[1..][i - 1];
      {rows[0].booking.userId} + UserIds(rows[1..])
  }

  /** There are never more patients than bookings. */
  lemma {:induction false} UserIdsBound(rows: seq<Row>)
    ensures |UserIds(rows)| <= |rows|
    ensures rows != [] ==> |UserIds(rows)| >= 1
  {
    if rows != [] {
      UserIdsBound(rows[1..]);
      assert rows[0].booking.userId in UserIds(rows);
    }
  }

  function CompletedCount(rows: seq<Row>): (n: nat)
    ensures n <= |rows|
  {
    if rows == [] then 0 else (if rows[0].completed then 1 else 0) + CompletedCount(rows[1..])
  }

  function PendingCount(rows: seq<Row>): (n: nat)
    ensures n <= |rows|
  {
    if rows == [] then 0 else (if rows[0].completed then 0 else 1) + PendingCount(rows[1..])
  }

  lemma {:induction false} CountsPartition(rows: seq<Row>)
    ensures CompletedCount(rows) + PendingCount(rows) == |rows|
  {
    if rows != [] {
      CountsPartition(rows[1..]);
    }
  }

  /** The counters computed from a list of rows. */
  function StatsOf(rows: seq<Row>, today: int, offsetMs: int): (s: Stats)
    ensures s.todayAppointments == |BookingsForDate(rows, today, offsetMs)|
    ensures s.totalPatients == |UserIds(rows)|
    ensures s.completedSessions == CompletedCount(rows) && s.upcomingSessions == PendingCount(rows)
    ensures s.completedSessions + s.upcomingSessions == |rows|
    ensures 0 <= s.todayAppointments <= |rows| && s.totalPatients <= |rows|
  {
    CountsPartition(rows);
    UserIdsBound(rows);
    Stats(|BookingsForDate(rows, today, offsetMs)|, |UserIds(rows)|, CompletedCount(rows), PendingCount(rows))
  }

  datatype Board = Board(rows: seq<Row>, stats: Stats)

  /** `loadBookings`: the listing's `bookings` (absent as an empty list), or
      `None` when the request fails, which leaves the board as it was. */
  function Load(board: Board, listed: Option<seq<Booking>>, today: int, offsetMs: int): (r: Board)
    ensures listed.None? ==> r == board
    ensures listed.Some? ==> r.rows == EnrichAll(listed.value, 0) && r.stats == StatsOf(r.rows, today, offsetMs)
    ensures listed.Some? ==> r.stats.completedSessions == 0 && r.stats.upcomingSessions == |listed.value|
  {
    if listed.None? then board
    else
      var rows := EnrichAll(listed.value, 0);
      NoneCompleted(listed.value, 0);
      Board(rows, StatsOf(rows, today, offsetMs))
  }

  lemma {:induction false} NoneCompleted(bs: seq<Booking>, from: nat)
    ensures CompletedCount(EnrichAll(bs, from)) == 0
    decreases |bs|
  {
    if bs != [] {
      NoneCompleted(bs[1..], from + 1);
    }
  }

  /** `handleMarkComplete`: the rows with that id are flagged, and the two
      counters move whatever the rows were. */
  function MarkComplete(board: Board, id: string): (r: Board)
    ensures |r.rows| == |board.rows|
    ensures forall i :: 0 <= i < |board.rows| ==>
              r.rows[i] == (if board.rows[i].booking.id == id then board.rows[i].(completed := true) else board.rows[i])
    ensures r.stats == board.stats.(completedSessions := board.stats.completedSessions + 1,
                                    upcomingSessions := board.stats.upcomingSessions - 1)
  {
    Board(Flag(board.rows, id), board.stats.(completedSessions := board.stats.completedSessions + 1,
                                             upcomingSessions := board.stats.upcomingSessions - 1))
  }

  function Flag(rows: seq<Row>, id: string): (r: seq<Row>)
    ensures |r| == |rows|
    ensures forall i :: 0 <= i < |rows| ==>
              r[i] == (if rows[i].booking.id == id then rows[i].(completed := true) else rows[i])
  {
    if rows == [] then []
    else [if rows[0].booking.id == id then rows[0].(completed := true) else rows[0]] + Flag(rows[1..], id)
  }

  /** The counters' sum is kept by marking. */
  lemma MarkKeepsSum(board: Board, id: string)
    ensures MarkComplete(board, id).stats.completedSessions + MarkComplete(board, id).stats.upcomingSessions
            == board.stats.completedSessions + board.stats.upcomingSessions
  {
  }

  predicate DistinctIds(rows: seq<Row>) {
    forall i, j :: 0 <= i < j < |rows| ==> rows[i].booking.id != rows[j].booking.id
  }

  /** The counters agree with the rows. */
  predicate Consistent(board: Board) {
    board.stats.completedSessions == CompletedCount(board.rows)
    && board.stats.upcomingSessions == PendingCount(board.rows)
  }

  /** Flagging the one incomplete row with a given id moves one row from
      pending to completed. */
  lemma {:induction false} FlagOne(rows: seq<Row>, k: nat)
    requires DistinctIds(rows) && k < |rows| && !rows[k].completed
    ensures CompletedCount(Flag(rows, rows[k].booking.id)) == CompletedCount(rows) + 1
    ensures PendingCount(Flag(rows, rows[k].booking.id)) == PendingCount(rows) - 1
    decreases |rows|
  {
    var id := rows[k].booking.id;
    if k == 0 {
      FlagAbsent(rows[1..], id);
      assert Flag(rows, id)[1..] == Flag(rows[1..], id);
    } else {
      assert rows[1..][k - 1] == rows[k];
      FlagOne(rows[1..], k - 1);
      assert rows[0].booking.id != id;
      assert Flag(rows, id)[1..] == Flag(rows[1..], id);
    }
  }

  lemma {:induction false} FlagAbsent(rows: seq<Row>, id: string)
    requires forall i :: 0 <= i < |rows| ==> rows[i].booking.id != id
    ensures Flag(rows, id) == rows
  {
    if rows != [] {
      FlagAbsent(rows[1..], id);
      assert rows == [rows[0]] + rows[1..];
    }
  }

  /** With distinct ids, the Mark Complete button (offered only on an
      incomplete row) keeps the counters in agreement with the rows. */
  lemma MarkKeepsConsistent(board: Board, k: nat)
    requires Consistent(board) && DistinctIds(board.rows) && k < |board.rows| && !board.rows[k].completed
    ensures Consistent(MarkComplete(board, board.rows[k].booking.id))
  {
    FlagOne(board.rows, k);
  }

  /** A freshly loaded board is consistent. */
  lemma LoadConsistent(board: Board, listed: seq<Booking>, today: int, offsetMs: int)
    ensures Consistent(Load(board, Some(listed), today, offsetMs))
  {
    NoneCompleted(listed, 0);
  }

  /** Marking does not move any booking to another day. */
  lemma {:induction false} MarkKeepsDays(rows: seq<Row>, id: string, day: int, offsetMs: int)
    ensures |BookingsForDate(Flag(rows, id), day, offsetMs)| == |BookingsForDate(rows, day, offsetMs)|
  {
    if rows != [] {
      MarkKeepsDays(rows[1..], id, day, offsetMs);
      assert Flag(rows, id)[1..] == Flag(rows[1..], id);
    }
  }

  /** The list shown under the calendar: that day's rows, or none when no
      day is selected. */
  function ShownForSelection(rows: seq<Row>, selected: Option<int>, offsetMs: int): (r: seq<Row>)
    ensures selected.None? ==> r == []
    ensures selected.Some? ==> r == BookingsForDate(rows, selected.value, offsetMs)
  {
    if selected.Some? then BookingsForDate(rows, selected.value, offsetMs) else []
  }
}
