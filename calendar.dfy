/** The reservations calendar: one month of days, month navigation, and a
    grid of the user's first ten rooms against those days. */
module Calendar {
  import opened Seqs
  import opened Dates
  import opened MockData
  import opened Scoping
  import opened Arith

  /** `new Date(year, month + 1, 1)` for a month 1..12. */
  function NextMonth(year: int, month: int): (r: (int, int))
    requires 1 <= month <= 12
    ensures 1 <= r.1 <= 12
    ensures month == 12 ==> r == (year + 1, 1)
    ensures month < 12 ==> r == (year, month + 1)
  {
    if month == 12 then (year + 1, 1) else (year, month + 1)
  }

  /** `new Date(year, month - 1, 1)` for a month 1..12. */
  function PrevMonth(year: int, month: int): (r: (int, int))
    requires 1 <= month <= 12
    ensures 1 <= r.1 <= 12
    ensures month == 1 ==> r == (year - 1, 12)
    ensures month > 1 ==> r == (year, month - 1)
  {
    if month == 1 then (year - 1, 12) else (year, month - 1)
  }

  /** Going forward then back, or back then forward, returns to the same month. */
  lemma MonthNavigationInverse(year: int, month: int)
    requires 1 <= month <= 12
    ensures PrevMonth(NextMonth(year, month).0, NextMonth(year, month).1) == (year, month)
    ensures NextMonth(PrevMonth(year, month).0, PrevMonth(year, month).1) == (year, month)
  {
  }

  lemma DivUnique(a: int, k: int, q: int, r: int)
    requires k > 0 && 0 <= r < k && a == k * q + r
    ensures a / k == q
  {
    var q' := a / k;
    var r' := a % k;
    assert a == k * q' + r';
    assert k * (q - q') == r' - r;
    assert k * (q - q') < k * 1;
    MulCancel(k, q - q', 1);
    assert k * (-1) < k * (q - q');
    MulCancel(k, -1, q - q');
  }

  /** How `y / k` steps between `y - 1` and `y`. */
  lemma DivStep(y: int, k: int)
    requires k > 0
    ensures y / k - (y - 1) / k == if y % k == 0 then 1 else 0
  {
    var q := y / k;
    var r := y % k;
    assert y == k * q + r;
    if r == 0 {
      DivUnique(y - 1, k, q - 1, k - 1);
    } else {
      DivUnique(y - 1, k, q, r - 1);
    }
  }

  /** Leap days between the March-based years `y - 1` and `y`. */
  lemma LeapStep(y: int)
    ensures (y / 4 - (y - 1) / 4) - (y / 100 - (y - 1) / 100) + (y / 400 - (y - 1) / 400)
            == if IsLeapYear(y) then 1 else 0
  {
    DivStep(y, 4);
    DivStep(y, 100);
    DivStep(y, 400);
    if y % 400 == 0 {
      var t := y / 400;
      assert y == 400 * t;
      DivUnique(y, 100, 4 * t, 0);
      DivUnique(y, 4, 100 * t, 0);
    } else if y % 100 == 0 {
      var t := y / 100;
      assert y == 100 * t;
      DivUnique(y, 4, 25 * t, 0);
    }
  }

  /** Day 1 of the next month is the day after the last day of this one, so
      consecutive month views cover the days without gap or overlap. */
  lemma {:induction false} NextMonthFollows(year: int, month: int)
    requires 1 <= month <= 12
    ensures DayNumber(Date(NextMonth(year, month).0, NextMonth(year, month).1, 1))
            == DayNumber(Date(year, month, DaysInMonth(year, month))) + 1
  {
    if month == 2 {
      LeapStep(year);
    } else if month == 1 {
      assert (153 * 10 + 2) / 5 == 306 && (153 * 11 + 2) / 5 == 337;
    } else if month == 12 {
      assert (153 * 9 + 2) / 5 == 275 && (153 * 10 + 2) / 5 == 306;
    } else {
      var m := month - 3;
      assert (153 * (m + 1) + 2) / 5 == (153 * m + 2) / 5 + DaysInMonth(year, month);
    }
  }

  /** `getDaysInMonth`: the days 1..N of the month, in order. */
  method GetDaysInMonth(year: int, month: int) returns (days: seq<Date>)
    requires 1 <= month <= 12
    ensures |days| == DaysInMonth(year, month)
    ensures forall i :: 0 <= i < |days| ==> days[i] == Date(year, month, i + 1)
    ensures forall i :: 0 < i < |days| ==> DayNumber(days[i]) == DayNumber(days[i - 1]) + 1
  {
    var last := DaysInMonth(year, month);
    days := [];
    var i := 1;
    while i <= last
      invariant 1 <= i <= last + 1
      invariant |days| == i - 1
      invariant forall k :: 0 <= k < |days| ==> days[k] == Date(year, month, k + 1)
    {
      days := days + [Date(year, month, i)];
      i := i + 1;
    }
  }

  /** The month the calendar shows (`currentDate`, always the first of a month). */
  class CalendarView {
    var year: int
    var month: int

    ghost predicate Valid()
      reads this
    {
      1 <= month <= 12
    }

    /** The calendar opens on November 2024. */
    constructor()
      ensures Valid() && year == 2024 && month == 11
    {
      year := 2024;
      month := 11;
    }

    method GoToPreviousMonth()
      requires Valid()
      modifies this
      ensures Valid() && (year, month) == PrevMonth(old(year), old(month))
    {
      var p := PrevMonth(year, month);
      year, month := p.0, p.1;
    }

    method GoToNextMonth()
      requires Valid()
      modifies this
      ensures Valid() && (year, month) == NextMonth(old(year), old(month))
    {
      var n := NextMonth(year, month);
      year, month := n.0, n.1;
    }

    /** The column headers of the grid. */
    method Days() returns (days: seq<Date>)
      requires Valid()
      ensures |days| == DaysInMonth(year, month)
      ensures forall i :: 0 <= i < |days| ==> days[i] == Date(year, month, i + 1)
    {
      days := GetDaysInMonth(year, month);
    }
  }

  /** A stay covers both its check-in day and its check-out day. */
  predicate Occupies(r: Reservation, roomId: string, day: int)
  {
    r.roomId == roomId && r.checkIn <= day <= r.checkOut
  }

  /** `hasReservation` on a calendar day: the first of the user's
      reservations of the room whose stay covers the day, whatever its status. */
  function ReservationOn(user: User, res: seq<Reservation>, roomId: string, day: int): (r: Option<Reservation>)
    ensures var s := ScopeReservations(user, res);
            r.None? <==> forall j :: 0 <= j < |s| ==> !Occupies(s[j], roomId, day)
    ensures var s := ScopeReservations(user, res);
            r.Some? ==> exists i :: 0 <= i < |s| && s[i] == r.value && Occupies(r.value, roomId, day) &&
                                    forall j :: 0 <= j < i ==> !Occupies(s[j], roomId, day)
  {
    Find(ScopeReservations(user, res), (x: Reservation) => Occupies(x, roomId, day))
  }

  /** Minutes in a day. */
  const MinutesPerDay := 1440

  /** A zone's UTC offset in minutes east of UTC (the negation of
      `getTimezoneOffset()`): UTC-12:00 to UTC+14:00. */
  predicate ValidOffset(offset: int)
  {
    -720 <= offset <= 840
  }

  /** The day `hasReservation` actually compares. The cell's date is local
      midnight of `localDay`, the instant `localDay * 1440 - offset` minutes
      after the epoch in UTC; `toISOString().split('T')[0]` keeps that
      instant's UTC day, and `new Date` reads it back as UTC midnight. Wherever
      local time is ahead of UTC that is the previous day. */
  function ExaminedDay(localDay: int, offset: int): (d: int)
    requires ValidOffset(offset)
    ensures d == if offset > 0 then localDay - 1 else localDay
  {
    UtcDayOfLocalMidnight(localDay, offset);
    (localDay * MinutesPerDay - offset) / MinutesPerDay
  }

  /** Local midnight falls on the previous UTC day east of UTC, and on the
      same UTC day at UTC and west of it. */
  lemma UtcDayOfLocalMidnight(localDay: int, offset: int)
    requires ValidOffset(offset)
    ensures (localDay * MinutesPerDay - offset) / MinutesPerDay == if offset > 0 then localDay - 1 else localDay
  {
    var instant := localDay * MinutesPerDay - offset;
    if offset > 0 {
      DivUnique(instant, MinutesPerDay, localDay - 1, MinutesPerDay - offset);
    } else {
      DivUnique(instant, MinutesPerDay, localDay, -offset);
    }
  }

  /** `hasReservation` as written, on the cell of local day `localDay` in a
      zone `offset` minutes east of UTC: the stay it finds covers the
      previous day ahead of UTC and the cell's own day elsewhere, and it finds
      none iff no scoped stay of the room covers that day. */
  function ReservationOnAsWritten(user: User, res: seq<Reservation>, roomId: string,
                                  localDay: int, offset: int): (r: Option<Reservation>)
    requires ValidOffset(offset)
    ensures var s := ScopeReservations(user, res);
            var d := if offset > 0 then localDay - 1 else localDay;
            r.None? <==> forall j :: 0 <= j < |s| ==> !Occupies(s[j], roomId, d)
    ensures r.Some? ==> r.value in ScopeReservations(user, res) &&
                        Occupies(r.value, roomId, if offset > 0 then localDay - 1 else localDay)
  {
    ReservationOn(user, res, roomId, ExaminedDay(localDay, offset))
  }

  /** Ahead of UTC the grid is one day late: the check-in day of a stay shows
      as available and the day after check-out shows as booked. At UTC and
      west of it each cell shows its own day. */
  lemma AheadOfUtcShiftsGrid(user: User, res: seq<Reservation>, roomId: string, day: int, offset: int)
    requires ValidOffset(offset)
    ensures offset > 0 ==> ReservationOnAsWritten(user, res, roomId, day + 1, offset) == ReservationOn(user, res, roomId, day)
    ensures offset <= 0 ==> ReservationOnAsWritten(user, res, roomId, day, offset) == ReservationOn(user, res, roomId, day)
  {
  }

  /** On the fixtures room 205 (room-2) is booked by res-1 alone, from
      2024-11-25 to 2024-11-28 inclusive. */
  lemma RoomTwoOn(day: int)
    ensures ReservationOn(defaultUser, reservations, "room-2", day)
            == if reservations[0].checkIn <= day <= reservations[0].checkOut then Some(reservations[0]) else None
  {
    var s := ScopeReservations(defaultUser, reservations);
    assert s == reservations;
    assert forall j :: 1 <= j < |s| ==> s[j].roomId != "room-2";
  }

  lemma LateNovemberDays()
    ensures Ymd(2024, 11, 24) == 20051 && Ymd(2024, 11, 25) == 20052
    ensures Ymd(2024, 11, 28) == 20055 && Ymd(2024, 11, 29) == 20056
  {
    FixtureMonthStarts();
    SameMonthDistance(2024, 11, 1, 24);
    SameMonthDistance(2024, 11, 1, 25);
    SameMonthDistance(2024, 11, 1, 28);
    SameMonthDistance(2024, 11, 1, 29);
  }

  /** At UTC+1 (central European winter time) room 205 shows as free on
      2024-11-25, the check-in day of res-1; at UTC-5 it shows as booked. */
  lemma AheadOfUtcExample()
    ensures ReservationOn(defaultUser, reservations, "room-2", Ymd(2024, 11, 25)) == Some(reservations[0])
    ensures ReservationOnAsWritten(defaultUser, reservations, "room-2", Ymd(2024, 11, 25), 60).None?
    ensures ReservationOnAsWritten(defaultUser, reservations, "room-2", Ymd(2024, 11, 25), -300) == Some(reservations[0])
  {
    LateNovemberDays();
    RoomTwoOn(20051);
    RoomTwoOn(20052);
  }

  /** At UTC+1 it shows as booked on 2024-11-29, the day after its
      check-out. */
  lemma AheadOfUtcDayAfterExample()
    ensures ReservationOn(defaultUser, reservations, "room-2", Ymd(2024, 11, 29)).None?
    ensures ReservationOnAsWritten(defaultUser, reservations, "room-2", Ymd(2024, 11, 29), 60) == Some(reservations[0])
  {
    LateNovemberDays();
    RoomTwoOn(20055);
    RoomTwoOn(20056);
  }

  /** `getReservationColor`: a completed stay falls to the default grey. */
  function ReservationColor(status: ReservationStatus): (c: string)
    ensures c == "bg-green-500" <==> status == Confirmed
    ensures c == "bg-yellow-500" <==> status == Pending
    ensures c == "bg-red-500" <==> status == Cancelled
    ensures c == "bg-gray-500" <==> status == Completed
    ensures c != "bg-gray-100"
  {
    assert "bg-green-500"[3] == 'g' && "bg-gray-500"[5] == 'a' && "bg-green-500"[5] == 'e';
    assert "bg-yellow-500"[3] == 'y' && "bg-red-500"[3] == 'r';
    match status
    case Confirmed => "bg-green-500"
    case Pending => "bg-yellow-500"
    case Cancelled => "bg-red-500"
    case Completed => "bg-gray-500"
  }

  /** The grid's rows: the first ten of the user's rooms. */
  function CalendarRooms(user: User, rs: seq<Room>): (r: seq<Room>)
    ensures |r| == if |ScopeRooms(user, rs)| < 10 then |ScopeRooms(user, rs)| else 10
    ensures r == ScopeRooms(user, rs)[..|r|]
  {
    Take(ScopeRooms(user, rs), 10)
  }

  datatype Cell = Cell(color: string, title: string)

  /** One grid cell: grey and "Available" on a free day; otherwise coloured by
      the stay's status and titled with its guest, when the guest exists. */
  function CalendarCell(user: User, res: seq<Reservation>, gs: seq<Guest>, roomId: string, day: int): (c: Cell)
    ensures c.color == "bg-gray-100" <==> ReservationOn(user, res, roomId, day).None?
    ensures ReservationOn(user, res, roomId, day).None? ==> c.title == "Available"
    ensures ReservationOn(user, res, roomId, day).Some? ==>
              var r := ReservationOn(user, res, roomId, day).value;
              c.color == ReservationColor(r.status) &&
              c.title == match FindGuest(gs, r.guestId)
                         case None => "Available"
                         case Some(g) => g.name + " - " + ReservationStatusName(r.status)
  {
    match ReservationOn(user, res, roomId, day)
    case None => Cell("bg-gray-100", "Available")
    case Some(r) =>
      var title := match FindGuest(gs, r.guestId)
                   case None => "Available"
                   case Some(g) => g.name + " - " + ReservationStatusName(r.status);
      Cell(ReservationColor(r.status), title)
  }
}
