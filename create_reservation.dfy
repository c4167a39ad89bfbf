/** The new-reservation form: its fields, the rooms it offers, and the
    booking summary with the total it computes. Submitting only reports the
    form and the total; nothing is stored. */
module CreateReservation {
  import opened Seqs
  import opened Dates
  import opened MockData
  import opened Scoping
  import opened FixtureFacts

  datatype Field = HotelBranchId | GuestId | RoomId | CheckIn | CheckOut | SpecialRequests

  /** The form state; every control's value is a string, dates as `YYYY-MM-DD`. */
  datatype Form = Form(
    hotelBranchId: string, guestId: string, roomId: string,
    checkIn: string, checkOut: string, specialRequests: string)

  function Get(f: Form, field: Field): string
  {
    match field
    case HotelBranchId => f.hotelBranchId
    case GuestId => f.guestId
    case RoomId => f.roomId
    case CheckIn => f.checkIn
    case CheckOut => f.checkOut
    case SpecialRequests => f.specialRequests
  }

  /** `{ ...formData, [name]: value }` */
  function Set(f: Form, field: Field, value: string): (r: Form)
    ensures Get(r, field) == value
    ensures forall g :: g != field ==> Get(r, g) == Get(f, g)
  {
    match field
    case HotelBranchId => f.(hotelBranchId := value)
    case GuestId => f.(guestId := value)
    case RoomId => f.(roomId := value)
    case CheckIn => f.(checkIn := value)
    case CheckOut => f.(checkOut := value)
    case SpecialRequests => f.(specialRequests := value)
  }

  /** The user's own branch preselected (`user.hotelBranchId || ''`), all else empty. */
  function InitialForm(user: User): (f: Form)
    ensures Truthy(user.hotelBranchId) ==> f.hotelBranchId == user.hotelBranchId.value
    ensures !Truthy(user.hotelBranchId) ==> f.hotelBranchId == ""
    ensures forall g :: g != HotelBranchId ==> Get(f, g) == ""
  {
    Form(if user.hotelBranchId.Some? then user.hotelBranchId.value else "", "", "", "", "", "")
  }

  /** The room choices: the chosen branch's available rooms, none before a
      branch is chosen. */
  function AvailableRooms(rs: seq<Room>, hotelBranchId: string): (r: seq<Room>)
    ensures hotelBranchId == "" ==> r == []
    ensures hotelBranchId != "" ==>
              forall x :: x in r <==> x in rs && x.hotelBranchId == hotelBranchId && x.status == Available
    ensures hotelBranchId != "" ==>
              forall x :: multiset(r)[x] ==
                if x.hotelBranchId == hotelBranchId && x.status == Available then multiset(rs)[x] else 0
    ensures IsSubsequence(r, rs)
  {
    if hotelBranchId == "" then []
    else
      var p := (x: Room) => x.hotelBranchId == hotelBranchId && x.status == Available;
      FilterSubsequence(rs, p);
      FilterCount(rs, p);
      Filter(rs, p)
  }

  /** The guest choices: active guests only. */
  function GuestChoices(gs: seq<Guest>): (r: seq<Guest>)
    ensures forall g :: g in r <==> g in gs && g.status == Active
    ensures forall g :: multiset(r)[g] == if g.status == Active then multiset(gs)[g] else 0
    ensures IsSubsequence(r, gs)
  {
    FilterSubsequence(gs, (g: Guest) => g.status == Active);
    ActiveGuests(gs)
  }

  /** The stay length shown: check-out minus check-in in days, None where
      either date does not parse (the source's NaN). */
  function Duration(f: Form): (n: Option<int>)
    ensures n.Some? <==> ParseIsoDate(f.checkIn).Some? && ParseIsoDate(f.checkOut).Some?
    ensures n.Some? ==> n.value == DaysBetween(ParseIsoDate(f.checkIn).value, ParseIsoDate(f.checkOut).value)
  {
    match (ParseIsoDate(f.checkIn), ParseIsoDate(f.checkOut))
    case (Some(a), Some(b)) => Some(DaysBetween(a, b))
    case _ => None
  }

  /** `calculateTotal`: nights times the selected room's price, and 0 when a
      date is missing, no room is selected, or the stay is not positive.
      The room is looked up among all rooms, not only the offered ones. */
  function CalculateTotal(f: Form, rs: seq<Room>): (t: nat)
    ensures f.checkIn == "" || f.checkOut == "" || FindRoom(rs, f.roomId).None? ==> t == 0
    ensures Duration(f).None? ==> t == 0
    ensures Duration(f).Some? && Duration(f).value <= 0 ==> t == 0
    ensures Duration(f).Some? && Duration(f).value > 0 && FindRoom(rs, f.roomId).Some? ==>
              t == Duration(f).value * FindRoom(rs, f.roomId).value.price
  {
    if f.checkIn == "" || f.checkOut == "" then 0
    else match FindRoom(rs, f.roomId)
      case None => 0
      case Some(room) =>
        match Duration(f)
        case None => 0
        case Some(nights) => if nights > 0 then nights * room.price else 0
  }

  datatype Stay = Stay(duration: Option<int>, total: nat)

  /** The booking summary panel: nothing until a room is selected; then the
      room, and once both dates are filled the duration and the total. */
  datatype Summary = NoRoomSelected | RoomSelected(room: Room, stay: Option<Stay>)

  function BookingSummary(f: Form, rs: seq<Room>): (s: Summary)
    ensures s.NoRoomSelected? <==> FindRoom(rs, f.roomId).None?
    ensures s.RoomSelected? ==> Some(s.room) == FindRoom(rs, f.roomId)
    ensures s.RoomSelected? ==> (s.stay.Some? <==> f.checkIn != "" && f.checkOut != "")
    ensures s.RoomSelected? && s.stay.Some? ==>
              s.stay.value.duration == Duration(f) && s.stay.value.total == CalculateTotal(f, rs)
  {
    match FindRoom(rs, f.roomId)
    case None => NoRoomSelected
    case Some(room) =>
      RoomSelected(room,
        if f.checkIn != "" && f.checkOut != "" then Some(Stay(Duration(f), CalculateTotal(f, rs))) else None)
  }

  /** The page: the signed-in user and the form. The branch select is
      disabled for a branch-admin and the room select until a branch is chosen. */
  class CreateReservationPage {
    const user: User
    var formData: Form

    /** A branch-admin's form stays on their own branch. */
    ghost predicate Valid()
      reads this
    {
      user.role == BranchAdmin ==> formData.hotelBranchId == InitialForm(user).hotelBranchId
    }

    constructor(u: User)
      ensures user == u && formData == InitialForm(u) && Valid()
    {
      user := u;
      formData := InitialForm(u);
    }

    /** `handleChange` from an enabled control. */
    method HandleChange(field: Field, value: string)
      requires Valid()
      requires field == HotelBranchId ==> user.role != BranchAdmin
      requires field == RoomId ==> formData.hotelBranchId != ""
      modifies this
      ensures Valid()
      ensures formData == Set(old(formData), field, value)
    {
      formData := Set(formData, field, value);
    }

    /** `handleSubmit`: the payload logged, the form with its total. */
    method HandleSubmit() returns (payload: Form, totalAmount: nat)
      ensures payload == formData
      ensures totalAmount == CalculateTotal(formData, rooms)
    {
      payload := formData;
      totalAmount := CalculateTotal(formData, rooms);
    }
  }

  /** Four nights from 2024-12-01 to 2024-12-05 in room 205 at 180 a night
      come to 720. */
  lemma FourNightsExample()
    ensures var f := Form("hotel-1", "guest-1", "room-2", "2024-12-01", "2024-12-05", "");
            Duration(f) == Some(4) && CalculateTotal(f, rooms) == 720
  {
    ParsesEarlyDecember();
    SameMonthDistance(2024, 12, 1, 5);
    RoomIdsUnique();
    FindRoomByUniqueId(rooms, 1);
  }

  lemma ParsesEarlyDecember()
    ensures ParseIsoDate("2024-12-01") == Some(Ymd(2024, 12, 1))
    ensures ParseIsoDate("2024-12-05") == Some(Ymd(2024, 12, 5))
  {
    var a, b := "2024-12-01", "2024-12-05";
    assert a[0] == '2' && a[1] == '0' && a[2] == '2' && a[3] == '4' && a[4] == '-';
    assert a[5] == '1' && a[6] == '2' && a[7] == '-' && a[8] == '0' && a[9] == '1';
    assert b[..9] == a[..9] && b[9] == '5';
  }
}
