/** The reservation details page, reached by id. It is not scoped to the
    user's branch: any reservation id opens its page. */
module ReservationDetails {
  import opened Seqs
  import opened Text
  import opened Dates
  import opened MockData
  import opened StatusBadges

  /** `hotel` is the branch named inside the room panel, absent without a room. */
  datatype DetailsView =
    | NotFound
    | Details(
        reservation: Reservation, guest: Option<Guest>, room: Option<Room>,
        hotel: Option<HotelBranch>, title: string, statusClass: string,
        paymentClass: string, canApproveOrCancel: bool, nights: int,
        nightsLabel: string, roomRate: int, total: nat)

  /** `'night'` for exactly one night, `'nights'` otherwise (zero included). */
  function NightsLabel(nights: int): (s: string)
    ensures s == "night" <==> nights == 1
    ensures s == "nights" <==> nights != 1
  {
    if nights == 1 then "night" else "nights"
  }

  /** The heading id: the last eight characters of the id, upper-cased. */
  function DisplayId(id: string): (s: string)
    ensures |s| == if |id| < 8 then |id| else 8
    ensures forall i :: 0 <= i < |s| ==> s[i] == UpperChar(id[|id| - |s| + i])
  {
    Upper(LastChars(id, 8))
  }

  /** The page for `id`: not found unless some reservation has that id;
      otherwise the first one with it, its guest and room when they exist,
      the hotel's name (shown inside the room panel, so only with a room), the actions only while it is pending, and the stay's nights
      times the room's price beside the stored total (the two may differ). */
  function DetailsPage(res: seq<Reservation>, gs: seq<Guest>, rs: seq<Room>,
                       branches: seq<HotelBranch>, id: string): (v: DetailsView)
    ensures v.NotFound? <==> forall j :: 0 <= j < |res| ==> res[j].id != id
    ensures v.Details? ==> exists i :: 0 <= i < |res| && res[i] == v.reservation && res[i].id == id &&
                                       forall j :: 0 <= j < i ==> res[j].id != id
    ensures v.Details? ==> v.guest == FindGuest(gs, v.reservation.guestId)
    ensures v.Details? ==> v.room == FindRoom(rs, v.reservation.roomId)
    ensures v.Details? ==> v.hotel == if v.room.Some? then FindBranch(branches, v.reservation.hotelBranchId) else None
    ensures v.Details? ==> v.title == DisplayId(id)
    ensures v.Details? ==> v.statusClass == StatusColor(ReservationStatusName(v.reservation.status))
    ensures v.Details? ==> v.paymentClass == StatusColor(PaymentStatusName(v.reservation.paymentStatus))
    ensures v.Details? ==> (v.canApproveOrCancel <==> v.reservation.status == Pending)
    ensures v.Details? ==> v.nights == DaysBetween(v.reservation.checkIn, v.reservation.checkOut)
    ensures v.Details? ==> v.nightsLabel == NightsLabel(v.nights)
    ensures v.Details? ==> v.roomRate == if v.room.Some? then v.room.value.price * v.nights else 0
    ensures v.Details? ==> v.total == v.reservation.totalAmount
  {
    match FindReservation(res, id)
    case None => NotFound
    case Some(r) =>
      var room := FindRoom(rs, r.roomId);
      var nights := DaysBetween(r.checkIn, r.checkOut);
      var hotel := if room.Some? then FindBranch(branches, r.hotelBranchId) else None;
      Details(r, FindGuest(gs, r.guestId), room, hotel,
        DisplayId(r.id), StatusColor(ReservationStatusName(r.status)),
        StatusColor(PaymentStatusName(r.paymentStatus)), r.status == Pending,
        nights, NightsLabel(nights),
        match room case Some(x) => x.price * nights case None => 0,
        r.totalAmount)
  }

  /** A short id is shown whole, upper-cased. */
  lemma DisplayIdExample()
    ensures DisplayId("res-2") == "RES-2"
  {
    assert LastChars("res-2", 8) == "res-2";
    var d := Upper("res-2");
    assert d[0] == 'R' && d[1] == 'E' && d[2] == 'S' && d[3] == '-' && d[4] == '2';
  }
}
