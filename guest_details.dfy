/** The guest details page, reached by id: the guest's figures and the
    history of their reservations, across all branches. */
module GuestDetails {
  import opened Seqs
  import opened MockData
  import opened Arith
  import opened StatusBadges

  /** One history row: the reservation with its hotel and room, when they exist. */
  datatype HistoryRow = HistoryRow(
    reservation: Reservation, hotel: Option<HotelBranch>, room: Option<Room>,
    statusClass: string, paymentClass: string)

  datatype GuestView =
    | GuestNotFound
    | GuestPage(guest: Guest, averagePerBooking: nat, history: seq<HistoryRow>, showsNoReservations: bool)

  /** "Average per Booking": the total spent over the bookings, rounded, and
      0 for a guest with no bookings. */
  function AveragePerBooking(g: Guest): (a: nat)
    ensures g.totalBookings == 0 ==> a == 0
    ensures g.totalBookings > 0 ==>
              2 * g.totalBookings * a <= 2 * g.totalSpent + g.totalBookings < 2 * g.totalBookings * (a + 1)
    ensures g.totalBookings > 0 ==> a * g.totalBookings <= g.totalSpent + g.totalBookings
  {
    if g.totalBookings > 0 then RoundDiv(g.totalSpent, g.totalBookings) else 0
  }

  /** `guestReservations`: the reservations booked by the guest, in order. */
  function GuestReservations(res: seq<Reservation>, guestId: string): (r: seq<Reservation>)
    ensures forall x :: x in r <==> x in res && x.guestId == guestId
    ensures r == [] <==> forall x :: x in res ==> x.guestId != guestId
    ensures IsSubsequence(r, res)
  {
    var p := (x: Reservation) => x.guestId == guestId;
    FilterSubsequence(res, p);
    FilterNone(res, p);
    Filter(res, p)
  }

  /** Each reservation of the guest is listed as often as it occurs. */
  lemma GuestReservationsCount(res: seq<Reservation>, guestId: string)
    ensures forall x :: multiset(GuestReservations(res, guestId))[x] ==
              if x.guestId == guestId then multiset(res)[x] else 0
  {
    FilterCount(res, (x: Reservation) => x.guestId == guestId);
  }

  function HistoryRowOf(r: Reservation, rs: seq<Room>, branches: seq<HotelBranch>): HistoryRow
  {
    HistoryRow(r, FindBranch(branches, r.hotelBranchId), FindRoom(rs, r.roomId),
      StatusColor(ReservationStatusName(r.status)), StatusColor(PaymentStatusName(r.paymentStatus)))
  }

  /** The page for `id`: not found unless some guest has that id; otherwise
      the first such guest, the average, one row per reservation of theirs and
      the "No reservations found" row exactly when there is none. */
  function GuestDetailsPage(gs: seq<Guest>, res: seq<Reservation>, rs: seq<Room>,
                            branches: seq<HotelBranch>, id: string): (v: GuestView)
    ensures v.GuestNotFound? <==> forall j :: 0 <= j < |gs| ==> gs[j].id != id
    ensures v.GuestPage? ==> exists i :: 0 <= i < |gs| && gs[i] == v.guest && gs[i].id == id &&
                                         forall j :: 0 <= j < i ==> gs[j].id != id
    ensures v.GuestPage? ==> v.averagePerBooking == AveragePerBooking(v.guest)
    ensures v.GuestPage? ==> |v.history| == |GuestReservations(res, id)|
    ensures v.GuestPage? ==> forall k :: 0 <= k < |v.history| ==>
              v.history[k].reservation == GuestReservations(res, id)[k] &&
              v.history[k].reservation.guestId == id &&
              v.history[k].room == FindRoom(rs, v.history[k].reservation.roomId) &&
              v.history[k].hotel == FindBranch(branches, v.history[k].reservation.hotelBranchId)
    ensures v.GuestPage? ==> (v.showsNoReservations <==> forall x :: x in res ==> x.guestId != id)
  {
    match FindGuest(gs, id)
    case None => GuestNotFound
    case Some(g) =>
      var mine := GuestReservations(res, g.id);
      assert forall k :: 0 <= k < |mine| ==> mine[k] in mine;
      GuestPage(g, AveragePerBooking(g),
        seq(|mine|, k requires 0 <= k < |mine| => HistoryRowOf(mine[k], rs, branches)),
        |mine| == 0)
  }

  /** John Smith's 8450 over 12 bookings averages 704 (704.17 rounded). */
  lemma AverageExample()
    ensures AveragePerBooking(guests[0]) == 704
  {
    var a := AveragePerBooking(guests[0]);
    assert 24 * a <= 16912 < 24 * (a + 1);
  }
}
