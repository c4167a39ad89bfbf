/** Facts about the fixture collections: lookups by id, and the data
    integrity the pages take for granted but nothing enforces. */
module FixtureFacts {
  import opened Seqs
  import opened Dates
  import opened MockData

  /** No two entries of a collection share an id. */
  ghost predicate UniqueIds<T>(xs: seq<T>, id: T -> string)
  {
    forall i, j :: 0 <= i < j < |xs| ==> id(xs[i]) != id(xs[j])
  }

  function BranchId(b: HotelBranch): string { b.id }
  function GuestId(g: Guest): string { g.id }
  function RoomId(r: Room): string { r.id }
  function ReservationId(r: Reservation): string { r.id }
  function AdminId(a: Admin): string { a.id }

  /** The fixtures' ids are "hotel-n", "guest-n", "room-n", "res-n" and
      "admin-n" with distinct n, so every collection has unique ids. */
  lemma BranchIdsUnique()
    ensures UniqueIds(hotelBranches, BranchId)
  {
    assert forall i :: 0 <= i < |hotelBranches| ==> hotelBranches[i].id[6] == "12345"[i];
    forall i, j | 0 <= i < j < |hotelBranches| ensures BranchId(hotelBranches[i]) != BranchId(hotelBranches[j]) {
      assert hotelBranches[i].id[6] != hotelBranches[j].id[6];
    }
  }

  lemma GuestIdsUnique()
    ensures UniqueIds(guests, GuestId)
  {
    assert forall i :: 0 <= i < |guests| ==> guests[i].id[6] == "12345"[i];
    forall i, j | 0 <= i < j < |guests| ensures GuestId(guests[i]) != GuestId(guests[j]) {
      assert guests[i].id[6] != guests[j].id[6];
    }
  }

  lemma RoomIdsUnique()
    ensures UniqueIds(rooms, RoomId)
  {
    assert forall i :: 0 <= i < |rooms| ==> rooms[i].id[5] == "12345"[i];
    forall i, j | 0 <= i < j < |rooms| ensures RoomId(rooms[i]) != RoomId(rooms[j]) {
      assert rooms[i].id[5] != rooms[j].id[5];
    }
  }

  lemma ReservationIdsUnique()
    ensures UniqueIds(reservations, ReservationId)
  {
    assert forall i :: 0 <= i < |reservations| ==> reservations[i].id[4] == "12345"[i];
    forall i, j | 0 <= i < j < |reservations| ensures ReservationId(reservations[i]) != ReservationId(reservations[j]) {
      assert reservations[i].id[4] != reservations[j].id[4];
    }
  }

  lemma AdminIdsUnique()
    ensures UniqueIds(admins, AdminId)
  {
    assert forall i :: 0 <= i < |admins| ==> admins[i].id[6] == "1234"[i];
    forall i, j | 0 <= i < j < |admins| ensures AdminId(admins[i]) != AdminId(admins[j]) {
      assert admins[i].id[6] != admins[j].id[6];
    }
  }

  /** The room index of each fixture reservation: res-1 is in room-2,
      res-2 in room-3, res-3 in room-1, res-4 in room-4, res-5 in room-1. */
  function RoomIndexOf(i: nat): nat
    requires i < 5
  {
    [1, 2, 0, 3, 0][i]
  }

  /** In a collection with unique ids, looking up an entry's id finds
      that entry. */
  lemma FindRoomByUniqueId(rs: seq<Room>, k: int)
    requires UniqueIds(rs, RoomId) && 0 <= k < |rs|
    ensures FindRoom(rs, rs[k].id) == Some(rs[k])
  {
    var p := (r: Room) => r.id == rs[k].id;
    assert p(rs[k]);
    var j := FirstIndex(rs, p).value;
    assert RoomId(rs[j]) == RoomId(rs[k]);
  }

  lemma FindGuestByUniqueId(gs: seq<Guest>, k: int)
    requires UniqueIds(gs, GuestId) && 0 <= k < |gs|
    ensures FindGuest(gs, gs[k].id) == Some(gs[k])
  {
    var p := (g: Guest) => g.id == gs[k].id;
    assert p(gs[k]);
    var j := FirstIndex(gs, p).value;
    assert GuestId(gs[j]) == GuestId(gs[k]);
  }

  lemma FindsReservationRoom(i: nat)
    requires i < |reservations|
    ensures RoomIndexOf(i) < |rooms|
    ensures FindRoom(rooms, reservations[i].roomId) == Some(rooms[RoomIndexOf(i)])
  {
    assert reservations[i].roomId == rooms[RoomIndexOf(i)].id;
    RoomIdsUnique();
    FindRoomByUniqueId(rooms, RoomIndexOf(i));
  }

  /** Every fixture reservation names a room that exists and belongs to the
      reservation's own branch, checks out after it checks in, and costs
      its nights times the room's nightly price. */
  lemma ReservationsConsistent(i: nat)
    requires i < |reservations|
    ensures FindRoom(rooms, reservations[i].roomId).Some?
    ensures var r := FindRoom(rooms, reservations[i].roomId).value;
            r.hotelBranchId == reservations[i].hotelBranchId &&
            reservations[i].checkIn < reservations[i].checkOut &&
            reservations[i].totalAmount == DaysBetween(reservations[i].checkIn, reservations[i].checkOut) * r.price
  {
    FindsReservationRoom(i);
    if i == 0 {
      assert reservations[0].totalAmount == 3 * rooms[1].price;
    } else if i == 1 {
      assert reservations[1].totalAmount == 4 * rooms[2].price;
    } else if i == 2 {
      assert reservations[2].totalAmount == 3 * rooms[0].price;
    } else if i == 3 {
      assert reservations[3].totalAmount == 5 * rooms[3].price;
    } else {
      assert reservations[4].totalAmount == 2 * rooms[0].price;
    }
  }

  lemma ReservationGuest(i: nat)
    requires i < |reservations|
    ensures reservations[i].guestId == guests[i].id
    ensures FindGuest(guests, reservations[i].guestId) == Some(guests[i])
  {
    assert guests[i].id == reservations[i].guestId;
    GuestIdsUnique();
    FindGuestByUniqueId(guests, i);
  }

  /** Every fixture reservation names a guest and a branch that exist; its
      guest is the guest of the same position (res-n is guest-n's). */
  lemma ReservationReferencesResolve(i: nat)
    requires i < |reservations|
    ensures FindGuest(guests, reservations[i].guestId) == Some(guests[i])
    ensures FindBranch(hotelBranches, reservations[i].hotelBranchId).Some?
  {
    ReservationGuest(i);
    ReservationBranchResolves(i);
  }

  lemma ReservationBranchResolves(i: nat)
    requires i < |reservations|
    ensures FindBranch(hotelBranches, reservations[i].hotelBranchId).Some?
  {
    var b := if i == 3 then 1 else 0;
    assert hotelBranches[b].id == reservations[i].hotelBranchId;
  }

  /** Every fixture room belongs to a branch that exists. */
  lemma RoomBranchesResolve(k: nat)
    requires k < |rooms|
    ensures FindBranch(hotelBranches, rooms[k].hotelBranchId).Some?
  {
    var b := if k < 3 then 0 else 1;
    assert hotelBranches[b].id == rooms[k].hotelBranchId;
  }

  /** The super-admin has no branch; every branch-admin's branch exists. */
  lemma AdminBranchesResolve(k: nat)
    requires k < |admins|
    ensures admins[k].role == SuperAdmin <==> admins[k].hotelBranchId.None?
    ensures admins[k].role == BranchAdmin ==>
              admins[k].hotelBranchId.Some? &&
              FindBranch(hotelBranches, admins[k].hotelBranchId.value).Some?
  {
    if k > 0 {
      assert hotelBranches[k - 1].id == admins[k].hotelBranchId.value;
    }
  }

  /** Two stays overlap when some day lies in both, ends included. */
  predicate StaysOverlap(a: Reservation, b: Reservation)
  {
    a.checkIn <= b.checkOut && b.checkIn <= a.checkOut
  }

  /** No room is double-booked in the fixtures: the only room with two
      reservations is room-1 (res-3 and res-5), whose stays are apart. */
  lemma NoDoubleBooking(i: nat, j: nat)
    requires i < j < |reservations|
    requires reservations[i].roomId == reservations[j].roomId
    ensures !StaysOverlap(reservations[i], reservations[j])
  {
    assert forall k :: 0 <= k < |reservations| ==> reservations[k].roomId[5] == "23141"[k];
  }
}
