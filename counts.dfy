/** Counting rooms and reservations by status (`xs.filter((x) => x.status === s).length`). */
module Counts {
  import opened Seqs
  import opened MockData

  function RoomsWithStatus(rs: seq<Room>, s: RoomStatus): (r: seq<Room>)
    ensures forall x :: x in r <==> x in rs && x.status == s
    ensures forall x :: multiset(r)[x] == if x.status == s then multiset(rs)[x] else 0
  {
    var p := (x: Room) => x.status == s;
    FilterCount(rs, p);
    Filter(rs, p)
  }

  function ReservationsWithStatus(rs: seq<Reservation>, s: ReservationStatus): (r: seq<Reservation>)
    ensures forall x :: x in r <==> x in rs && x.status == s
    ensures forall x :: multiset(r)[x] == if x.status == s then multiset(rs)[x] else 0
  {
    var p := (x: Reservation) => x.status == s;
    FilterCount(rs, p);
    Filter(rs, p)
  }

  /** Every room has exactly one of the four statuses, so the four status
      counts add up to the number of rooms. */
  lemma {:induction false} RoomStatusCountsSum(rs: seq<Room>)
    ensures |RoomsWithStatus(rs, Available)| + |RoomsWithStatus(rs, Occupied)| +
            |RoomsWithStatus(rs, Maintenance)| + |RoomsWithStatus(rs, Reserved)| == |rs|
    decreases |rs|
  {
    if rs != [] {
      RoomStatusCountsSum(rs[1..]);
    }
  }

  /** The same for the four reservation statuses. */
  lemma {:induction false} ReservationStatusCountsSum(rs: seq<Reservation>)
    ensures |ReservationsWithStatus(rs, Confirmed)| + |ReservationsWithStatus(rs, Pending)| +
            |ReservationsWithStatus(rs, Cancelled)| + |ReservationsWithStatus(rs, Completed)| == |rs|
    decreases |rs|
  {
    if rs != [] {
      ReservationStatusCountsSum(rs[1..]);
    }
  }
}
