/** The dashboard: key figures over the user's scoped rooms and
    reservations, and the five most recently booked reservations. */
module Dashboard {
  import opened Seqs
  import opened MockData
  import opened Scoping
  import opened Arith
  import opened Counts

  datatype Kpis = Kpis(
    totalGuests: nat, totalReservations: nat, occupiedRooms: nat,
    availableRooms: nat, totalRooms: nat, occupancyRate: nat)

  /** The four KPI cards. Guests are counted over all branches (only the
      active ones); reservations and rooms over the user's branch. */
  function DashboardKpis(user: User, gs: seq<Guest>, rs: seq<Room>, res: seq<Reservation>): (k: Kpis)
    ensures k.totalGuests == |ActiveGuests(gs)| <= |gs|
    ensures k.totalReservations == |ScopeReservations(user, res)|
    ensures k.totalRooms == |ScopeRooms(user, rs)|
    ensures k.occupiedRooms == |RoomsWithStatus(ScopeRooms(user, rs), Occupied)|
    ensures k.availableRooms == |RoomsWithStatus(ScopeRooms(user, rs), Available)|
    ensures k.occupiedRooms + k.availableRooms <= k.totalRooms
    ensures k.occupancyRate == Percentage(k.occupiedRooms, k.totalRooms) <= 100
    ensures k.totalRooms == 0 ==> k.occupancyRate == 0
  {
    var scopedRooms := ScopeRooms(user, rs);
    var occupied := |RoomsWithStatus(scopedRooms, Occupied)|;
    var available := |RoomsWithStatus(scopedRooms, Available)|;
    RoomStatusCountsSum(scopedRooms);
    Kpis(|ActiveGuests(gs)|, |ScopeReservations(user, res)|, occupied, available,
         |scopedRooms|, Percentage(occupied, |scopedRooms|))
  }

  /** Newest booking first: `createdAt` never increases along the list. */
  ghost predicate NewestFirst(rs: seq<Reservation>)
  {
    forall i, j :: 0 <= i < j < |rs| ==> rs[i].createdAt >= rs[j].createdAt
  }

  /** Inserts `x` before the first element booked no later than it, so that
      it stays ahead of equally recent elements that came after it. */
  function InsertNewest(x: Reservation, rs: seq<Reservation>): (r: seq<Reservation>)
    ensures |r| == |rs| + 1
    ensures multiset(r) == multiset(rs) + multiset{x}
    ensures forall e :: e in r <==> e == x || e in rs
    decreases |rs|
  {
    if rs == [] || x.createdAt >= rs[0].createdAt then [x] + rs
    else
      assert rs == [rs[0]] + rs[1..];
      [rs[0]] + InsertNewest(x, rs[1..])
  }

  /** Inserting into a newest-first list keeps it newest-first. */
  lemma {:induction false} InsertKeepsNewestFirst(x: Reservation, rs: seq<Reservation>)
    requires NewestFirst(rs)
    ensures NewestFirst(InsertNewest(x, rs))
    decreases |rs|
  {
    if rs != [] && x.createdAt < rs[0].createdAt {
      var rest := InsertNewest(x, rs[1..]);
      assert NewestFirst(rs[1..]) by {
        forall i, j | 0 <= i < j < |rs[1..]| ensures rs[1..][i].createdAt >= rs[1..][j].createdAt {
          assert rs[1..][i] == rs[i + 1] && rs[1..][j] == rs[j + 1];
        }
      }
      InsertKeepsNewestFirst(x, rs[1..]);
      forall e | e in rest ensures e.createdAt <= rs[0].createdAt {
        if e != x {
          var k :| 0 <= k < |rs[1..]| && rs[1..][k] == e;
          assert rs[1..][k] == rs[k + 1];
        }
      }
      var r := [rs[0]] + rest;
      forall i, j | 0 <= i < j < |r| ensures r[i].createdAt >= r[j].createdAt {
        if i == 0 {
          assert r[j] == rest[j - 1] && r[j] in rest;
        } else {
          assert r[i] == rest[i - 1] && r[j] == rest[j - 1];
        }
      }
    }
  }

  /** The reservations booked at instant `t`. */
  function BookedAt(t: int): Reservation -> bool
  {
    (x: Reservation) => x.createdAt == t
  }

  /** Insertion passes over strictly later bookings only, so `x` lands ahead
      of every element booked at the same instant as it. */
  lemma {:induction false} InsertBeforeTies(x: Reservation, rs: seq<Reservation>, t: int)
    ensures Filter(InsertNewest(x, rs), BookedAt(t)) == Filter([x] + rs, BookedAt(t))
    decreases |rs|
  {
    if rs != [] && x.createdAt < rs[0].createdAt {
      var p := BookedAt(t);
      assert rs == [rs[0]] + rs[1..];
      InsertBeforeTies(x, rs[1..], t);
      FilterCons(rs[0], InsertNewest(x, rs[1..]), p);
      FilterCons(x, rs[1..], p);
      FilterCons(x, rs, p);
      FilterCons(rs[0], rs[1..], p);
    }
  }

  /** The stable sort `sort((a, b) => b.createdAt - a.createdAt)`; its
      stability is `SortKeepsTies`. */
  function SortNewestFirst(rs: seq<Reservation>): (r: seq<Reservation>)
    ensures NewestFirst(r)
    ensures multiset(r) == multiset(rs)
    ensures |r| == |rs|
    decreases |rs|
  {
    if rs == [] then []
    else
      assert rs == [rs[0]] + rs[1..];
      InsertKeepsNewestFirst(rs[0], SortNewestFirst(rs[1..]));
      InsertNewest(rs[0], SortNewestFirst(rs[1..]))
  }

  /** The sort is stable: the reservations booked at any one instant come
      out in the order they went in. */
  lemma {:induction false} SortKeepsTies(rs: seq<Reservation>, t: int)
    ensures Filter(SortNewestFirst(rs), BookedAt(t)) == Filter(rs, BookedAt(t))
    decreases |rs|
  {
    if rs != [] {
      assert rs == [rs[0]] + rs[1..];
      SortKeepsTies(rs[1..], t);
      InsertBeforeTies(rs[0], SortNewestFirst(rs[1..]), t);
      FilterCons(rs[0], SortNewestFirst(rs[1..]), BookedAt(t));
      FilterCons(rs[0], rs[1..], BookedAt(t));
    }
  }

  /** The first `n` of a newest-first list are the `n` newest. */
  lemma TakeNewest(s: seq<Reservation>, n: nat)
    requires NewestFirst(s) && n > 0
    ensures NewestFirst(Take(s, n))
    ensures multiset(Take(s, n)) <= multiset(s)
    ensures forall x :: x in s && x !in Take(s, n) ==>
              |Take(s, n)| == n && x.createdAt <= Take(s, n)[n - 1].createdAt
  {
    var r := Take(s, n);
    assert s == r + s[|r|..];
    forall x | x in s && x !in r
      ensures |r| == n && x.createdAt <= r[n - 1].createdAt
    {
      var k :| 0 <= k < |s| && s[k] == x;
      assert k >= |r|;
    }
  }

  /** The recent-reservations table: the five newest of the scoped reservations. */
  function RecentReservations(user: User, res: seq<Reservation>): (r: seq<Reservation>)
    ensures |r| == if |ScopeReservations(user, res)| < 5 then |ScopeReservations(user, res)| else 5
    ensures multiset(r) <= multiset(ScopeReservations(user, res))
    ensures NewestFirst(r)
    ensures forall x :: x in ScopeReservations(user, res) && x !in r ==>
              |r| == 5 && x.createdAt <= r[4].createdAt
  {
    var scoped := ScopeReservations(user, res);
    var sorted := SortNewestFirst(scoped);
    TakeNewest(sorted, 5);
    assert forall x :: x in scoped ==> x in sorted by {
      forall x | x in scoped ensures x in sorted {
        assert x in multiset(scoped);
      }
    }
    Take(sorted, 5)
  }
}
