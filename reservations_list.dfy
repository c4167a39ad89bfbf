/** The reservations list: the user's reservations narrowed by a search on
    the guest's name or e-mail and by status, and the status counts. */
module ReservationsList {
  import opened Seqs
  import opened Text
  import opened MockData
  import opened Scoping
  import opened Counts

  /** The search matches the guest's name or e-mail, ignoring case. A
      reservation whose guest does not exist never matches, even an empty query. */
  predicate GuestMatches(gs: seq<Guest>, r: Reservation, query: string)
  {
    match FindGuest(gs, r.guestId)
    case None => false
    case Some(g) => MatchesQuery(g.name, query) || MatchesQuery(g.email, query)
  }

  /** `filteredReservations` */
  function ListedReservations(user: User, res: seq<Reservation>, gs: seq<Guest>,
                              query: string, status: Choice<ReservationStatus>): (r: seq<Reservation>)
    ensures forall x :: x in r <==>
              x in ScopeReservations(user, res) && GuestMatches(gs, x, query) && Admits(status, x.status)
    ensures forall x :: multiset(r)[x] ==
              if GuestMatches(gs, x, query) && Admits(status, x.status)
              then multiset(ScopeReservations(user, res))[x] else 0
    ensures IsSubsequence(r, ScopeReservations(user, res)) && IsSubsequence(r, res)
  {
    var scoped := ScopeReservations(user, res);
    var p := (x: Reservation) => GuestMatches(gs, x, query) && Admits(status, x.status);
    FilterSubsequence(scoped, p);
    FilterCount(scoped, p);
    SubsequenceTrans(Filter(scoped, p), scoped, res);
    Filter(scoped, p)
  }

  /** With an empty search and no status filter, the list is every scoped
      reservation whose guest exists. */
  lemma EmptySearchListsAllWithGuests(user: User, res: seq<Reservation>, gs: seq<Guest>)
    ensures forall x :: x in ListedReservations(user, res, gs, "", All) <==>
              x in ScopeReservations(user, res) && FindGuest(gs, x.guestId).Some?
  {
    forall x | x in ScopeReservations(user, res) && FindGuest(gs, x.guestId).Some?
      ensures GuestMatches(gs, x, "")
    {
      ContainsEmpty(Lower(FindGuest(gs, x.guestId).value.name));
    }
  }

  datatype ReservationStats = ReservationStats(total: nat, confirmed: nat, pending: nat, cancelled: nat)

  /** The four summary cards, counted over the scoped list before any search. */
  function Stats(user: User, res: seq<Reservation>): (s: ReservationStats)
    ensures s.total == |ScopeReservations(user, res)|
    ensures s.confirmed == |ReservationsWithStatus(ScopeReservations(user, res), Confirmed)|
    ensures s.pending == |ReservationsWithStatus(ScopeReservations(user, res), Pending)|
    ensures s.cancelled == |ReservationsWithStatus(ScopeReservations(user, res), Cancelled)|
    ensures s.confirmed + s.pending + s.cancelled <= s.total
  {
    var scoped := ScopeReservations(user, res);
    ReservationStatusCountsSum(scoped);
    ReservationStats(|scoped|, |ReservationsWithStatus(scoped, Confirmed)|,
      |ReservationsWithStatus(scoped, Pending)|, |ReservationsWithStatus(scoped, Cancelled)|)
  }

  /** The id column: `#` and the last six characters of the id. */
  function ShortId(id: string): (s: string)
    ensures |s| == 1 + if |id| < 6 then |id| else 6
    ensures s[0] == '#' && s[1..] == id[|id| - (|s| - 1)..]
  {
    "#" + LastChars(id, 6)
  }
}
