/** The rooms list: the user's rooms narrowed by a search on room number or
    type, by status and, for a super-admin, by hotel; and the status counts. */
module RoomsList {
  import opened Seqs
  import opened Text
  import opened MockData
  import opened Scoping
  import opened Counts

  /** The search matches the room number or the type name, ignoring case. */
  predicate SearchMatches(room: Room, query: string)
  {
    MatchesQuery(room.roomNumber, query) || MatchesQuery(RoomTypeName(room.roomType), query)
  }

  predicate RoomMatches(room: Room, query: string, status: Choice<RoomStatus>, hotel: Choice<string>)
  {
    SearchMatches(room, query) && Admits(status, room.status) && Admits(hotel, room.hotelBranchId)
  }

  function Matcher(query: string, status: Choice<RoomStatus>, hotel: Choice<string>): Room -> bool
  {
    (x: Room) => RoomMatches(x, query, status, hotel)
  }

  /** `filteredRooms` */
  function ListedRooms(user: User, rs: seq<Room>, query: string,
                       status: Choice<RoomStatus>, hotel: Choice<string>): (r: seq<Room>)
    ensures forall x :: x in r <==> x in ScopeRooms(user, rs) && RoomMatches(x, query, status, hotel)
    ensures forall x :: multiset(r)[x] ==
              if RoomMatches(x, query, status, hotel) then multiset(ScopeRooms(user, rs))[x] else 0
    ensures IsSubsequence(r, ScopeRooms(user, rs)) && IsSubsequence(r, rs)
  {
    var scoped := ScopeRooms(user, rs);
    FilterSubsequence(scoped, Matcher(query, status, hotel));
    FilterCount(scoped, Matcher(query, status, hotel));
    SubsequenceTrans(Filter(scoped, Matcher(query, status, hotel)), scoped, rs);
    Filter(scoped, Matcher(query, status, hotel))
  }

  /** A super-admin filtering by hotel `h` sees exactly, and in the same
      order, what a branch-admin of `h` sees with no hotel filter. */
  lemma HotelFilterIsBranchScope(admin: User, branchAdmin: User, h: string, rs: seq<Room>,
                                 query: string, status: Choice<RoomStatus>)
    requires admin.role == SuperAdmin
    requires branchAdmin.role == BranchAdmin && branchAdmin.hotelBranchId == Some(h)
    ensures ListedRooms(admin, rs, query, status, Only(h)) == ListedRooms(branchAdmin, rs, query, status, All)
  {
    var b := InBranch(branchAdmin, RoomBranch);
    var m := Matcher(query, status, Only(h));
    var m' := Matcher(query, status, All);
    FilterFilter(rs, b, m');
    forall x | x in rs ensures m(x) == Both(b, m')(x) {
      assert b(x) == Sees(branchAdmin, RoomBranch(x));
    }
    FilterEquiv(rs, m, Both(b, m'));
  }

  /** With an empty search and no filters the list is the whole scoped list. */
  lemma NoFilterListsAll(user: User, rs: seq<Room>)
    ensures ListedRooms(user, rs, "", All, All) == ScopeRooms(user, rs)
  {
    forall x | x in ScopeRooms(user, rs) ensures RoomMatches(x, "", All, All) {
      ContainsEmpty(Lower(x.roomNumber));
    }
    FilterAll(ScopeRooms(user, rs), Matcher("", All, All));
  }

  /** "No rooms found" shows exactly when none of the user's rooms matches. */
  function ShowsNoRoomsMessage(user: User, rs: seq<Room>, query: string,
                               status: Choice<RoomStatus>, hotel: Choice<string>): (b: bool)
    ensures b <==> forall x :: x in ScopeRooms(user, rs) ==> !RoomMatches(x, query, status, hotel)
  {
    FilterNone(ScopeRooms(user, rs), Matcher(query, status, hotel));
    |ListedRooms(user, rs, query, status, hotel)| == 0
  }

  datatype RoomStats = RoomStats(total: nat, available: nat, occupied: nat, maintenance: nat)

  /** The four summary cards, counted over the scoped list before any search. */
  function Stats(user: User, rs: seq<Room>): (s: RoomStats)
    ensures s.total == |ScopeRooms(user, rs)|
    ensures s.available == |RoomsWithStatus(ScopeRooms(user, rs), Available)|
    ensures s.occupied == |RoomsWithStatus(ScopeRooms(user, rs), Occupied)|
    ensures s.maintenance == |RoomsWithStatus(ScopeRooms(user, rs), Maintenance)|
    ensures s.available + s.occupied + s.maintenance <= s.total
  {
    var scoped := ScopeRooms(user, rs);
    RoomStatusCountsSum(scoped);
    RoomStats(|scoped|, |RoomsWithStatus(scoped, Available)|,
      |RoomsWithStatus(scoped, Occupied)|, |RoomsWithStatus(scoped, Maintenance)|)
  }

  /** The hotel select is rendered for super-admins only. */
  predicate ShowsHotelSelect(user: User)
  {
    user.role == SuperAdmin
  }

  /** The page's filter state. */
  class RoomsListPage {
    const user: User
    var searchQuery: string
    var statusFilter: Choice<RoomStatus>
    var hotelFilter: Choice<string>

    /** Without the hotel select, the hotel filter stays at "all". */
    ghost predicate Valid()
      reads this
    {
      !ShowsHotelSelect(user) ==> hotelFilter == All
    }

    constructor(u: User)
      ensures user == u && searchQuery == "" && statusFilter == All && hotelFilter == All
      ensures Valid()
    {
      user := u;
      searchQuery := "";
      statusFilter := All;
      hotelFilter := All;
    }

    function Listed(): seq<Room>
      reads this
    {
      ListedRooms(user, rooms, searchQuery, statusFilter, hotelFilter)
    }

    method SetSearchQuery(q: string)
      requires Valid()
      modifies this
      ensures Valid()
      ensures searchQuery == q && statusFilter == old(statusFilter) && hotelFilter == old(hotelFilter)
    {
      searchQuery := q;
    }

    method SetStatusFilter(s: Choice<RoomStatus>)
      requires Valid()
      modifies this
      ensures Valid()
      ensures statusFilter == s && searchQuery == old(searchQuery) && hotelFilter == old(hotelFilter)
    {
      statusFilter := s;
    }

    method SetHotelFilter(h: Choice<string>)
      requires Valid() && ShowsHotelSelect(user)
      modifies this
      ensures Valid()
      ensures hotelFilter == h && searchQuery == old(searchQuery) && statusFilter == old(statusFilter)
    {
      hotelFilter := h;
    }
  }
}
