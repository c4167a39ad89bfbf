/** The guest list: every guest (guests belong to no branch), narrowed by a
    search on name or e-mail and by status. */
module GuestsList {
  import opened Seqs
  import opened Text
  import opened MockData

  predicate GuestMatches(g: Guest, query: string, status: Choice<GuestStatus>)
  {
    (MatchesQuery(g.name, query) || MatchesQuery(g.email, query)) && Admits(status, g.status)
  }

  function Matcher(query: string, status: Choice<GuestStatus>): Guest -> bool
  {
    (g: Guest) => GuestMatches(g, query, status)
  }

  /** `filteredGuests` */
  function ListedGuests(gs: seq<Guest>, query: string, status: Choice<GuestStatus>): (r: seq<Guest>)
    ensures forall g :: g in r <==> g in gs && GuestMatches(g, query, status)
    ensures forall g :: multiset(r)[g] == if GuestMatches(g, query, status) then multiset(gs)[g] else 0
    ensures IsSubsequence(r, gs)
  {
    FilterSubsequence(gs, Matcher(query, status));
    FilterCount(gs, Matcher(query, status));
    Filter(gs, Matcher(query, status))
  }

  /** With an empty search and no status filter every guest is listed, in order. */
  lemma NoFilterListsAll(gs: seq<Guest>)
    ensures ListedGuests(gs, "", All) == gs
  {
    forall g | g in gs ensures GuestMatches(g, "", All) {
      ContainsEmpty(Lower(g.name));
    }
    FilterAll(gs, Matcher("", All));
  }

  /** The active and the blocked guests together are the whole list. */
  lemma {:induction false} StatusSplit(gs: seq<Guest>, query: string)
    ensures |ListedGuests(gs, query, Only(Active))| + |ListedGuests(gs, query, Only(Blocked))|
            == |ListedGuests(gs, query, All)|
    decreases |gs|
  {
    if gs != [] {
      StatusSplit(gs[1..], query);
      var g := gs[0];
      assert Matcher(query, All)(g) == GuestMatches(g, query, All);
      assert Matcher(query, Only(Active))(g) == GuestMatches(g, query, Only(Active));
      assert Matcher(query, Only(Blocked))(g) == GuestMatches(g, query, Only(Blocked));
      assert g.status == Active || g.status == Blocked;
      assert Matcher(query, All)(g) == (Matcher(query, Only(Active))(g) || Matcher(query, Only(Blocked))(g));
      assert !(Matcher(query, Only(Active))(g) && Matcher(query, Only(Blocked))(g));
    }
  }
}
