/** The logged-in user and the branch scoping rule every page applies: a
    super-admin sees every record, a branch-admin only the records whose
    `hotelBranchId` equals their own. */
module Scoping {
  import opened Seqs
  import opened MockData

  /** The user the authentication context provides. */
  datatype User = User(
    id: string, name: string, email: string, role: Role,
    hotelBranchId: Option<string>, avatar: Option<string>)

  /** The user the authentication context starts with. */
  const defaultUser: User :=
    User("1", "Sarah Johnson", "sarah.johnson@stayease.com", SuperAdmin, None,
      Some("https://images.unsplash.com/photo-1494790108377-be9c29b29330?w=150&h=150&fit=crop"))

  /** JavaScript truthiness of an optional string: present and non-empty. */
  predicate Truthy(s: Option<string>)
  {
    s.Some? && s.value != ""
  }

  /** Whether `user` may see a record of branch `branch`. A branch-admin
      without a branch sees nothing: `undefined` equals no branch id. */
  predicate Sees(user: User, branch: string)
  {
    user.role == SuperAdmin || user.hotelBranchId == Some(branch)
  }

  /** The branch test as a predicate on records. */
  function InBranch<T>(user: User, branchOf: T -> string): T -> bool
  {
    (x: T) => Sees(user, branchOf(x))
  }

  /** `user.role === 'super-admin' ? xs : xs.filter((x) => x.hotelBranchId === user.hotelBranchId)` */
  function Scope<T(==,!new)>(user: User, xs: seq<T>, branchOf: T -> string): (r: seq<T>)
    ensures user.role == SuperAdmin ==> r == xs
    ensures forall x :: x in r <==> x in xs && Sees(user, branchOf(x))
    ensures forall x :: multiset(r)[x] == if Sees(user, branchOf(x)) then multiset(xs)[x] else 0
    ensures IsSubsequence(r, xs)
  {
    if user.role == SuperAdmin then
      SubsequenceRefl(xs);
      xs
    else
      FilterCount(xs, InBranch(user, branchOf));
      FilterSubsequence(xs, InBranch(user, branchOf));
      Filter(xs, InBranch(user, branchOf))
  }

  function ScopeRooms(user: User, rs: seq<Room>): seq<Room>
  {
    Scope(user, rs, RoomBranch)
  }

  function ScopeReservations(user: User, rs: seq<Reservation>): seq<Reservation>
  {
    Scope(user, rs, ReservationBranch)
  }

  /** A branch-admin's scoped list is empty exactly when no record belongs
      to their branch; in particular it is always empty without a branch. */
  lemma ScopeEmpty<T(!new)>(user: User, xs: seq<T>, branchOf: T -> string)
    requires user.role == BranchAdmin
    ensures Scope(user, xs, branchOf) == [] <==>
            forall x :: x in xs ==> user.hotelBranchId != Some(branchOf(x))
    ensures user.hotelBranchId.None? ==> Scope(user, xs, branchOf) == []
  {
    var r := Scope(user, xs, branchOf);
    if r != [] {
      assert r[0] in r;
    }
  }

  /** Scoping twice is scoping once. */
  lemma ScopeIdempotent<T(!new)>(user: User, xs: seq<T>, branchOf: T -> string)
    ensures Scope(user, Scope(user, xs, branchOf), branchOf) == Scope(user, xs, branchOf)
  {
    if user.role != SuperAdmin {
      FilterAll(Scope(user, xs, branchOf), InBranch(user, branchOf));
    }
  }

  /** The role shown next to the user: `role === 'super-admin' ? 'Super Admin' : 'Branch Admin'`. */
  function RoleLabel(role: Role): (text: string)
    ensures text == "Super Admin" <==> role == SuperAdmin
    ensures text == "Branch Admin" <==> role == BranchAdmin
  {
    assert "Super Admin"[0] != "Branch Admin"[0];
    match role
    case SuperAdmin => "Super Admin"
    case BranchAdmin => "Branch Admin"
  }
}
