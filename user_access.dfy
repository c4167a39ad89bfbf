/** The user access page: super-admins see one row per admin account with
    its role, branch and the actions offered on it; everybody else is
    turned away. */
module UserAccess {
  import opened Seqs
  import opened MockData
  import opened Scoping

  /** What one table row shows. */
  datatype AdminRow = AdminRow(
    name: string, email: string, roleLabel: string, branchCell: string,
    status: string, lastLogin: string, canEdit: bool, canDelete: bool)

  datatype UserAccessView = AccessDenied | AdminTable(rows: seq<AdminRow>)

  function AdminStatusName(s: AdminStatus): string
  {
    match s
    case AdminActive => "active"
    case AdminInactive => "inactive"
  }

  /** The branch column: the name of the admin's branch when it has one
      that resolves, otherwise "All Hotels" for a super-admin and "-". */
  function BranchCell(a: Admin, branches: seq<HotelBranch>): (c: string)
    ensures Truthy(a.hotelBranchId) && FindBranch(branches, a.hotelBranchId.value).Some? ==>
              c == FindBranch(branches, a.hotelBranchId.value).value.name
    ensures !(Truthy(a.hotelBranchId) && FindBranch(branches, a.hotelBranchId.value).Some?) ==>
              c == (if a.role == SuperAdmin then "All Hotels" else "-")
  {
    var branch := if Truthy(a.hotelBranchId) then FindBranch(branches, a.hotelBranchId.value) else None;
    if branch.Some? then branch.value.name
    else if a.role == SuperAdmin then "All Hotels"
    else "-"
  }

  /** One row: Edit is always offered, Delete on every account but the
      signed-in user's own. */
  function RowOf(user: User, a: Admin, branches: seq<HotelBranch>): (row: AdminRow)
    ensures row.name == a.name && row.email == a.email && row.lastLogin == a.lastLogin
    ensures row.roleLabel == "Super Admin" <==> a.role == SuperAdmin
    ensures row.branchCell == BranchCell(a, branches)
    ensures row.status == AdminStatusName(a.status)
    ensures row.canEdit
    ensures row.canDelete <==> a.id != user.id
  {
    AdminRow(a.name, a.email, RoleLabel(a.role), BranchCell(a, branches),
             AdminStatusName(a.status), a.lastLogin, true, a.id != user.id)
  }

  /** The page: access denied unless the user is a super-admin, otherwise
      the admins' rows in the order of the list. */
  function UserAccessPage(user: User, accounts: seq<Admin>, branches: seq<HotelBranch>): (v: UserAccessView)
    ensures v.AccessDenied? <==> user.role != SuperAdmin
    ensures v.AdminTable? ==> |v.rows| == |accounts|
    ensures v.AdminTable? ==> forall i :: 0 <= i < |accounts| ==>
              v.rows[i] == RowOf(user, accounts[i], branches)
  {
    if user.role != SuperAdmin then AccessDenied
    else AdminTable(seq(|accounts|, i requires 0 <= i < |accounts| => RowOf(user, accounts[i], branches)))
  }

  /** Sarah Johnson, a super-admin with no branch, is listed for all
      hotels; James Martinez under his branch's name. */
  lemma BranchColumnExamples()
    ensures BranchCell(admins[0], hotelBranches) == "All Hotels"
    ensures BranchCell(admins[1], hotelBranches) == "StayEase Downtown"
  {
    assert hotelBranches[0].id == "hotel-1";
  }

  /** The signed-in user by default has id "1", which no admin account has,
      so the table offers Delete on every account, Sarah Johnson's own
      included. */
  lemma DefaultUserMayDeleteEveryAccount(i: int)
    requires 0 <= i < |admins|
    ensures UserAccessPage(defaultUser, admins, hotelBranches).rows[i].canDelete
  {
    assert admins[i].id[0] == 'a' && defaultUser.id[0] == '1';
  }
}
