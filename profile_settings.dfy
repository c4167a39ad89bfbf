/** The profile page: a form seeded from the signed-in user whose save
    button writes back the name and e-mail address only, and the read-only
    role and branch fields. */
module ProfileSettings {
  import opened Seqs
  import opened MockData
  import opened Scoping

  datatype ProfileField = Name | Email | CurrentPassword | NewPassword | ConfirmPassword

  datatype ProfileForm = ProfileForm(
    name: string, email: string, currentPassword: string,
    newPassword: string, confirmPassword: string)

  function Get(f: ProfileForm, field: ProfileField): string
  {
    match field
    case Name => f.name
    case Email => f.email
    case CurrentPassword => f.currentPassword
    case NewPassword => f.newPassword
    case ConfirmPassword => f.confirmPassword
  }

  /** `{ ...formData, [name]: value }` */
  function Set(f: ProfileForm, field: ProfileField, value: string): (r: ProfileForm)
    ensures Get(r, field) == value
    ensures forall g :: g != field ==> Get(r, g) == Get(f, g)
  {
    match field
    case Name => f.(name := value)
    case Email => f.(email := value)
    case CurrentPassword => f.(currentPassword := value)
    case NewPassword => f.(newPassword := value)
    case ConfirmPassword => f.(confirmPassword := value)
  }

  predicate IsPassword(field: ProfileField)
  {
    field == CurrentPassword || field == NewPassword || field == ConfirmPassword
  }

  /** The form opens with the user's name and e-mail and empty passwords. */
  function InitialProfileForm(user: User): (f: ProfileForm)
    ensures Get(f, Name) == user.name && Get(f, Email) == user.email
    ensures forall field :: IsPassword(field) ==> Get(f, field) == ""
  {
    ProfileForm(user.name, user.email, "", "", "")
  }

  /** `setUser({ ...user, name, email })`: the user with the form's name and
      e-mail; id, role, branch and avatar are kept. */
  function Submitted(user: User, f: ProfileForm): (u: User)
    ensures u.name == f.name && u.email == f.email
    ensures u.id == user.id && u.role == user.role
    ensures u.hotelBranchId == user.hotelBranchId && u.avatar == user.avatar
  {
    user.(name := f.name, email := f.email)
  }

  /** The password fields never reach the user: editing one of them does
      not change what saving the form does. */
  lemma PasswordsIgnored(user: User, f: ProfileForm, field: ProfileField, value: string)
    requires IsPassword(field)
    ensures Submitted(user, Set(f, field, value)) == Submitted(user, f)
  {
    assert Get(Set(f, field, value), Name) == f.name;
    assert Get(Set(f, field, value), Email) == f.email;
  }

  /** Saving an unedited form gives back the same user. */
  lemma SubmitUnchanged(user: User)
    ensures Submitted(user, InitialProfileForm(user)) == user
  {
  }

  /** The user's branch: looked up when the user has a branch id, none
      otherwise. */
  function UserBranch(user: User, branches: seq<HotelBranch>): (b: Option<HotelBranch>)
    ensures !Truthy(user.hotelBranchId) ==> b.None?
    ensures Truthy(user.hotelBranchId) ==> b == FindBranch(branches, user.hotelBranchId.value)
    ensures b.Some? ==> b.value in branches && b.value.id == user.hotelBranchId.value
  {
    if Truthy(user.hotelBranchId) then FindBranch(branches, user.hotelBranchId.value) else None
  }

  /** The read-only branch field: the branch's name, shown to a branch-admin
      whose branch resolves and to nobody else. */
  function BranchField(user: User, branches: seq<HotelBranch>): (r: Option<string>)
    ensures r.Some? <==> user.role == BranchAdmin && UserBranch(user, branches).Some?
    ensures r.Some? ==> r.value == UserBranch(user, branches).value.name
  {
    if user.role == BranchAdmin && UserBranch(user, branches).Some?
    then Some(UserBranch(user, branches).value.name) else None
  }

  /** The default user, a super-admin, gets no branch field. */
  lemma DefaultUserHasNoBranchField()
    ensures BranchField(defaultUser, hotelBranches).None?
  {
  }

  class ProfileSettingsPage {
    var user: User
    var formData: ProfileForm

    constructor(u: User)
      ensures user == u && formData == InitialProfileForm(u)
    {
      user := u;
      formData := InitialProfileForm(u);
    }

    /** `handleChange`: the named field takes the input's value. */
    method HandleChange(field: ProfileField, value: string)
      modifies this
      ensures formData == Set(old(formData), field, value) && user == old(user)
    {
      formData := Set(formData, field, value);
    }

    /** `handleSubmit`: replaces the user's name and e-mail. */
    method HandleSubmit()
      modifies this
      ensures user == Submitted(old(user), formData) && formData == old(formData)
    {
      user := Submitted(user, formData);
    }
  }
}
