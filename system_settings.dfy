/** The system settings page, open to super-admins only: the list of
    branches and a form of nine global settings edited one field at a time. */
module SystemSettings {
  import opened MockData
  import opened Scoping

  datatype SystemField =
    | MaxGuestsPerRoom | CheckInTime | CheckOutTime | CancellationPeriod
    | EarlyCheckInFee | LateCheckOutFee | TaxRate | ServiceFee | Currency

  /** The form's values, as the strings the inputs hold. */
  datatype SystemForm = SystemForm(
    maxGuestsPerRoom: string, checkInTime: string, checkOutTime: string,
    cancellationPeriod: string, earlyCheckInFee: string, lateCheckOutFee: string,
    taxRate: string, serviceFee: string, currency: string)

  function Get(f: SystemForm, field: SystemField): string
  {
    match field
    case MaxGuestsPerRoom => f.maxGuestsPerRoom
    case CheckInTime => f.checkInTime
    case CheckOutTime => f.checkOutTime
    case CancellationPeriod => f.cancellationPeriod
    case EarlyCheckInFee => f.earlyCheckInFee
    case LateCheckOutFee => f.lateCheckOutFee
    case TaxRate => f.taxRate
    case ServiceFee => f.serviceFee
    case Currency => f.currency
  }

  /** `{ ...settings, [name]: value }` */
  function Set(f: SystemForm, field: SystemField, value: string): (r: SystemForm)
    ensures Get(r, field) == value
    ensures forall g :: g != field ==> Get(r, g) == Get(f, g)
  {
    match field
    case MaxGuestsPerRoom => f.(maxGuestsPerRoom := value)
    case CheckInTime => f.(checkInTime := value)
    case CheckOutTime => f.(checkOutTime := value)
    case CancellationPeriod => f.(cancellationPeriod := value)
    case EarlyCheckInFee => f.(earlyCheckInFee := value)
    case LateCheckOutFee => f.(lateCheckOutFee := value)
    case TaxRate => f.(taxRate := value)
    case ServiceFee => f.(serviceFee := value)
    case Currency => f.(currency := value)
  }

  const initialSystemForm := SystemForm("6", "15:00", "11:00", "24", "50", "50", "10", "5", "USD")

  /** What the branch list shows of one branch. */
  datatype BranchEntry = BranchEntry(name: string, location: string, totalRooms: nat)

  datatype SystemView = AccessDenied | SystemPage(branches: seq<BranchEntry>, form: SystemForm)

  /** The page: access denied unless the user is a super-admin, otherwise
      one entry per branch in the order of the list and the form. */
  function SystemSettingsView(user: User, branches: seq<HotelBranch>, form: SystemForm): (v: SystemView)
    ensures v.AccessDenied? <==> user.role != SuperAdmin
    ensures v.SystemPage? ==> v.form == form && |v.branches| == |branches|
    ensures v.SystemPage? ==> forall i :: 0 <= i < |branches| ==>
              v.branches[i] == BranchEntry(branches[i].name, branches[i].location, branches[i].totalRooms)
  {
    if user.role != SuperAdmin then AccessDenied
    else SystemPage(
      seq(|branches|, i requires 0 <= i < |branches| =>
        BranchEntry(branches[i].name, branches[i].location, branches[i].totalRooms)),
      form)
  }

  class SystemSettingsPage {
    const user: User
    var settings: SystemForm

    constructor(u: User)
      ensures user == u && settings == initialSystemForm
    {
      user := u;
      settings := initialSystemForm;
    }

    /** `handleChange`: the named field takes the input's value. */
    method HandleChange(field: SystemField, value: string)
      modifies this
      ensures settings == Set(old(settings), field, value)
    {
      settings := Set(settings, field, value);
    }

    /** `handleSubmit`: logs the settings; the form stays as it is. */
    method HandleSubmit() returns (logged: SystemForm)
      ensures logged == settings
      ensures forall field :: Get(logged, field) == Get(settings, field)
    {
      logged := settings;
    }
  }
}
