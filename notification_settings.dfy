/** The notification preferences page: eleven on/off switches, each flipped
    by its own toggle, and a save button that hands the record on as it is.
    The record is a map from switch name to value that holds every name. */
module NotificationSettings {

  /** The name of one switch. */
  datatype Key =
    | EmailNewReservation | EmailCancellation | EmailPayment | EmailGuestCheckIn
    | SmsNewReservation | SmsCancellation | SmsPayment | SmsGuestCheckIn
    | BookingUpdates | MaintenanceAlerts | SystemUpdates

  type Settings = map<Key, bool>

  /** Every switch has a value. */
  predicate Complete(s: Settings)
  {
    forall k: Key :: k in s
  }

  /** `{ ...settings, [key]: !settings[key] }` */
  function Toggled(s: Settings, k: Key): (r: Settings)
    requires Complete(s)
    ensures Complete(r)
    ensures r[k] == !s[k]
    ensures forall j :: j != k ==> r[j] == s[j]
  {
    s[k := !s[k]]
  }

  /** Flipping a switch twice leaves the record as it was. */
  lemma ToggleTwice(s: Settings, k: Key)
    requires Complete(s)
    ensures Toggled(Toggled(s, k), k) == s
  {
  }

  /** Flipping two switches gives the same record in either order. */
  lemma ToggleCommute(s: Settings, j: Key, k: Key)
    requires Complete(s)
    ensures Toggled(Toggled(s, j), k) == Toggled(Toggled(s, k), j)
  {
  }

  /** The switches that start on. */
  predicate InitiallyOn(k: Key)
  {
    k in {EmailNewReservation, EmailCancellation, EmailPayment, SmsCancellation,
          BookingUpdates, MaintenanceAlerts}
  }

  const initialSettings: Settings := map[
    EmailNewReservation := true, EmailCancellation := true, EmailPayment := true,
    EmailGuestCheckIn := false, SmsNewReservation := false, SmsCancellation := true,
    SmsPayment := false, SmsGuestCheckIn := false, BookingUpdates := true,
    MaintenanceAlerts := true, SystemUpdates := false]

  /** The record starts with a value for every switch, exactly the six
      listed ones on. */
  lemma InitialSettingsValues()
    ensures Complete(initialSettings)
    ensures forall k :: initialSettings[k] <==> InitiallyOn(k)
  {
    forall k: Key ensures k in initialSettings {
      match k
      case EmailNewReservation =>
      case EmailCancellation =>
      case EmailPayment =>
      case EmailGuestCheckIn =>
      case SmsNewReservation =>
      case SmsCancellation =>
      case SmsPayment =>
      case SmsGuestCheckIn =>
      case BookingUpdates =>
      case MaintenanceAlerts =>
      case SystemUpdates =>
    }
  }

  class NotificationSettingsPage {
    var settings: Settings

    ghost predicate Valid()
      reads this
    {
      Complete(settings)
    }

    constructor()
      ensures settings == initialSettings && Valid()
    {
      settings := initialSettings;
      InitialSettingsValues();
    }

    /** `handleToggle(key)`: flips one switch and no other. */
    method HandleToggle(k: Key)
      requires Valid()
      modifies this
      ensures Valid()
      ensures settings == Toggled(old(settings), k)
    {
      settings := Toggled(settings, k);
    }

    /** `handleSubmit`: logs the record; the switches stay as they are. */
    method HandleSubmit() returns (logged: Settings)
      requires Valid()
      ensures Complete(logged)
      ensures forall k :: logged[k] == settings[k]
    {
      logged := settings;
    }
  }
}
