/** The badge classes the pages give a status string. Reservation and
    payment statuses go through the same map, so a payment status that is
    not also a reservation status falls to the default grey. */
module StatusBadges {
  import opened MockData

  const Green := "bg-green-100 text-green-800"
  const Yellow := "bg-yellow-100 text-yellow-800"
  const Red := "bg-red-100 text-red-800"
  const Blue := "bg-blue-100 text-blue-800"
  const Grey := "bg-gray-100 text-gray-800"

  /** The `getStatusColor` shared by the dashboard and the reservation and guest pages. */
  function StatusColor(status: string): (c: string)
    ensures c == Green <==> status == "confirmed"
    ensures c == Yellow <==> status == "pending"
    ensures c == Red <==> status == "cancelled"
    ensures c == Blue <==> status == "completed"
    ensures c == Grey <==> status !in {"confirmed", "pending", "cancelled", "completed"}
  {
    assert Green[3] == 'g' && Yellow[3] == 'y' && Red[3] == 'r' && Blue[3] == 'b' && Grey[3] == 'g';
    assert Green[5] == 'e' && Grey[5] == 'a';
    if status == "confirmed" then Green
    else if status == "pending" then Yellow
    else if status == "cancelled" then Red
    else if status == "completed" then Blue
    else Grey
  }

  /** Each reservation status has its own colour, and none is the default. */
  lemma ReservationBadgesDistinct(a: ReservationStatus, b: ReservationStatus)
    ensures StatusColor(ReservationStatusName(a)) != Grey
    ensures StatusColor(ReservationStatusName(a)) == StatusColor(ReservationStatusName(b)) <==> a == b
  {
  }

  /** A payment badge is yellow while the payment is pending and grey once it
      is paid or refunded. */
  lemma PaymentBadges(s: PaymentStatus)
    ensures StatusColor(PaymentStatusName(s)) == if s == PaymentPending then Yellow else Grey
  {
  }

  /** The guest list's `getStatusColor`: green for active, red for anything else. */
  function GuestStatusColor(status: GuestStatus): (c: string)
    ensures c == Green <==> status == Active
    ensures c == Red <==> status == Blocked
  {
    assert Green[3] != Red[3];
    match status
    case Active => Green
    case Blocked => Red
  }
}
