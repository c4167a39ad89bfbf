/** The entities of the dashboard and the in-memory fixture collections every
    page reads. Dates a page computes with (check-in, check-out, booking date)
    are day numbers; dates that are only displayed stay ISO strings. */
module MockData {
  import opened Seqs
  import opened Dates

  datatype HotelBranch = HotelBranch(
    id: string, name: string, location: string, address: string,
    phone: string, email: string, totalRooms: nat)

  datatype GuestStatus = Active | Blocked

  datatype Guest = Guest(
    id: string, name: string, email: string, phone: string,
    nationality: string, idNumber: string, status: GuestStatus,
    totalBookings: nat, totalSpent: nat, joinedDate: string, lastVisit: string,
    avatar: Option<string>)

  datatype RoomType = Single | Double | Suite | Deluxe | Presidential

  datatype RoomStatus = Available | Occupied | Maintenance | Reserved

  datatype Room = Room(
    id: string, hotelBranchId: string, roomNumber: string, roomType: RoomType,
    status: RoomStatus, price: nat, capacity: nat, description: string,
    amenities: seq<string>, images: seq<string>, floor: nat)

  datatype ReservationStatus = Confirmed | Pending | Cancelled | Completed

  datatype PaymentStatus = Paid | PaymentPending | Refunded

  datatype Reservation = Reservation(
    id: string, guestId: string, roomId: string, hotelBranchId: string,
    checkIn: int, checkOut: int, status: ReservationStatus,
    paymentStatus: PaymentStatus, totalAmount: nat,
    specialRequests: Option<string>, createdAt: int)

  datatype Role = SuperAdmin | BranchAdmin

  datatype AdminStatus = AdminActive | AdminInactive

  datatype Admin = Admin(
    id: string, name: string, email: string, role: Role,
    hotelBranchId: Option<string>, status: AdminStatus,
    lastLogin: string, createdAt: string)

  /** The string each enumeration value has in the source. */
  function RoomTypeName(t: RoomType): string
  {
    match t
    case Single => "Single"
    case Double => "Double"
    case Suite => "Suite"
    case Deluxe => "Deluxe"
    case Presidential => "Presidential"
  }

  function ReservationStatusName(s: ReservationStatus): string
  {
    match s
    case Confirmed => "confirmed"
    case Pending => "pending"
    case Cancelled => "cancelled"
    case Completed => "completed"
  }

  function PaymentStatusName(s: PaymentStatus): string
  {
    match s
    case Paid => "paid"
    case PaymentPending => "pending"
    case Refunded => "refunded"
  }

  /** Distinct enumeration values have distinct source strings, so comparing
      the strings (as the source does) is comparing the values. */
  lemma EnumerationNamesDistinct()
    ensures forall a, b :: RoomTypeName(a) == RoomTypeName(b) ==> a == b
    ensures forall a, b :: ReservationStatusName(a) == ReservationStatusName(b) ==> a == b
    ensures forall a, b :: PaymentStatusName(a) == PaymentStatusName(b) ==> a == b
  {
  }

  function RoomBranch(r: Room): string { r.hotelBranchId }

  function ReservationBranch(r: Reservation): string { r.hotelBranchId }

  const hotelBranches: seq<HotelBranch> := [
    HotelBranch("hotel-1", "StayEase Downtown", "New York, NY",
      "123 Broadway Street, New York, NY 10001", "+1 (555) 123-4567",
      "downtown@stayease.com", 120),
    HotelBranch("hotel-2", "StayEase Beachside", "Miami, FL",
      "456 Ocean Drive, Miami, FL 33139", "+1 (555) 234-5678",
      "beachside@stayease.com", 80),
    HotelBranch("hotel-3", "StayEase Mountain View", "Denver, CO",
      "789 Summit Road, Denver, CO 80202", "+1 (555) 345-6789",
      "mountainview@stayease.com", 95),
    HotelBranch("hotel-4", "StayEase Airport", "Los Angeles, CA",
      "321 Airport Blvd, Los Angeles, CA 90045", "+1 (555) 456-7890",
      "airport@stayease.com", 150),
    HotelBranch("hotel-5", "StayEase Historic District", "Boston, MA",
      "654 Heritage Lane, Boston, MA 02108", "+1 (555) 567-8901",
      "historic@stayease.com", 75)
  ]

  const guests: seq<Guest> := [
    Guest("guest-1", "John Smith", "john.smith@email.com", "+1 (555) 111-2222",
      "United States", "P1234567", Active, 12, 8450, "2023-01-15", "2024-11-10",
      Some("https://images.unsplash.com/photo-1472099645785-5658abf4ff4e?w=150&h=150&fit=crop")),
    Guest("guest-2", "Emma Wilson", "emma.wilson@email.com", "+1 (555) 222-3333",
      "United Kingdom", "P9876543", Active, 8, 6200, "2023-03-22", "2024-10-28",
      Some("https://images.unsplash.com/photo-1438761681033-6461ffad8d80?w=150&h=150&fit=crop")),
    Guest("guest-3", "Michael Chen", "michael.chen@email.com", "+1 (555) 333-4444",
      "Canada", "P5555555", Active, 15, 11800, "2022-11-08", "2024-11-20",
      Some("https://images.unsplash.com/photo-1500648767791-00dcc994a43e?w=150&h=150&fit=crop")),
    Guest("guest-4", "Sofia Rodriguez", "sofia.rodriguez@email.com", "+1 (555) 444-5555",
      "Spain", "P7777777", Active, 5, 3900, "2024-02-14", "2024-11-15",
      Some("https://images.unsplash.com/photo-1544005313-94ddf0286df2?w=150&h=150&fit=crop")),
    Guest("guest-5", "David Brown", "david.brown@email.com", "+1 (555) 555-6666",
      "Australia", "P3333333", Blocked, 3, 1500, "2024-06-01", "2024-08-20",
      Some("https://images.unsplash.com/photo-1507003211169-0a1dd7228f2d?w=150&h=150&fit=crop"))
  ]

  const rooms: seq<Room> := [
    Room("room-1", "hotel-1", "101", Single, Available, 120, 1,
      "Cozy single room with city view, perfect for solo travelers.",
      ["WiFi", "TV", "AC", "Desk", "Mini Fridge"],
      ["https://images.unsplash.com/photo-1611892440504-42a792e24d32?w=800&h=600&fit=crop"], 1),
    Room("room-2", "hotel-1", "205", Double, Occupied, 180, 2,
      "Spacious double room with king-size bed and modern amenities.",
      ["WiFi", "TV", "AC", "Mini Bar", "Safe", "Balcony"],
      ["https://images.unsplash.com/photo-1590490360182-c33d57733427?w=800&h=600&fit=crop"], 2),
    Room("room-3", "hotel-1", "310", Suite, Reserved, 350, 4,
      "Luxurious suite with separate living area and premium amenities.",
      ["WiFi", "TV", "AC", "Mini Bar", "Safe", "Kitchenette", "Jacuzzi"],
      ["https://images.unsplash.com/photo-1582719478250-c89cae4dc85b?w=800&h=600&fit=crop"], 3),
    Room("room-4", "hotel-2", "102", Deluxe, Available, 280, 3,
      "Deluxe room with ocean view and premium bedding.",
      ["WiFi", "TV", "AC", "Mini Bar", "Safe", "Ocean View", "Balcony"],
      ["https://images.unsplash.com/photo-1578683010236-d716f9a3f461?w=800&h=600&fit=crop"], 1),
    Room("room-5", "hotel-2", "501", Presidential, Maintenance, 650, 6,
      "Presidential suite with panoramic views and exclusive amenities.",
      ["WiFi", "TV", "AC", "Full Kitchen", "Private Pool", "Butler Service", "Spa"],
      ["https://images.unsplash.com/photo-1631049307264-da0ec9d70304?w=800&h=600&fit=crop"], 5)
  ]

  /** Day numbers are written out; `StayDatesAsCalendarDates` relates
      them to the calendar dates of the source. */
  const reservations: seq<Reservation> := [
    Reservation("res-1", "guest-1", "room-2", "hotel-1",
      20052 /* 2024-11-25 */, 20055 /* 2024-11-28 */, Confirmed, Paid, 540,
      Some("Late check-in after 10 PM"), 20042 /* 2024-11-15 */),
    Reservation("res-2", "guest-2", "room-3", "hotel-1",
      20058 /* 2024-12-01 */, 20062 /* 2024-12-05 */, Pending, PaymentPending, 1400,
      Some("High floor preferred"), 20047 /* 2024-11-20 */),
    Reservation("res-3", "guest-3", "room-1", "hotel-1",
      20047 /* 2024-11-20 */, 20050 /* 2024-11-23 */, Completed, Paid, 360,
      None, 20037 /* 2024-11-10 */),
    Reservation("res-4", "guest-4", "room-4", "hotel-2",
      20067 /* 2024-12-10 */, 20072 /* 2024-12-15 */, Confirmed, Paid, 1400,
      Some("Ocean view room"), 20045 /* 2024-11-18 */),
    Reservation("res-5", "guest-5", "room-1", "hotel-1",
      20037 /* 2024-11-10 */, 20039 /* 2024-11-12 */, Cancelled, Refunded, 240,
      None, 20032 /* 2024-11-05 */)
  ]

  /** The day numbers of the first days of November and December 2024. */
  lemma FixtureMonthStarts()
    ensures Ymd(2024, 11, 1) == 20028 && Ymd(2024, 12, 1) == 20058
  {
  }

  /** The day numbers above are those of the dates in their comments. */
  lemma StayDatesAsCalendarDates()
    ensures reservations[0].checkIn == Ymd(2024, 11, 25) && reservations[0].checkOut == Ymd(2024, 11, 28)
    ensures reservations[1].checkIn == Ymd(2024, 12, 1) && reservations[1].checkOut == Ymd(2024, 12, 5)
    ensures reservations[2].checkIn == Ymd(2024, 11, 20) && reservations[2].checkOut == Ymd(2024, 11, 23)
    ensures reservations[3].checkIn == Ymd(2024, 12, 10) && reservations[3].checkOut == Ymd(2024, 12, 15)
    ensures reservations[4].checkIn == Ymd(2024, 11, 10) && reservations[4].checkOut == Ymd(2024, 11, 12)
    ensures reservations[0].createdAt == Ymd(2024, 11, 15) && reservations[1].createdAt == Ymd(2024, 11, 20)
    ensures reservations[2].createdAt == Ymd(2024, 11, 10) && reservations[3].createdAt == Ymd(2024, 11, 18)
    ensures reservations[4].createdAt == Ymd(2024, 11, 5)
  {
    FixtureMonthStarts();
    SameMonthDistance(2024, 11, 1, 25);
    SameMonthDistance(2024, 11, 1, 28);
    SameMonthDistance(2024, 11, 1, 20);
    SameMonthDistance(2024, 11, 1, 23);
    SameMonthDistance(2024, 11, 1, 10);
    SameMonthDistance(2024, 11, 1, 12);
    SameMonthDistance(2024, 11, 1, 15);
    SameMonthDistance(2024, 11, 1, 18);
    SameMonthDistance(2024, 11, 1, 5);
    SameMonthDistance(2024, 12, 1, 5);
    SameMonthDistance(2024, 12, 1, 10);
    SameMonthDistance(2024, 12, 1, 15);
  }

  const admins: seq<Admin> := [
    Admin("admin-1", "Sarah Johnson", "sarah.johnson@stayease.com", SuperAdmin,
      None, AdminActive, "2024-11-26", "2022-01-15"),
    Admin("admin-2", "James Martinez", "james.martinez@stayease.com", BranchAdmin,
      Some("hotel-1"), AdminActive, "2024-11-25", "2022-06-20"),
    Admin("admin-3", "Lisa Wang", "lisa.wang@stayease.com", BranchAdmin,
      Some("hotel-2"), AdminActive, "2024-11-24", "2023-02-10"),
    Admin("admin-4", "Robert Taylor", "robert.taylor@stayease.com", BranchAdmin,
      Some("hotel-3"), AdminActive, "2024-11-26", "2023-05-15")
  ]

  /** Lookups by id (`xs.find((x) => x.id === id)`). */
  function FindBranch(branches: seq<HotelBranch>, id: string): Option<HotelBranch>
  {
    Find(branches, (b: HotelBranch) => b.id == id)
  }

  function FindGuest(gs: seq<Guest>, id: string): Option<Guest>
  {
    Find(gs, (g: Guest) => g.id == id)
  }

  function FindRoom(rs: seq<Room>, id: string): Option<Room>
  {
    Find(rs, (r: Room) => r.id == id)
  }

  function FindReservation(rs: seq<Reservation>, id: string): Option<Reservation>
  {
    Find(rs, (r: Reservation) => r.id == id)
  }

  /** `guests.filter((g) => g.status === 'active')` */
  function ActiveGuests(gs: seq<Guest>): (r: seq<Guest>)
    ensures forall g :: g in r <==> g in gs && g.status == Active
    ensures forall g :: multiset(r)[g] == if g.status == Active then multiset(gs)[g] else 0
  {
    var p := (g: Guest) => g.status == Active;
    FilterCount(gs, p);
    Filter(gs, p)
  }
}
