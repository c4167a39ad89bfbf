/** The add-room form and its amenity list. Submitting only reports the
    form and the amenities; nothing is stored. */
module AddRoom {
  import opened Seqs
  import opened Text
  import opened MockData
  import opened Scoping

  datatype RoomField = HotelBranchId | RoomNumber | Type | Floor | Capacity | Price | Description | Status

  /** The form state; every control's value is a string. */
  datatype RoomForm = RoomForm(
    hotelBranchId: string, roomNumber: string, roomType: string, floor: string,
    capacity: string, price: string, description: string, status: string)

  function Get(f: RoomForm, field: RoomField): string
  {
    match field
    case HotelBranchId => f.hotelBranchId
    case RoomNumber => f.roomNumber
    case Type => f.roomType
    case Floor => f.floor
    case Capacity => f.capacity
    case Price => f.price
    case Description => f.description
    case Status => f.status
  }

  /** `{ ...formData, [name]: value }` */
  function Set(f: RoomForm, field: RoomField, value: string): (r: RoomForm)
    ensures Get(r, field) == value
    ensures forall g :: g != field ==> Get(r, g) == Get(f, g)
  {
    match field
    case HotelBranchId => f.(hotelBranchId := value)
    case RoomNumber => f.(roomNumber := value)
    case Type => f.(roomType := value)
    case Floor => f.(floor := value)
    case Capacity => f.(capacity := value)
    case Price => f.(price := value)
    case Description => f.(description := value)
    case Status => f.(status := value)
  }

  /** The user's own branch preselected; a single available room on floor 1
      for one guest, the rest empty. */
  function InitialRoomForm(user: User): (f: RoomForm)
    ensures Truthy(user.hotelBranchId) ==> f.hotelBranchId == user.hotelBranchId.value
    ensures !Truthy(user.hotelBranchId) ==> f.hotelBranchId == ""
    ensures f.roomType == "Single" && f.floor == "1" && f.capacity == "1" && f.status == "available"
    ensures f.roomNumber == "" && f.price == "" && f.description == ""
  {
    RoomForm(if user.hotelBranchId.Some? then user.hotelBranchId.value else "",
      "", "Single", "1", "1", "", "", "available")
  }

  /** The list the amenity buttons keep: no repeats, and every entry a
      non-empty string without surrounding white space. */
  ghost predicate AmenitiesValid(xs: seq<string>)
  {
    NoDuplicates(xs) && forall i :: 0 <= i < |xs| ==> xs[i] != "" && IsTrimmed(xs[i])
  }

  const initialAmenities: seq<string> := ["WiFi", "TV", "AC"]

  lemma InitialAmenitiesValid()
    ensures AmenitiesValid(initialAmenities)
  {
    assert "WiFi"[0] != "TV"[0] && "WiFi"[0] != "AC"[0] && "TV"[0] != "AC"[0];
  }

  /** `addAmenity`: the trimmed input is appended when it is non-empty and
      not already listed; otherwise the list is unchanged. */
  function WithAmenity(xs: seq<string>, input: string): (r: seq<string>)
    ensures Trim(input) != "" && Trim(input) !in xs ==> r == xs + [Trim(input)]
    ensures Trim(input) == "" || Trim(input) in xs ==> r == xs
    ensures forall a :: a in r <==> a in xs || (a == Trim(input) && a != "")
    ensures AmenitiesValid(xs) ==> AmenitiesValid(r)
  {
    var t := Trim(input);
    if t != "" && t !in xs then
      AppendKeepsValid(xs, t);
      xs + [t]
    else xs
  }

  /** Appending a new non-empty trimmed entry keeps the list valid. */
  lemma AppendKeepsValid(xs: seq<string>, t: string)
    requires t != "" && IsTrimmed(t) && t !in xs
    ensures AmenitiesValid(xs) ==> AmenitiesValid(xs + [t])
  {
    var r := xs + [t];
    assert forall i :: 0 <= i < |xs| ==> r[i] == xs[i];
    assert r[|xs|] == t;
  }

  /** `removeAmenity`: every entry equal to `a` is dropped, the rest kept in order. */
  function WithoutAmenity(xs: seq<string>, a: string): (r: seq<string>)
    ensures forall x :: x in r <==> x in xs && x != a
    ensures IsSubsequence(r, xs)
    ensures AmenitiesValid(xs) ==> AmenitiesValid(r)
  {
    var p := (x: string) => x != a;
    FilterSubsequence(xs, p);
    FilterKeepsValid(xs, p);
    Filter(xs, p)
  }

  lemma FilterKeepsValid(xs: seq<string>, p: string -> bool)
    ensures AmenitiesValid(xs) ==> AmenitiesValid(Filter(xs, p))
  {
    if AmenitiesValid(xs) {
      FilterNoDuplicates(xs, p);
      var r := Filter(xs, p);
      forall i | 0 <= i < |r| ensures r[i] != "" && IsTrimmed(r[i]) {
        assert r[i] in xs;
        var k :| 0 <= k < |xs| && xs[k] == r[i];
      }
    }
  }

  /** Removing a string that is not listed changes nothing. */
  lemma RemoveAbsent(xs: seq<string>, a: string)
    requires a !in xs
    ensures WithoutAmenity(xs, a) == xs
  {
    FilterAll(xs, (x: string) => x != a);
  }

  /** Removing an amenity just added restores the list. */
  lemma AddThenRemove(xs: seq<string>, input: string)
    requires Trim(input) != "" && Trim(input) !in xs
    ensures WithoutAmenity(WithAmenity(xs, input), Trim(input)) == xs
  {
    var t := Trim(input);
    var p := (x: string) => x != t;
    FilterAppend(xs, [t], p);
    FilterAll(xs, p);
    assert Filter([t], p) == [];
  }

  /** Adding the same input twice adds it once. */
  lemma AddTwice(xs: seq<string>, input: string)
    ensures WithAmenity(WithAmenity(xs, input), input) == WithAmenity(xs, input)
  {
  }

  /** The page: the signed-in user, the form, the amenities and the amenity input. */
  class AddRoomPage {
    const user: User
    var formData: RoomForm
    var amenities: seq<string>
    var newAmenity: string

    ghost predicate Valid()
      reads this
    {
      AmenitiesValid(amenities) &&
      (user.role == BranchAdmin ==> formData.hotelBranchId == InitialRoomForm(user).hotelBranchId)
    }

    constructor(u: User)
      ensures user == u && formData == InitialRoomForm(u)
      ensures amenities == initialAmenities && newAmenity == ""
      ensures Valid()
    {
      user := u;
      formData := InitialRoomForm(u);
      amenities := initialAmenities;
      newAmenity := "";
      InitialAmenitiesValid();
    }

    /** `handleChange`; the branch select is disabled for a branch-admin. */
    method HandleChange(field: RoomField, value: string)
      requires Valid()
      requires field == HotelBranchId ==> user.role != BranchAdmin
      modifies this
      ensures Valid()
      ensures formData == Set(old(formData), field, value)
      ensures amenities == old(amenities) && newAmenity == old(newAmenity)
    {
      formData := Set(formData, field, value);
    }

    method SetNewAmenity(s: string)
      requires Valid()
      modifies this
      ensures Valid()
      ensures newAmenity == s && amenities == old(amenities) && formData == old(formData)
    {
      newAmenity := s;
    }

    /** `addAmenity`: the input is cleared only when something was added. */
    method AddAmenity()
      requires Valid()
      modifies this
      ensures Valid()
      ensures amenities == WithAmenity(old(amenities), old(newAmenity))
      ensures newAmenity == if amenities == old(amenities) then old(newAmenity) else ""
      ensures formData == old(formData)
    {
      var t := Trim(newAmenity);
      if t != "" && t !in amenities {
        AppendKeepsValid(amenities, t);
        amenities := amenities + [t];
        newAmenity := "";
      }
    }

    method RemoveAmenity(a: string)
      requires Valid()
      modifies this
      ensures Valid()
      ensures amenities == WithoutAmenity(old(amenities), a)
      ensures newAmenity == old(newAmenity) && formData == old(formData)
    {
      amenities := WithoutAmenity(amenities, a);
    }

    /** `handleSubmit`: the payload logged. */
    method HandleSubmit() returns (payload: RoomForm, listed: seq<string>)
      ensures payload == formData && listed == amenities
    {
      payload := formData;
      listed := amenities;
    }
  }
}
