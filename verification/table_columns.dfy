/**
 * The column renders of `components/table/columns/tableColumns.tsx` that
 * compute something: the image a row shows with its fallbacks, the drivers'
 * availability, the joined driver and vehicle lists, the partner counts, and
 * the user status switch that flips before its request.
 */
module TableColumns {
  import opened Wrappers
  import opened Text
  import opened Interfaces

  const AvatarDefault := "/avatars/avatar.jpg"
  const VehicleDefault := "/ride.png"

  /** JavaScript truthiness of one image value: an empty URL string is falsy, an object never is. */
  predicate TruthyImage(i: Image) {
    i.Static? || i.url != ""
  }

  /**
   * `Array.isArray(images) ? images : images ? [images] : []`, then the first
   * element or the fallback path.
   */
  function RowImage(images: ImageList, fallback: string): (r: Image)
    ensures images.Many? && |images.items| > 0 ==> r == images.items[0]
    ensures images.One? && TruthyImage(images.item) ==> r == images.item
    ensures images.NoImages? || (images.Many? && images.items == []) || (images.One? && !TruthyImage(images.item)) ==> r == Url(fallback)
  {
    var list := match images
      case Many(items) => items
      case One(item) => if TruthyImage(item) then [item] else []
      case NoImages => [];
    if |list| > 0 then list[0] else Url(fallback)
  }

  /** The user and driver tables fall back to the avatar. */
  function UserImage(u: User): (r: Image)
    ensures r == RowImage(u.images, AvatarDefault)
    ensures u.images.NoImages? ==> r == Url(AvatarDefault)
  {
    RowImage(u.images, AvatarDefault)
  }

  /** The vehicle table falls back to the car picture. */
  function VehicleImage(v: Vehicle): (r: Image)
    ensures r == RowImage(v.images, VehicleDefault)
    ensures v.images.NoImages? ==> r == Url(VehicleDefault)
  {
    RowImage(v.images, VehicleDefault)
  }

  /** An array whose first element is "" shows "" — the fallback only covers a missing array or a lone empty string. */
  lemma EmptyFirstUrlKept(rest: seq<Image>)
    ensures RowImage(Many([Url("")] + rest), AvatarDefault) == Url("")
    ensures RowImage(One(Url("")), AvatarDefault) == Url(AvatarDefault)
  {
  }

  /** The assigned-driver table: `item.image ?? avatar`, where only a missing image falls back. */
  function AssignedDriverImage(d: AssignedDriver): (r: Image)
    ensures d.image.Some? ==> r == d.image.value
    ensures d.image.None? ==> r == Url(AvatarDefault)
  {
    d.image.GetOr(Url(AvatarDefault))
  }

  /** The drivers table's status cell. */
  function Availability(status: string): (s: string)
    ensures s == "Disponible" <==> status == UserStatus.ACTIVE.Name()
    ensures s != "Disponible" ==> s == "Indisponible"
  {
    if status == "ACTIVE" then "Disponible" else "Indisponible"
  }

  /** `(item.partner?.name ?? "-")`, the partner cell of the user and vehicle tables. */
  function PartnerName(p: Option<Partner>): (s: string)
    ensures p.None? ==> s == "-"
    ensures p.Some? ==> s == p.value.name
  {
    if p.Some? then p.value.name else "-"
  }

  /** The names of the drivers, a missing name joining as "". */
  function DriverNames(ds: seq<User>): (r: seq<string>)
    ensures |r| == |ds|
    ensures forall k :: 0 <= k < |ds| ==> r[k] == ds[k].name.GetOr("")
  {
    seq(|ds|, k requires 0 <= k < |ds| => ds[k].name.GetOr(""))
  }

  /** The vehicle table's driver cell: "-" without drivers, else their names joined by ", ". */
  function DriversCell(v: Vehicle): (s: string)
    ensures v.drivers.None? || v.drivers.value == [] ==> s == "-"
    ensures v.drivers.Some? && v.drivers.value != [] ==> s == Join(DriverNames(v.drivers.value), ", ")
  {
    if v.drivers.None? || |v.drivers.value| == 0 then "-" else Join(DriverNames(v.drivers.value), ", ")
  }

  /** One driver shows their name; adding a driver appends ", " and that name, so the cell keeps the list order. */
  lemma DriversCellOrder(v: Vehicle, d: User)
    requires v.drivers.Some? && v.drivers.value != []
    ensures DriversCell(v.(drivers := Some([d]))) == d.name.GetOr("")
    ensures DriversCell(v.(drivers := Some(v.drivers.value + [d]))) == DriversCell(v) + ", " + d.name.GetOr("")
  {
    var ds := v.drivers.value;
    assert DriverNames(ds + [d]) == DriverNames(ds) + [d.name.GetOr("")];
    JoinAppend(DriverNames(ds), [d.name.GetOr("")], ", ");
  }

  /** One assigned vehicle: "registration (type name or -)". */
  function VehicleEntry(v: AssignedDriverVehicle): (s: string)
    ensures s == v.registration + " (" + v.typeName.GetOr("-") + ")"
  {
    v.registration + " (" + (if v.typeName.Some? then v.typeName.value else "-") + ")"
  }

  function VehicleEntries(vs: seq<AssignedDriverVehicle>): (r: seq<string>)
    ensures |r| == |vs|
    ensures forall k :: 0 <= k < |vs| ==> r[k] == VehicleEntry(vs[k])
  {
    seq(|vs|, k requires 0 <= k < |vs| => VehicleEntry(vs[k]))
  }

  /** The assigned-driver table's vehicles cell: "-" without vehicles, else the entries joined by ", ". */
  function AssignedVehiclesCell(d: AssignedDriver): (s: string)
    ensures d.vehicles == [] ==> s == "-"
    ensures d.vehicles != [] ==> s == Join(VehicleEntries(d.vehicles), ", ")
  {
    if |d.vehicles| > 0 then Join(VehicleEntries(d.vehicles), ", ") else "-"
  }

  /** A driver with one vehicle of unknown type shows "registration (-)". */
  lemma OneVehicleOfUnknownType(d: AssignedDriver, v: AssignedDriverVehicle)
    requires d.vehicles == [v] && v.typeName.None?
    ensures AssignedVehiclesCell(d) == v.registration + " (-)"
  {
  }

  /** The vehicles cell is never empty. */
  lemma AssignedVehiclesCellNonEmpty(d: AssignedDriver)
    ensures AssignedVehiclesCell(d) != ""
  {
    if d.vehicles != [] {
      JoinNonEmpty(VehicleEntries(d.vehicles), ", ");
    }
  }

  /** A join whose first part is non-empty is non-empty. */
  lemma {:induction false} JoinNonEmpty(parts: seq<string>, sep: string)
    requires parts != [] && parts[0] != ""
    ensures Join(parts, sep) != ""
  {
  }

  /** `item.users?.length ?? 0` and `item.fleet?.length ?? 0`. */
  function PartnerCounts(p: Partner): (r: (nat, nat))
    ensures p.users.None? ==> r.0 == 0
    ensures p.users.Some? ==> r.0 == |p.users.value|
    ensures p.fleet.None? ==> r.1 == 0
    ensures p.fleet.Some? ==> r.1 == |p.fleet.value|
  {
    (if p.users.Some? then |p.users.value| else 0, if p.fleet.Some? then |p.fleet.value| else 0)
  }

  /** The request the switch sends. */
  datatype StatusRequest = StatusRequest(userId: string, status: UserStatus)

  /** `UserStatusSwitch`: one row's switch. */
  class StatusSwitch {
    const user: User
    var checked: bool

    /** The switch starts on exactly when the user is ACTIVE. */
    constructor(user: User)
      ensures this.user == user && (checked <==> user.status == UserStatus.ACTIVE.Name())
    {
      this.user := user;
      checked := user.status == UserStatus.ACTIVE.Name();
    }

    /** The label beside the switch. */
    function Caption(): (s: string)
      reads this
      ensures s == "Actif" <==> checked
      ensures !checked ==> s == "Inactif"
    {
      if checked then "Actif" else "Inactif"
    }

    /**
     * `handleToggle(value)`: the switch moves first, then ACTIVE (on) or
     * INACTIVE (off) is sent for this user. Whatever the answer, the switch
     * keeps its new position.
     */
    method Toggle(value: bool, statusCode: int) returns (req: StatusRequest)
      modifies this
      ensures checked == value
      ensures req.userId == user.id
      ensures req.status == UserStatus.ACTIVE <==> value
      ensures !value ==> req.status == UserStatus.INACTIVE
    {
      checked := value;
      req := StatusRequest(user.id, if value then UserStatus.ACTIVE else UserStatus.INACTIVE);
    }
  }

  /** A failed update leaves a BLOCKED user's switch saying "Actif" after it was switched on. */
  method FailedUpdateKeepsSwitch(user: User) returns (caption: string)
    requires user.status == UserStatus.BLOCKED.Name()
    ensures caption == "Actif"
  {
    var sw := new StatusSwitch(user);
    assert !sw.checked;
    var _ := sw.Toggle(true, 500);
    caption := sw.Caption();
  }
}
