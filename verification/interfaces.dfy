/**
 * The shared vocabulary of the client: the string enums sent to and received
 * from the backend, the `VehicleStatusOptions` table, and the record shapes the
 * pages read. Records keep statuses and roles as the raw strings the server
 * sends, so that the label functions' fallback branches stay reachable; the
 * fields the code tests for absence (`??`, `||`, `?.`) are `Option`s.
 */
module Interfaces {
  import opened Wrappers

  // ---------------------------------------------------------------- enums

  datatype Role = ADMIN | PARTENAIRE | DRIVER | USER {
    /** The string value of the enum member. */
    function Name(): string {
      match this
      case ADMIN => "ADMIN"
      case PARTENAIRE => "PARTENAIRE"
      case DRIVER => "DRIVER"
      case USER => "USER"
    }
  }

  /** `Object.values(Role)`, in declaration order. */
  const Roles: seq<Role> := [Role.ADMIN, Role.PARTENAIRE, Role.DRIVER, Role.USER]

  /** The Role member whose value is `s`, if there is one. */
  function ParseRole(s: string): (r: Option<Role>)
    ensures r.Some? ==> r.value.Name() == s
    ensures r.None? ==> forall x: Role :: x.Name() != s
  {
    if s == "ADMIN" then Some(Role.ADMIN)
    else if s == "PARTENAIRE" then Some(Role.PARTENAIRE)
    else if s == "DRIVER" then Some(Role.DRIVER)
    else if s == "USER" then Some(Role.USER)
    else None
  }

  /** Every Role member has its own value, and parsing that value gives it back. */
  lemma ParseRoleName(r: Role)
    ensures ParseRole(r.Name()) == Some(r)
    ensures forall x: Role :: x.Name() == r.Name() ==> x == r
  {
  }

  /** Role has exactly the four values ADMIN, PARTENAIRE, DRIVER, USER. */
  lemma RoleValues()
    ensures |Roles| == 4
    ensures forall r: Role :: r in Roles
    ensures forall i, j :: 0 <= i < j < |Roles| ==> Roles[i].Name() != Roles[j].Name()
  {
    forall r: Role
      ensures r in Roles
    {
      match r
      case ADMIN => assert Roles[0] == r;
      case PARTENAIRE => assert Roles[1] == r;
      case DRIVER => assert Roles[2] == r;
      case USER => assert Roles[3] == r;
    }
  }

  /**
   * The role read from storage: it replaces `fallback` only when it is present,
   * non-empty and one of the Role values.
   */
  function RoleFromStorage(stored: Option<string>, fallback: Role): (r: Role)
    ensures stored.Some? && ParseRole(stored.value).Some? ==> r.Name() == stored.value
    ensures stored.None? || ParseRole(stored.value).None? ==> r == fallback
  {
    if stored.Some? && stored.value != "" then
      match ParseRole(stored.value)
      case Some(role) => role
      case None => fallback
    else fallback
  }

  datatype TrajetStatus = PENDING | CONFIRMED | STARTED | COMPLETED | CANCELLED {
    function Name(): string {
      match this
      case PENDING => "PENDING"
      case CONFIRMED => "CONFIRMED"
      case STARTED => "STARTED"
      case COMPLETED => "COMPLETED"
      case CANCELLED => "CANCELLED"
    }
  }

  const TrajetStatuses: seq<TrajetStatus> :=
    [TrajetStatus.PENDING, TrajetStatus.CONFIRMED, TrajetStatus.STARTED,
     TrajetStatus.COMPLETED, TrajetStatus.CANCELLED]

  datatype UserStatus = INACTIVE | ACTIVE | BLOCKED {
    function Name(): string {
      match this
      case INACTIVE => "INACTIVE"
      case ACTIVE => "ACTIVE"
      case BLOCKED => "BLOCKED"
    }
  }

  const UserStatuses: seq<UserStatus> := [UserStatus.INACTIVE, UserStatus.ACTIVE, UserStatus.BLOCKED]

  datatype VehicleStatus = AVAILABLE | MAINTENANCE | OUT_OF_SERVICE {
    function Name(): string {
      match this
      case AVAILABLE => "AVAILABLE"
      case MAINTENANCE => "MAINTENANCE"
      case OUT_OF_SERVICE => "OUT_OF_SERVICE"
    }
  }

  const VehicleStatuses: seq<VehicleStatus> :=
    [VehicleStatus.AVAILABLE, VehicleStatus.MAINTENANCE, VehicleStatus.OUT_OF_SERVICE]

  datatype CommandeStatus = PENDING | CONFIRMED | CANCELLED | STARTED | COMPLETED {
    function Name(): string {
      match this
      case PENDING => "PENDING"
      case CONFIRMED => "CONFIRMED"
      case CANCELLED => "CANCELLED"
      case STARTED => "STARTED"
      case COMPLETED => "COMPLETED"
    }
  }

  const CommandeStatuses: seq<CommandeStatus> :=
    [CommandeStatus.PENDING, CommandeStatus.CONFIRMED, CommandeStatus.CANCELLED,
     CommandeStatus.STARTED, CommandeStatus.COMPLETED]

  /** The CommandeStatus member whose value is `s`, if there is one. */
  function ParseCommandeStatus(s: string): (r: Option<CommandeStatus>)
    ensures r.Some? ==> r.value.Name() == s
    ensures r.None? ==> forall x: CommandeStatus :: x.Name() != s
  {
    if s == "PENDING" then Some(CommandeStatus.PENDING)
    else if s == "CONFIRMED" then Some(CommandeStatus.CONFIRMED)
    else if s == "CANCELLED" then Some(CommandeStatus.CANCELLED)
    else if s == "STARTED" then Some(CommandeStatus.STARTED)
    else if s == "COMPLETED" then Some(CommandeStatus.COMPLETED)
    else None
  }

  datatype PaymentMethod = COD | STRIPE | MOBILE_MONEY {
    function Name(): string {
      match this
      case COD => "COD"
      case STRIPE => "STRIPE"
      case MOBILE_MONEY => "MOBILE_MONEY"
    }
  }

  /** The availability of a payment method. */
  datatype Status = ACTIVE | INACTIVE {
    function Name(): string {
      match this
      case ACTIVE => "ACTIVE"
      case INACTIVE => "INACTIVE"
    }
  }

  /** TrajetStatus has exactly five values, each under its own name. */
  lemma TrajetStatusValues()
    ensures |TrajetStatuses| == 5
    ensures forall s: TrajetStatus :: s in TrajetStatuses
    ensures forall i, j :: 0 <= i < j < 5 ==> TrajetStatuses[i].Name() != TrajetStatuses[j].Name()
  {
    forall s: TrajetStatus
      ensures s in TrajetStatuses
    {
      match s
      case PENDING => assert TrajetStatuses[0] == s;
      case CONFIRMED => assert TrajetStatuses[1] == s;
      case STARTED => assert TrajetStatuses[2] == s;
      case COMPLETED => assert TrajetStatuses[3] == s;
      case CANCELLED => assert TrajetStatuses[4] == s;
    }
  }

  /** CommandeStatus has exactly five values, each under its own name. */
  lemma CommandeStatusValues()
    ensures |CommandeStatuses| == 5
    ensures forall s: CommandeStatus :: s in CommandeStatuses
    ensures forall i, j :: 0 <= i < j < 5 ==> CommandeStatuses[i].Name() != CommandeStatuses[j].Name()
  {
    forall s: CommandeStatus
      ensures s in CommandeStatuses
    {
      match s
      case PENDING => assert CommandeStatuses[0] == s;
      case CONFIRMED => assert CommandeStatuses[1] == s;
      case CANCELLED => assert CommandeStatuses[2] == s;
      case STARTED => assert CommandeStatuses[3] == s;
      case COMPLETED => assert CommandeStatuses[4] == s;
    }
  }

  /** UserStatus has exactly the three values INACTIVE, ACTIVE, BLOCKED. */
  lemma UserStatusValues()
    ensures |UserStatuses| == 3
    ensures forall s: UserStatus :: s in UserStatuses
    ensures forall i, j :: 0 <= i < j < 3 ==> UserStatuses[i].Name() != UserStatuses[j].Name()
  {
    forall s: UserStatus
      ensures s in UserStatuses
    {
      match s
      case INACTIVE => assert UserStatuses[0] == s;
      case ACTIVE => assert UserStatuses[1] == s;
      case BLOCKED => assert UserStatuses[2] == s;
    }
  }

  /** The order and trip status enums carry the same five values, in a different order. */
  lemma SameStatusValues()
    ensures forall t: TrajetStatus :: exists c: CommandeStatus :: c.Name() == t.Name()
    ensures forall c: CommandeStatus :: exists t: TrajetStatus :: t.Name() == c.Name()
  {
    forall t: TrajetStatus
      ensures exists c: CommandeStatus :: c.Name() == t.Name()
    {
      match t
      case PENDING => assert CommandeStatus.PENDING.Name() == t.Name();
      case CONFIRMED => assert CommandeStatus.CONFIRMED.Name() == t.Name();
      case STARTED => assert CommandeStatus.STARTED.Name() == t.Name();
      case COMPLETED => assert CommandeStatus.COMPLETED.Name() == t.Name();
      case CANCELLED => assert CommandeStatus.CANCELLED.Name() == t.Name();
    }
    forall c: CommandeStatus
      ensures exists t: TrajetStatus :: t.Name() == c.Name()
    {
      match c
      case PENDING => assert TrajetStatus.PENDING.Name() == c.Name();
      case CONFIRMED => assert TrajetStatus.CONFIRMED.Name() == c.Name();
      case STARTED => assert TrajetStatus.STARTED.Name() == c.Name();
      case COMPLETED => assert TrajetStatus.COMPLETED.Name() == c.Name();
      case CANCELLED => assert TrajetStatus.CANCELLED.Name() == c.Name();
    }
  }

  /** One entry of `VehicleStatusOptions`. */
  datatype StatusOption = StatusOption(caption: string, value: VehicleStatus)

  const VehicleStatusOptions: seq<StatusOption> := [
    StatusOption("Disponible", VehicleStatus.AVAILABLE),
    StatusOption("Maintenance", VehicleStatus.MAINTENANCE),
    StatusOption("Hors service", VehicleStatus.OUT_OF_SERVICE)
  ]

  /** The option list names each vehicle status exactly once, in declaration order. */
  lemma VehicleStatusOptionsComplete()
    ensures |VehicleStatusOptions| == |VehicleStatuses|
    ensures forall i :: 0 <= i < |VehicleStatusOptions| ==> VehicleStatusOptions[i].value == VehicleStatuses[i]
    ensures forall s: VehicleStatus :: s in VehicleStatuses
    ensures forall i, j :: 0 <= i < j < |VehicleStatusOptions| ==> VehicleStatusOptions[i].value != VehicleStatusOptions[j].value
  {
    forall s: VehicleStatus
      ensures s in VehicleStatuses
    {
      match s
      case AVAILABLE => assert VehicleStatuses[0] == s;
      case MAINTENANCE => assert VehicleStatuses[1] == s;
      case OUT_OF_SERVICE => assert VehicleStatuses[2] == s;
    }
  }

  // ---------------------------------------------------------------- records

  /** A map position; coordinates are kept as integers (fixed-point degrees). */
  datatype Coord = Coord(lat: int, lng: int)

  /** An image reference: a URL string, or a static import object with a `src`. */
  datatype Image = Url(url: string) | Static(src: Option<string>)

  /**
   * The `images` field as it may arrive: an array, a lone value, or nothing.
   * The interface declares an array; the column renders also handle a lone value.
   */
  datatype ImageList = Many(items: seq<Image>) | One(item: Image) | NoImages

  datatype Partner = Partner(id: string, name: string, users: Option<seq<User>>, fleet: Option<seq<Vehicle>>)

  datatype User = User(
    id: string,
    name: Option<string>,
    email: Option<string>,
    phone: Option<string>,
    role: string,
    status: string,
    partner: Option<Partner>,
    images: ImageList)

  datatype VehicleType = VehicleType(id: string, name: string, description: Option<string>, price: int)

  datatype Vehicle = Vehicle(
    id: Option<string>,
    registration: Option<string>,
    typeId: Option<string>,
    vtype: Option<VehicleType>,
    marque: Option<string>,
    models: Option<string>,
    year: Option<int>,
    color: Option<string>,
    mileage: Option<int>,
    seats: Option<int>,
    status: Option<string>,
    partnerId: Option<string>,
    partner: Option<Partner>,
    driverId: Option<string>,
    drivers: Option<seq<User>>,
    images: ImageList)

  /** A stop on a trip; every field may be missing in what the server sends. */
  datatype Stop = Stop(name: Option<string>, lat: Option<int>, lng: Option<int>, arrivalTime: Option<string>)

  /** An order: one trip (by `trajetId`, with the trip itself when the server embeds it), its own price and status. */
  datatype Commande = Commande(
    id: string,
    userId: string,
    trajetId: string,
    trajet: Option<Trajet>,
    typeId: string,
    price: int,
    status: string)

  datatype Trajet = Trajet(
    id: string,
    driverId: string,
    driver: Option<User>,
    vehicleId: string,
    vehicle: Option<Vehicle>,
    partner: Option<Partner>,
    departure: string,
    departureGPS: Option<Coord>,
    destination: string,
    destinationGPS: Option<Coord>,
    stops: Option<seq<Stop>>,
    price: int,
    nbplaces: int,
    status: string,
    departureTime: Option<string>,
    estimatedArrival: Option<string>,
    disposition: Option<string>,
    commandes: Option<seq<Commande>>)

  /** A payment network offered for wallet recharge; `status` is the raw Status value. */
  datatype PaymentMethodes = PaymentMethodes(id: string, name: string, logo: Option<string>, status: string)

  datatype AssignedDriverVehicle = AssignedDriverVehicle(id: string, registration: string, typeName: Option<string>, status: string)

  datatype AssignedDriver = AssignedDriver(
    id: string,
    name: string,
    role: string,
    image: Option<Image>,
    vehicles: seq<AssignedDriverVehicle>)
}
