/**
 * The vehicle management page of `app/dashboard/vehicules/page.tsx`: the
 * vehicle list with its page guards, the edit value built from a vehicle
 * (images and field defaults), and the submission that reads the `id` entry
 * of the form's FormData to choose between an update and a creation.
 */
module VehiculesPage {
  import opened Wrappers
  import opened Interfaces
  import opened FormDataModel
  import FormVehicle
  import Pagination

  /** The status the edit value carries: the vehicle's own when it is a VehicleStatus value. */
  function ParseVehicleStatus(s: string): (r: Option<VehicleStatus>)
    ensures r.Some? ==> r.value.Name() == s
    ensures r.None? ==> forall x: VehicleStatus :: x.Name() != s
  {
    if s == "AVAILABLE" then Some(VehicleStatus.AVAILABLE)
    else if s == "MAINTENANCE" then Some(VehicleStatus.MAINTENANCE)
    else if s == "OUT_OF_SERVICE" then Some(VehicleStatus.OUT_OF_SERVICE)
    else None
  }

  /**
   * `handleUpdate`'s `editData`: every text field with "" for a missing one,
   * the current year for a missing year, 0 for a missing mileage or seat
   * count, AVAILABLE for a missing status, and the normalised images.
   */
  function EditValue(v: Vehicle, currentYear: int): (r: FormVehicle.VehicleInit)
    ensures r.id == Some(v.id.GetOr("")) && r.registration == Some(v.registration.GetOr(""))
    ensures r.typeId == Some(v.typeId.GetOr("")) && r.marque == Some(v.marque.GetOr("")) && r.models == Some(v.models.GetOr(""))
    ensures r.year == Some(v.year.GetOr(currentYear)) && r.color == Some(v.color.GetOr(""))
    ensures r.mileage == Some(v.mileage.GetOr(0)) && r.seats == Some(v.seats.GetOr(0))
    ensures v.status.None? ==> r.status == Some(VehicleStatus.AVAILABLE)
    ensures v.status.Some? ==> r.status == ParseVehicleStatus(v.status.value)
    ensures r.partnerId == Some(v.partnerId.GetOr("")) && r.driverId == Some(v.driverId.GetOr(""))
    ensures r.images == Some(ImageSlots(v.images))
  {
    FormVehicle.VehicleInit(
      Some(v.id.GetOr("")),
      Some(v.registration.GetOr("")),
      Some(v.typeId.GetOr("")),
      Some(v.marque.GetOr("")),
      Some(v.models.GetOr("")),
      Some(v.year.GetOr(currentYear)),
      Some(v.color.GetOr("")),
      Some(v.mileage.GetOr(0)),
      Some(v.seats.GetOr(0)),
      if v.status.None? then Some(VehicleStatus.AVAILABLE) else ParseVehicleStatus(v.status.value),
      Some(v.partnerId.GetOr("")),
      Some(v.driverId.GetOr("")),
      Some(ImageSlots(v.images)))
  }

  /**
   * The form opened on an edit value holds the vehicle's own values: every
   * key of the edit value overrides the form's default.
   */
  lemma EditValueReachesForm(v: Vehicle, currentYear: int)
    ensures var d := FormVehicle.DefaultValues(EditValue(v, currentYear), currentYear);
      d.registration == v.registration.GetOr("") && d.year == v.year.GetOr(currentYear)
      && d.seats == Some(v.seats.GetOr(0)) && d.mileage == Some(v.mileage.GetOr(0))
      && d.images == ImageSlots(v.images)
  {
  }

  /**
   * A vehicle without a seat count is edited with 0 seats, which the form's
   * seat rule refuses, whereas a new vehicle starts with 4.
   */
  lemma MissingSeatsRefused(v: Vehicle, currentYear: int)
    requires v.seats.None?
    ensures FormVehicle.SeatsField in FormVehicle.VehicleErrors(FormVehicle.DefaultValues(EditValue(v, currentYear), currentYear), currentYear)
    ensures FormVehicle.DefaultValues(FormVehicle.NoInit, currentYear).seats == Some(4)
  {
  }

  /** A vehicle with more than four images cannot be edited: the form's slot initialiser throws. */
  lemma TooManyImages(v: Vehicle, currentYear: int)
    requires v.images.Many? && |v.images.items| > FormVehicle.SlotCount
    ensures FormVehicle.InitialSlots(EditValue(v, currentYear)).None?
  {
  }

  /**
   * A form edited from a vehicle with an id sends that id, so its
   * submission is an update of that vehicle; without an id it sends none.
   */
  lemma EditedVehicleSendsId(d: FormVehicle.VehicleValues, v: Vehicle)
    requires d.id == Some(v.id.GetOr(""))
    ensures v.id.Some? && v.id.value != "" ==> FirstText(FormVehicle.VehicleEntries(d), "id") == Some(v.id.value)
    ensures v.id.None? || v.id.value == "" ==> First(FormVehicle.VehicleEntries(d), "id").None?
  {
    FormVehicle.IdSentWhenGiven(d);
  }

  /** `formData.get("id")` read as a string, when it is a non-empty one. */
  function FirstText(es: seq<Entry>, name: string): (r: Option<string>)
    ensures r.Some? <==> First(es, name).Some? && First(es, name).value.Text? && First(es, name).value.s != ""
    ensures r.Some? ==> First(es, name) == Some(Text(r.value))
  {
    var v := First(es, name);
    if v.Some? && v.value.Text? && v.value.s != "" then Some(v.value.s) else None
  }

  /** What `handleAddVehicle` sends: an update of a vehicle id with the rest of the entries, or a creation. */
  datatype SaveRequest = UpdateVehicle(id: Value, body: seq<Entry>) | CreateVehicle(body: seq<Entry>)

  /** `if (id)` on `formData.get("id")`: a present entry is truthy unless it is the empty string. */
  predicate IdTruthy(id: Option<Value>) {
    id.Some? && (id.value.Blob? || id.value.s != "")
  }

  /** A save succeeded: the answer was 201 or 200. */
  predicate Saved(statusCode: int) {
    statusCode == 201 || statusCode == 200
  }

  class Page {
    const limit: nat
    var vehicles: seq<Vehicle>
    var drawerOpen: bool
    var affecteOpen: bool
    var driversListeOpen: bool
    var editValue: Option<FormVehicle.VehicleInit>
    var roles: Role
    var vehicleId: string
    var currentPage: int
    var totalItems: nat

    ghost predicate Valid()
      reads this
    {
      limit == 10 && currentPage >= 1
    }

    /** The initial state: no vehicle, every drawer closed, role USER, page 1. */
    constructor()
      ensures Valid()
      ensures vehicles == [] && !drawerOpen && !affecteOpen && !driversListeOpen && editValue.None?
      ensures roles == Role.USER && vehicleId == "" && currentPage == 1 && totalItems == 0
    {
      limit := 10;
      vehicles := [];
      drawerOpen := false;
      affecteOpen := false;
      driversListeOpen := false;
      editValue := None;
      roles := Role.USER;
      vehicleId := "";
      currentPage := 1;
      totalItems := 0;
    }

    /** `fetchRoles`: a role answer replaces the current one; no answer keeps it. */
    method RolesLoaded(res: Option<Role>)
      requires Valid()
      modifies this`roles
      ensures Valid()
      ensures res.Some? ==> roles == res.value
      ensures res.None? ==> roles == old(roles)
    {
      if res.Some? {
        roles := res.value;
      }
    }

    /** `fetchVehicles`: only a 200 carrying data replaces the rows, the total and the page. */
    method Loaded(statusCode: int, data: Option<(seq<Vehicle>, nat, int)>)
      requires Valid() && (data.Some? ==> data.value.2 >= 1)
      modifies this`vehicles, this`totalItems, this`currentPage
      ensures Valid()
      ensures statusCode == 200 && data.Some? ==>
        vehicles == data.value.0 && totalItems == data.value.1 && currentPage == data.value.2
      ensures !(statusCode == 200 && data.Some?) ==>
        vehicles == old(vehicles) && totalItems == old(totalItems) && currentPage == old(currentPage)
    {
      if statusCode == 200 && data.Some? {
        vehicles := data.value.0;
        totalItems := data.value.1;
        currentPage := data.value.2;
      }
    }

    /** `handleNextPage`. */
    method NextPage()
      requires Valid()
      modifies this`currentPage
      ensures Valid()
      ensures currentPage == Pagination.NextPage(old(currentPage), totalItems, limit)
    {
      if currentPage * limit < totalItems {
        currentPage := currentPage + 1;
      }
    }

    /** `handlePreviousPage`. */
    method PreviousPage()
      requires Valid()
      modifies this`currentPage
      ensures Valid()
      ensures currentPage == Pagination.PreviousPage(old(currentPage))
    {
      if currentPage > 1 {
        currentPage := currentPage - 1;
      }
    }

    /** The table's rows: `vehicles.slice((currentPage - 1) * limit, currentPage * limit)`. */
    function Rows(): (w: seq<Vehicle>)
      reads this
      requires Valid()
      ensures |w| <= limit
      ensures |w| == Pagination.Max(0, Pagination.Min(currentPage * limit, |vehicles|) - (currentPage - 1) * limit)
      ensures forall k :: 0 <= k < |w| ==> w[k] == vehicles[(currentPage - 1) * limit + k]
    {
      Pagination.Window(vehicles, currentPage, limit)
    }

    /** The "véhicule" button: the drawer opens on an empty form. */
    method OpenAdd()
      requires Valid()
      modifies this`drawerOpen, this`editValue
      ensures Valid() && drawerOpen && editValue.None?
    {
      drawerOpen := true;
      editValue := None;
    }

    /** `handleUpdate(v)`: the drawer opens on the vehicle's edit value. */
    method Edit(v: Vehicle, currentYear: int)
      requires Valid()
      modifies this`drawerOpen, this`editValue
      ensures Valid() && drawerOpen && editValue == Some(EditValue(v, currentYear))
    {
      editValue := Some(EditValue(v, currentYear));
      drawerOpen := true;
    }

    /** The overlay and "Fermer" close the drawer; the edit value stays. */
    method CloseDrawer()
      requires Valid()
      modifies this`drawerOpen
      ensures Valid() && !drawerOpen
    {
      drawerOpen := false;
    }

    /** The overlay and "Fermer" close the driver assignment dialog; the vehicle id stays. */
    method CloseAffecte()
      requires Valid()
      modifies this`affecteOpen
      ensures Valid() && !affecteOpen
    {
      affecteOpen := false;
    }

    /** The overlay and "Fermer" close the driver list. */
    method CloseDriversListe()
      requires Valid()
      modifies this`driversListeOpen
      ensures Valid() && !driversListeOpen
    {
      driversListeOpen := false;
    }

    /** `handleAffecte(v)`: the assignment drawer opens for that vehicle's id. */
    method Affecte(v: Vehicle)
      requires Valid()
      modifies this`vehicleId, this`affecteOpen
      ensures Valid() && affecteOpen && vehicleId == v.id.GetOr("")
    {
      vehicleId := v.id.GetOr("");
      affecteOpen := true;
    }

    /** The "chauffeur" button opens the driver list. */
    method OpenDriversListe()
      requires Valid()
      modifies this`driversListeOpen
      ensures Valid() && driversListeOpen
    {
      driversListeOpen := true;
    }

    /**
     * `handleAddVehicle(fd)` with the service's answer `statusCode`. A truthy
     * `id` entry is deleted from the FormData and the rest is sent as an
     * update of that id; otherwise the FormData is sent as a creation. On
     * 201 or 200 the drawer closes, the edit value clears and the list
     * reloads; any other answer changes nothing on the page.
     */
    method Submit(fd: FormData, statusCode: int) returns (req: SaveRequest, reload: bool)
      requires Valid()
      modifies this`drawerOpen, this`editValue, fd
      ensures Valid()
      ensures IdTruthy(old(fd.Get("id"))) ==> req == UpdateVehicle(old(fd.Get("id")).value, Without(old(fd.entries), "id"))
      ensures IdTruthy(old(fd.Get("id"))) ==> First(req.body, "id").None?
      ensures IdTruthy(old(fd.Get("id"))) ==> forall name :: name != "id" ==> First(req.body, name) == First(old(fd.entries), name)
      ensures !IdTruthy(old(fd.Get("id"))) ==> req == CreateVehicle(old(fd.entries))
      ensures fd.entries == req.body
      ensures reload <==> Saved(statusCode)
      ensures Saved(statusCode) ==> !drawerOpen && editValue.None?
      ensures !Saved(statusCode) ==> drawerOpen == old(drawerOpen) && editValue == old(editValue)
    {
      var id := fd.Get("id");
      if id.Some? && (id.value.Blob? || id.value.s != "") {
        forall name | name != "id"
          ensures First(Without(fd.entries, "id"), name) == First(fd.entries, name)
        {
          GetAfterDelete(fd.entries, "id", name);
        }
        GetAfterDelete(fd.entries, "id", "id");
        fd.Delete("id");
        req := UpdateVehicle(id.value, fd.entries);
        if statusCode == 200 {
          drawerOpen := false;
        }
      } else {
        req := CreateVehicle(fd.entries);
        if statusCode == 201 {
          drawerOpen := false;
        }
      }
      reload := false;
      if statusCode == 201 {
        drawerOpen := false;
        reload := true;
        editValue := None;
      } else if statusCode == 200 {
        drawerOpen := false;
        reload := true;
        editValue := None;
      }
    }
  }
}
