/**
 * The vehicle type page of `app/dashboard/vehicleTypes/page.tsx`: the whole
 * type list loaded at once and paged on the client by 5, the edit value
 * built from a type, and the create-or-update submission.
 */
module VehicleTypesPage {
  import opened Wrappers
  import opened Interfaces
  import opened FormVehicleType
  import Pagination

  /** `handleUpdate`'s `editData`: id, name and price as they are, `description || ""`. */
  function EditValue(t: VehicleType): (r: TypeInit)
    ensures r.id == Some(t.id) && r.name == Some(t.name) && r.price == Some(t.price)
    ensures t.description.None? || t.description == Some("") ==> r.description == Some("")
    ensures t.description.Some? && t.description.value != "" ==> r.description == t.description
  {
    TypeInit(Some(t.id), Some(t.name), Some(if t.description.Some? && t.description.value != "" then t.description.value else ""), Some(t.price))
  }

  /**
   * The form opened on a type's edit value holds exactly that type's values,
   * and it is in edit mode exactly when the type's id is non-empty.
   */
  lemma EditValueReachesForm(t: VehicleType)
    ensures Defaults(Some(EditValue(t))) == TypeValues(Some(t.id), t.name, Some(if t.description.Some? then t.description.value else ""), t.price)
    ensures EditMode(Some(EditValue(t))) <==> t.id != ""
  {
  }

  /** What `handleAddVehicleType` sends. */
  datatype SaveRequest = UpdateType(id: string, data: TypeValues) | CreateType(data: TypeValues)

  /** `if (data.id)`: an update for a truthy id, a creation otherwise. */
  function SaveRequestFor(data: TypeValues): (req: SaveRequest)
    ensures req.UpdateType? <==> data.id.Some? && data.id.value != ""
    ensures req.data == data
    ensures req.UpdateType? ==> req.id == data.id.value
  {
    if data.id.Some? && data.id.value != "" then UpdateType(data.id.value, data) else CreateType(data)
  }

  /** Resubmitting an edited type unchanged is an update of that type. */
  lemma EditedTypeIsUpdated(t: VehicleType)
    requires t.id != ""
    ensures SaveRequestFor(Defaults(Some(EditValue(t)))) == UpdateType(t.id, Defaults(Some(EditValue(t))))
  {
  }

  /** A save succeeded: the answer was 201 or 200. */
  predicate Saved(statusCode: int) {
    statusCode == 201 || statusCode == 200
  }

  class Page {
    const limit: nat
    var vehicleTypes: seq<VehicleType>
    var drawerOpen: bool
    var editValue: Option<TypeInit>
    var currentPage: int

    ghost predicate Valid()
      reads this
    {
      limit == 5 && currentPage >= 1
    }

    /** `totalItems`: the number of loaded types. */
    function TotalItems(): (n: nat)
      reads this
      ensures n == |vehicleTypes|
    {
      |vehicleTypes|
    }

    /** The initial state: no type, drawer closed, no edit value, page 1. */
    constructor()
      ensures Valid() && vehicleTypes == [] && !drawerOpen && editValue.None? && currentPage == 1
    {
      limit := 5;
      vehicleTypes := [];
      drawerOpen := false;
      editValue := None;
      currentPage := 1;
    }

    /** `fetchVehicleTypes`: an answer with data replaces the list; one without throws and keeps it. */
    method Loaded(data: Option<seq<VehicleType>>)
      requires Valid()
      modifies this`vehicleTypes
      ensures Valid()
      ensures data.Some? ==> vehicleTypes == data.value
      ensures data.None? ==> vehicleTypes == old(vehicleTypes)
    {
      if data.Some? {
        vehicleTypes := data.value;
      }
    }

    /** `handleNextPage`, against the loaded count. */
    method NextPage()
      requires Valid()
      modifies this`currentPage
      ensures Valid()
      ensures currentPage == Pagination.NextPage(old(currentPage), |vehicleTypes|, limit)
    {
      if currentPage * limit < |vehicleTypes| {
        currentPage := currentPage + 1;
      }
    }

    /** `handlePreviousPage`. */
    method PreviousPage()
      requires Valid()
      modifies this`currentPage
      ensures Valid()
      ensures currentPage == Pagination.PreviousPage(old(currentPage))
    {
      if currentPage > 1 {
        currentPage := currentPage - 1;
      }
    }

    /** The table's rows: `vehicleTypes.slice((currentPage - 1) * 5, currentPage * 5)`. */
    function Rows(): (w: seq<VehicleType>)
      reads this
      requires Valid()
      ensures |w| <= limit
      ensures |w| == Pagination.Max(0, Pagination.Min(currentPage * limit, |vehicleTypes|) - (currentPage - 1) * limit)
      ensures forall k :: 0 <= k < |w| ==> w[k] == vehicleTypes[(currentPage - 1) * limit + k]
    {
      Pagination.Window(vehicleTypes, currentPage, limit)
    }

    /** "Ajouter un type de véhicule": the drawer opens on an empty form. */
    method OpenAdd()
      requires Valid()
      modifies this`drawerOpen, this`editValue
      ensures Valid() && drawerOpen && editValue.None?
    {
      drawerOpen := true;
      editValue := None;
    }

    /** `handleUpdate(t)`: the drawer opens on the type's edit value. */
    method Edit(t: VehicleType)
      requires Valid()
      modifies this`drawerOpen, this`editValue
      ensures Valid() && drawerOpen && editValue == Some(EditValue(t))
    {
      editValue := Some(EditValue(t));
      drawerOpen := true;
    }

    /** The overlay and "Fermer" close the drawer; the edit value stays. */
    method CloseDrawer()
      requires Valid()
      modifies this`drawerOpen
      ensures Valid() && !drawerOpen
    {
      drawerOpen := false;
    }

    /**
     * `handleDelete(t)`: the id is sent and the list reloads whatever the
     * answer; only a thrown error skips the reload.
     */
    method Delete(t: VehicleType, throws: bool) returns (id: string, reload: bool)
      requires Valid()
      ensures id == t.id && (reload <==> !throws)
    {
      id := t.id;
      reload := !throws;
    }

    /**
     * `handleAddVehicleType(data)` with the service's answer `statusCode`: on
     * 201 or 200 the drawer closes, the edit value clears and the list
     * reloads; otherwise nothing changes.
     */
    method Submit(data: TypeValues, statusCode: int) returns (req: SaveRequest, reload: bool)
      requires Valid()
      modifies this`drawerOpen, this`editValue
      ensures Valid()
      ensures req == SaveRequestFor(data)
      ensures reload <==> Saved(statusCode)
      ensures Saved(statusCode) ==> !drawerOpen && editValue.None?
      ensures !Saved(statusCode) ==> drawerOpen == old(drawerOpen) && editValue == old(editValue)
    {
      if data.id.Some? && data.id.value != "" {
        req := UpdateType(data.id.value, data);
      } else {
        req := CreateType(data);
      }
      reload := Saved(statusCode);
      if reload {
        drawerOpen := false;
        editValue := None;
      }
    }
  }

  /**
   * Because the whole list is loaded and paged here, every type is shown:
   * type `i` is row `i % 5` of page `i / 5 + 1`, a page Next can reach.
   */
  lemma EveryTypeShown(types: seq<VehicleType>, i: nat)
    requires i < |types|
    ensures var w := Pagination.Window(types, i / 5 + 1, 5); i % 5 < |w| && w[i % 5] == types[i]
    ensures i / 5 + 1 <= Pagination.TotalPages(|types|, 5)
  {
    Pagination.WindowOfIndex(types, 5, i);
    Pagination.WindowEmptyPastLastPage(types, i / 5 + 1, 5);
  }
}
