/**
 * The driver assignment dialog of
 * `components/dashboard/AssignDriverToVehicle.tsx`: the driver options and
 * their labels, the selection, the assign request that carries every
 * selected id in order, the single-id remove requests, and the assigned
 * drivers list with its page guards.
 *
 * The selector is rendered without `multiple`, so it runs in single mode:
 * its `onChange` hands over one option, which `handleAssign` wraps in a
 * list, or the empty list after a removal. The selection therefore never
 * holds more than one driver, although the placeholder asks for one or more.
 */
module AssignDriver {
  import opened Wrappers
  import opened Text
  import opened Interfaces
  import opened MultiSelect
  import Pagination

  /** `String(id)`. */
  function KeyString(k: Key): (s: string)
    ensures k.Str? ==> s == k.s
    ensures k.Num? ==> s == IntToString(k.n)
  {
    match k
    case Str(s) => s
    case Num(n) => IntToString(n)
  }

  /**
   * A driver as `getDriversForMyPartners` returns it; the name may be missing
   * (null and undefined are both falsy for `||`), and the first and last
   * names may each be absent or null.
   */
  datatype DriverRecord = DriverRecord(id: Key, name: Option<string>, firstName: JsString, lastName: JsString)

  /** A value inside a template literal: an absent one reads "undefined", a null one "null". */
  function TemplateText(v: JsString): (s: string)
    ensures v.Given? ==> s == v.s
    ensures v.Undefined? ==> s == "undefined"
    ensures v.Null? ==> s == "null"
  {
    match v
    case Given(t) => t
    case Undefined => "undefined"
    case Null => "null"
  }

  /**
   * `d.name || `${d.firstName} ${d.lastName}` || "Conducteur"`: the name when
   * it is non-empty, otherwise the first and last names joined by a space.
   */
  function DriverLabel(d: DriverRecord): (caption: string)
    ensures d.name.Some? && d.name.value != "" ==> caption == d.name.value
    ensures !(d.name.Some? && d.name.value != "") ==> caption == TemplateText(d.firstName) + " " + TemplateText(d.lastName)
  {
    if d.name.Some? && d.name.value != "" then d.name.value
    else TemplateText(d.firstName) + " " + TemplateText(d.lastName)
  }

  /**
   * The label is never empty, so the "Conducteur" fallback is never used; a
   * driver without any name part is labelled "undefined undefined", and one
   * whose name parts are all null "null null".
   */
  lemma LabelNeverEmpty(d: DriverRecord)
    ensures DriverLabel(d) != ""
    ensures d.name.None? && d.firstName.Undefined? && d.lastName.Undefined? ==> DriverLabel(d) == "undefined undefined"
    ensures d.name.None? && d.firstName.Null? && d.lastName.Null? ==> DriverLabel(d) == "null null"
  {
    if !(d.name.Some? && d.name.value != "") {
      assert DriverLabel(d)[|TemplateText(d.firstName)|] == ' ';
    }
  }

  /** The options of the selector: one per driver, in order, with the driver's id. */
  function DriverOptions(ds: seq<DriverRecord>): (r: seq<SelectOption>)
    ensures |r| == |ds|
    ensures forall k :: 0 <= k < |ds| ==> r[k] == SelectOption(ds[k].id, DriverLabel(ds[k]))
  {
    seq(|ds|, k requires 0 <= k < |ds| => SelectOption(ds[k].id, DriverLabel(ds[k])))
  }

  /** `driverId`: a list of ids for an assignment, a single id for a removal. */
  datatype DriverIds = IdList(ids: seq<string>) | OneId(id: string)

  /** `AssignDriverData`. */
  datatype AssignRequest = AssignRequest(driverId: DriverIds, action: string)

  /** The selected ids as strings, in selection order. */
  function SelectedIds(sel: seq<SelectOption>): (r: seq<string>)
    ensures |r| == |sel|
    ensures forall k :: 0 <= k < |sel| ==> r[k] == KeyString(sel[k].id)
  {
    seq(|sel|, k requires 0 <= k < |sel| => KeyString(sel[k].id))
  }

  /** The assignment of a selection. */
  function AssignPayload(sel: seq<SelectOption>): (r: AssignRequest)
    ensures r.action == "assign" && r.driverId == IdList(SelectedIds(sel))
  {
    AssignRequest(IdList(SelectedIds(sel)), "assign")
  }

  /** The removal of one driver. */
  function RemovePayload(id: Key): (r: AssignRequest)
    ensures r.action == "remove" && r.driverId == OneId(KeyString(id))
  {
    AssignRequest(OneId(KeyString(id)), "remove")
  }

  /**
   * With string ids, the assignment carries exactly the selected ids in
   * selection order: dropping an option from the selection drops its id
   * from the request.
   */
  lemma AssignCarriesSelection(a: seq<SelectOption>, o: SelectOption, b: seq<SelectOption>)
    requires o.id.Str?
    ensures SelectedIds(a + [o] + b) == SelectedIds(a) + [o.id.s] + SelectedIds(b)
  {
    var all := a + [o] + b;
    assert forall k :: 0 <= k < |a| ==> all[k] == a[k];
    assert all[|a|] == o;
    assert forall k :: 0 <= k < |b| ==> all[|a| + 1 + k] == b[k];
  }

  class Dialog {
    const vehicleId: string
    const limit: nat
    var drivers: seq<SelectOption>
    var selectedDrivers: seq<SelectOption>
    var assignedDrivers: seq<AssignedDriver>
    var currentPage: int
    var totalItems: nat
    var loading: bool

    ghost predicate Valid()
      reads this
    {
      limit == 5 && currentPage >= 1 && |selectedDrivers| <= 1
    }

    /** The initial state: no option, nothing selected or assigned, page 1, not loading. */
    constructor(vehicleId: string)
      ensures Valid() && this.vehicleId == vehicleId
      ensures drivers == [] && selectedDrivers == [] && assignedDrivers == []
      ensures currentPage == 1 && totalItems == 0 && !loading
    {
      this.vehicleId := vehicleId;
      limit := 5;
      drivers := [];
      selectedDrivers := [];
      assignedDrivers := [];
      currentPage := 1;
      totalItems := 0;
      loading := false;
    }

    /** `fetchDrivers`: on 200 the options become the drivers' (none when there is no data); otherwise they stay. */
    method DriversLoaded(statusCode: int, data: Option<seq<DriverRecord>>)
      requires Valid()
      modifies this`drivers
      ensures Valid()
      ensures statusCode == 200 ==> drivers == DriverOptions(data.GetOr([]))
      ensures statusCode != 200 ==> drivers == old(drivers)
    {
      if statusCode == 200 {
        drivers := DriverOptions(data.GetOr([]));
      }
    }

    /** `fetchAssignedDrivers` starts: loading until the answer comes. */
    method FetchAssigned()
      requires Valid()
      modifies this`loading
      ensures Valid() && loading
    {
      loading := true;
    }

    /**
     * `fetchAssignedDrivers` answered: only a 200 carrying data replaces the
     * rows, the page and the total; loading ends in every case.
     */
    method AssignedLoaded(statusCode: int, data: Option<(seq<AssignedDriver>, nat, int)>)
      requires Valid() && (data.Some? ==> data.value.2 >= 1)
      modifies this`assignedDrivers, this`totalItems, this`currentPage, this`loading
      ensures Valid() && !loading
      ensures statusCode == 200 && data.Some? ==>
        assignedDrivers == data.value.0 && totalItems == data.value.1 && currentPage == data.value.2
      ensures !(statusCode == 200 && data.Some?) ==>
        assignedDrivers == old(assignedDrivers) && totalItems == old(totalItems) && currentPage == old(currentPage)
    {
      if statusCode == 200 && data.Some? {
        assignedDrivers := data.value.0;
        currentPage := data.value.2;
        totalItems := data.value.1;
      }
      loading := false;
    }

    /**
     * The single-mode selector's `onChange`, seen through `handleAssign`'s
     * `Array.isArray(...) ? ... : [...]`: one chosen option becomes a
     * one-option selection, an emitted list is taken as it is.
     */
    method SelectionChanged(val: Emitted)
      requires Valid() && SingleModeEmission(val)
      modifies this`selectedDrivers
      ensures Valid() && |selectedDrivers| <= 1
      ensures val.EmitOption? ==> selectedDrivers == [val.option]
      ensures val.EmitList? ==> selectedDrivers == val.items
      ensures val.Nothing? ==> selectedDrivers == old(selectedDrivers)
    {
      match val
      case EmitOption(o) => selectedDrivers := [o];
      case EmitList(items) => selectedDrivers := items;
      case Nothing =>
    }

    /** The "Affecter" button is disabled while loading or with nothing selected. */
    predicate AssignDisabled()
      reads this
    {
      loading || selectedDrivers == []
    }

    /** The button's caption. */
    function AssignCaption(): (s: string)
      reads this
      ensures s == "Assignation..." <==> loading
      ensures !loading ==> s == "Affecter"
    {
      if loading then "Assignation..." else "Affecter"
    }

    /**
     * `handleAssign` with the service's answer `statusCode`: an empty
     * selection sends nothing and changes nothing. Otherwise every selected
     * id is sent for this vehicle; on 200 the selection clears and the
     * assigned list reloads, on any other answer the selection stays.
     */
    method Assign(statusCode: int) returns (req: Option<AssignRequest>, reload: bool)
      requires Valid()
      modifies this`selectedDrivers
      ensures Valid()
      ensures old(selectedDrivers) == [] ==> req.None? && !reload && selectedDrivers == []
      ensures old(selectedDrivers) != [] ==> req == Some(AssignPayload(old(selectedDrivers)))
      ensures old(selectedDrivers) != [] ==> req.value.driverId.ids == [KeyString(old(selectedDrivers)[0].id)]
      ensures old(selectedDrivers) != [] ==> (reload <==> statusCode == 200)
      ensures old(selectedDrivers) != [] && statusCode == 200 ==> selectedDrivers == []
      ensures statusCode != 200 ==> selectedDrivers == old(selectedDrivers)
    {
      if |selectedDrivers| == 0 {
        return None, false;
      }
      req := Some(AssignPayload(selectedDrivers));
      reload := statusCode == 200;
      if reload {
        selectedDrivers := [];
      }
    }

    /** `handleDelete(item)` from the table: removes that driver; on 200 the selection clears and the list reloads. */
    method Delete(item: AssignedDriver, statusCode: int) returns (req: AssignRequest, reload: bool)
      requires Valid()
      modifies this`selectedDrivers
      ensures Valid()
      ensures req == RemovePayload(Str(item.id))
      ensures reload <==> statusCode == 200
      ensures statusCode == 200 ==> selectedDrivers == []
      ensures statusCode != 200 ==> selectedDrivers == old(selectedDrivers)
    {
      req := RemovePayload(Str(item.id));
      reload := statusCode == 200;
      if reload {
        selectedDrivers := [];
      }
    }

    /** `handleRemove(id)`: removes that driver; on 200 the list reloads and the selection is kept. */
    method Remove(driverId: Key, statusCode: int) returns (req: AssignRequest, reload: bool)
      requires Valid()
      ensures req == RemovePayload(driverId) && req.driverId.id == KeyString(driverId)
      ensures reload <==> statusCode == 200
    {
      req := RemovePayload(driverId);
      reload := statusCode == 200;
    }

    /** `handleNextPage`. */
    method NextPage()
      requires Valid()
      modifies this`currentPage
      ensures Valid()
      ensures currentPage == Pagination.NextPage(old(currentPage), totalItems, limit)
    {
      if currentPage * limit < totalItems {
        currentPage := currentPage + 1;
      }
    }

    /** `handlePreviousPage`. */
    method PreviousPage()
      requires Valid()
      modifies this`currentPage
      ensures Valid()
      ensures currentPage == Pagination.PreviousPage(old(currentPage))
    {
      if currentPage > 1 {
        currentPage := currentPage - 1;
      }
    }

    /** The table's rows: `assignedDrivers.slice((currentPage - 1) * 5, currentPage * 5)`. */
    function Rows(): (w: seq<AssignedDriver>)
      reads this
      requires Valid()
      ensures |w| <= limit
      ensures |w| == Pagination.Max(0, Pagination.Min(currentPage * limit, |assignedDrivers|) - (currentPage - 1) * limit)
      ensures forall k :: 0 <= k < |w| ==> w[k] == assignedDrivers[(currentPage - 1) * limit + k]
    {
      Pagination.Window(assignedDrivers, currentPage, limit)
    }
  }
}
