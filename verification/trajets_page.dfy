/**
 * The trip management page of `app/dashboard/trajets/page.tsx`: the trip
 * list with its page guards, the edit value built from a trip (stops,
 * coordinates and dates), the create-or-update choice on submit, and the
 * drawer that closes only after a 200 or 201 answer.
 *
 * `new Date(s)` is a parameter `toTime` giving the timestamp of a date
 * string; `new Date()` is the parameter `now`.
 */
module TrajetsPage {
  import opened Wrappers
  import opened Interfaces
  import opened FormTrajet
  import Pagination

  /**
   * `Array.isArray(trajet.stops) ? trajet.stops.map(...) : []`: one form stop
   * per trip stop, the name as the place, a missing name as "" and a missing
   * coordinate as 0, every arrival time the trip's departure time.
   */
  function NormalizeStops(stops: Option<seq<Stop>>, arrival: DateInput): (r: seq<StopValue>)
    ensures stops.None? ==> r == []
    ensures stops.Some? ==> |r| == |stops.value|
    ensures stops.Some? ==> forall k :: 0 <= k < |r| ==>
      r[k] == StopValue(stops.value[k].name.GetOr(""), Some(stops.value[k].lat.GetOr(0)), Some(stops.value[k].lng.GetOr(0)), arrival)
  {
    if stops.None? then []
    else
      var ss := stops.value;
      seq(|ss|, k requires 0 <= k < |ss| => StopValue(ss[k].name.GetOr(""), Some(ss[k].lat.GetOr(0)), Some(ss[k].lng.GetOr(0)), arrival))
  }

  /**
   * Every stop of an edited trip has both coordinates, so each one becomes a
   * route leg of the form's distance computation; a stop the server sent
   * without a position becomes a leg to (0, 0).
   */
  lemma {:induction false} NormalizedStopsAllLegs(ss: seq<Stop>, arrival: DateInput)
    ensures CountWithCoords(NormalizeStops(Some(ss), arrival)) == |ss|
    decreases ss
  {
    if ss != [] {
      NormalizedStopsAllLegs(ss[1..], arrival);
      assert NormalizeStops(Some(ss), arrival)[1..] == NormalizeStops(Some(ss[1..]), arrival);
    }
  }

  /**
   * The form's rules never flag the coordinates of an edited trip's stops;
   * a stop's place is flagged exactly when the trip stop has no name or an
   * empty one, and its arrival time exactly when the shared arrival is blank.
   */
  lemma NormalizedStopsRules(v: TrajetValues, ss: seq<Stop>, arrival: DateInput)
    requires v.stops == NormalizeStops(Some(ss), arrival)
    ensures forall k: nat :: StopLatField(k) !in TrajetErrors(v) && StopLngField(k) !in TrajetErrors(v)
    ensures forall k: nat :: k < |ss| ==> (StopLocationField(k) in TrajetErrors(v) <==> ss[k].name.GetOr("") == "")
    ensures forall k: nat :: k < |ss| ==> (StopArrivalField(k) in TrajetErrors(v) <==> arrival.Blank?)
  {
    forall k: nat
      ensures StopLatField(k) !in TrajetErrors(v) && StopLngField(k) !in TrajetErrors(v)
      ensures k < |ss| ==> (StopLocationField(k) in TrajetErrors(v) <==> ss[k].name.GetOr("") == "")
      ensures k < |ss| ==> (StopArrivalField(k) in TrajetErrors(v) <==> arrival.Blank?)
    {
      StopRules(v, k);
    }
  }


  /** `value ? new Date(value) : new Date()`: a missing or empty date string becomes now. */
  function DateOr(s: Option<string>, toTime: string -> int, now: int): (t: int)
    ensures s.Some? && s.value != "" ==> t == toTime(s.value)
    ensures s.None? || s.value == "" ==> t == now
  {
    if s.Some? && s.value != "" then toTime(s.value) else now
  }

  /**
   * The stops' arrival time: the departure time string as given. The form
   * turns a non-empty one into a date; a missing one stays unset, and an
   * empty one is blank, which the stop schema refuses.
   */
  function StopArrival(departureTime: Option<string>, toTime: string -> int): (t: DateInput)
    ensures t.Unset? <==> departureTime.None?
    ensures t.Blank? <==> departureTime == Some("")
    ensures t.DateAt? ==> departureTime.Some? && t.t == toTime(departureTime.value)
  {
    if departureTime.None? then Unset
    else if departureTime.value == "" then Blank
    else DateAt(toTime(departureTime.value))
  }

  /**
   * `handleUpdate`'s `editData`. Reading `departureGPS.lat` or
   * `destinationGPS.lat` of a trip without those positions throws, and then
   * no edit value is built (None).
   */
  function EditValue(t: Trajet, toTime: string -> int, now: int): (r: Option<TrajetValues>)
    ensures r.None? <==> t.departureGPS.None? || t.destinationGPS.None?
    ensures r.Some? ==> r.value.id == Some(t.id) && r.value.driverId == Some(t.driverId) && r.value.vehicleId == t.vehicleId
    ensures r.Some? ==> r.value.departure == t.departure && r.value.destination == t.destination
    ensures r.Some? ==> r.value.departureLat == Some(t.departureGPS.value.lat) && r.value.departureLng == Some(t.departureGPS.value.lng)
    ensures r.Some? ==> r.value.arrivalLat == Some(t.destinationGPS.value.lat) && r.value.arrivalLng == Some(t.destinationGPS.value.lng)
    ensures r.Some? ==> r.value.departureTime == Some(DateOr(t.departureTime, toTime, now))
    ensures r.Some? ==> r.value.estimatedArrival == DateAt(DateOr(t.estimatedArrival, toTime, now))
    ensures r.Some? ==> r.value.disposition == Some(t.disposition.GetOr(""))
    ensures r.Some? ==> r.value.price == Some(t.price) && r.value.nbplaces == Some(t.nbplaces) && r.value.totalDistance.None?
    ensures r.Some? ==> r.value.stops == NormalizeStops(t.stops, StopArrival(t.departureTime, toTime))
  {
    if t.departureGPS.None? || t.destinationGPS.None? then None
    else
      var dep := t.departureGPS.value;
      var dst := t.destinationGPS.value;
      Some(TrajetValues(
        Some(t.id), Some(t.driverId), t.vehicleId,
        t.departure, Some(dep.lat), Some(dep.lng),
        t.destination, Some(dst.lat), Some(dst.lng),
        Some(DateOr(t.departureTime, toTime, now)),
        DateAt(DateOr(t.estimatedArrival, toTime, now)),
        None,
        Some(t.disposition.GetOr("")),
        Some(t.price), Some(t.nbplaces),
        NormalizeStops(t.stops, StopArrival(t.departureTime, toTime))))
  }

  /**
   * A trip without a departure time is edited with "now" as its departure,
   * but its stops get no arrival time: the fallback only covers the
   * top-level field.
   */
  lemma MissingDepartureTime(t: Trajet, toTime: string -> int, now: int)
    requires t.departureGPS.Some? && t.destinationGPS.Some? && t.departureTime.None?
    ensures EditValue(t, toTime, now).value.departureTime == Some(now)
    ensures forall s :: s in EditValue(t, toTime, now).value.stops ==> s.arrivalTime.Unset?
  {
  }

  /**
   * An edit value always passes the form's top-level position and date
   * rules: it has both departure and both arrival coordinates and a
   * departure time.
   */
  lemma EditValueTopRules(t: Trajet, toTime: string -> int, now: int)
    requires EditValue(t, toTime, now).Some?
    ensures var errs := TrajetErrors(EditValue(t, toTime, now).value);
      DepartureLatField !in errs && ArrivalLngField !in errs && DepartureTimeField !in errs
      && EstimatedArrivalField !in errs
  {
  }

  /**
   * A trip stored with an empty departure time is edited with "now" as its
   * departure, but every one of its stops gets a blank arrival time, so the
   * form refuses to save it until each stop's time is typed in.
   */
  lemma EmptyDepartureTimeBlocksStops(t: Trajet, toTime: string -> int, now: int)
    requires t.departureGPS.Some? && t.destinationGPS.Some? && t.departureTime == Some("")
    requires t.stops.Some? && |t.stops.value| > 0
    ensures EditValue(t, toTime, now).value.departureTime == Some(now)
    ensures forall k: nat :: k < |t.stops.value| ==> StopArrivalField(k) in TrajetErrors(EditValue(t, toTime, now).value)
    ensures TrajetErrors(EditValue(t, toTime, now).value) != {}
  {
    var v := EditValue(t, toTime, now).value;
    NormalizedStopsRules(v, t.stops.value, Blank);
    assert StopArrivalField(0) in TrajetErrors(v);
  }

  /** What `handleTrajet` sends. */
  datatype SaveRequest = UpdateTrajet(id: string, data: TrajetValues) | CreateTrajet(data: TrajetValues)

  /** `if (data.id)`: an update for a truthy id, a creation otherwise. */
  function SaveRequestFor(data: TrajetValues): (req: SaveRequest)
    ensures req.UpdateTrajet? <==> data.id.Some? && data.id.value != ""
    ensures req.data == data
    ensures req.UpdateTrajet? ==> req.id == data.id.value
  {
    if data.id.Some? && data.id.value != "" then UpdateTrajet(data.id.value, data) else CreateTrajet(data)
  }

  /** An edit value of a trip with an id is saved as an update of that trip. */
  lemma EditedTripIsUpdated(t: Trajet, toTime: string -> int, now: int)
    requires EditValue(t, toTime, now).Some? && t.id != ""
    ensures SaveRequestFor(EditValue(t, toTime, now).value) == UpdateTrajet(t.id, EditValue(t, toTime, now).value)
  {
  }

  /** A save succeeded: the answer was 201 or 200. */
  predicate Saved(statusCode: int) {
    statusCode == 201 || statusCode == 200
  }

  class Page {
    const limit: nat
    var trajets: seq<Trajet>
    var drawerOpen: bool
    var editValue: Option<TrajetValues>
    var roles: Role
    var currentPage: int
    var totalItems: nat

    ghost predicate Valid()
      reads this
    {
      limit == 5 && currentPage >= 1
    }

    /** The initial state: no trip, drawer closed, no edit value, role USER, page 1. */
    constructor()
      ensures Valid()
      ensures trajets == [] && !drawerOpen && editValue.None? && roles == Role.USER
      ensures currentPage == 1 && totalItems == 0
    {
      limit := 5;
      trajets := [];
      drawerOpen := false;
      editValue := None;
      roles := Role.USER;
      currentPage := 1;
      totalItems := 0;
    }

    /** `fetchRoles`: a role answer replaces the current one; no answer keeps it. */
    method RolesLoaded(res: Option<Role>)
      requires Valid()
      modifies this`roles
      ensures Valid()
      ensures res.Some? ==> roles == res.value
      ensures res.None? ==> roles == old(roles)
    {
      if res.Some? {
        roles := res.value;
      }
    }

    /**
     * `fetchTrajets` answered `statusCode` with `data` (rows, total, page):
     * only a 200 carrying data replaces the rows, the total and the page.
     */
    method Loaded(statusCode: int, data: Option<(seq<Trajet>, nat, int)>)
      requires Valid() && (data.Some? ==> data.value.2 >= 1)
      modifies this`trajets, this`totalItems, this`currentPage
      ensures Valid()
      ensures statusCode == 200 && data.Some? ==>
        trajets == data.value.0 && totalItems == data.value.1 && currentPage == data.value.2
      ensures !(statusCode == 200 && data.Some?) ==>
        trajets == old(trajets) && totalItems == old(totalItems) && currentPage == old(currentPage)
    {
      if statusCode == 200 && data.Some? {
        trajets := data.value.0;
        totalItems := data.value.1;
        currentPage := data.value.2;
      }
    }

    /** `handleNextPage`. */
    method NextPage()
      requires Valid()
      modifies this`currentPage
      ensures Valid()
      ensures currentPage == Pagination.NextPage(old(currentPage), totalItems, limit)
    {
      if currentPage * limit < totalItems {
        currentPage := currentPage + 1;
      }
    }

    /** `handlePreviousPage`. */
    method PreviousPage()
      requires Valid()
      modifies this`currentPage
      ensures Valid()
      ensures currentPage == Pagination.PreviousPage(old(currentPage))
    {
      if currentPage > 1 {
        currentPage := currentPage - 1;
      }
    }

    /** The table's rows: `trajets.slice((currentPage - 1) * limit, currentPage * limit)`. */
    function Rows(): (w: seq<Trajet>)
      reads this
      requires Valid()
      ensures |w| <= limit
      ensures |w| == Pagination.Max(0, Pagination.Min(currentPage * limit, |trajets|) - (currentPage - 1) * limit)
      ensures forall k :: 0 <= k < |w| ==> w[k] == trajets[(currentPage - 1) * limit + k]
    {
      Pagination.Window(trajets, currentPage, limit)
    }

    /** "Ajouter un trajet": the drawer opens on an empty form. */
    method OpenAdd()
      requires Valid()
      modifies this`drawerOpen, this`editValue
      ensures Valid() && drawerOpen && editValue.None?
    {
      drawerOpen := true;
      editValue := None;
    }

    /** The overlay and "Fermer" close the drawer; the edit value stays. */
    method CloseDrawer()
      requires Valid()
      modifies this`drawerOpen
      ensures Valid() && !drawerOpen
    {
      drawerOpen := false;
    }

    /**
     * `handleUpdate(t)`: the drawer opens on the trip's edit value. When the
     * trip has no departure or destination position the handler throws
     * before either state change.
     */
    method Edit(t: Trajet, toTime: string -> int, now: int)
      requires Valid()
      modifies this`drawerOpen, this`editValue
      ensures Valid()
      ensures EditValue(t, toTime, now).Some? ==> drawerOpen && editValue == EditValue(t, toTime, now)
      ensures EditValue(t, toTime, now).None? ==> drawerOpen == old(drawerOpen) && editValue == old(editValue)
    {
      var v := EditValue(t, toTime, now);
      if v.Some? {
        editValue := v;
        drawerOpen := true;
      }
    }

    /**
     * `handleTrajet(data)` with the service's answer `statusCode`: an update
     * for a truthy id, else a creation. On 201 or 200 the drawer closes, the
     * edit value clears and the list reloads; otherwise nothing changes.
     */
    method Submit(data: TrajetValues, statusCode: int) returns (req: SaveRequest, reload: bool)
      requires Valid()
      modifies this`drawerOpen, this`editValue
      ensures Valid()
      ensures req == SaveRequestFor(data)
      ensures reload <==> Saved(statusCode)
      ensures Saved(statusCode) ==> !drawerOpen && editValue.None?
      ensures !Saved(statusCode) ==> drawerOpen == old(drawerOpen) && editValue == old(editValue)
    {
      if data.id.Some? && data.id.value != "" {
        req := UpdateTrajet(data.id.value, data);
      } else {
        req := CreateTrajet(data);
      }
      reload := false;
      if statusCode == 201 {
        drawerOpen := false;
        editValue := None;
        reload := true;
      } else if statusCode == 200 {
        drawerOpen := false;
        editValue := None;
        reload := true;
      }
    }

    /** `handleDelete(t)`: the trip's id is sent; the list reloads only on 200. */
    method Delete(t: Trajet, statusCode: int) returns (id: string, reload: bool)
      requires Valid()
      ensures id == t.id
      ensures reload <==> statusCode == 200
    {
      id := t.id;
      reload := statusCode == 200;
    }
  }
}
