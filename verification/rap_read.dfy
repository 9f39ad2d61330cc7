/**
 * The ride viewer of `app/rap-read/page.tsx`: it reads the trip stored under
 * the key "data", checks it, turns its date strings into dates, shows it on
 * the map, redirects after an error, and removes the stored trip when the
 * ride is finished.
 *
 * `JSON.parse` and `new Date(s)` are parameters: `parse` yields None when
 * parsing throws (or when the result has no fields to read), and `toTime`
 * yields None for a string that is not a date. The map component is not
 * part of this model.
 */
module RapRead {
  import opened Wrappers
  import opened Interfaces

  /** A stored nested record with its two date fields, either of which may be absent or null. */
  datatype Stamped<T> = Stamped(record: T, createdAt: JsString, updatedAt: JsString)

  /**
   * The stored trip as parsed; every field the page reads may be missing.
   * `others` holds the remaining fields (GPS points, price, places, status
   * and the rest) by name, as they were stored.
   */
  datatype StoredTrajet = StoredTrajet(
    id: Option<string>,
    departure: Option<string>,
    destination: Option<string>,
    departureTime: JsString,
    estimatedArrival: JsString,
    createdAt: JsString,
    updatedAt: JsString,
    stops: Option<seq<Stop>>,
    driver: Option<Stamped<User>>,
    vehicle: Option<Stamped<Vehicle>>,
    partner: Option<Stamped<Partner>>,
    others: map<string, string>)

  /** A JavaScript `Date`: a time in milliseconds, or Invalid Date. */
  datatype JsDate = InvalidDate | At(ms: int)

  /** `new Date(v)`: `new Date(undefined)` is Invalid Date, `new Date(null)` the epoch. */
  function DateOf(v: JsString, toTime: string -> Option<int>): (d: JsDate)
    ensures v.Undefined? ==> d == InvalidDate
    ensures v.Null? ==> d == At(0)
    ensures v.Given? && toTime(v.s).Some? ==> d == At(toTime(v.s).value)
    ensures v.Given? && toTime(v.s).None? ==> d == InvalidDate
  {
    match v
    case Undefined => InvalidDate
    case Null => At(0)
    case Given(s) =>
      match toTime(s)
      case None => InvalidDate
      case Some(ms) => At(ms)
  }

  /** A stop of the shown trip: the stored stop and its arrival date, undefined when it had no arrival time. */
  datatype ReadStop = ReadStop(stop: Stop, arrival: Option<JsDate>)

  /** A nested record whose two dates have been read. */
  datatype Dated<T> = Dated(record: T, createdAt: JsDate, updatedAt: JsDate)

  /** The trip handed to the map. */
  datatype ReadTrajet = ReadTrajet(
    id: string,
    departure: string,
    destination: string,
    departureTime: JsDate,
    estimatedArrival: JsDate,
    createdAt: JsDate,
    updatedAt: JsDate,
    stops: seq<ReadStop>,
    driver: Option<Dated<User>>,
    vehicle: Option<Dated<Vehicle>>,
    partner: Option<Dated<Partner>>,
    others: map<string, string>)

  /** JavaScript truthiness of an optional string. */
  predicate Truthy(v: Option<string>) {
    v.Some? && v.value != ""
  }

  /** The basic validation: id, departure and destination are all truthy. */
  predicate ValidStored(t: StoredTrajet) {
    Truthy(t.id) && Truthy(t.departure) && Truthy(t.destination)
  }

  /** One stop: `arrivalTime ? new Date(arrivalTime) : undefined`, the rest kept. */
  function ReadStopOf(s: Stop, toTime: string -> Option<int>): (r: ReadStop)
    ensures r.stop == s
    ensures Truthy(s.arrivalTime) <==> r.arrival.Some?
    ensures Truthy(s.arrivalTime) ==> r.arrival == Some(DateOf(Given(s.arrivalTime.value), toTime))
  {
    ReadStop(s, if Truthy(s.arrivalTime) then Some(DateOf(Given(s.arrivalTime.value), toTime)) else None)
  }

  /** `stops?.map(...) || []`: every stop in order, none when the trip has no stop list. */
  function ReadStops(stops: Option<seq<Stop>>, toTime: string -> Option<int>): (r: seq<ReadStop>)
    ensures |r| == |stops.GetOr([])|
    ensures forall k :: 0 <= k < |r| ==> r[k] == ReadStopOf(stops.value[k], toTime)
  {
    var ss := stops.GetOr([]);
    seq(|ss|, k requires 0 <= k < |ss| => ReadStopOf(ss[k], toTime))
  }

  /** A present nested record keeps its fields and gets its two dates read; a missing one stays undefined. */
  function DatedOf<T>(v: Option<Stamped<T>>, toTime: string -> Option<int>): (r: Option<Dated<T>>)
    ensures r.Some? <==> v.Some?
    ensures v.Some? ==> r.value.record == v.value.record
    ensures v.Some? ==> r.value.createdAt == DateOf(v.value.createdAt, toTime) && r.value.updatedAt == DateOf(v.value.updatedAt, toTime)
  {
    match v
    case None => None
    case Some(st) => Some(Dated(st.record, DateOf(st.createdAt, toTime), DateOf(st.updatedAt, toTime)))
  }

  /**
   * `parseTrajetWithDates`: the four trip dates become `Date`s, the stops are
   * read one by one, a present driver, vehicle or partner gets its two dates
   * read while a missing one stays undefined, and every other field is kept.
   */
  function ParseWithDates(t: StoredTrajet, toTime: string -> Option<int>): (r: ReadTrajet)
    requires ValidStored(t)
    ensures r.id == t.id.value && r.departure == t.departure.value && r.destination == t.destination.value
    ensures r.departureTime == DateOf(t.departureTime, toTime) && r.estimatedArrival == DateOf(t.estimatedArrival, toTime)
    ensures r.createdAt == DateOf(t.createdAt, toTime) && r.updatedAt == DateOf(t.updatedAt, toTime)
    ensures r.stops == ReadStops(t.stops, toTime)
    ensures r.driver == DatedOf(t.driver, toTime) && r.vehicle == DatedOf(t.vehicle, toTime) && r.partner == DatedOf(t.partner, toTime)
    ensures r.others == t.others
  {
    ReadTrajet(t.id.value, t.departure.value, t.destination.value,
      DateOf(t.departureTime, toTime), DateOf(t.estimatedArrival, toTime),
      DateOf(t.createdAt, toTime), DateOf(t.updatedAt, toTime),
      ReadStops(t.stops, toTime),
      DatedOf(t.driver, toTime), DatedOf(t.vehicle, toTime), DatedOf(t.partner, toTime),
      t.others)
  }

  /**
   * Reading the dates loses nothing: the shown trip's nested records are the
   * stored ones. A trip whose four date keys are absent shows Invalid Date in
   * each of the four places, while one whose four dates are stored as null
   * shows the epoch (1970-01-01T00:00:00Z) in each.
   */
  lemma ParsedRecordsAreStored(t: StoredTrajet, toTime: string -> Option<int>)
    requires ValidStored(t)
    ensures var r := ParseWithDates(t, toTime);
      (t.driver.Some? ==> r.driver.Some? && r.driver.value.record == t.driver.value.record)
      && (t.vehicle.Some? ==> r.vehicle.Some? && r.vehicle.value.record == t.vehicle.value.record)
      && (t.partner.Some? ==> r.partner.Some? && r.partner.value.record == t.partner.value.record)
    ensures t.departureTime.Undefined? && t.estimatedArrival.Undefined? && t.createdAt.Undefined? && t.updatedAt.Undefined? ==>
      var r := ParseWithDates(t, toTime);
      r.departureTime == InvalidDate && r.estimatedArrival == InvalidDate && r.createdAt == InvalidDate && r.updatedAt == InvalidDate
    ensures t.departureTime.Null? && t.estimatedArrival.Null? && t.createdAt.Null? && t.updatedAt.Null? ==>
      var r := ParseWithDates(t, toTime);
      r.departureTime == At(0) && r.estimatedArrival == At(0) && r.createdAt == At(0) && r.updatedAt == At(0)
  {
  }

  /**
   * A stored `"estimatedArrival": null` is shown as the epoch, whereas the
   * absent `departureTime` key is shown as Invalid Date.
   */
  lemma NullDateIsEpoch(toTime: string -> Option<int>)
    ensures var t := StoredTrajet(Some("t"), Some("A"), Some("B"), Undefined, Null, Undefined, Undefined, None, None, None, None, map[]);
      var r := ParseWithDates(t, toTime);
      r.estimatedArrival == At(0) && r.departureTime == InvalidDate && r.stops == []
  {
  }

  /** The stops of the shown trip are the stored ones, in the same order, with their names and positions. */
  lemma ShownStopsAreStored(t: StoredTrajet, toTime: string -> Option<int>, k: nat)
    requires ValidStored(t) && k < |t.stops.GetOr([])|
    ensures var r := ParseWithDates(t, toTime); k < |r.stops| && r.stops[k].stop == t.stops.value[k]
    ensures var r := ParseWithDates(t, toTime); r.stops[k].arrival.None? <==> !Truthy(t.stops.value[k].arrivalTime)
  {
  }

  const NotFound := "Aucun trajet trouvé dans le stockage local"
  const Invalid := "Données de trajet invalides"
  const LoadFailed := "Erreur lors du chargement du trajet"

  /** How loading the stored trip ends. */
  datatype Outcome = Failed(message: string) | Shown(trajet: ReadTrajet)

  /** `localStorage.getItem('data')`. */
  function StoredData(storage: map<string, string>): (v: Option<string>)
    ensures v.Some? <==> "data" in storage
    ensures v.Some? ==> v.value == storage["data"]
  {
    if "data" in storage then Some(storage["data"]) else None
  }

  /** `loadTrajetFromStorage`: nothing stored, a parse failure, a failed validation, or the trip. */
  function LoadOutcome(stored: Option<string>, parse: string -> Option<StoredTrajet>, toTime: string -> Option<int>): (o: Outcome)
    ensures !Truthy(stored) ==> o == Failed(NotFound)
    ensures Truthy(stored) && parse(stored.value).None? ==> o == Failed(LoadFailed)
    ensures Truthy(stored) && parse(stored.value).Some? && !ValidStored(parse(stored.value).value) ==> o == Failed(Invalid)
    ensures o.Shown? <==> Truthy(stored) && parse(stored.value).Some? && ValidStored(parse(stored.value).value)
    ensures o.Shown? ==> o.trajet == ParseWithDates(parse(stored.value).value, toTime)
  {
    if !Truthy(stored) then Failed(NotFound)
    else match parse(stored.value)
      case None => Failed(LoadFailed)
      case Some(t) => if ValidStored(t) then Shown(ParseWithDates(t, toTime)) else Failed(Invalid)
  }

  /** Every failure carries one of the three messages, none of them empty, so every failure redirects. */
  lemma FailureMessages(stored: Option<string>, parse: string -> Option<StoredTrajet>, toTime: string -> Option<int>)
    ensures var o := LoadOutcome(stored, parse, toTime);
      o.Failed? ==> (o.message == NotFound || o.message == Invalid || o.message == LoadFailed) && o.message != ""
  {
  }

  /** The redirection an error schedules: "/dashboard/driver" after 3000 ms; none without an error. */
  function Redirect(error: Option<string>): (r: Option<(string, nat)>)
    ensures r.Some? <==> Truthy(error)
    ensures r.Some? ==> r.value == ("/dashboard/driver", 3000)
  {
    if Truthy(error) then Some(("/dashboard/driver", 3000)) else None
  }

  /** What the page renders. */
  datatype View = Spinner | Map(trajet: ReadTrajet) | Blank

  class Page {
    var storage: map<string, string>
    var trajet: Option<ReadTrajet>
    var loading: bool
    var error: Option<string>

    /** The initial state: no trip, loading, no error, over the browser's storage. */
    constructor(storage: map<string, string>)
      ensures this.storage == storage && trajet.None? && loading && error.None?
    {
      this.storage := storage;
      trajet := None;
      loading := true;
      error := None;
    }

    /**
     * The mount effect: a failure sets the error and a success sets the
     * trip; loading ends either way, the early returns included.
     */
    method Load(parse: string -> Option<StoredTrajet>, toTime: string -> Option<int>)
      modifies this`trajet, this`loading, this`error
      ensures !loading
      ensures var o := LoadOutcome(StoredData(storage), parse, toTime);
        (o.Failed? ==> error == Some(o.message) && trajet == old(trajet)) &&
        (o.Shown? ==> trajet == Some(o.trajet) && error == old(error))
    {
      var stored := StoredData(storage);
      if !(stored.Some? && stored.value != "") {
        error := Some(NotFound);
      } else {
        var parsed := parse(stored.value);
        if parsed.None? {
          error := Some(LoadFailed);
        } else if !ValidStored(parsed.value) {
          error := Some(Invalid);
        } else {
          trajet := Some(ParseWithDates(parsed.value, toTime));
        }
      }
      loading := false;
    }

    /** A spinner while loading, then the map when there is a trip, otherwise nothing. */
    function Render(): (v: View)
      reads this
      ensures loading ==> v == Spinner
      ensures !loading && trajet.Some? ==> v == Map(trajet.value)
      ensures !loading && trajet.None? ==> v == Blank
    {
      if loading then Spinner else if trajet.Some? then Map(trajet.value) else Blank
    }

    /** `handleFinish`: the stored trip is removed; nothing else in storage changes. */
    method Finish() returns (alert: string)
      modifies this`storage
      ensures alert == "Course terminée !"
      ensures storage == old(storage) - {"data"}
      ensures StoredData(storage).None?
    {
      alert := "Course terminée !";
      storage := storage - {"data"};
    }
  }

  /** After the ride is finished, opening the viewer again fails with "nothing stored" and redirects. */
  lemma FinishedRideIsGone(storage: map<string, string>, parse: string -> Option<StoredTrajet>, toTime: string -> Option<int>)
    ensures LoadOutcome(StoredData(storage - {"data"}), parse, toTime) == Failed(NotFound)
    ensures Redirect(Some(NotFound)).Some?
  {
  }

  /** A freshly loaded page shows the map exactly when the stored trip loaded. */
  lemma LoadedPageShowsMap(storage: map<string, string>, parse: string -> Option<StoredTrajet>, toTime: string -> Option<int>)
    ensures var o := LoadOutcome(StoredData(storage), parse, toTime);
      o.Shown? <==> "data" in storage && storage["data"] != "" && parse(storage["data"]).Some? && ValidStored(parse(storage["data"]).value)
  {
  }
}
