/**
 * The trip form of `components/forms/FormTrajet.tsx`: the `datetime-local`
 * formatting, the field rules, the chain of route segments from the departure
 * through the stops to the destination, the segment-by-segment distance and
 * arrival-time computation at 120 km/h, and the payload sent on submit.
 *
 * The map's distance service is a parameter `dist` giving, for a segment, the
 * driving distance in metres or None when the service fails. Times are
 * millisecond timestamps; distances are kept in metres.
 */
module FormTrajet {
  import opened Wrappers
  import opened Text
  import opened Interfaces

  // ---------------------------------------------------------------- time constants

  /** `DEFAULT_SPEED`, in km/h. */
  const DefaultSpeed := 120

  /** `KM_TO_MS`: the milliseconds needed for one kilometre at the default speed. */
  const KmToMs := 3600 * 1000 / DefaultSpeed

  /** The same rate per metre. */
  const MsPerMetre := KmToMs / 1000

  lemma SpeedConstants()
    ensures KmToMs == 30000 && MsPerMetre == 30
    ensures MsPerMetre * 1000 == KmToMs
  {
  }

  // ---------------------------------------------------------------- date formatting

  /** The local calendar fields of a Date; `month` is `getMonth()`, from 0. */
  datatype DateParts = DateParts(year: nat, month: nat, day: nat, hours: nat, minutes: nat)

  /**
   * `toInputDatetimeLocal(val)`: "" for a missing or invalid date (None), else
   * "YYYY-MM-DDTHH:mm" with month, day, hours and minutes zero-padded.
   */
  function ToInputDatetimeLocal(d: Option<DateParts>): (r: string)
    ensures r == "" <==> d.None?
  {
    if d.None? then ""
    else
      var p := d.value;
      NatToString(p.year) + "-" + Pad2(p.month + 1) + "-" + Pad2(p.day) + "T" + Pad2(p.hours) + ":" + Pad2(p.minutes)
  }

  /** The fixed positions of "YYYY-MM-DDTHH:mm", whatever the five fields hold. */
  lemma FieldPositions(y: string, mo: string, da: string, h: string, mi: string)
    requires |y| == 4 && |mo| == 2 && |da| == 2 && |h| == 2 && |mi| == 2
    ensures var r := y + "-" + mo + "-" + da + "T" + h + ":" + mi;
      |r| == 16 && r[4] == '-' && r[7] == '-' && r[10] == 'T' && r[13] == ':'
      && r[..4] == y && r[5..7] == mo && r[8..10] == da && r[11..13] == h && r[14..] == mi
  {
    var r := y + "-" + mo + "-" + da + "T" + h + ":" + mi;
    assert r[..4] == y;
    assert r[5..7] == mo by { assert r[5] == mo[0] && r[6] == mo[1]; }
    assert r[8..10] == da by { assert r[8] == da[0] && r[9] == da[1]; }
    assert r[11..13] == h by { assert r[11] == h[0] && r[12] == h[1]; }
    assert r[14..] == mi by { assert r[14] == mi[0] && r[15] == mi[1]; }
  }

  /** A date with a four-digit year reads back field by field from its fixed positions. */
  lemma DatetimeLocalLayout(p: DateParts)
    requires 1000 <= p.year < 10000 && p.month < 12 && p.day < 100 && p.hours < 100 && p.minutes < 100
    ensures var r := ToInputDatetimeLocal(Some(p));
      |r| == 16 && r[4] == '-' && r[7] == '-' && r[10] == 'T' && r[13] == ':'
    ensures var r := ToInputDatetimeLocal(Some(p));
      |r| == 16 && AllDigits(r[..4]) && AllDigits(r[5..7]) && AllDigits(r[8..10]) && AllDigits(r[11..13]) && AllDigits(r[14..])
      && ParseDigits(r[..4]) == p.year && ParseDigits(r[5..7]) == p.month + 1 && ParseDigits(r[8..10]) == p.day
      && ParseDigits(r[11..13]) == p.hours && ParseDigits(r[14..]) == p.minutes
  {
    var y, mo, da, h, mi := NatToString(p.year), Pad2(p.month + 1), Pad2(p.day), Pad2(p.hours), Pad2(p.minutes);
    NatToStringLength(p.year);
    ParseNatToString(p.year);
    ParsePad2(p.month + 1);
    ParsePad2(p.day);
    ParsePad2(p.hours);
    ParsePad2(p.minutes);
    FieldPositions(y, mo, da, h, mi);
    assert ToInputDatetimeLocal(Some(p)) == y + "-" + mo + "-" + da + "T" + h + ":" + mi;
  }

  // ---------------------------------------------------------------- form values

  /**
   * An optional `datetime-local` field: never set (`undefined`), blank (a
   * falsy value other than `undefined`, such as the "" a cleared input hands
   * to `field.onChange`), or a date. `.optional()` skips only `undefined`;
   * the preprocess turns a blank value into `undefined` for `z.date()`, which
   * refuses it.
   */
  datatype DateInput = Unset | Blank | DateAt(t: int)

  /** One stop of the field array; coordinates are None while empty or null. */
  datatype StopValue = StopValue(location: string, lat: Option<int>, lng: Option<int>, arrivalTime: DateInput)

  datatype TrajetValues = TrajetValues(
    id: Option<string>,
    driverId: Option<string>,
    vehicleId: string,
    departure: string,
    departureLat: Option<int>,
    departureLng: Option<int>,
    destination: string,
    arrivalLat: Option<int>,
    arrivalLng: Option<int>,
    departureTime: Option<int>,
    estimatedArrival: DateInput,
    totalDistance: Option<int>,
    disposition: Option<string>,
    price: Option<int>,
    nbplaces: Option<int>,
    stops: seq<StopValue>)

  datatype TrajetField =
    | VehicleField | DepartureField | DepartureLatField | DepartureLngField
    | DestinationField | ArrivalLatField | ArrivalLngField | DepartureTimeField | EstimatedArrivalField
    | StopLocationField(k: nat) | StopLatField(k: nat) | StopLngField(k: nat) | StopArrivalField(k: nat)

  /** The messages the schema gives; the coordinate and date rules use the library's own wording. */
  function ErrorMessage(f: TrajetField): Option<string> {
    match f
    case VehicleField => Some("Véhicule requis")
    case DepartureField => Some("Lieu de départ requis")
    case DestinationField => Some("Destination requise")
    case StopLocationField(_) => Some("Lieu requis")
    case _ => None
  }

  const TopFields: set<TrajetField> :=
    {VehicleField, DepartureField, DepartureLatField, DepartureLngField, DestinationField,
     ArrivalLatField, ArrivalLngField, DepartureTimeField, EstimatedArrivalField}

  /** The rule of one top-level field. */
  predicate TopFails(v: TrajetValues, f: TrajetField) {
    match f
    case VehicleField => |v.vehicleId| < 1
    case DepartureField => |v.departure| < 1
    case DepartureLatField => v.departureLat.None?
    case DepartureLngField => v.departureLng.None?
    case DestinationField => |v.destination| < 1
    case ArrivalLatField => v.arrivalLat.None?
    case ArrivalLngField => v.arrivalLng.None?
    case DepartureTimeField => v.departureTime.None?
    case EstimatedArrivalField => v.estimatedArrival.Blank?
    case _ => false
  }

  /** The rule of any field: a top-level rule, or the rule of an existing stop's place, coordinate or arrival time. */
  predicate Fails(v: TrajetValues, f: TrajetField) {
    match f
    case StopLocationField(k) => k < |v.stops| && v.stops[k].location == ""
    case StopLatField(k) => k < |v.stops| && v.stops[k].lat.None?
    case StopLngField(k) => k < |v.stops| && v.stops[k].lng.None?
    case StopArrivalField(k) => k < |v.stops| && v.stops[k].arrivalTime.Blank?
    case _ => TopFails(v, f)
  }

  /** The fields of the stops `stopSchema` flags. */
  function StopErrors(v: TrajetValues): (errs: set<TrajetField>)
    ensures forall f :: f in errs <==> f !in TopFields && Fails(v, f)
  {
    (set k | 0 <= k < |v.stops| && v.stops[k].location == "" :: StopLocationField(k))
    + (set k | 0 <= k < |v.stops| && v.stops[k].lat.None? :: StopLatField(k))
    + (set k | 0 <= k < |v.stops| && v.stops[k].lng.None? :: StopLngField(k))
    + (set k | 0 <= k < |v.stops| && v.stops[k].arrivalTime.Blank? :: StopArrivalField(k))
  }

  /** The fields `trajetSchema` flags, stops included. */
  function TrajetErrors(v: TrajetValues): (errs: set<TrajetField>)
    ensures forall f :: f in errs <==> Fails(v, f)
  {
    (set f | f in TopFields && TopFails(v, f)) + StopErrors(v)
  }

  /** The rules of stop `k`, read off the flagged set one field at a time. */
  lemma StopRules(v: TrajetValues, k: nat)
    ensures StopLocationField(k) in TrajetErrors(v) <==> k < |v.stops| && v.stops[k].location == ""
    ensures StopLatField(k) in TrajetErrors(v) <==> k < |v.stops| && v.stops[k].lat.None?
    ensures StopLngField(k) in TrajetErrors(v) <==> k < |v.stops| && v.stops[k].lng.None?
    ensures StopArrivalField(k) in TrajetErrors(v) <==> k < |v.stops| && v.stops[k].arrivalTime.Blank?
  {
    var errs := TrajetErrors(v);
    assert StopLocationField(k) in errs <==> Fails(v, StopLocationField(k));
    assert StopLatField(k) in errs <==> Fails(v, StopLatField(k));
    assert StopLngField(k) in errs <==> Fails(v, StopLngField(k));
    assert StopArrivalField(k) in errs <==> Fails(v, StopArrivalField(k));
  }

  /**
   * Clearing the estimated arrival of an otherwise accepted form makes it
   * refused on that field alone, while never setting it is accepted.
   */
  lemma ClearedArrivalRefused(v: TrajetValues)
    requires TrajetErrors(v) == {}
    ensures TrajetErrors(v.(estimatedArrival := Blank)) == {EstimatedArrivalField}
    ensures TrajetErrors(v.(estimatedArrival := Unset)) == {}
  {
    var w := v.(estimatedArrival := Blank);
    forall f: TrajetField
      ensures Fails(w, f) <==> f == EstimatedArrivalField
    {
      assert !Fails(v, f);
    }
    var u := v.(estimatedArrival := Unset);
    forall f: TrajetField
      ensures !Fails(u, f)
    {
      assert !Fails(v, f);
    }
  }

  /**
   * Clearing the arrival time of stop `k` of an otherwise accepted form makes
   * it refused on that stop's arrival time alone.
   */
  lemma ClearedStopArrivalRefused(v: TrajetValues, k: nat)
    requires TrajetErrors(v) == {} && k < |v.stops|
    ensures TrajetErrors(v.(stops := v.stops[k := v.stops[k].(arrivalTime := Blank)])) == {StopArrivalField(k)}
  {
    var w := v.(stops := v.stops[k := v.stops[k].(arrivalTime := Blank)]);
    forall f: TrajetField
      ensures Fails(w, f) <==> f == StopArrivalField(k)
    {
      assert !Fails(v, f);
    }
  }

  /** A stop added with the button (empty place, coordinates 0) is refused until a place is chosen, and only for that. */
  lemma NewStopNeedsPlace(v: TrajetValues, k: nat)
    requires k < |v.stops| && v.stops[k] == StopValue("", Some(0), Some(0), Unset)
    ensures StopLocationField(k) in TrajetErrors(v)
    ensures StopLatField(k) !in TrajetErrors(v)
  {
  }

  /**
   * `defaultValues`: without an initial value, an empty driver id, vehicle,
   * departure and destination and no stop, every other field unset; an
   * initial value replaces them all, since the page's edit value gives every
   * key but the total distance, which is unset either way.
   */
  function Defaults(init: Option<TrajetValues>): (v: TrajetValues)
    ensures init.Some? ==> v == init.value
    ensures init.None? ==> v.driverId == Some("") && v.vehicleId == "" && v.departure == "" && v.destination == "" && v.stops == []
    ensures init.None? ==> v.id.None? && v.departureLat.None? && v.departureLng.None? && v.arrivalLat.None? && v.arrivalLng.None?
    ensures init.None? ==> v.departureTime.None? && v.estimatedArrival.Unset? && v.totalDistance.None?
    ensures init.None? ==> v.disposition.None? && v.price.None? && v.nbplaces.None?
  {
    if init.Some? then init.value
    else TrajetValues(None, Some(""), "", "", None, None, "", None, None, None, Unset, None, None, None, None, [])
  }

  /**
   * A new trip's blank form is refused on the vehicle, both places, the four
   * coordinates and the departure time, and on nothing else.
   */
  lemma BlankFormErrors()
    ensures TrajetErrors(Defaults(None)) == TopFields - {EstimatedArrivalField}
  {
    var v := Defaults(None);
    forall f: TrajetField
      ensures Fails(v, f) <==> f in TopFields - {EstimatedArrivalField}
    {
    }
  }

  // ---------------------------------------------------------------- segments

  /** A route leg; `stopIndex` names the stop it arrives at, None for the destination leg. */
  datatype Segment = Segment(origin: Coord, dest: Coord, stopIndex: Option<nat>)

  /** `stop.latitude != null && stop.longitude != null`: 0 counts as a coordinate here. */
  predicate HasCoords(s: StopValue) {
    s.lat.Some? && s.lng.Some?
  }

  /** A number in a JavaScript condition: present and not 0. */
  predicate Truthy(n: Option<int>) {
    n.Some? && n.value != 0
  }

  /**
   * The stop legs from `last` through the stops that have coordinates, with
   * indices counted from `base`, and the point where the walk ends.
   */
  function Walk(last: Coord, stops: seq<StopValue>, base: nat): (r: (seq<Segment>, Coord))
    ensures |r.0| <= |stops|
    decreases stops
  {
    if stops == [] then ([], last)
    else if HasCoords(stops[0]) then
      var c := Coord(stops[0].lat.value, stops[0].lng.value);
      var rest := Walk(c, stops[1..], base + 1);
      ([Segment(last, c, Some(base))] + rest.0, rest.1)
    else Walk(last, stops[1..], base + 1)
  }

  /** The legs the effect builds: the stop legs, then the destination leg when both arrival coordinates are truthy. */
  function Segments(dep: Coord, stops: seq<StopValue>, arrivalLat: Option<int>, arrivalLng: Option<int>): seq<Segment> {
    var w := Walk(dep, stops, 0);
    w.0 + (if Truthy(arrivalLat) && Truthy(arrivalLng) then [Segment(w.1, Coord(arrivalLat.value, arrivalLng.value), None)] else [])
  }

  /** Each leg starts where the previous one ended, the first one at `start`. */
  predicate Chained(start: Coord, segs: seq<Segment>) {
    (segs != [] ==> segs[0].origin == start)
    && forall i :: 0 <= i < |segs| - 1 ==> segs[i + 1].origin == segs[i].dest
  }

  /** The number of stops that have both coordinates. */
  function CountWithCoords(stops: seq<StopValue>): nat {
    if stops == [] then 0 else (if HasCoords(stops[0]) then 1 else 0) + CountWithCoords(stops[1..])
  }

  /** The walk is a chain from `last` that ends where its last leg ends. */
  lemma {:induction false} WalkChained(last: Coord, stops: seq<StopValue>, base: nat)
    ensures Chained(last, Walk(last, stops, base).0)
    ensures Walk(last, stops, base).0 == [] ==> Walk(last, stops, base).1 == last
    ensures Walk(last, stops, base).0 != [] ==> Walk(last, stops, base).1 == Walk(last, stops, base).0[|Walk(last, stops, base).0| - 1].dest
    decreases stops
  {
    if stops != [] {
      if HasCoords(stops[0]) {
        var c := Coord(stops[0].lat.value, stops[0].lng.value);
        WalkChained(c, stops[1..], base + 1);
        var rest := Walk(c, stops[1..], base + 1).0;
        var all := [Segment(last, c, Some(base))] + rest;
        assert forall i :: 1 <= i < |all| ==> all[i] == rest[i - 1];
      } else {
        WalkChained(last, stops[1..], base + 1);
      }
    }
  }

  /** The walk has one leg per stop with coordinates. */
  lemma {:induction false} WalkCount(last: Coord, stops: seq<StopValue>, base: nat)
    ensures |Walk(last, stops, base).0| == CountWithCoords(stops)
    decreases stops
  {
    if stops != [] {
      if HasCoords(stops[0]) {
        WalkCount(Coord(stops[0].lat.value, stops[0].lng.value), stops[1..], base + 1);
      } else {
        WalkCount(last, stops[1..], base + 1);
      }
    }
  }

  /** A leg of the walk targets a stop. */
  predicate LegOfStop(seg: Segment, stops: seq<StopValue>, base: nat) {
    seg.stopIndex.Some? && base <= seg.stopIndex.value < base + |stops|
    && HasCoords(stops[seg.stopIndex.value - base])
    && seg.dest == Coord(stops[seg.stopIndex.value - base].lat.value, stops[seg.stopIndex.value - base].lng.value)
  }

  /** Every leg of the walk names a stop with coordinates and arrives at that stop's coordinates. */
  lemma {:induction false} WalkLegsTargetStops(last: Coord, stops: seq<StopValue>, base: nat)
    ensures forall seg :: seg in Walk(last, stops, base).0 ==> LegOfStop(seg, stops, base)
    decreases stops
  {
    if stops != [] {
      var next := if HasCoords(stops[0]) then Coord(stops[0].lat.value, stops[0].lng.value) else last;
      WalkLegsTargetStops(next, stops[1..], base + 1);
      forall seg | seg in Walk(next, stops[1..], base + 1).0
        ensures LegOfStop(seg, stops, base)
      {
        assert LegOfStop(seg, stops[1..], base + 1);
        assert stops[seg.stopIndex.value - base] == stops[1..][seg.stopIndex.value - (base + 1)];
      }
    }
  }

  /**
   * The full route is a chain from the departure; it has one leg per stop with
   * coordinates plus the destination leg exactly when both arrival
   * coordinates are truthy, and only that last leg targets the destination.
   */
  lemma SegmentsShape(dep: Coord, stops: seq<StopValue>, arrivalLat: Option<int>, arrivalLng: Option<int>)
    ensures Chained(dep, Segments(dep, stops, arrivalLat, arrivalLng))
    ensures |Segments(dep, stops, arrivalLat, arrivalLng)| == CountWithCoords(stops) + (if Truthy(arrivalLat) && Truthy(arrivalLng) then 1 else 0)
    ensures forall i :: 0 <= i < |Segments(dep, stops, arrivalLat, arrivalLng)| ==>
      (Segments(dep, stops, arrivalLat, arrivalLng)[i].stopIndex.None? <==> Truthy(arrivalLat) && Truthy(arrivalLng) && i == CountWithCoords(stops))
  {
    WalkChained(dep, stops, 0);
    WalkCount(dep, stops, 0);
    WalkLegsTargetStops(dep, stops, 0);
    var w := Walk(dep, stops, 0);
    var segs := Segments(dep, stops, arrivalLat, arrivalLng);
    assert forall i :: 0 <= i < |w.0| ==> segs[i] == w.0[i] && w.0[i] in w.0;
  }

  /** A destination with a 0 coordinate (on the equator or the Greenwich meridian) gets no final leg. */
  lemma ZeroArrivalSkipped(dep: Coord, stops: seq<StopValue>, arrivalLng: Option<int>)
    ensures Segments(dep, stops, Some(0), arrivalLng) == Walk(dep, stops, 0).0
  {
  }

  /** `watchStops.forEach` and the final push, as the effect runs them. */
  method BuildSegments(dep: Coord, stops: seq<StopValue>, arrivalLat: Option<int>, arrivalLng: Option<int>) returns (segs: seq<Segment>)
    ensures segs == Segments(dep, stops, arrivalLat, arrivalLng)
  {
    segs := [];
    var last := dep;
    var i := 0;
    while i < |stops|
      invariant 0 <= i <= |stops|
      invariant segs + Walk(last, stops[i..], i).0 == Walk(dep, stops, 0).0
      invariant Walk(last, stops[i..], i).1 == Walk(dep, stops, 0).1
    {
      assert stops[i..][1..] == stops[i + 1..];
      if stops[i].lat.Some? && stops[i].lng.Some? {
        var c := Coord(stops[i].lat.value, stops[i].lng.value);
        segs := segs + [Segment(last, c, Some(i))];
        last := c;
      }
      i := i + 1;
    }
    assert stops[..] == stops[0..];
    if Truthy(arrivalLat) && Truthy(arrivalLng) {
      segs := segs + [Segment(last, Coord(arrivalLat.value, arrivalLng.value), None)];
    }
  }

  // ---------------------------------------------------------------- distances and times

  /** The service's answer for a leg: metres, or None when it is not "OK". */
  type DistanceService = (Coord, Coord) -> Option<nat>

  /** What `processSegment` has accumulated: metres, the running time, the times set on stops and on the destination. */
  datatype Progress = Progress(meters: nat, time: int, stopTimes: map<nat, int>, arrival: Option<int>)

  /**
   * `processSegment(i)` for the remaining legs: a successful leg adds its
   * distance, advances the time by 30 ms per metre and writes that time on its
   * stop or on the estimated arrival; a failed leg is skipped.
   */
  function Process(segs: seq<Segment>, dist: DistanceService, p: Progress): Progress {
    if segs == [] then p else Process(segs[1..], dist, Step(segs[0], dist, p))
  }

  /** The service's callback for one leg. */
  function Step(seg: Segment, dist: DistanceService, p: Progress): (q: Progress)
    ensures dist(seg.origin, seg.dest).None? ==> q == p
    ensures dist(seg.origin, seg.dest).Some? ==>
      q.meters == p.meters + dist(seg.origin, seg.dest).value && q.time == p.time + dist(seg.origin, seg.dest).value * MsPerMetre
    ensures dist(seg.origin, seg.dest).Some? && seg.stopIndex.Some? ==> q.stopTimes == p.stopTimes[seg.stopIndex.value := q.time] && q.arrival == p.arrival
    ensures dist(seg.origin, seg.dest).Some? && seg.stopIndex.None? ==> q.stopTimes == p.stopTimes && q.arrival == Some(q.time)
  {
    var d := dist(seg.origin, seg.dest);
    if d.None? then p
    else
      var t := p.time + d.value * MsPerMetre;
      if seg.stopIndex.Some? then Progress(p.meters + d.value, t, p.stopTimes[seg.stopIndex.value := t], p.arrival)
      else Progress(p.meters + d.value, t, p.stopTimes, Some(t))
  }

  /** The sum of the distances of the legs the service answered. */
  function SuccessfulMeters(segs: seq<Segment>, dist: DistanceService): nat {
    if segs == [] then 0
    else (var d := dist(segs[0].origin, segs[0].dest); if d.Some? then d.value else 0) + SuccessfulMeters(segs[1..], dist)
  }

  /**
   * The total is the sum of the answered legs, and the clock has advanced by
   * exactly 30 ms per metre of that total.
   */
  lemma {:induction false} ProcessTotals(segs: seq<Segment>, dist: DistanceService, p: Progress)
    ensures Process(segs, dist, p).meters == p.meters + SuccessfulMeters(segs, dist)
    ensures Process(segs, dist, p).time == p.time + MsPerMetre * SuccessfulMeters(segs, dist)
  {
    SpeedConstants();
    if segs != [] {
      var next := Step(segs[0], dist, p);
      ProcessTotals(segs[1..], dist, next);
    }
  }

  /** Times are written in route order: every stop time and the arrival are at or after the running time. */
  lemma {:induction false} ProcessTimesAfterStart(segs: seq<Segment>, dist: DistanceService, p: Progress)
    requires forall k :: k in p.stopTimes ==> p.stopTimes[k] <= p.time
    requires p.arrival.Some? ==> p.arrival.value <= p.time
    ensures var q := Process(segs, dist, p);
      (forall k :: k in q.stopTimes ==> q.stopTimes[k] <= q.time)
      && (q.arrival.Some? ==> q.arrival.value <= q.time) && q.time >= p.time
    ensures var q := Process(segs, dist, p);
      forall k :: k in q.stopTimes ==> (k in p.stopTimes && q.stopTimes[k] == p.stopTimes[k]) || q.stopTimes[k] >= p.time
  {
    if segs != [] {
      var next := Step(segs[0], dist, p);
      ProcessTimesAfterStart(segs[1..], dist, next);
    }
  }

  /** When the service answers no leg, nothing is written and the total stays as it was. */
  lemma {:induction false} AllLegsFail(segs: seq<Segment>, dist: DistanceService, p: Progress)
    requires forall i :: 0 <= i < |segs| ==> dist(segs[i].origin, segs[i].dest).None?
    ensures Process(segs, dist, p) == p
  {
    if segs != [] {
      assert forall i :: 0 <= i < |segs[1..]| ==> segs[1..][i] == segs[i + 1];
      AllLegsFail(segs[1..], dist, p);
    }
  }

  /** Only the destination leg writes the estimated arrival: a route of stop legs leaves it as it was. */
  lemma {:induction false} StopLegsKeepArrival(segs: seq<Segment>, dist: DistanceService, p: Progress)
    requires forall i :: 0 <= i < |segs| ==> segs[i].stopIndex.Some?
    ensures Process(segs, dist, p).arrival == p.arrival
  {
    if segs != [] {
      var next := Step(segs[0], dist, p);
      assert forall i :: 0 <= i < |segs[1..]| ==> segs[1..][i] == segs[i + 1];
      StopLegsKeepArrival(segs[1..], dist, next);
    }
  }

  /**
   * The effect's guard: the map is loaded, departure coordinates are truthy
   * and a departure time is set, and there is a truthy arrival latitude or at
   * least one stop.
   */
  predicate ShouldCompute(isLoaded: bool, v: TrajetValues) {
    isLoaded && Truthy(v.departureLat) && Truthy(v.departureLng) && v.departureTime.Some?
    && (Truthy(v.arrivalLat) || |v.stops| > 0)
  }

  /** A departure on the equator (latitude 0) never triggers the computation. */
  lemma EquatorDepartureIgnored(isLoaded: bool, v: TrajetValues)
    requires v.departureLat == Some(0)
    ensures !ShouldCompute(isLoaded, v)
  {
  }

  /** Writes the stop times the computation produced onto the stops. */
  function WithStopTimes(stops: seq<StopValue>, times: map<nat, int>): (r: seq<StopValue>)
    ensures |r| == |stops|
    ensures forall k :: 0 <= k < |stops| && k in times ==> r[k] == stops[k].(arrivalTime := DateAt(times[k]))
    ensures forall k :: 0 <= k < |stops| && k !in times ==> r[k] == stops[k]
  {
    seq(|stops|, k requires 0 <= k < |stops| => if k in times then stops[k].(arrivalTime := DateAt(times[k])) else stops[k])
  }

  // ---------------------------------------------------------------- payload

  /**
   * The payload `submitHandler` sends: the values with the signed-in user's id
   * as `driverId` and a total distance of 0 when none was computed.
   */
  function Payload(d: TrajetValues, userId: string): (r: TrajetValues)
    ensures r.driverId == Some(userId)
    ensures r.totalDistance.Some? && (d.totalDistance.None? ==> r.totalDistance == Some(0))
    ensures r.stops == d.stops && r.id == d.id && r.vehicleId == d.vehicleId
    ensures r.departureTime == d.departureTime && r.estimatedArrival == d.estimatedArrival
    ensures r.(driverId := d.driverId, totalDistance := d.totalDistance) == d
  {
    d.(driverId := Some(userId), totalDistance := Some(d.totalDistance.GetOr(0)))
  }

  /** The typed driver id never reaches the server: only the signed-in user's id does. */
  lemma PayloadIgnoresTypedDriver(d: TrajetValues, userId: string, typed: string)
    ensures Payload(d.(driverId := Some(typed)), userId) == Payload(d, userId)
  {
  }

  class Form {
    var values: TrajetValues

    /** `useForm` with its `defaultValues` under the initial value. */
    constructor(init: Option<TrajetValues>)
      ensures values == Defaults(init)
    {
      values := Defaults(init);
    }

    /**
     * The "Estimation d'arrivée" input: a typed date, or None when the input
     * is cleared and hands "" to the form.
     */
    method EstimatedArrivalInput(typed: Option<int>)
      modifies this
      ensures typed.Some? ==> values == old(values).(estimatedArrival := DateAt(typed.value))
      ensures typed.None? ==> values == old(values).(estimatedArrival := Blank)
    {
      values := values.(estimatedArrival := if typed.Some? then DateAt(typed.value) else Blank);
    }

    /** The arrival input of the rendered stop `idx`: a typed date, or None when cleared. */
    method StopArrivalInput(idx: nat, typed: Option<int>)
      requires idx < |values.stops|
      modifies this
      ensures typed.Some? ==> values == old(values).(stops := old(values).stops[idx := old(values).stops[idx].(arrivalTime := DateAt(typed.value))])
      ensures typed.None? ==> values == old(values).(stops := old(values).stops[idx := old(values).stops[idx].(arrivalTime := Blank)])
    {
      values := values.(stops := values.stops[idx := values.stops[idx].(arrivalTime := if typed.Some? then DateAt(typed.value) else Blank)]);
    }

    /** The "add a stop" button: an empty place at coordinates 0. */
    method AddStop()
      modifies this
      ensures values == old(values).(stops := old(values).stops + [StopValue("", Some(0), Some(0), Unset)])
    {
      values := values.(stops := values.stops + [StopValue("", Some(0), Some(0), Unset)]);
    }

    /** `removeStop(idx)`: the other stops keep their order; an index past the end removes nothing. */
    method RemoveStop(idx: nat)
      modifies this
      ensures idx < |old(values).stops| ==> values == old(values).(stops := old(values).stops[..idx] + old(values).stops[idx + 1..])
      ensures idx >= |old(values).stops| ==> values == old(values)
    {
      if idx < |values.stops| {
        values := values.(stops := values.stops[..idx] + values.stops[idx + 1..]);
      }
    }

    /**
     * The distance effect, run to completion: when the guard holds, the legs
     * are built and processed in order from the departure time; the total is
     * set, each answered stop leg sets its stop's time and an answered
     * destination leg sets the estimated arrival. Otherwise nothing changes.
     */
    method Recompute(isLoaded: bool, dist: DistanceService)
      modifies this
      ensures !ShouldCompute(isLoaded, old(values)) ==> values == old(values)
      ensures ShouldCompute(isLoaded, old(values)) ==>
        var v := old(values);
        var q := Process(Segments(Coord(v.departureLat.value, v.departureLng.value), v.stops, v.arrivalLat, v.arrivalLng),
                         dist, Progress(0, v.departureTime.value, map[], None));
        values == v.(totalDistance := Some(q.meters), stops := WithStopTimes(v.stops, q.stopTimes),
                     estimatedArrival := if q.arrival.Some? then DateAt(q.arrival.value) else v.estimatedArrival)
    {
      if !ShouldCompute(isLoaded, values) {
        return;
      }
      var v := values;
      var segs := BuildSegments(Coord(v.departureLat.value, v.departureLng.value), v.stops, v.arrivalLat, v.arrivalLng);
      var q := Process(segs, dist, Progress(0, v.departureTime.value, map[], None));
      values := v.(totalDistance := Some(q.meters), stops := WithStopTimes(v.stops, q.stopTimes),
                   estimatedArrival := if q.arrival.Some? then DateAt(q.arrival.value) else v.estimatedArrival);
    }

    /**
     * Submitting: values the rules refuse are not sent; without a signed-in
     * user nothing is sent either; otherwise the payload is.
     */
    method Submit(user: Option<User>) returns (sent: Option<TrajetValues>)
      ensures TrajetErrors(values) != {} || user.None? ==> sent.None?
      ensures TrajetErrors(values) == {} && user.Some? ==> sent == Some(Payload(values, user.value.id))
    {
      if TrajetErrors(values) != {} || user.None? {
        return None;
      }
      sent := Some(Payload(values, user.value.id));
    }
  }
}
