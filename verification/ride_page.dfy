/**
 * The booking page of `app/ride/page.tsx`: the search guard and query, the
 * trip selection that moves the driver marker, the fare effect, the order sent
 * on confirmation and what a 201 answer resets, and the clamped page moves of
 * the result list.
 */
module RidePage {
  import opened Wrappers
  import opened Interfaces
  import Pagination
  import VehicleTypeName

  /** The query `handleRechercher` sends: coordinates only where a location is known. */
  datatype SearchQuery = SearchQuery(
    depart: string,
    destination: string,
    departureLat: Option<int>,
    departureLng: Option<int>,
    destinationLat: Option<int>,
    destinationLng: Option<int>,
    page: int,
    limit: nat)

  /** The `data` of a search answer: the rows (possibly missing) and the total. */
  datatype SearchData = SearchData(rows: Option<seq<Trajet>>, total: nat)

  /** The order `handleConfirmerCommande` sends. */
  datatype CommandeDto = CommandeDto(userId: string, trajetId: string, typeId: string, price: int, status: string)

  /** A search is issued only when both the departure and the destination are filled in. */
  function BuildQuery(depart: string, destination: string, user: Option<Coord>, dest: Option<Coord>, page: int, limit: nat): (q: Option<SearchQuery>)
    ensures q.Some? <==> depart != "" && destination != ""
    ensures q.Some? ==> q.value.depart == depart && q.value.destination == destination
    ensures q.Some? ==> q.value.page == page && q.value.limit == limit
    ensures q.Some? ==> (q.value.departureLat.Some? <==> user.Some?) && (q.value.departureLng.Some? <==> user.Some?)
    ensures q.Some? && user.Some? ==> q.value.departureLat == Some(user.value.lat) && q.value.departureLng == Some(user.value.lng)
    ensures q.Some? ==> (q.value.destinationLat.Some? <==> dest.Some?) && (q.value.destinationLng.Some? <==> dest.Some?)
    ensures q.Some? && dest.Some? ==> q.value.destinationLat == Some(dest.value.lat) && q.value.destinationLng == Some(dest.value.lng)
  {
    if depart == "" || destination == "" then None
    else
      var base := SearchQuery(depart, destination, None, None, None, None, page, limit);
      var withUser := if user.Some? then base.(departureLat := Some(user.value.lat), departureLng := Some(user.value.lng)) else base;
      Some(if dest.Some? then withUser.(destinationLat := Some(dest.value.lat), destinationLng := Some(dest.value.lng)) else withUser)
  }

  /** The price of the chosen vehicle type, 0 when no type has that id. */
  function TypePrice(types: seq<VehicleType>, typeId: string): (p: int)
    ensures VehicleTypeName.Find(types, typeId).None? ==> p == 0
    ensures VehicleTypeName.Find(types, typeId).Some? ==> p == VehicleTypeName.Find(types, typeId).value.price
  {
    match VehicleTypeName.Find(types, typeId)
    case None => 0
    case Some(t) => t.price
  }

  /** The fare: (trip price + type price) × places. */
  function Fare(tripPrice: int, types: seq<VehicleType>, typeId: string, places: int): int {
    (tripPrice + TypePrice(types, typeId)) * places
  }

  /** Each extra place adds one trip-plus-type price to the fare. */
  lemma FarePerPlace(tripPrice: int, types: seq<VehicleType>, typeId: string, places: int)
    ensures Fare(tripPrice, types, typeId, places + 1) == Fare(tripPrice, types, typeId, places) + tripPrice + TypePrice(types, typeId)
    ensures Fare(tripPrice, types, typeId, 1) == tripPrice + TypePrice(types, typeId)
  {
    var unit := tripPrice + TypePrice(types, typeId);
    assert unit * (places + 1) == unit * places + unit;
  }

  /** With an unknown type the fare is the trip price times the places. */
  lemma UnknownTypeFare(tripPrice: int, types: seq<VehicleType>, typeId: string, places: int)
    requires forall j :: 0 <= j < |types| ==> types[j].id != typeId
    ensures Fare(tripPrice, types, typeId, places) == tripPrice * places
  {
  }

  /** The order for a trip: same price formula as the fare, status PENDING, "standard" for an unknown type. */
  function OrderFor(userId: string, trip: Trajet, types: seq<VehicleType>, typeId: string, places: int): (dto: CommandeDto)
    ensures dto.price == Fare(trip.price, types, typeId, places)
    ensures dto.status == CommandeStatus.PENDING.Name()
    ensures dto.userId == userId && dto.trajetId == trip.id
    ensures VehicleTypeName.Find(types, typeId).None? ==> dto.typeId == "standard"
    ensures VehicleTypeName.Find(types, typeId).Some? ==> dto.typeId == typeId
  {
    var selectedType := VehicleTypeName.Find(types, typeId);
    CommandeDto(userId, trip.id,
      if selectedType.Some? then selectedType.value.id else "standard",
      (trip.price + (if selectedType.Some? then selectedType.value.price else 0)) * places,
      "PENDING")
  }

  /** The result list's Précédent: `Math.max(prev - 1, 1)`. */
  function RidePrevious(p: int): (r: int)
    ensures r >= 1
    ensures p > 1 ==> r == p - 1
  {
    Pagination.Max(p - 1, 1)
  }

  /** The result list's Suivant: `Math.min(prev + 1, Math.ceil(totalItems / limit))`. */
  function RideNext(p: int, total: nat, limit: nat): (r: int)
    requires limit > 0
    ensures r <= Pagination.TotalPages(total, limit)
    ensures p < Pagination.TotalPages(total, limit) ==> r == p + 1
    ensures total == 0 ==> (p >= 0 ==> r == 0)
  {
    Pagination.Min(p + 1, Pagination.TotalPages(total, limit))
  }

  /** Inside the page range, Suivant moves on exactly when a later page exists, and never leaves the range. */
  lemma RideNextInRange(p: int, total: nat, limit: nat)
    requires limit > 0 && 1 <= p <= Pagination.TotalPages(total, limit)
    ensures 1 <= RideNext(p, total, limit) <= Pagination.TotalPages(total, limit)
    ensures RideNext(p, total, limit) == p <==> p == Pagination.TotalPages(total, limit)
  {
  }

  class Page {
    const limit: nat
    var depart: string
    var destination: string
    var typeTrajet: string
    var userLocation: Option<Coord>
    var destinationLocation: Option<Coord>
    var trajets: seq<Trajet>
    var selected: Option<Trajet>
    var places: int
    var tarif: int
    var openConfirm: bool
    var driverPosition: Option<Coord>
    var currentPage: int
    var totalItems: nat
    var vehicleTypes: seq<VehicleType>
    var userId: string

    ghost predicate Valid()
      reads this
    {
      limit == 10
    }

    constructor()
      ensures Valid()
      ensures depart == "" && destination == "" && typeTrajet == "standard"
      ensures userLocation.None? && destinationLocation.None? && trajets == [] && selected.None?
      ensures places == 1 && tarif == 0 && !openConfirm && driverPosition.None?
      ensures currentPage == 1 && totalItems == 0 && vehicleTypes == [] && userId == ""
    {
      limit := 10;
      depart, destination, typeTrajet := "", "", "standard";
      userLocation, destinationLocation := None, None;
      trajets, selected := [], None;
      places, tarif, openConfirm, driverPosition := 1, 0, false, None;
      currentPage, totalItems := 1, 0;
      vehicleTypes, userId := [], "";
    }

    /** The search inputs as the user typed them and the locations the map resolved. */
    method SetInputs(depart: string, destination: string, userLocation: Option<Coord>, destinationLocation: Option<Coord>)
      requires Valid()
      modifies this`depart, this`destination, this`userLocation, this`destinationLocation
      ensures this.depart == depart && this.destination == destination
      ensures this.userLocation == userLocation && this.destinationLocation == destinationLocation
    {
      this.depart, this.destination := depart, destination;
      this.userLocation, this.destinationLocation := userLocation, destinationLocation;
    }

    /**
     * `demanderGeolocalisation` once the browser answered with a position: the
     * position becomes the user's location and the driver marker, the departure
     * reads "Position actuelle", and the simulated destination lies 0.01 degree
     * north and east of it. `hundredth` is 0.01 degree in the fixed-point unit
     * of a coordinate; the one-second delay is not modelled.
     */
    method Geolocated(location: Coord, hundredth: int)
      requires Valid()
      modifies this`depart, this`userLocation, this`driverPosition, this`destinationLocation
      ensures Valid()
      ensures userLocation == Some(location) && driverPosition == Some(location) && depart == "Position actuelle"
      ensures destinationLocation == Some(Coord(location.lat + hundredth, location.lng + hundredth))
      ensures destination == old(destination)
    {
      userLocation, driverPosition := Some(location), Some(location);
      depart := "Position actuelle";
      destinationLocation := Some(Coord(location.lat + hundredth, location.lng + hundredth));
    }

    /** A successful `getAllVehicleTypesList` and the logged-in user's id. */
    method Loaded(types: seq<VehicleType>, userId: string)
      requires Valid()
      modifies this`vehicleTypes, this`userId
      ensures vehicleTypes == types && this.userId == userId
    {
      vehicleTypes, this.userId := types, userId;
    }

    /** The fare effect: with a selected trip the fare is recomputed, otherwise it stays. */
    method RecomputeFare()
      requires Valid()
      modifies this`tarif
      ensures selected.Some? ==> tarif == Fare(selected.value.price, vehicleTypes, typeTrajet, places)
      ensures selected.None? ==> tarif == old(tarif)
    {
      if selected.None? {
        return;
      }
      var selectedType := VehicleTypeName.Find(vehicleTypes, typeTrajet);
      var prixType := if selectedType.Some? then selectedType.value.price else 0;
      tarif := (selected.value.price + prixType) * places;
    }

    /**
     * `handleRechercher`: nothing happens unless both fields are filled in;
     * otherwise the query is sent and an answer with data replaces the rows
     * (missing rows read as none) and the total.
     */
    method Search(answer: Option<SearchData>) returns (q: Option<SearchQuery>)
      requires Valid()
      modifies this`trajets, this`totalItems
      ensures q == BuildQuery(depart, destination, userLocation, destinationLocation, currentPage, limit)
      ensures q.Some? && answer.Some? ==> trajets == answer.value.rows.GetOr([]) && totalItems == answer.value.total
      ensures q.None? || answer.None? ==> trajets == old(trajets) && totalItems == old(totalItems)
    {
      if depart == "" || destination == "" {
        return None;
      }
      var query := SearchQuery(depart, destination, None, None, None, None, currentPage, limit);
      if userLocation.Some? {
        query := query.(departureLat := Some(userLocation.value.lat), departureLng := Some(userLocation.value.lng));
      }
      if destinationLocation.Some? {
        query := query.(destinationLat := Some(destinationLocation.value.lat), destinationLng := Some(destinationLocation.value.lng));
      }
      q := Some(query);
      if answer.Some? {
        trajets := if answer.value.rows.Some? then answer.value.rows.value else [];
        totalItems := answer.value.total;
      }
    }

    /**
     * `selecteTrajets(val)` and the fare effect it triggers: a trip with
     * departure coordinates moves the driver marker there; otherwise the marker stays.
     */
    method SelectTrip(val: Option<Trajet>)
      requires Valid()
      modifies this`selected, this`driverPosition, this`tarif
      ensures selected == val
      ensures val.Some? && val.value.departureGPS.Some? ==> driverPosition == val.value.departureGPS
      ensures val.None? || val.value.departureGPS.None? ==> driverPosition == old(driverPosition)
      ensures val.Some? ==> tarif == Fare(val.value.price, vehicleTypes, typeTrajet, places)
      ensures val.None? ==> tarif == old(tarif)
    {
      selected := val;
      if val.Some? && val.value.departureGPS.Some? {
        driverPosition := val.value.departureGPS;
      }
      RecomputeFare();
    }

    /** Changing the number of places, then the fare effect. */
    method SetPlaces(n: int)
      requires Valid()
      modifies this`places, this`tarif
      ensures places == n
      ensures selected.Some? ==> tarif == Fare(selected.value.price, vehicleTypes, typeTrajet, n)
      ensures selected.None? ==> tarif == old(tarif)
    {
      places := n;
      RecomputeFare();
    }

    /** Changing the vehicle type, then the fare effect. */
    method SetType(t: string)
      requires Valid()
      modifies this`typeTrajet, this`tarif
      ensures typeTrajet == t
      ensures selected.Some? ==> tarif == Fare(selected.value.price, vehicleTypes, t, places)
      ensures selected.None? ==> tarif == old(tarif)
    {
      typeTrajet := t;
      RecomputeFare();
    }

    /**
     * `handleConfirmerCommande`: nothing without a selected trip; otherwise the
     * order is sent, and a 201 answer closes the dialog, clears the selection
     * and resets places to 1 (the fare is left as it was).
     */
    /** `handleReserver`: the "Réserver" button, shown only with a selected trip, opens the booking dialog. */
    method Reserve()
      requires Valid() && selected.Some?
      modifies this`openConfirm
      ensures Valid() && openConfirm
    {
      openConfirm := true;
    }

    /** The dialog's `onOpenChange` on dismissal and its "Annuler" button close it; the selection stays. */
    method CloseConfirm()
      requires Valid()
      modifies this`openConfirm
      ensures Valid() && !openConfirm
    {
      openConfirm := false;
    }

    method Confirm(statusCode: int) returns (dto: Option<CommandeDto>)
      requires Valid()
      modifies this`openConfirm, this`selected, this`places
      ensures old(selected).None? ==> dto.None? && selected == old(selected) && places == old(places) && openConfirm == old(openConfirm)
      ensures old(selected).Some? ==> dto == Some(OrderFor(userId, old(selected).value, vehicleTypes, typeTrajet, old(places)))
      ensures old(selected).Some? && statusCode == 201 ==> !openConfirm && selected.None? && places == 1
      ensures old(selected).Some? && statusCode != 201 ==> openConfirm == old(openConfirm) && selected == old(selected) && places == old(places)
    {
      if selected.None? {
        return None;
      }
      var selectedType := VehicleTypeName.Find(vehicleTypes, typeTrajet);
      dto := Some(CommandeDto(userId, selected.value.id,
        if selectedType.Some? then selectedType.value.id else "standard",
        (selected.value.price + (if selectedType.Some? then selectedType.value.price else 0)) * places,
        "PENDING"));
      if statusCode == 201 {
        openConfirm := false;
        selected := None;
        places := 1;
      }
    }

    /** The list's Précédent. */
    method PreviousPage()
      requires Valid()
      modifies this`currentPage
      ensures currentPage == RidePrevious(old(currentPage))
    {
      currentPage := if currentPage - 1 >= 1 then currentPage - 1 else 1;
    }

    /** The list's Suivant. */
    method NextPage()
      requires Valid()
      modifies this`currentPage
      ensures currentPage == RideNext(old(currentPage), totalItems, limit)
    {
      var totalPages := (totalItems + limit - 1) / limit;
      currentPage := if currentPage + 1 <= totalPages then currentPage + 1 else totalPages;
    }
  }
}
