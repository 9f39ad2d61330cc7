/**
 * The driver dashboard of `app/dashboard/driver/page.tsx`: reserved places and
 * seat count of a trip, the three statistics, the trip selection toggle, the
 * hand-written pagination bar with its "start-end sur total" range, and the
 * rule for the start button.
 */
module DriverDashboard {
  import opened Wrappers
  import opened Text
  import opened Interfaces
  import Pagination
  import CommandesPage

  /** An order holds a place while it is CONFIRMED or PENDING. */
  predicate HoldsPlace(c: Commande) {
    c.status == CommandeStatus.CONFIRMED.Name() || c.status == CommandeStatus.PENDING.Name()
  }

  /** The number of orders of `cs` that hold a place. */
  function CountHolding(cs: seq<Commande>): (n: nat)
    ensures n <= |cs|
  {
    if cs == [] then 0 else (if HoldsPlace(cs[0]) then 1 else 0) + CountHolding(cs[1..])
  }

  lemma {:induction false} CountHoldingAppend(a: seq<Commande>, b: seq<Commande>)
    ensures CountHolding(a + b) == CountHolding(a) + CountHolding(b)
  {
    if a == [] {
      assert a + b == b;
    } else {
      assert (a + b)[1..] == a[1..] + b;
      CountHoldingAppend(a[1..], b);
    }
  }

  /** Every order holds a place exactly when the count equals the list length. */
  lemma {:induction false} CountHoldingAll(cs: seq<Commande>)
    ensures CountHolding(cs) == |cs| <==> forall i :: 0 <= i < |cs| ==> HoldsPlace(cs[i])
  {
    if cs != [] {
      CountHoldingAll(cs[1..]);
      assert forall i :: 1 <= i < |cs| ==> cs[i] == cs[1..][i - 1];
    }
  }

  /** `getPlacesReservees`: the orders holding a place, 0 without an order list. */
  function PlacesReservees(t: Trajet): (n: nat)
    ensures t.commandes.None? ==> n == 0
    ensures t.commandes.Some? ==> n == CountHolding(t.commandes.value) && n <= |t.commandes.value|
  {
    if t.commandes.Some? then CountHolding(t.commandes.value) else 0
  }

  /** Cancelling an order (the order page's update) never adds a reserved place. */
  lemma {:induction false} CancelNeverAddsPlaces(cs: seq<Commande>, id: string)
    ensures CountHolding(CommandesPage.SetStatus(cs, id, CommandeStatus.CANCELLED.Name())) <= CountHolding(cs)
  {
    if cs != [] {
      var r := CommandesPage.SetStatus(cs, id, CommandeStatus.CANCELLED.Name());
      assert r[1..] == CommandesPage.SetStatus(cs[1..], id, CommandeStatus.CANCELLED.Name());
      CancelNeverAddsPlaces(cs[1..], id);
    }
  }

  /** Confirming orders that were all pending keeps the reserved count unchanged. */
  lemma {:induction false} ConfirmKeepsPlaces(cs: seq<Commande>, id: string)
    requires forall i :: 0 <= i < |cs| && cs[i].id == id ==> cs[i].status == "PENDING"
    ensures CountHolding(CommandesPage.SetStatus(cs, id, CommandeStatus.CONFIRMED.Name())) == CountHolding(cs)
  {
    if cs != [] {
      var r := CommandesPage.SetStatus(cs, id, CommandeStatus.CONFIRMED.Name());
      assert r[1..] == CommandesPage.SetStatus(cs[1..], id, CommandeStatus.CONFIRMED.Name());
      ConfirmKeepsPlaces(cs[1..], id);
    }
  }

  /** JavaScript truthiness of a number: everything but 0 (NaN is not modelled). */
  predicate Truthy(n: int) {
    n != 0
  }

  /** `getNombreSieges`: `trajet.vehicle?.seats || trajet.nbplaces || 4`, where 0 counts as missing. */
  function NombreSieges(t: Trajet): (n: int)
    ensures n != 0
    ensures t.vehicle.Some? && t.vehicle.value.seats.Some? && Truthy(t.vehicle.value.seats.value) ==> n == t.vehicle.value.seats.value
    ensures (t.vehicle.None? || t.vehicle.value.seats.None? || t.vehicle.value.seats.value == 0) && Truthy(t.nbplaces) ==> n == t.nbplaces
    ensures (t.vehicle.None? || t.vehicle.value.seats.None? || t.vehicle.value.seats.value == 0) && t.nbplaces == 0 ==> n == 4
  {
    if t.vehicle.Some? && t.vehicle.value.seats.Some? && Truthy(t.vehicle.value.seats.value) then t.vehicle.value.seats.value
    else if Truthy(t.nbplaces) then t.nbplaces
    else 4
  }

  /** "Places réservées": the reserved places summed over the listed trips. */
  function TotalReserved(ts: seq<Trajet>): nat {
    if ts == [] then 0 else PlacesReservees(ts[0]) + TotalReserved(ts[1..])
  }

  /** "Revenu estimé": each trip's price times its reserved places, summed. */
  function Revenue(ts: seq<Trajet>): int {
    if ts == [] then 0 else ts[0].price * PlacesReservees(ts[0]) + Revenue(ts[1..])
  }

  /** Both statistics add up trip by trip, as the `reduce` does. */
  lemma {:induction false} StatsAppend(a: seq<Trajet>, b: seq<Trajet>)
    ensures TotalReserved(a + b) == TotalReserved(a) + TotalReserved(b)
    ensures Revenue(a + b) == Revenue(a) + Revenue(b)
  {
    if a == [] {
      assert a + b == b;
    } else {
      assert (a + b)[1..] == a[1..] + b;
      StatsAppend(a[1..], b);
    }
  }

  /** With non-negative prices the revenue is non-negative, and it is 0 when nothing is reserved. */
  lemma {:induction false} RevenueBounds(ts: seq<Trajet>)
    requires forall i :: 0 <= i < |ts| ==> ts[i].price >= 0
    ensures Revenue(ts) >= 0
    ensures TotalReserved(ts) == 0 ==> Revenue(ts) == 0
  {
    if ts != [] {
      RevenueBounds(ts[1..]);
    }
  }

  /** When every trip has the same price, the revenue is that price times the reserved places. */
  lemma {:induction false} UniformPriceRevenue(ts: seq<Trajet>, price: int)
    requires forall i :: 0 <= i < |ts| ==> ts[i].price == price
    ensures Revenue(ts) == price * TotalReserved(ts)
  {
    if ts != [] {
      assert forall i :: 0 <= i < |ts[1..]| ==> ts[1..][i].price == ts[i + 1].price;
      UniformPriceRevenue(ts[1..], price);
      assert price * (PlacesReservees(ts[0]) + TotalReserved(ts[1..]))
        == price * PlacesReservees(ts[0]) + price * TotalReserved(ts[1..]);
    }
  }

  /** The three cards: trips of the day, reserved places, revenue in Fcfa. */
  datatype Stats = Stats(trips: string, reserved: string, revenue: string)

  function StatsData(totalItems: nat, ts: seq<Trajet>): (s: Stats)
    ensures AllDigits(s.trips) && ParseDigits(s.trips) == totalItems
    ensures AllDigits(s.reserved) && ParseDigits(s.reserved) == TotalReserved(ts)
    ensures |s.revenue| > 5 && s.revenue[|s.revenue| - 5..] == " Fcfa"
    ensures s.revenue[..|s.revenue| - 5] == IntToString(Revenue(ts))
    ensures Revenue(ts) >= 0 ==> var amount := s.revenue[..|s.revenue| - 5];
      AllDigits(amount) && ParseDigits(amount) == Revenue(ts)
  {
    ParseNatToString(totalItems);
    ParseNatToString(TotalReserved(ts));
    ParseNatToString(if Revenue(ts) >= 0 then Revenue(ts) else 0);
    Stats(NatToString(totalItems), NatToString(TotalReserved(ts)), IntToString(Revenue(ts)) + " Fcfa")
  }

  /** The button of a trip row: "Démarrer" for PENDING, "En cours" for STARTED, none otherwise. */
  function StartButton(status: string): (b: Option<string>)
    ensures b.Some? <==> status == TrajetStatus.PENDING.Name() || status == TrajetStatus.STARTED.Name()
    ensures status == TrajetStatus.PENDING.Name() ==> b == Some("Démarrer")
    ensures status == TrajetStatus.STARTED.Name() ==> b == Some("En cours")
  {
    if status == "PENDING" then Some("Démarrer")
    else if status == "STARTED" then Some("En cours")
    else None
  }

  /** The selection `selecteTrajets(trajet, isClick)` leaves. */
  function Selected(current: Option<Trajet>, t: Trajet, isClick: bool): (r: Option<Trajet>)
    ensures !isClick ==> r == current
    ensures isClick && current.Some? && current.value.id == t.id ==> r.None?
    ensures isClick && (current.None? || current.value.id != t.id) ==> r == Some(t)
  {
    if !isClick then current
    else if current.Some? && current.value.id == t.id then None
    else Some(t)
  }

  /** Clicking the same trip twice gives back the selection it started from, when that was empty. */
  lemma ClickTwice(t: Trajet)
    ensures Selected(Selected(None, t, true), t, true) == None
  {
  }

  /** From a page inside the range, the enabled Précédent and Suivant buttons keep the page inside it. */
  lemma BarStaysInRange(cp: int, total: nat, limit: nat)
    requires limit > 0 && 1 <= cp <= Pagination.TotalPages(total, limit)
    ensures !Pagination.PreviousDisabledAtFirst(cp) ==> 1 <= cp - 1 <= Pagination.TotalPages(total, limit)
    ensures !Pagination.NextDisabledAtLast(cp, Pagination.TotalPages(total, limit)) ==> 1 <= cp + 1 <= Pagination.TotalPages(total, limit)
  {
  }

  class Dashboard {
    const limit: nat
    var trajets: seq<Trajet>
    var selected: Option<Trajet>
    var currentPage: int
    var totalItems: nat

    ghost predicate Valid()
      reads this
    {
      limit == 5
    }

    constructor()
      ensures Valid() && trajets == [] && selected.None? && currentPage == 1 && totalItems == 0
    {
      limit := 5;
      trajets := [];
      selected := None;
      currentPage := 1;
      totalItems := 0;
    }

    /** A successful fetch: the server's rows and total. */
    method Loaded(data: seq<Trajet>, total: nat)
      requires Valid()
      modifies this
      ensures Valid() && trajets == data && totalItems == total
      ensures selected == old(selected) && currentPage == old(currentPage)
    {
      trajets := data;
      totalItems := total;
    }

    /** `selecteTrajets(trajet, isClick)`. */
    method SelectTrip(t: Trajet, isClick: bool)
      requires Valid()
      modifies this
      ensures Valid() && selected == Selected(old(selected), t, isClick)
      ensures trajets == old(trajets) && currentPage == old(currentPage) && totalItems == old(totalItems)
    {
      if isClick {
        if selected.Some? && selected.value.id == t.id {
          selected := None;
        } else {
          selected := Some(t);
        }
      }
    }

    /** `paginer(n)`: the page is set as given; the buttons alone keep it in range. */
    method Paginer(n: int)
      requires Valid()
      modifies this
      ensures Valid() && currentPage == n
      ensures trajets == old(trajets) && selected == old(selected) && totalItems == old(totalItems)
    {
      currentPage := n;
    }

    /** `Math.ceil(totalItems / limit)`. */
    function TotalPages(): (p: nat)
      reads this
      requires Valid()
      ensures totalItems <= p * limit && (p == 0 <==> totalItems == 0)
    {
      Pagination.TotalPages(totalItems, limit)
    }

    /** The bar shows only with more than one page. */
    predicate BarShown()
      reads this
      requires Valid()
    {
      Pagination.ControlsShown(TotalPages())
    }

    /** "{startIndex}-{endIndex} sur {totalItems}" for the current page. */
    function Range(): (r: (int, int))
      reads this
      requires Valid()
      ensures 1 <= currentPage <= TotalPages() ==> 1 <= r.0 <= r.1 <= totalItems
      ensures 1 <= currentPage <= TotalPages() ==> r.1 - r.0 + 1 <= limit
    {
      var r := (Pagination.StartIndex(currentPage, limit), Pagination.EndIndex(currentPage, totalItems, limit));
      if 1 <= currentPage <= TotalPages() then
        Pagination.IndexRangeIsWindow(seq(totalItems, i => i), currentPage, limit);
        r
      else r
    }
  }
}
