/**
 * The order cards of `components/dashboard/DriverCourses.tsx`: status labels
 * and colours, the per-trip order count and revenue, the pluralised count
 * label, the role gate on the revenue line, and the card list's own
 * pagination bar.
 */
module DriverCourses {
  import opened Wrappers
  import opened Text
  import opened Interfaces
  import Pagination

  /**
   * `getStatusLabel`: the five order statuses in French, anything else
   * "Inconnu". The order page's drawer uses an identical switch of its own
   * (app/dashboard/commandes/page.tsx:96-111), which is this function too.
   */
  function StatusLabel(status: string): (text: string)
    ensures text == "Inconnu" <==> ParseCommandeStatus(status).None?
  {
    if status == "PENDING" then "En attente"
    else if status == "CONFIRMED" then "Confirmée"
    else if status == "CANCELLED" then "Annulée"
    else if status == "STARTED" then "En cours"
    else if status == "COMPLETED" then "Terminée"
    else "Inconnu"
  }

  /** The five statuses get five different labels. */
  lemma StatusLabelsDistinct(a: CommandeStatus, b: CommandeStatus)
    ensures a != b ==> StatusLabel(a.Name()) != StatusLabel(b.Name())
  {
  }

  /** `getStatusColor` of the cards: STARTED is blue here, COMPLETED and unknown values grey. */
  function StatusColor(status: string): (color: string)
    ensures color == GreyColor <==> status == "COMPLETED" || ParseCommandeStatus(status).None?
  {
    if status == "PENDING" then "bg-yellow-100 text-yellow-700 border-yellow-300"
    else if status == "CONFIRMED" then "bg-lime-400 text-green-700 border-green-300"
    else if status == "CANCELLED" then "bg-red-100 text-red-700 border-red-300"
    else if status == "STARTED" then "bg-blue-100 text-blue-700 border-blue-300"
    else GreyColor
  }

  const GreyColor := "bg-gray-100 text-gray-600 border-gray-300"

  /** The sum of the prices of a list of orders. */
  function SumPrices(cs: seq<Commande>): int {
    if cs == [] then 0 else cs[0].price + SumPrices(cs[1..])
  }

  lemma {:induction false} SumPricesAppend(a: seq<Commande>, b: seq<Commande>)
    ensures SumPrices(a + b) == SumPrices(a) + SumPrices(b)
  {
    if a == [] {
      assert a + b == b;
    } else {
      assert (a + b)[1..] == a[1..] + b;
      SumPricesAppend(a[1..], b);
    }
  }

  /** Orders with non-negative prices bring in at least each single order's price. */
  lemma {:induction false} SumPricesBounds(cs: seq<Commande>, k: nat)
    requires forall i :: 0 <= i < |cs| ==> cs[i].price >= 0
    requires k < |cs|
    ensures SumPrices(cs) >= cs[k].price >= 0
  {
    if k > 0 {
      SumPricesBounds(cs[1..], k - 1);
    } else if |cs| > 1 {
      SumPricesNonNegative(cs[1..]);
    }
  }

  lemma {:induction false} SumPricesNonNegative(cs: seq<Commande>)
    requires forall i :: 0 <= i < |cs| ==> cs[i].price >= 0
    ensures SumPrices(cs) >= 0
  {
    if cs != [] {
      SumPricesNonNegative(cs[1..]);
    }
  }

  /** `trajet?.commandes?.length || 0`. */
  function TotalCommandes(trajet: Option<Trajet>): (n: nat)
    ensures trajet.Some? && trajet.value.commandes.Some? ==> n == |trajet.value.commandes.value|
    ensures trajet.None? || trajet.value.commandes.None? ==> n == 0
  {
    if trajet.Some? && trajet.value.commandes.Some? then |trajet.value.commandes.value| else 0
  }

  /** `trajet?.commandes?.reduce((sum, c) => sum + c.price, 0) || 0`. */
  function TotalRevenu(trajet: Option<Trajet>): (r: int)
    ensures trajet.Some? && trajet.value.commandes.Some? ==> r == SumPrices(trajet.value.commandes.value)
    ensures trajet.None? || trajet.value.commandes.None? ==> r == 0
  {
    if trajet.Some? && trajet.value.commandes.Some? then SumPrices(trajet.value.commandes.value) else 0
  }

  /** "{n} commande" with an "s" only when n > 1. */
  function CountLabel(n: nat): (s: string)
    ensures |s| > |NatToString(n)|
    ensures n > 1 <==> s[|s| - 1] == 's'
    ensures s[..|NatToString(n)|] == NatToString(n)
  {
    var digits := NatToString(n);
    var word := " commande" + (if n > 1 then "s" else "");
    assert (digits + word)[..|digits|] == digits;
    digits + word
  }

  /** The revenue line shows only for ADMIN, PARTENAIRE and DRIVER (not for USER, nor before the role is read). */
  predicate RevenueShown(role: Option<Role>) {
    role == Some(Role.ADMIN) || role == Some(Role.PARTENAIRE) || role == Some(Role.DRIVER)
  }

  lemma RevenueShownRule(role: Option<Role>)
    ensures RevenueShown(role) <==> role.Some? && role.value != Role.USER
  {
  }

  /** The role the cards read on mount: the stored value when it is a role, otherwise none. */
  function MountedRole(stored: Option<string>): (r: Option<Role>)
    ensures r.Some? <==> stored.Some? && ParseRole(stored.value).Some?
    ensures r.Some? ==> r.value.Name() == stored.value
  {
    if stored.Some? && stored.value != "" then ParseRole(stored.value) else None
  }

  /** One rendered card. */
  datatype Card = Card(id: string, statusLabel: string, statusColor: string, countLabel: string, revenue: Option<int>)

  /** The rendered component: the empty-list message, or the cards and the bar's state. */
  datatype CoursesView =
    | NoCourse(message: string)
    | Cards(cards: seq<Card>, showBar: bool, previousDisabled: bool, nextDisabled: bool)

  const NoCourseMessage := "🚗 Aucune course enregistrée pour ce chauffeur."

  function CardOf(com: Commande, role: Option<Role>): Card {
    Card(com.id, StatusLabel(com.status), StatusColor(com.status),
      CountLabel(TotalCommandes(com.trajet)),
      if RevenueShown(role) then Some(TotalRevenu(com.trajet)) else None)
  }

  function CardsOf(cs: seq<Commande>, role: Option<Role>): (cards: seq<Card>)
    ensures |cards| == |cs|
    ensures forall i :: 0 <= i < |cs| ==> cards[i] == CardOf(cs[i], role)
  {
    seq(|cs|, i requires 0 <= i < |cs| => CardOf(cs[i], role))
  }

  /**
   * The component: a missing or empty list renders only the message; otherwise
   * one card per order, in order, and a bar shown only with more than one page.
   */
  function View(commande: Option<seq<Commande>>, role: Option<Role>, currentPage: int, totalItems: nat, itemsPerPage: nat): (v: CoursesView)
    requires itemsPerPage > 0
    ensures v.NoCourse? <==> commande.None? || commande.value == []
    ensures v.NoCourse? ==> v.message == NoCourseMessage
    ensures v.Cards? ==> |v.cards| == |commande.value|
    ensures v.Cards? ==> forall i :: 0 <= i < |v.cards| ==> v.cards[i] == CardOf(commande.value[i], role)
    ensures v.Cards? ==> (v.showBar <==> Pagination.TotalPages(totalItems, itemsPerPage) > 1)
    ensures v.Cards? ==> (v.previousDisabled <==> currentPage == 1)
    ensures v.Cards? ==> (v.nextDisabled <==> currentPage == Pagination.TotalPages(totalItems, itemsPerPage))
  {
    if commande.None? || commande.value == [] then NoCourse(NoCourseMessage)
    else
      var totalPages := Pagination.TotalPages(totalItems, itemsPerPage);
      Cards(CardsOf(commande.value, role), Pagination.ControlsShown(totalPages),
        Pagination.PreviousDisabledAtFirst(currentPage), Pagination.NextDisabledAtLast(currentPage, totalPages))
  }
}
