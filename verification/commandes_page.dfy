/**
 * The order management page of `app/dashboard/commandes/page.tsx`: the order
 * list, the order open in the drawer, the validate and cancel actions that
 * rewrite one order's status after a 200 answer, the page's own status
 * colours, the drawer's button rules and the list's page guards.
 */
module CommandesPage {
  import opened Wrappers
  import opened Interfaces
  import Pagination

  /** `prev.map(c => c.id === id ? { ...c, status } : c)`. */
  function SetStatus(cs: seq<Commande>, id: string, status: string): (r: seq<Commande>)
    ensures |r| == |cs|
    ensures forall i :: 0 <= i < |cs| && cs[i].id == id ==> r[i] == cs[i].(status := status)
    ensures forall i :: 0 <= i < |cs| && cs[i].id != id ==> r[i] == cs[i]
  {
    if cs == [] then []
    else [if cs[0].id == id then cs[0].(status := status) else cs[0]] + SetStatus(cs[1..], id, status)
  }

  /** The rewrite keeps the list's ids, in order: it never adds, drops or moves an order. */
  lemma SetStatusKeepsIds(cs: seq<Commande>, id: string, status: string)
    ensures forall i :: 0 <= i < |cs| ==> SetStatus(cs, id, status)[i].id == cs[i].id
  {
  }

  /** Every order with that id ends with the new status; no other order's status moves. */
  lemma SetStatusEffect(cs: seq<Commande>, id: string, status: string, i: nat)
    requires i < |cs|
    ensures SetStatus(cs, id, status)[i].status == if cs[i].id == id then status else cs[i].status
    ensures SetStatus(cs, id, status)[i].price == cs[i].price
  {
  }

  /** Repeating the same update changes nothing more. */
  lemma {:induction false} SetStatusIdempotent(cs: seq<Commande>, id: string, status: string)
    ensures SetStatus(SetStatus(cs, id, status), id, status) == SetStatus(cs, id, status)
  {
    if cs != [] {
      SetStatusIdempotent(cs[1..], id, status);
    }
  }

  /** Updates of two different orders do not interfere: their order does not matter. */
  lemma {:induction false} SetStatusCommute(cs: seq<Commande>, id1: string, s1: string, id2: string, s2: string)
    requires id1 != id2
    ensures SetStatus(SetStatus(cs, id1, s1), id2, s2) == SetStatus(SetStatus(cs, id2, s2), id1, s1)
  {
    if cs != [] {
      SetStatusCommute(cs[1..], id1, s1, id2, s2);
    }
  }

  /** This page's `getStatusColor`: STARTED and COMPLETED get the default grey here. */
  function StatusColor(status: string): (color: string)
    ensures color == DefaultColor <==> status != "PENDING" && status != "CONFIRMED" && status != "CANCELLED"
  {
    if status == "PENDING" then "bg-yellow-100 text-yellow-700 border-yellow-300"
    else if status == "CONFIRMED" then "bg-lime-400 text-green-700 border-green-300"
    else if status == "CANCELLED" then "bg-red-100 text-red-700 border-red-300"
    else DefaultColor
  }

  const DefaultColor := "bg-gray-100 text-gray-600 border-gray-300"

  /** The drawer's Annuler button is disabled only for a cancelled order. */
  predicate CancelDisabled(c: Commande) {
    c.status == CommandeStatus.CANCELLED.Name()
  }

  /** The drawer's Valider button is enabled only for a pending order. */
  predicate ValidateDisabled(c: Commande) {
    c.status != CommandeStatus.PENDING.Name()
  }

  /**
   * Once an order was validated or cancelled, Valider is disabled; once
   * cancelled, Annuler is too; a validated order can still be cancelled.
   */
  lemma ButtonsAfterActions(c: Commande)
    ensures ValidateDisabled(c.(status := CommandeStatus.CONFIRMED.Name()))
    ensures !CancelDisabled(c.(status := CommandeStatus.CONFIRMED.Name()))
    ensures ValidateDisabled(c.(status := CommandeStatus.CANCELLED.Name()))
    ensures CancelDisabled(c.(status := CommandeStatus.CANCELLED.Name()))
  {
  }

  /** A pending order can be both validated and cancelled. */
  lemma PendingHasBothActions(c: Commande)
    requires c.status == "PENDING"
    ensures !ValidateDisabled(c) && !CancelDisabled(c)
  {
  }

  /** The request an action sends to the order service. */
  datatype Request =
    | ValidateRequest(id: string, status: string)
    | CancelRequest(id: string, role: string)

  /** The role `handleCancel` always sends. */
  const CancelRole := "USER"

  class Page {
    const limit: nat
    var role: Role
    var isReady: bool
    var commandes: seq<Commande>
    var selected: Option<Commande>
    var drawerOpen: bool
    var currentPage: int
    var totalItems: nat

    ghost predicate Valid()
      reads this
    {
      limit == 5 && currentPage >= 1
    }

    /** The initial state: role DRIVER, not ready, no order, page 1 of an empty list. */
    constructor()
      ensures Valid()
      ensures role == Role.DRIVER && !isReady && commandes == [] && selected.None? && !drawerOpen
      ensures currentPage == 1 && totalItems == 0
    {
      limit := 5;
      role := Role.DRIVER;
      isReady := false;
      commandes := [];
      selected := None;
      drawerOpen := false;
      currentPage := 1;
      totalItems := 0;
    }

    /** The mount effect: a stored role replaces DRIVER only when it is a Role value. */
    method Mount(stored: Option<string>)
      requires Valid()
      modifies this
      ensures Valid() && isReady
      ensures role == RoleFromStorage(stored, old(role))
      ensures commandes == old(commandes) && selected == old(selected) && drawerOpen == old(drawerOpen)
      ensures currentPage == old(currentPage) && totalItems == old(totalItems)
    {
      role := RoleFromStorage(stored, role);
      isReady := true;
    }

    /** A successful `getDriversCommande`: the server's total, page and rows replace the list's. */
    method Loaded(total: nat, page: int, data: seq<Commande>)
      requires Valid() && page >= 1
      modifies this
      ensures Valid()
      ensures totalItems == total && currentPage == page && commandes == data
      ensures selected == old(selected) && drawerOpen == old(drawerOpen) && role == old(role) && isReady == old(isReady)
    {
      totalItems := total;
      currentPage := page;
      commandes := data;
    }

    /** A card was clicked: its order opens in the drawer. */
    method Select(c: Commande)
      requires Valid()
      modifies this
      ensures Valid() && selected == Some(c) && drawerOpen
      ensures commandes == old(commandes) && currentPage == old(currentPage) && totalItems == old(totalItems)
    {
      selected := Some(c);
      drawerOpen := true;
    }

    /** Closing the drawer keeps the selection. */
    method CloseDrawer()
      requires Valid()
      modifies this
      ensures Valid() && !drawerOpen
      ensures selected == old(selected) && commandes == old(commandes)
      ensures currentPage == old(currentPage) && totalItems == old(totalItems)
    {
      drawerOpen := false;
    }

    /**
     * `updateCommandeStatus(id, status)` once the service answered `statusCode`:
     * on 200 the orders with that id and the open order take the new status,
     * the drawer closes and the list is reloaded; any other answer changes nothing.
     */
    method UpdateStatus(id: string, status: string, statusCode: int) returns (reload: bool)
      requires Valid()
      modifies this
      ensures Valid()
      ensures reload <==> statusCode == 200
      ensures statusCode == 200 ==> commandes == SetStatus(old(commandes), id, status)
      ensures statusCode == 200 ==> selected == (if old(selected).Some? then Some(old(selected).value.(status := status)) else None)
      ensures statusCode == 200 ==> !drawerOpen
      ensures statusCode != 200 ==> commandes == old(commandes) && selected == old(selected) && drawerOpen == old(drawerOpen)
      ensures currentPage == old(currentPage) && totalItems == old(totalItems) && role == old(role)
    {
      reload := statusCode == 200;
      if reload {
        commandes := SetStatus(commandes, id, status);
        if selected.Some? {
          selected := Some(selected.value.(status := status));
        }
        drawerOpen := false;
      }
    }

    /**
     * `handleValidate`: without an open order nothing is sent; otherwise it asks
     * to confirm the open order and applies the answer as `UpdateStatus` does.
     */
    method Validate(statusCode: int) returns (req: Option<Request>, reload: bool)
      requires Valid()
      modifies this
      ensures Valid()
      ensures reload <==> old(selected).Some? && statusCode == 200
      ensures old(selected).None? ==> req.None? && commandes == old(commandes) && selected == old(selected) && drawerOpen == old(drawerOpen)
      ensures old(selected).Some? ==> req == Some(ValidateRequest(old(selected).value.id, CommandeStatus.CONFIRMED.Name()))
      ensures old(selected).Some? && statusCode == 200 ==>
        commandes == SetStatus(old(commandes), old(selected).value.id, "CONFIRMED")
        && selected == Some(old(selected).value.(status := "CONFIRMED")) && !drawerOpen
      ensures old(selected).Some? && statusCode != 200 ==>
        commandes == old(commandes) && selected == old(selected) && drawerOpen == old(drawerOpen)
      ensures currentPage == old(currentPage) && totalItems == old(totalItems) && role == old(role)
    {
      if selected.None? {
        return None, false;
      }
      req := Some(ValidateRequest(selected.value.id, CommandeStatus.CONFIRMED.Name()));
      reload := UpdateStatus(selected.value.id, CommandeStatus.CONFIRMED.Name(), statusCode);
    }

    /**
     * `handleCancel`: without an open order nothing is sent; otherwise it asks
     * to cancel it in the name of "USER", and on 200 exactly that order becomes
     * CANCELLED in the list and in the drawer, the drawer closes and the list
     * is reloaded.
     */
    method Cancel(statusCode: int) returns (req: Option<Request>, reload: bool)
      requires Valid()
      modifies this
      ensures Valid()
      ensures reload <==> old(selected).Some? && statusCode == 200
      ensures old(selected).None? ==> req.None? && commandes == old(commandes) && selected == old(selected) && drawerOpen == old(drawerOpen)
      ensures old(selected).Some? ==> req == Some(CancelRequest(old(selected).value.id, CancelRole))
      ensures old(selected).Some? && statusCode == 200 ==>
        commandes == SetStatus(old(commandes), old(selected).value.id, "CANCELLED")
        && selected == Some(old(selected).value.(status := "CANCELLED")) && !drawerOpen
      ensures old(selected).Some? && statusCode != 200 ==>
        commandes == old(commandes) && selected == old(selected) && drawerOpen == old(drawerOpen)
      ensures currentPage == old(currentPage) && totalItems == old(totalItems) && role == old(role)
    {
      if selected.None? {
        return None, false;
      }
      var id := selected.value.id;
      req := Some(CancelRequest(id, CancelRole));
      reload := statusCode == 200;
      if reload {
        commandes := SetStatus(commandes, id, CommandeStatus.CANCELLED.Name());
        selected := Some(selected.value.(status := CommandeStatus.CANCELLED.Name()));
        drawerOpen := false;
      }
    }

    /** `handleNextPage`: advance only when `currentPage * limit < totalItems`. */
    method NextPage()
      requires Valid()
      modifies this
      ensures Valid()
      ensures currentPage == Pagination.NextPage(old(currentPage), totalItems, limit)
      ensures commandes == old(commandes) && selected == old(selected) && totalItems == old(totalItems)
    {
      if currentPage * limit < totalItems {
        currentPage := currentPage + 1;
      }
    }

    /** `handlePreviousPage`: go back only when `currentPage > 1`. */
    method PreviousPage()
      requires Valid()
      modifies this
      ensures Valid()
      ensures currentPage == Pagination.PreviousPage(old(currentPage))
      ensures commandes == old(commandes) && selected == old(selected) && totalItems == old(totalItems)
    {
      if currentPage > 1 {
        currentPage := currentPage - 1;
      }
    }

    /** The page renders nothing until the role has been read. */
    predicate Renders()
      reads this
    {
      isReady
    }
  }
}
