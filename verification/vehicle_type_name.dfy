/**
 * `types/getVehicleTypeName.ts`: the name of the first vehicle type with a
 * given id, or "Type inconnu". The booking page's `vehicleTypes.find(...)`
 * is the same first-match search.
 */
module VehicleTypeName {
  import opened Wrappers
  import opened Interfaces

  /** The index `find` stops at: the first type whose id is `id`, if any. */
  function FirstIndex(types: seq<VehicleType>, id: string): (k: Option<nat>)
    ensures k.Some? ==> k.value < |types| && types[k.value].id == id
    ensures k.Some? ==> forall j :: 0 <= j < k.value ==> types[j].id != id
    ensures k.None? <==> forall j :: 0 <= j < |types| ==> types[j].id != id
  {
    if types == [] then None
    else if types[0].id == id then Some(0)
    else
      match FirstIndex(types[1..], id)
      case None => None
      case Some(k) => Some(k + 1)
  }

  /** `vehicleTypes.find(v => v.id === id)`. */
  function Find(types: seq<VehicleType>, id: string): (r: Option<VehicleType>)
    ensures r.Some? ==> r.value in types && r.value.id == id
    ensures r.None? <==> forall j :: 0 <= j < |types| ==> types[j].id != id
    ensures r.Some? ==> exists k :: 0 <= k < |types| && types[k] == r.value && forall j :: 0 <= j < k ==> types[j].id != id
  {
    match FirstIndex(types, id)
    case None => None
    case Some(k) => Some(types[k])
  }

  const Unknown := "Type inconnu"

  /** `getVehicleTypeName(id, vehicleTypes)`. */
  function GetVehicleTypeName(id: string, types: seq<VehicleType>): (name: string)
    ensures (forall j :: 0 <= j < |types| ==> types[j].id != id) ==> name == Unknown
    ensures forall k :: (0 <= k < |types| && types[k].id == id && (forall j :: 0 <= j < k ==> types[j].id != id)) ==> name == types[k].name
  {
    match Find(types, id)
    case None => Unknown
    case Some(t) => t.name
  }

  /** An empty list always yields "Type inconnu". */
  lemma EmptyListUnknown(id: string)
    ensures GetVehicleTypeName(id, []) == Unknown
  {
  }

  /** Types appended after the first match do not change the name. */
  lemma {:induction false} FirstMatchWins(a: seq<VehicleType>, b: seq<VehicleType>, id: string)
    requires exists k :: 0 <= k < |a| && a[k].id == id
    ensures GetVehicleTypeName(id, a + b) == GetVehicleTypeName(id, a)
  {
    var k :| 0 <= k < |a| && a[k].id == id;
    var i := FirstIndex(a, id);
    assert i.Some?;
    var ab := a + b;
    assert ab[i.value] == a[i.value];
    assert forall j :: 0 <= j < i.value ==> ab[j] == a[j];
  }

  /** With no match in the first list, the name comes from the second. */
  lemma {:induction false} NoMatchSkipped(a: seq<VehicleType>, b: seq<VehicleType>, id: string)
    requires forall j :: 0 <= j < |a| ==> a[j].id != id
    ensures GetVehicleTypeName(id, a + b) == GetVehicleTypeName(id, b)
  {
    var ab := a + b;
    assert forall j :: 0 <= j < |b| ==> ab[|a| + j] == b[j];
    assert forall j :: 0 <= j < |a| ==> ab[j] == a[j];
    match FirstIndex(b, id)
    case None =>
    case Some(k) =>
      assert ab[|a| + k] == b[k];
  }
}
