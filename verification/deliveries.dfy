/** The delivery list (`DeliveryList`): the status vocabulary with its labels and colours,
    who may change a delivery's status, and the list's fetch/update state. */
module Deliveries {
  import opened Common
  import opened Domain

  /** The six statuses, in the order the status control lists them. */
  const Statuses: seq<string> := ["pending", "assigned", "picked_up", "in_transit", "delivered", "failed"]
  /** Their labels and badge classes, position by position. */
  const Labels: seq<string> := ["En attente", "Assignée", "Récupérée", "En transit", "Livrée", "Échouée"]
  const Colours: seq<string> := [
    "bg-yellow-100 text-yellow-800", "bg-blue-100 text-blue-800", "bg-orange-100 text-orange-800",
    "bg-purple-100 text-purple-800", "bg-green-100 text-green-800", "bg-red-100 text-red-800"]
  const FallbackColour := "bg-gray-100 text-gray-800"

  /** The `texts` object of `getStatusText`. */
  const TextTable: map<string, string> := map[
    "pending" := "En attente", "assigned" := "Assignée", "picked_up" := "Récupérée",
    "in_transit" := "En transit", "delivered" := "Livrée", "failed" := "Échouée"]

  /** The `colors` object of `getStatusColor`. */
  const ColourTable: map<string, string> := map[
    "pending" := "bg-yellow-100 text-yellow-800", "assigned" := "bg-blue-100 text-blue-800",
    "picked_up" := "bg-orange-100 text-orange-800", "in_transit" := "bg-purple-100 text-purple-800",
    "delivered" := "bg-green-100 text-green-800", "failed" := "bg-red-100 text-red-800"]

  /** `table[key] || fallback` */
  function LookupOr(table: map<string, string>, key: string, fallback: string): string {
    if key in table && table[key] != "" then table[key] else fallback
  }

  /** `getStatusText(status)`: the label of a known status; any other string is shown as is. */
  function StatusText(status: string): (r: string)
    ensures forall i :: 0 <= i < |Statuses| && status == Statuses[i] ==> r == Labels[i]
    ensures status !in Statuses ==> r == status
  {
    LookupOr(TextTable, status, status)
  }

  /** `getStatusColor(status)`: the badge of a known status; gray for anything else. */
  function StatusColour(status: string): (r: string)
    ensures forall i :: 0 <= i < |Statuses| && status == Statuses[i] ==> r == Colours[i]
    ensures status !in Statuses ==> r == FallbackColour
  {
    LookupOr(ColourTable, status, FallbackColour)
  }

  /** `canUpdateStatus(delivery)` for the signed-in `user`. */
  function CanUpdateStatus(user: Identity, delivery: Delivery): (r: bool)
    ensures HasRole(user, AdminRole) ==> r
    ensures HasRole(user, SupplierRole) ==> (r <==> delivery.delivererId == user.id)
    ensures !HasRole(user, AdminRole) && !HasRole(user, SupplierRole) ==> !r
  {
    if user.role == Some("admin") then true
    else if user.role == Some("fournisseur") && delivery.delivererId == user.id then true
    else false
  }

  /** The comparison is case-sensitive: `'Admin'` and `'client'` may change nothing. */
  lemma OnlyExactRolesUpdate(user: Identity, delivery: Delivery)
    requires user.role == Some(CapitalisedAdminRole) || user.role == Some(ClientRole)
    ensures !CanUpdateStatus(user, delivery)
  {
  }

  /** The status control's options, as (value, label) pairs; `current` is the selected
      value, and it plays no part in which options are offered. */
  function StatusOptions(current: string): (r: seq<(string, string)>)
    ensures |r| == |Statuses|
    ensures forall i :: 0 <= i < |r| ==> r[i].0 == Statuses[i]
  {
    [("pending", "En attente"), ("assigned", "Assignée"), ("picked_up", "Récupérée"),
     ("in_transit", "En transit"), ("delivered", "Livrée"), ("failed", "Échouée")]
  }

  /** Every status is reachable from every status, and each option is labelled as
      `getStatusText` labels that status in the table. */
  lemma NoTransitionRestriction(a: string, b: string)
    ensures StatusOptions(a) == StatusOptions(b)
    ensures forall i :: 0 <= i < |StatusOptions(a)| ==> StatusOptions(a)[i].1 == StatusText(StatusOptions(a)[i].0)
  {
    var opts := StatusOptions(a);
    forall i | 0 <= i < |opts| ensures opts[i].1 == StatusText(opts[i].0) {
      assert opts[i].0 == Statuses[i];
    }
  }

  /** The list view's `deliveries` and `loading` state. */
  class DeliveryListView {
    var deliveries: seq<Delivery>
    var loading: bool

    constructor ()
      ensures deliveries == [] && loading
    {
      deliveries, loading := [], true;
    }

    /** `fetchDeliveries`: an OK response replaces the list; `loading` ends on every path. */
    method FetchDeliveries(response: Response<seq<Delivery>>)
      modifies this
      ensures !loading
      ensures deliveries == (if response.Ok? then response.body else old(deliveries))
    {
      if response.Ok? {
        deliveries := response.body;
      }
      loading := false;
    }

    /** `handleStatusUpdate(deliveryId, newStatus)`: the local list is never edited; an OK
        response only triggers a refetch, whose outcome is `refetch`. */
    method HandleStatusUpdate(deliveryId: string, newStatus: string,
                              response: Response<()>, refetch: Response<seq<Delivery>>)
      returns (refetched: bool)
      modifies this
      ensures refetched <==> response.Ok?
      ensures !refetched ==> deliveries == old(deliveries) && loading == old(loading)
      ensures refetched ==>
        !loading && deliveries == (if refetch.Ok? then refetch.body else old(deliveries))
    {
      refetched := response.Ok?;
      if refetched {
        FetchDeliveries(refetch);
      }
    }
  }
}
