/** One order's card on the orders page: the border colour that follows the
    order's status, the status-update mutation and its effect on the card,
    and the cache rewrite after the order is deleted. */
module OrderCard {
  import opened JsValues
  import CacheLists

  const PendingClass: string := "border-yellow-500 border-t-4"
  const DeliveredClass: string := "border-green-500 border-t-4"
  const CancelledClass: string := "border-red-500 border-t-4"

  /** `changeStatusColor`: the class chosen for a known status; any other
      status keeps the current class. */
  function ChangeStatusColor(status: Val, current: string): (c: string)
    ensures status == Str("Pending") ==> c == PendingClass
    ensures status == Str("Delivered") ==> c == DeliveredClass
    ensures status == Str("Cancelled") ==> c == CancelledClass
    ensures status !in {Str("Pending"), Str("Delivered"), Str("Cancelled")} ==> c == current
  {
    match status
    case Str("Pending") => PendingClass
    case Str("Delivered") => DeliveredClass
    case Str("Cancelled") => CancelledClass
    case _ => current
  }

  /** Recolouring for the status the card already shows changes nothing. */
  lemma ChangeStatusColorIdempotent(status: Val, current: string)
    ensures ChangeStatusColor(status, ChangeStatusColor(status, current)) == ChangeStatusColor(status, current)
  {
  }

  /** The card's state: the status shown in its selector and its border class. */
  datatype Card = Card(statusOrder: Val, statusColor: string)

  /** The status effect: it runs when `statusOrder` changes and recolours. */
  function StatusEffect(card: Card): (next: Card)
    ensures next.statusOrder == card.statusOrder
    ensures next.statusColor == ChangeStatusColor(card.statusOrder, card.statusColor)
  {
    card.(statusColor := ChangeStatusColor(card.statusOrder, card.statusColor))
  }

  /** The card as first rendered: it shows the order's own status, with the
      border of that status or none when the status is not one of the three. */
  function MountCard(order: Record): (card: Card)
    ensures card.statusOrder == Get(order, "status")
    ensures Get(order, "status") !in {Str("Pending"), Str("Delivered"), Str("Cancelled")} ==>
              card.statusColor == ""
    ensures Get(order, "status") == Str("Pending") ==> card.statusColor == PendingClass
    ensures Get(order, "status") == Str("Delivered") ==> card.statusColor == DeliveredClass
    ensures Get(order, "status") == Str("Cancelled") ==> card.statusColor == CancelledClass
    ensures card.statusColor == ChangeStatusColor(Get(order, "status"), "")
  {
    StatusEffect(Card(Get(order, "status"), ""))
  }

  /** The card's border matches its status: recolouring for the shown
      status would change nothing. */
  predicate Settled(card: Card)
  {
    ChangeStatusColor(card.statusOrder, card.statusColor) == card.statusColor
  }

  /** A freshly mounted card is settled. */
  lemma MountCardSettled(order: Record)
    ensures Settled(MountCard(order))
  {
  }

  /** The variables of the `updateOrder` mutation. */
  datatype UpdateRequest = UpdateRequest(id: Val, status: Val, client: Val)

  /** `{ id: order.id, input: { status: newStatus, client: order.client.id } }`;
      `None` when `order.client` is missing and reading its `id` throws. */
  function StatusUpdateRequest(order: Record, newStatus: Val): (r: Option<UpdateRequest>)
    ensures r.None? <==> Get(order, "client") in {Undefined, Null}
    ensures r.Some? ==> r.value.id == IdOf(order) && r.value.status == newStatus
    ensures r.Some? && Get(order, "client").Obj? ==>
              r.value.client == IdOf(Get(order, "client").fields)
  {
    match Member(Get(order, "client"), "id")
    case None => None
    case Some(clientId) => Some(UpdateRequest(IdOf(order), newStatus, clientId))
  }

  /** `changeOrderStatus`: `reply` stands for the server's `updateOrder`
      result. On success the card shows the status the server returned and
      recolours; a failed request, a missing client or a reply without a
      readable `status` leave the card as it was (the error is only logged). */
  function ChangeOrderStatus(card: Card, order: Record, newStatus: Val, reply: Result<Val, string>): (next: Card)
    ensures StatusUpdateRequest(order, newStatus).None? || reply.Failure? ==> next == card
    ensures StatusUpdateRequest(order, newStatus).Some? && reply.Success? &&
            Member(reply.value, "status").Some? ==>
              next.statusOrder == Member(reply.value, "status").value
    ensures reply.Success? && Member(reply.value, "status").None? ==> next == card
    ensures next.statusOrder != card.statusOrder ==>
              next.statusColor == ChangeStatusColor(next.statusOrder, card.statusColor)
    ensures next.statusOrder == card.statusOrder ==> next == card
  {
    if StatusUpdateRequest(order, newStatus).None? then card
    else match reply
      case Failure(_) => card
      case Success(updated) =>
        match Member(updated, "status")
        case None => card
        case Some(status) =>
          if status == card.statusOrder then card
          else StatusEffect(card.(statusOrder := status))
  }

  /** The delete rewrite of the cached `getOrdersBySeller` list. */
  function DeleteOrderUpdate(cached: seq<Record>, order: Record): (r: seq<Record>)
    ensures forall x :: x in r ==> IdOf(x) != IdOf(order)
    ensures forall x :: x in cached && IdOf(x) != IdOf(order) ==> x in r
    ensures |r| == |CacheLists.KeptIndices(cached, IdOf(order), 0)|
    ensures forall k :: 0 <= k < |r| ==> r[k] == cached[CacheLists.KeptIndices(cached, IdOf(order), 0)[k]]
  {
    CacheLists.RemoveByIdKeepsOrder(cached, IdOf(order), 0);
    assert cached[0..] == cached;
    CacheLists.RemoveById(cached, IdOf(order))
  }

  /** A status change keeps the card settled, and when the server echoes
      the requested status the card shows it with that status's border. */
  lemma ChangeOrderStatusKeepsSettled(card: Card, order: Record, newStatus: Val, reply: Result<Val, string>)
    requires Settled(card)
    ensures Settled(ChangeOrderStatus(card, order, newStatus, reply))
    ensures StatusUpdateRequest(order, newStatus).Some? && reply == Success(Obj(map["status" := newStatus])) ==>
              ChangeOrderStatus(card, order, newStatus, reply) ==
              Card(newStatus, ChangeStatusColor(newStatus, card.statusColor))
  {
  }
}
