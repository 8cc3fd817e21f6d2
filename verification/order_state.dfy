/** The order-in-progress store of the new-order wizard: its initial state,
    the actions it dispatches, and the merge that reconciles a fresh product
    multi-selection with the lines already held. The reducer that applies
    the actions is not part of this model; it enters as a parameter. */
module OrderState {
  import opened JsValues

  /** The `client` slot: the initial empty list, or the option object the
      client selector hands over. */
  datatype ClientRef = ClientList(items: seq<Val>) | ClientObj(fields: Record)

  /** The store's state: client, product lines and the total. */
  datatype Order = Order(client: ClientRef, products: seq<Record>, total: Val)

  /** The actions dispatched to the reducer. */
  datatype Action =
    | SelectClient(client: ClientRef)
    | SelectProduct(products: seq<Record>)
    | QuantityProducts(line: Record)
    | UpdateTotal

  /** The state the store starts from. */
  const InitialState: Order := Order(ClientList([]), [], Num(0))

  /** `addClient`: the chosen client goes out as the payload as it is. */
  function AddClient(client: ClientRef): (a: Action)
    ensures a.SelectClient? && a.client == client
  {
    SelectClient(client)
  }

  /** `quantityProducts`: the edited line goes out as the payload as it is. */
  function QuantityProductsAction(line: Record): (a: Action)
    ensures a.QuantityProducts? && a.line == line
  {
    QuantityProducts(line)
  }

  /** `updateTotal`: an action without payload. */
  function UpdateTotalAction(): (a: Action)
    ensures a.UpdateTotal?
  {
    UpdateTotal
  }

  /** The index of the first held line whose id is `id` (`find` returns the
      first match). */
  function FirstById(held: seq<Record>, id: Val): (r: Option<nat>)
    ensures r.Some? ==> r.value < |held| && IdOf(held[r.value]) == id
    ensures r.Some? ==> forall j :: 0 <= j < r.value ==> IdOf(held[j]) != id
    ensures r.None? ==> forall j :: 0 <= j < |held| ==> IdOf(held[j]) != id
  {
    if |held| == 0 then None
    else if IdOf(held[0]) == id then Some(0)
    else match FirstById(held[1..], id)
      case None => None
      case Some(k) => Some(k + 1)
  }

  /** `{ ...product, ...newObject }`: the held line, when there is one, is
      spread over the selected product. */
  function Overlay(product: Record, held: seq<Record>): Record
  {
    match FirstById(held, IdOf(product))
    case None => product
    case Some(j) => product + held[j]
  }

  /** `addProducts`' merge of the held lines with a fresh selection. */
  function MergeSelection(held: seq<Record>, selected: seq<Record>): (r: seq<Record>)
    ensures |r| == |selected|
    ensures |held| == 0 ==> r == selected
    ensures forall i :: 0 <= i < |selected| ==> IdOf(r[i]) == IdOf(selected[i])
    ensures forall i :: 0 <= i < |selected| && FirstById(held, IdOf(selected[i])).None? ==>
              r[i] == selected[i]
    ensures forall i :: 0 <= i < |selected| && FirstById(held, IdOf(selected[i])).Some? ==>
              var h := held[FirstById(held, IdOf(selected[i])).value];
              r[i].Keys == selected[i].Keys + h.Keys &&
              (forall k :: k in h ==> r[i][k] == h[k]) &&
              (forall k :: k in selected[i] && k !in h ==> r[i][k] == selected[i][k])
  {
    if |held| > 0 then
      seq(|selected|, i requires 0 <= i < |selected| => Overlay(selected[i], held))
    else
      selected
  }

  /** `addProducts`: the merged line list goes out as the payload. */
  function AddProducts(state: Order, selected: seq<Record>): (a: Action)
    ensures a.SelectProduct? && a.products == MergeSelection(state.products, selected)
    ensures |a.products| == |selected|
    ensures |state.products| == 0 ==> a.products == selected
  {
    SelectProduct(MergeSelection(state.products, selected))
  }

  /** Held lines whose id the selection does not carry are dropped. */
  lemma MergeDropsDeselected(held: seq<Record>, selected: seq<Record>, h: Record)
    requires h in held
    requires forall i :: 0 <= i < |selected| ==> IdOf(selected[i]) != IdOf(h)
    ensures h !in MergeSelection(held, selected)
  {
  }

  /** A quantity entered on a held line survives re-selecting its product,
      and only the first held line with that id contributes. */
  lemma MergeKeepsHeldQuantity(held: seq<Record>, selected: seq<Record>, i: nat, j: nat)
    requires i < |selected| && j < |held|
    requires IdOf(held[j]) == IdOf(selected[i])
    requires forall j' :: 0 <= j' < j ==> IdOf(held[j']) != IdOf(held[j])
    requires "quantity" in held[j]
    ensures "quantity" in MergeSelection(held, selected)[i]
    ensures MergeSelection(held, selected)[i]["quantity"] == held[j]["quantity"]
  {
  }

  /** A freshly selected product with no held line gains no `quantity`. */
  lemma MergeAddsNoQuantity(held: seq<Record>, selected: seq<Record>, i: nat)
    requires i < |selected|
    requires forall j :: 0 <= j < |held| ==> IdOf(held[j]) != IdOf(selected[i])
    ensures MergeSelection(held, selected)[i] == selected[i]
    ensures "quantity" in MergeSelection(held, selected)[i] <==> "quantity" in selected[i]
  {
  }

  /** No two lines share an id (a multi-select never offers one option twice). */
  predicate UniqueIds(lines: seq<Record>)
  {
    forall a, b :: 0 <= a < b < |lines| ==> IdOf(lines[a]) != IdOf(lines[b])
  }

  /** Handing the same selection over again changes nothing: the merged
      lines are stable under a repeated `addProducts`. */
  lemma MergeIdempotent(held: seq<Record>, selected: seq<Record>)
    requires UniqueIds(selected)
    ensures MergeSelection(MergeSelection(held, selected), selected) == MergeSelection(held, selected)
  {
    var r := MergeSelection(held, selected);
    if |r| > 0 {
      var r2 := MergeSelection(r, selected);
      forall i | 0 <= i < |selected|
        ensures r2[i] == r[i]
      {
        MergedLineFoundAtOwnIndex(held, selected, i);
        assert r2[i] == Overlay(selected[i], r);
        OverlayAbsorbs(held, selected[i]);
      }
    }
  }

  /** In the merged list of a selection without repeated ids, the first line
      carrying the id of selected product `i` is line `i` itself. */
  lemma MergedLineFoundAtOwnIndex(held: seq<Record>, selected: seq<Record>, i: nat)
    requires UniqueIds(selected) && i < |selected|
    ensures FirstById(MergeSelection(held, selected), IdOf(selected[i])) == Some(i)
  {
  }

  /** Spreading a product's overlay over the product gives the overlay back. */
  lemma OverlayAbsorbs(held: seq<Record>, product: Record)
    ensures product + Overlay(product, held) == Overlay(product, held)
  {
  }

  /** Applies a sequence of dispatched actions in order, given the reducer. */
  function Run(reduce: (Order, Action) -> Order, s: Order, actions: seq<Action>): Order
    decreases |actions|
  {
    if |actions| == 0 then s else Run(reduce, reduce(s, actions[0]), actions[1..])
  }
}
