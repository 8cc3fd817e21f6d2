/** One row of the quantity step of the new-order wizard: the row keeps a
    local quantity and, whenever it changes (and once when the row first
    renders), dispatches the product with that quantity and then asks for
    the total to be recomputed. */
module ProductSummary {
  import opened JsValues
  import opened OrderState

  /** A row: the product it shows and its local quantity state. */
  datatype Row = Row(product: Record, quantity: int)

  /** A row as first rendered: the local quantity starts at 0. */
  function MountRow(product: Record): (row: Row)
    ensures row.product == product && row.quantity == 0
  {
    Row(product, 0)
  }

  /** `{ ...product, quantity: Number(quantity) }`. */
  function QuantityLine(product: Record, quantity: int): (line: Record)
    ensures line.Keys == product.Keys + {"quantity"}
    ensures line["quantity"] == Num(quantity)
    ensures forall k :: k in product && k != "quantity" ==> line[k] == product[k]
  {
    product + map["quantity" := Num(quantity)]
  }

  /** The body of the row's effect: `updateQuantity()` then `updateTotal()`. */
  function RowEffects(row: Row): (actions: seq<Action>)
    ensures |actions| == 2
    ensures actions[0].QuantityProducts? && actions[0].line == QuantityLine(row.product, row.quantity)
    ensures actions[1].UpdateTotal?
  {
    [QuantityProductsAction(QuantityLine(row.product, row.quantity)), UpdateTotalAction()]
  }

  /** The effect keyed on the local quantity: it runs on the first render
      (`previous` is `None`) and whenever the quantity differs from the one
      of the previous render. */
  function EffectsAfterRender(previous: Option<int>, row: Row): (actions: seq<Action>)
    ensures previous == Some(row.quantity) ==> actions == []
    ensures previous != Some(row.quantity) ==> actions == RowEffects(row)
  {
    if previous == Some(row.quantity) then [] else RowEffects(row)
  }

  /** The input's `onChange`: the typed value becomes the local quantity. */
  function OnChange(row: Row, entered: int): (next: Row)
    ensures next.product == row.product && next.quantity == entered
  {
    row.(quantity := entered)
  }

  /** Whatever the reducer does, a first render and every edit that changes
      the quantity apply the line update before the total recompute; an edit
      to the same value dispatches nothing. The entered value is passed on
      as it is, with no clamping. */
  lemma EditDispatchOrder(reduce: (Order, Action) -> Order, s: Order, row: Row, entered: int)
    ensures Run(reduce, s, EffectsAfterRender(None, MountRow(row.product))) ==
            reduce(reduce(s, QuantityProducts(QuantityLine(row.product, 0))), UpdateTotal)
    ensures entered != row.quantity ==>
              Run(reduce, s, EffectsAfterRender(Some(row.quantity), OnChange(row, entered))) ==
              reduce(reduce(s, QuantityProducts(QuantityLine(row.product, entered))), UpdateTotal)
    ensures entered == row.quantity ==>
              Run(reduce, s, EffectsAfterRender(Some(row.quantity), OnChange(row, entered))) == s
  {
    var first := RowEffects(MountRow(row.product));
    var s1 := reduce(s, first[0]);
    assert Run(reduce, s, first) == Run(reduce, s1, first[1..]);
    assert Run(reduce, s1, first[1..]) == Run(reduce, reduce(s1, first[1]), first[1..][1..]);
    assert first[1..][1..] == [];
    var edited := RowEffects(OnChange(row, entered));
    var e1 := reduce(s, edited[0]);
    assert Run(reduce, s, edited) == Run(reduce, e1, edited[1..]);
    assert Run(reduce, e1, edited[1..]) == Run(reduce, reduce(e1, edited[1]), edited[1..][1..]);
    assert edited[1..][1..] == [];
  }

  /** A later edit overwrites the quantity of an earlier one: only the last
      entered value is on the line. */
  lemma QuantityLineOverwrites(product: Record, first: int, second: int)
    ensures QuantityLine(QuantityLine(product, first), second) == QuantityLine(product, second)
  {
  }
}
