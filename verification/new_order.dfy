/** The new-order page: the flag that greys out the "Register Order" button,
    the mutation input built from the store on click, and the message shown
    when the mutation fails. The flag only styles the button; the click
    handler is attached whatever its value. */
module NewOrder {
  import opened JsValues
  import opened JsStrings
  import opened OrderState
  import ProductSummary

  /** `product.quantity > 0` for a quantity that is absent, null, boolean or
      numeric. */
  predicate QuantityPositive(line: Record)
  {
    match Get(line, "quantity")
    case Num(n) => n > 0
    case Bool(b) => b
    case _ => false
  }

  /** `client.length === 0`: the initial empty list, or an object whose own
      `length` property is 0. */
  predicate ClientLengthZero(client: ClientRef)
  {
    match client
    case ClientList(items) => |items| == 0
    case ClientObj(fields) => Get(fields, "length") == Num(0)
  }

  /** The condition `validateOrder` tests. */
  predicate NotReady(s: Order)
  {
    || !(forall i :: 0 <= i < |s.products| ==> QuantityPositive(s.products[i]))
    || s.total == Num(0)
    || ClientLengthZero(s.client)
  }

  const DisabledClasses: string := " opacity-50 cursor-not-allowed "

  /** `validateOrder()`: the extra classes of the button. */
  function ValidateOrder(s: Order): (classes: string)
    ensures NotReady(s) ==> classes == DisabledClasses
    ensures !NotReady(s) ==> classes == ""
  {
    if NotReady(s) then DisabledClasses else ""
  }

  /** A line with a quantity of zero or below raises the flag. */
  lemma NonPositiveQuantityNotReady(s: Order, i: nat, n: int)
    requires i < |s.products| && Get(s.products[i], "quantity") == Num(n) && n <= 0
    ensures NotReady(s)
    ensures ValidateOrder(s) == DisabledClasses
  {
  }

  /** A line as a freshly mounted row dispatches it, with quantity 0, keeps
      the flag raised. */
  lemma MountedLineNotReady(s: Order, i: nat, product: Record)
    requires i < |s.products| && s.products[i] == ProductSummary.QuantityLine(product, 0)
    ensures NotReady(s)
  {
    NonPositiveQuantityNotReady(s, i, 0);
  }

  /** A line that never had its quantity set raises the flag too. */
  lemma NotReadyWithoutQuantity(s: Order, i: nat)
    requires i < |s.products| && Get(s.products[i], "quantity") == Undefined
    ensures NotReady(s)
  {
  }

  /** A total of exactly 0, or the initial empty client list, raises the
      flag; an empty product list on its own does not, since `every` over no
      lines holds. */
  lemma FlagConditions(client: Record, lines: seq<Record>, total: Val)
    ensures NotReady(Order(ClientList([]), lines, total))
    ensures NotReady(Order(ClientObj(client), lines, Num(0)))
    ensures NotReady(Order(ClientObj(client), [], total)) <==>
              total == Num(0) || Get(client, "length") == Num(0)
  {
  }

  /** The store as first created is flagged. */
  lemma InitialStateNotReady()
    ensures NotReady(InitialState)
    ensures ValidateOrder(InitialState) == DisabledClasses
  {
  }

  /** `({ __typename, stock, ...product }) => product`. */
  function PayloadLine(line: Record): (p: Record)
    ensures p.Keys == line.Keys - {"__typename", "stock"}
    ensures forall k :: k in p ==> p[k] == line[k]
  {
    line - {"__typename", "stock"}
  }

  /** The `OrderInput` variables of the `newOrder` mutation. */
  datatype OrderInput = OrderInput(client: Val, total: Val, order: seq<Record>)

  /** `client.id`: the selected client's id; the initial list has none. */
  function ClientId(client: ClientRef): (id: Val)
    ensures client.ClientList? ==> id == Undefined
    ensures client.ClientObj? ==> id == IdOf(client.fields)
  {
    match client
    case ClientList(_) => Undefined
    case ClientObj(fields) => IdOf(fields)
  }

  /** `createNewOrder`'s input: one stripped line per product, in order,
      with the client's id and the stored total. */
  function CreateOrderInput(s: Order): (input: OrderInput)
    ensures input.client == ClientId(s.client) && input.total == s.total
    ensures |input.order| == |s.products|
    ensures forall i :: 0 <= i < |s.products| ==>
              input.order[i].Keys == s.products[i].Keys - {"__typename", "stock"} &&
              forall k :: k in input.order[i] ==> input.order[i][k] == s.products[i][k]
  {
    OrderInput(ClientId(s.client), s.total,
               seq(|s.products|, i requires 0 <= i < |s.products| => PayloadLine(s.products[i])))
  }

  /** The rendered "Register Order" button. */
  datatype Button = Button(className: string, onClick: OrderInput)

  const ButtonBaseClasses: string :=
    "bg-blue-500 w-full text-white px-4 py-2 mt-5 rounded font-semibold hover:bg-blue-400 whitespace-nowrap "

  /** The button: the flag only appends classes (the template also appends a
      stray `}`), and the click sends the order whatever the flag says. */
  function RegisterButton(s: Order): (b: Button)
    ensures b.className == ButtonBaseClasses + ValidateOrder(s) + "}"
    ensures b.onClick == CreateOrderInput(s)
  {
    Button(ButtonBaseClasses + ValidateOrder(s) + "}", CreateOrderInput(s))
  }

  /** Submission is not blocked: a flagged state's click still carries every
      product line to the mutation. */
  lemma FlaggedOrderStillSubmits(s: Order)
    requires NotReady(s)
    ensures RegisterButton(s).className == ButtonBaseClasses + DisabledClasses + "}"
    ensures RegisterButton(s).onClick == CreateOrderInput(s)
  {
  }

  /** The failure message: the error text without its first
      "GraphQL error: ". */
  function FailureMessage(error: string): (message: string)
    ensures IndexOf(error, GraphQLErrorPrefix).None? ==> message == error
    ensures |error| >= |GraphQLErrorPrefix| && error[..|GraphQLErrorPrefix|] == GraphQLErrorPrefix ==>
              message == error[|GraphQLErrorPrefix|..]
    ensures IndexOf(error, GraphQLErrorPrefix).Some? ==>
              var i := IndexOf(error, GraphQLErrorPrefix).value;
              |message| == |error| - |GraphQLErrorPrefix| &&
              message[..i] + GraphQLErrorPrefix + message[i..] == error
  {
    RemoveLeadingPattern(error, GraphQLErrorPrefix);
    RemoveFirst(error, GraphQLErrorPrefix)
  }

  /** The message box colour: green only for "Order created". */
  function MessageClass(message: string): (c: string)
    ensures c == "bg-green-500" <==> message == "Order created"
    ensures c == "bg-yellow-500" <==> message != "Order created"
  {
    if message != "Order created" then "bg-yellow-500" else "bg-green-500"
  }

  /** The scenario of re-selecting products after quantities were entered:
      the kept product keeps its quantity, the `SELECT_PRODUCT` payload gives
      the new one no quantity, and the button is greyed out again (and stays
      grey after the new row's mount dispatch of quantity 0, until a positive
      quantity is entered). */
  lemma ReselectionScenario(client: Record)
    requires Get(client, "length") != Num(0)
    ensures var p1 := map["id" := Str("p1"), "price" := Num(5)];
            var p2 := map["id" := Str("p2"), "price" := Num(3)];
            var p3 := map["id" := Str("p3"), "price" := Num(4)];
            var held := [p1["quantity" := Num(2)], p2["quantity" := Num(1)]];
            var ready := Order(ClientObj(client), held, Num(13));
            var merged := MergeSelection(held, [p1, p3]);
            && !NotReady(ready)
            && merged == [p1["quantity" := Num(2)], p3]
            && NotReady(ready.(products := merged))
  {
    var p1 := map["id" := Str("p1"), "price" := Num(5)];
    var p2 := map["id" := Str("p2"), "price" := Num(3)];
    var p3 := map["id" := Str("p3"), "price" := Num(4)];
    var held := [p1["quantity" := Num(2)], p2["quantity" := Num(1)]];
    var ready := Order(ClientObj(client), held, Num(13));
    assert QuantityPositive(held[0]) && QuantityPositive(held[1]);
    assert !NotReady(ready);
    ReselectionMerge(p1, p2, p3, 2, 1);
    var merged := MergeSelection(held, [p1, p3]);
    assert Get(merged[1], "quantity") == Undefined;
    NotReadyWithoutQuantity(ready.(products := merged), 1);
  }

  /** The merge step of the scenario, for any three products with distinct
      ids: re-selecting [p1, p3] over lines p1 and p2 with quantities keeps
      p1's line with its quantity and adds p3 as selected. */
  lemma ReselectionMerge(p1: Record, p2: Record, p3: Record, q1: int, q2: int)
    requires IdOf(p1) != IdOf(p2) && IdOf(p1) != IdOf(p3) && IdOf(p2) != IdOf(p3)
    ensures MergeSelection([p1["quantity" := Num(q1)], p2["quantity" := Num(q2)]], [p1, p3]) ==
            [p1["quantity" := Num(q1)], p3]
  {
    var held := [p1["quantity" := Num(q1)], p2["quantity" := Num(q2)]];
    assert IdOf(held[0]) == IdOf(p1) && IdOf(held[1]) == IdOf(p2);
    assert FirstById(held, IdOf(p1)) == Some(0);
    var merged := MergeSelection(held, [p1, p3]);
    assert merged[0] == p1 + held[0] == held[0];
  }

  /** A quantity dispatched by a row reaches the payload unchanged, while the
      catalog-only keys do not. */
  lemma PayloadKeepsRowQuantity(product: Record, quantity: int)
    ensures var p := PayloadLine(ProductSummary.QuantityLine(product, quantity));
            && "quantity" in p && p["quantity"] == Num(quantity)
            && "stock" !in p && "__typename" !in p
            && forall k :: k in product && k !in {"quantity", "stock", "__typename"} ==> k in p && p[k] == product[k]
  {
  }

  /** The catalog-only keys never reach the server: the order input is the
      same whatever stock or type name the store's lines carry. */
  lemma OrderInputIgnoresCatalogKeys(s: Order, i: nat, stock: Val, typename: Val)
    requires i < |s.products|
    ensures var line := s.products[i]["stock" := stock]["__typename" := typename];
            CreateOrderInput(s.(products := s.products[i := line])) == CreateOrderInput(s)
  {
    var line := s.products[i]["stock" := stock]["__typename" := typename];
    var s' := s.(products := s.products[i := line]);
    assert PayloadLine(line) == PayloadLine(s.products[i]);
    assert CreateOrderInput(s').order == CreateOrderInput(s).order;
  }
}
