# Order composition and cached-list logic of the CRM front-end

This project models the logic of the CRM back-office front-end that is not
rendering. Each part is a pure function over immutable values:

- **Order store** (`OrderState`). It holds the order being composed: the
  client, the product lines and the total. Its dispatchers forward their
  argument as the action payload. `addProducts` merges a fresh product
  multi-selection with the lines already held. Each selected product has the
  first held line with the same `id` spread over it (`{ ...product, ...held }`).
  So held fields win every conflict, `quantity` included. Unmatched products
  pass through as they are. Held lines that were not re-selected are dropped.
- **Quantity row** (`ProductSummary`). A row's local quantity starts at 0.
  On the first render and on every change, the row dispatches the product
  with `quantity` set to the entered number, and then the total recompute.
- **New-order page** (`NewOrder`). The `validateOrder` flag is raised when a
  line's quantity is not positive, when the total is exactly 0, or when the
  client is still the initial empty list. The flag only adds CSS classes; the
  click handler always sends the order. The mutation input strips
  `__typename` and `stock` from every line. On failure the message is the
  error text with the first "GraphQL error: " removed.
- **Order card** (`OrderCard`): the status-to-border-class mapping, the
  status-update request and its effect on the card, and the delete rewrite of
  the cached order list.
- **Cached lists** (`CacheLists`, `ClientCard`, `ProductCard`, `NewClient`,
  `NewProduct`). A delete keeps exactly the entries with another id, in
  order. A create appends the new entry without deduplicating. The create
  pages project the form values onto the mutation input.
- **Reports** (`Reports`, `BestClients`, `BestSellers`). Entry `i` of a report
  becomes chart row `i`: the first nested person's fields, with the entry's
  `total` on top.

JavaScript values are the datatype `JsValues.Val`. A record is a
`map<string, Val>`, and object spread is Dafny's right-biased map `+`. A
missing property reads as `Undefined`. Reading a property of `undefined` or
`null` yields `None`, which stands for the TypeError JavaScript throws.
Strict equality `===` on the ids and statuses involved is value equality on
`Val`.

The reducer that applies `QUANTITY_PRODUCTS` and `UPDATE_TOTAL`
(context/orders/OrderReducer.js) is not part of this model. It enters as a
function-valued parameter `reduce`, and nothing is claimed about it.

The model follows the code in four places where the order wizard's
intent might suggest otherwise:
- `addProducts` adds no `quantity` key to a newly selected product
  (`OrderState.MergeAddsNoQuantity`). The row then mounted for it dispatches
  the line with quantity 0 (`ProductSummary.EditDispatchOrder`); what that
  does to the store depends on the reducer, which is not modelled.
- On a re-selected product the held line's catalog fields win as well, not
  only its quantity.
- The readiness flag does not block submission.
- An empty product list does not raise the flag on its own.

## Model

| member | source | states |
|---|---|---|
| OrderState.AddClient | context/orders/OrderState.js:23-28 | the chosen client is the `SELECT_CLIENT` payload, untransformed |
| OrderState.QuantityProductsAction | context/orders/OrderState.js:52-57 | the edited line is the `QUANTITY_PRODUCTS` payload, untransformed |
| OrderState.UpdateTotalAction | context/orders/OrderState.js:60-64 | `updateTotal` dispatches the payload-free `UPDATE_TOTAL` action |
| OrderState.FirstById | context/orders/OrderState.js:36-38 | `find` returns the first held line whose id matches, and nothing when no line matches |
| OrderState.MergeSelection | context/orders/OrderState.js:31-43 | with no held lines the result is the selection itself; otherwise it has the selection's length, line i keeps selected product i's id, an unmatched product is emitted unchanged, and a matched one has the union of keys with every held value winning |
| OrderState.AddProducts | context/orders/OrderState.js:31-49 | `SELECT_PRODUCT` carries the merge of the held lines with the selection: one line per selected product, and exactly the selection when nothing was held |
| OrderState.MergeDropsDeselected | context/orders/OrderState.js:35-40 | a held line whose id is not selected does not appear in the merged list |
| OrderState.MergeKeepsHeldQuantity | context/orders/OrderState.js:35-40 | the quantity of the first held line with a selected product's id is the merged line's quantity |
| OrderState.MergeAddsNoQuantity | context/orders/OrderState.js:36-39 | a selected product without a held match is emitted as it is, gaining no `quantity` key |
| OrderState.MergeIdempotent | context/orders/OrderState.js:35-40 | merging the same (id-unique) selection again leaves the merged lines unchanged |
| OrderState.MergedLineFoundAtOwnIndex | context/orders/OrderState.js:36-38 | in a merge of an id-unique selection, `find` by the id of product i hits line i |
| OrderState.OverlayAbsorbs | context/orders/OrderState.js:39 | spreading a product's overlay over the product gives the overlay back |
| NewOrder.InitialStateNotReady | context/orders/OrderState.js:13-17 | the initial state (empty client list, no products, total 0) is flagged not ready |
| ProductSummary.MountRow | components/orders/ProductSummary.js:10 | a row's local quantity starts at 0 |
| ProductSummary.QuantityLine | components/orders/ProductSummary.js:17-18 | the dispatched line is the product with only `quantity` set to exactly the entered number, overwriting any old one, with no clamping |
| ProductSummary.QuantityLineOverwrites | components/orders/ProductSummary.js:18 | setting the quantity of a line that already has one keeps only the new value |
| ProductSummary.RowEffects | components/orders/ProductSummary.js:12-15 | the effect dispatches the quantity line first and the total recompute second |
| ProductSummary.EffectsAfterRender | components/orders/ProductSummary.js:12-15 | the effect runs on the first render and whenever the quantity changed, and dispatches nothing otherwise |
| ProductSummary.OnChange | components/orders/ProductSummary.js:40-42 | the typed value becomes the row's quantity and the product is kept |
| ProductSummary.EditDispatchOrder | components/orders/ProductSummary.js:12-21 | for any reducer, mounting applies the line with quantity 0 then the recompute; an edit applies the new line then the recompute; an unchanged value applies nothing |
| NewOrder.ValidateOrder | pages/neworder.js:33-39 | the disabled classes are returned exactly when some line's quantity is not positive, the total is 0, or the client's length is 0 |
| NewOrder.NonPositiveQuantityNotReady | pages/neworder.js:34 | a line with quantity 0 or below raises the flag |
| NewOrder.MountedLineNotReady | components/orders/ProductSummary.js:10-18 | the line a freshly mounted row dispatches carries quantity 0 and so keeps the flag raised |
| NewOrder.NotReadyWithoutQuantity | pages/neworder.js:34 | a line whose quantity reads as `undefined` raises the flag |
| NewOrder.FlagConditions | pages/neworder.js:34-36 | a total of 0 or the initial empty client list raises the flag; with no products the flag depends on total and client alone |
| NewOrder.PayloadLine | pages/neworder.js:46 | a payload line is the product minus exactly `__typename` and `stock`, every other key and value kept |
| NewOrder.PayloadKeepsRowQuantity | pages/neworder.js:46 | a quantity set by a row reaches the payload line unchanged, `stock` and `__typename` do not, and every other product key does |
| NewOrder.OrderInputIgnoresCatalogKeys | pages/neworder.js:44-55 | the order input does not depend on the stock or type name a line carries |
| NewOrder.ClientId | pages/neworder.js:52 | `client.id` is the selected client's id, and `undefined` for the initial list |
| NewOrder.CreateOrderInput | pages/neworder.js:44-57 | the mutation input has one stripped line per product in order, the client's id and the stored total |
| NewOrder.RegisterButton | pages/neworder.js:107-110 | the flag only appends classes (plus a stray `}`); the click always carries exactly the order input built from the store |
| NewOrder.FlaggedOrderStillSubmits | pages/neworder.js:107-110 | a flagged state is styled as disabled yet its click still sends the full order input |
| NewOrder.FailureMessage | pages/neworder.js:69 | the message is the error text with the first "GraphQL error: " removed, wherever it occurs: splicing the prefix back at its first index rebuilds the error; the rest after a leading prefix; unchanged when absent |
| NewOrder.MessageClass | pages/neworder.js:77-87 | the message box is green exactly for "Order created" and yellow otherwise |
| NewOrder.ReselectionScenario | context/orders/OrderState.js:31-49 | a ready order re-selected to [p1, p3] keeps p1's quantity 2, the `SELECT_PRODUCT` payload gives p3 no quantity, and the order is flagged again |
| NewOrder.ReselectionMerge | context/orders/OrderState.js:35-40 | for any three products with distinct ids, re-selecting [p1, p3] over lines p1 and p2 with quantities gives p1's line with its quantity, then p3 as selected |
| OrderCard.ChangeStatusColor | components/Order.js:65-79 | Pending, Delivered and Cancelled map to yellow, green and red borders; any other status keeps the current class |
| OrderCard.ChangeStatusColorIdempotent | components/Order.js:57-62 | re-running the colour effect for the same status changes nothing |
| OrderCard.StatusEffect | components/Order.js:57-62 | the status effect keeps the status and recolours for it |
| OrderCard.MountCard | components/Order.js:29-34 | the card first shows the order's own status, with the Pending, Delivered or Cancelled border for those statuses and none otherwise |
| OrderCard.MountCardSettled | components/Order.js:32-34 | a freshly mounted card's border already matches its status |
| OrderCard.StatusUpdateRequest | components/Order.js:84-92 | the request targets the order's id with the new status and the order's client id, and cannot be built when the order has no client |
| OrderCard.ChangeOrderStatus | components/Order.js:82-97 | after a successful update the card shows the status the server returned; failures, a missing client, a reply whose `updateOrder` is null or undefined (the caught TypeError), and a reply echoing the shown status leave the card unchanged |
| OrderCard.ChangeOrderStatusKeepsSettled | components/Order.js:57-97 | a status change keeps border and status consistent; when the server echoes the requested status the card shows it with that status's border |
| OrderCard.DeleteOrderUpdate | components/Order.js:48-50 | the cached orders keep exactly those with another id, in their original order |
| CacheLists.RemoveById | components/Order.js:48-50 | the filter keeps only entries with another id, and keeps all of them |
| CacheLists.KeptIndices | components/Order.js:48-50 | the kept positions are increasing and are exactly the positions with another id |
| CacheLists.RemoveByIdKeepsOrder | components/Order.js:48-50 | the filtered list is the original read at the kept positions, so relative order is preserved |
| CacheLists.RemoveAbsentId | components/Client.js:37-39 | filtering an id nobody carries is the identity |
| CacheLists.RemoveByIdIdempotent | components/Product.js:36-38 | filtering twice equals filtering once |
| CacheLists.Append | pages/newclient.js:44 | the list grows by one, old entries unchanged and in order, the new one last |
| CacheLists.RemoveAfterAppend | pages/newproduct.js:45 | filtering out a just-appended entry's id gives the same list as filtering the old cache |
| CacheLists.AppendCountsDuplicate | pages/newclient.js:44 | appending does not deduplicate: one more entry carries the new id |
| ClientCard.DeleteClientUpdate | components/Client.js:37-39 | no cached client keeps the deleted id, every other client is kept, in order |
| ClientCard.DeleteClientAbsentId | components/Client.js:37-39 | deleting an id that is not cached leaves the list unchanged |
| ClientCard.DeleteClientIdempotent | components/Client.js:37-39 | applying the delete rewrite twice equals applying it once |
| ProductCard.DeleteProductUpdate | components/Product.js:36-38 | no cached product keeps the deleted id, every other product is kept, in order |
| ProductCard.DeleteProductAbsentId | components/Product.js:36-38 | deleting an id that is not cached leaves the list unchanged |
| ProductCard.DeleteProductIdempotent | components/Product.js:36-38 | applying the delete rewrite twice equals applying it once |
| NewClient.AddClientUpdate | pages/newclient.js:36-46 | the created client is appended after the unchanged old entries, even when its id is already cached |
| NewClient.ClientInput | pages/newclient.js:72-84 | the input carries exactly name, lastName, company, email and phone from the form values |
| NewClient.SubmitMessage | pages/newclient.js:86-98 | success shows the fixed confirmation; a failure shows the error text with the first "GraphQL error: " removed, wherever it occurs (splicing it back rebuilds the error) |
| NewClient.MessageClass | pages/newclient.js:106 | the box is red exactly when the message is "Client already exists", green otherwise |
| NewClient.DuplicateClientShowsRed | pages/newclient.js:93-106 | the server's duplicate-client error, with or without the "GraphQL error: " prefix, shows red |
| NewClient.SuccessShowsGreen | pages/newclient.js:86-87 | any successful creation shows the confirmation in green |
| NewClient.ClientInputIgnoresOtherFields | pages/newclient.js:72-84 | a form value outside the five client fields never reaches the mutation |
| NewProduct.AddProductUpdate | pages/newproduct.js:37-47 | the created product is appended after the unchanged old entries, even when its id is already cached |
| NewProduct.ProductInput | pages/newproduct.js:68-77 | the input carries exactly name, price and stock from the form values |
| NewProduct.ProductInputIgnoresOtherFields | pages/newproduct.js:68-77 | a form value other than name, price and stock never reaches the mutation |
| NewProduct.CreateThenDelete | pages/newproduct.js:45 | deleting the product just appended gives the filtered old cache |
| Reports.FlattenEntry | pages/bestclients.js:49-52 | a chart row has the entry's total, overriding the person's, and otherwise the first person's keys; with no person only `total` |
| BestClients.ClientsChart | pages/bestclients.js:45-53 | the chart has one row per report entry; row i comes from entry i (no sorting), with its total and its first client's other keys |
| BestSellers.SellersChart | pages/bestsellers.js:45-53 | the chart has one row per report entry; row i comes from entry i (no sorting), with its total and its first seller's other keys |
| JsStrings.IndexOf | pages/neworder.js:69 | the index found is an occurrence with none before it; no index means no occurrence |
| JsStrings.RemoveFirst | pages/newclient.js:93 | the first occurrence is cut out: splicing the pattern back there rebuilds the text, which is one pattern longer; with no occurrence the text is unchanged |
| JsStrings.RemoveLeadingPattern | pages/neworder.js:69 | a text starting with the pattern loses exactly that leading copy |
| JsStrings.SpliceBack | pages/neworder.js:69 | cutting an occurrence out and splicing it back is the identity |
| JsStrings.RemoveFirstOfPrefixed | pages/neworder.js:69 | a prefixed message loses exactly the prefix |
| JsStrings.RemoveFirstKeepsLaterCopies | pages/neworder.js:69 | only the first occurrence is removed; a second copy survives |
| JsStrings.AbsentCharNoOccurrence | pages/newclient.js:93 | a text lacking a character of the prefix comes back unchanged |

## Left out

- The order reducer, the order context and the action-type constants (context/orders/OrderReducer.js, OrderContext.js, types.js) are not part of this model. The reducer is a parameter; how `QUANTITY_PRODUCTS` replaces a line and how `UPDATE_TOTAL` sums the total are not stated.
- GraphQL/Apollo I/O: queries, mutations, polling, and the `readQuery`/`writeQuery` mechanics. Only the list transform written back is modelled. A mutation's reply is a `Result` parameter.
- Rendering, routing, SweetAlert dialogs, `setTimeout` message clearing, local storage and the layout components.
- The pass-through glue of the client and product selectors; the model starts from the values they hand to the store.
- Formik/Yup validation schemas; their meaning lives in the libraries.
- Floating-point prices, `toFixed(2)` and date formatting. Numbers are integers here.
- ProductSummary.QuantityLine: `Number(input)` on arbitrary text (NaN, decimals) is not modelled; the entered quantity is an integer.
- ProductSummary.EffectsAfterRender: the local state is the input's text, so "5" and "05" count as a change in the source; the model compares the integers.
- NewOrder.ValidateOrder: `quantity > 0` on a string, array or object quantity (JavaScript coerces these) is treated as not positive; only absent, null, boolean and numeric quantities follow JavaScript exactly.
- OrderState.MergeSelection: ids are compared by value; two distinct objects used as ids would be unequal under `===` but may be equal here.
- JsValues.Member: inherited properties (prototype members) and index properties of arrays and strings are not modelled; only `length` is.
- BestClients.ClientsChart and BestSellers.SellersChart: the nested client/seller list is typed as a list of records, as the report query returns; spreading a non-object first element is not modelled.
