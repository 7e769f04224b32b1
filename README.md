# Order form line items and totals

This project models the line-item editor and total calculator of the order
form (`OrderFormComponent`) of an Angular order-management front end. The form
holds an ordered list of line items. Each item has a product name, a quantity,
a unit price and a derived line total. The form also holds VAT and discount
percentages and a derived grand total. The operations modelled are:

- `addItem`: appends an item and fills in defaults.
- `removeItem`: deletes the item at an index, then recalculates.
- `calculateTotal`: rewrites every line total as quantity times price, adds the
  line totals up in order, and writes the grand total
  `subtotal + subtotal*vat/100 - subtotal*discount/100`.
- The two branches of `ngOnInit`. A new order starts with one default item. An
  existing order, once it is fetched, is patched in: its VAT and discount are
  set, its items are appended through `addItem` in stored order, and the totals
  are recalculated.

Files:

- `js.dfy` (module `Js`): `undefined`/`null` as `Option.None`, and JavaScript
  truthiness with the `x || d` fallback. A number field is falsy when it is
  absent or `0`. A string field is falsy when it is absent or empty.
- `order_model.dfy` (module `OrderModel`): the stored order and line item of
  `src/app/models/order.model.ts`. The form reads these as untyped data, so
  every field it reads may be absent, the stored order's items array included.
- `order_form.dfy` (module `OrderForm`): the form as the class `Form`. Its
  fields are `items: seq<Line>`, `vat`, `discount` and `total`. Beside the class
  are the specification functions its methods are proved against and the
  lemmas about them. The arithmetic functions have no contracts of their own, so
  the table below cites the lemmas about them. All lines are in
  `src/app/orders/order-form/order-form.component.ts`:
  - `LineTotal` is one line's `qty * price` with `|| 0` on each factor (lines 90-92).
  - `Subtotal` is the in-order accumulation into `subtotal` (lines 88-95).
  - `SumOfTotals` adds up the totals the lines hold.
  - `GrandTotal` is the grand-total expression with `|| 0` on VAT and discount (lines 97-99).
  - `Form.Consistent` is the state `calculateTotal` leaves behind: every line's
    total control and the form's total control agree with these functions
    (lines 93 and 101).

Numbers are exact `real`s. `Form.Consistent()` says that the derived fields
agree with the inputs: every line total equals `qty * price`, and the form total
is `GrandTotal` of the sum of the line totals. The constructor, `CalculateTotal`
and `RemoveItem` establish it. `LoadOrder` establishes it when the stored order
has an items array. When it has none, `forEach` throws after VAT and discount
are patched in, so the new VAT and discount need not match the old grand total.
`AddItem` does not establish it, because `addItem` does not recalculate.

Two behaviours of the code are worth stating because one might expect otherwise.

- Negative quantities and prices are not clamped. Only falsy values (absent,
  `null`, `0`) are replaced by 0, so a positive quantity times a negative price
  gives a negative line total (`NegativePriceIsNotClamped`). Raising one line's
  quantity or price therefore does not always raise the totals. Raising a
  quantity never lowers them when that line's price is non-negative
  (`RaisingQtyRaisesTotals`). Raising a price never lowers them when that
  line's quantity is non-negative (`RaisingPriceRaisesTotals`). Both also need
  the discount to be at most 100 percent plus VAT.
- Line totals are not purely derived. `addItem` copies a stored `total` into
  the new line. That copy lasts only until the next recalculation, which the
  edit path runs straight after loading (`LoadIgnoresStoredTotals`).

## Model

| member | source | states |
|---|---|---|
| `OrderForm.Form.CalculateTotal` | src/app/orders/order-form/order-form.component.ts:87-102 | The new item list is `Recomputed(old items)`: same length, order, products, quantities and prices, with every line total set to `qty * price` (a falsy factor counts as 0). The grand total is `GrandTotal` of the old subtotal. VAT and discount are unchanged. The form is left `Consistent()`. On a form that is already consistent nothing changes (idempotence). |
| `OrderForm.Recomputed` | src/app/orders/order-form/order-form.component.ts:89-95 | The recalculated list keeps every line's product, quantity and price, in the same order and with the same length, and every line total equals quantity times price with falsy factors counted as 0. |
| `OrderForm.RecomputedUnique` | src/app/orders/order-form/order-form.component.ts:89-93 | Any list with the same inputs and consistent totals is exactly the recalculated list. Line totals depend only on quantity and price. |
| `OrderForm.ConsistentIsFixpoint` | src/app/orders/order-form/order-form.component.ts:87-102 | Recalculation leaves a list unchanged if and only if its line totals are already consistent. |
| `OrderForm.CalculateTwiceIsOnce` | src/app/orders/order-form/order-form.component.ts:87-102 | `calculateTotal` is idempotent. A second run produces the same lines and the same grand total as the first. |
| `OrderForm.SubtotalOfSameInputs` | src/app/orders/order-form/order-form.component.ts:89-95 | Two lists that differ only in their stored line totals have the same subtotal. |
| `OrderForm.SumOfTotalsIsSubtotal` | src/app/orders/order-form/order-form.component.ts:89-95 | When every line holds its own `qty * price`, the sum of the stored line totals equals the subtotal the loop accumulates. |
| `OrderForm.RecalculatedLines` | src/app/orders/order-form/order-form.component.ts:89-95 | Lines whose totals the loop overwrote one by one form the recalculated list, and their totals add up to the subtotal of the lines it started from. |
| `OrderForm.GrandTotalFactored` | src/app/orders/order-form/order-form.component.ts:97-99 | The grand total is the subtotal times `1 + vat/100 - discount/100`, so VAT and discount are not compounded and a falsy percentage counts as 0. An empty subtotal gives 0 whatever the percentages are. Equal VAT and discount cancel out. |
| `OrderForm.GrandTotalMonotone` | src/app/orders/order-form/order-form.component.ts:99 | The grand total does not decrease as the subtotal grows, provided the discount is at most 100 percent plus VAT. |
| `OrderForm.SubtotalReplace` | src/app/orders/order-form/order-form.component.ts:89-95 | Replacing one line changes the subtotal by exactly the change in that line's total. |
| `OrderForm.RaisingQtyRaisesLineTotal` | src/app/orders/order-form/order-form.component.ts:90-92 | With a non-negative price, a larger quantity never gives a smaller line total. |
| `OrderForm.RaisingPriceRaisesLineTotal` | src/app/orders/order-form/order-form.component.ts:90-92 | With a non-negative quantity, a larger price never gives a smaller line total. |
| `OrderForm.RaisingQtyRaisesTotals` | src/app/orders/order-form/order-form.component.ts:89-99 | Raising one line's quantity never lowers the subtotal or the grand total. This needs a non-negative price and a discount of at most 100 percent plus VAT. |
| `OrderForm.RaisingPriceRaisesTotals` | src/app/orders/order-form/order-form.component.ts:89-99 | Raising one line's price never lowers the subtotal or the grand total. This needs a non-negative quantity on that line and a discount of at most 100 percent plus VAT. |
| `OrderForm.NegativePriceIsNotClamped` | src/app/orders/order-form/order-form.component.ts:90-92 | Negative prices are not clamped. A positive quantity times a negative price gives a negative line total, and a larger quantity gives a smaller one. |
| `OrderForm.Form.AddItem` | src/app/orders/order-form/order-form.component.ts:73-80 | Exactly one line, `Defaulted(item)`, is appended at the end, and earlier lines are unchanged. VAT, discount and the grand total are unchanged, because nothing is recalculated. |
| `OrderForm.Defaulted` | src/app/orders/order-form/order-form.component.ts:74-79 | The appended quantity is never falsy. A truthy quantity is kept, and a falsy or absent one becomes 1. The price is always present: the item's price, or 0 when that is falsy. The product is the item's product, or `''` when that is falsy. The line total is the item's total, or 0 when that is falsy. |
| `OrderForm.RawRoundTrip` | src/app/orders/order-form/order-form.component.ts:74-79 | A line read back from the form and added again comes back unchanged if and only if its quantity is truthy and its price is present. |
| `OrderForm.Form.RemoveItem` | src/app/orders/order-form/order-form.component.ts:82-85 | The new list is the recalculated `RemoveAt(old items, index)`. The grand total is computed from the remaining lines, VAT and discount are unchanged, and the form is left `Consistent()`. |
| `OrderForm.RemoveAt` | src/app/orders/order-form/order-form.component.ts:83 | For an index inside the list, exactly that element is removed. The list is one shorter, earlier elements stay where they were, later elements move down by one, and the multiset loses exactly that element. An index past the end removes nothing. |
| `OrderForm.SpliceStart` | src/app/orders/order-form/order-form.component.ts:83 | The position `removeAt` deletes from is at most the length; at the length nothing is removed. An in-range index is used as given, and a negative index counts back from the end. An index past the end gives the length, and one before the start gives 0. |
| `OrderForm.RemoveAtFromEnd` | src/app/orders/order-form/order-form.component.ts:83 | A negative index removes the element that many places from the end. An index before the start removes the first element. |
| `OrderForm.Form.constructor` | src/app/orders/order-form/order-form.component.ts:38-66 | The form starts with VAT 0, discount 0 and total 0. A new order (falsy id) holds exactly one default line. An existing order holds no lines until it is loaded. The form starts `Consistent()`. |
| `OrderForm.Form.LoadOrder` | src/app/orders/order-form/order-form.component.ts:51-63 | VAT and discount are set to the stored values, or 0 when those are falsy. When the stored order has an items array, its items are appended through `addItem` in stored order and then recalculated, and the form is left `Consistent()`. Without one, `forEach` throws after the patch: the callback does not complete, and the lines and the grand total stay as they were. |
| `OrderForm.DefaultedAll` | src/app/orders/order-form/order-form.component.ts:61 | One line per stored item, in stored order, each the line `addItem` builds from that item. |
| `OrderForm.LoadedLineTotal` | src/app/orders/order-form/order-form.component.ts:73-93 | A loaded item's recalculated line total is its stored quantity (1 when falsy) times its stored price (0 when falsy). |
| `OrderForm.LoadedTotals` | src/app/orders/order-form/order-form.component.ts:51-63 | After loading, every appended line's total is its stored quantity (1 when falsy) times its stored price (0 when falsy), whatever total was stored. |
| `OrderForm.LoadIgnoresStoredTotals` | src/app/orders/order-form/order-form.component.ts:61-62 | Two stored orders that differ only in their saved line totals load to the same lines. |

## Left out

- `save()` is not modelled: it is form validation, a customer lookup, an HTTP create or update, and navigation.
- Customer creation (`addNewCustomerPrompt`, `addNewCustomer`, `addGuestCustomer`) is not modelled: it uses a browser prompt, the clock and HTTP.
- `generateOrderNumber` and the default order date are not modelled: they depend on randomness and the clock.
- `ngOnInit` also patches `orderNo`, `orderDate`, `customer` and `status`, and it loads the customer list. None of these feed into the totals, so they are not modelled.
- The asynchronous fetch is not modelled. `LoadOrder` is the subscription callback, and it appends to whatever lines the form holds when it runs. The `TypeError` thrown for a stored order without an items array is modelled only as `LoadOrder` returning `completed == false`.
- The route id is an `int`, with 0 as the falsy id. A non-numeric id (`NaN` in JavaScript) is falsy too and behaves like 0.
- Angular's `FormArray.removeAt` is not part of this model. `RemoveAt` follows `Array.prototype.splice(index, 1)`, which `removeAt` delegates to.
- Form controls are taken to hold numbers or nothing. JavaScript's coercion of numeric strings in `qty * price` is not modelled.
- Validators (`Validators.required`, `Validators.min(1)`) are not modelled. `calculateTotal` does not rely on them, and the model places no bound on quantities or prices.
- Arithmetic is exact over `real`. IEEE-754 rounding of JavaScript numbers is not modelled.
- HTTP services (`order.service.ts`, `product.service.ts`) are not modelled: they wrap the HTTP client and have no logic of their own.
- The order list (`order-list.component.ts`) is not modelled. It only forwards page, page size and search text to the server, where all filtering, sorting and pagination happen. A client-side query engine, a query-string codec and a zero-results page convention do not exist in this code.
- Module and routing declarations are not modelled: they are configuration only.
