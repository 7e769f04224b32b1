/**
 * The order as the order service returns it (src/app/models/order.model.ts).
 * The form reads it as untyped data, so every field the form looks at may be absent.
 */
module OrderModel {
  import opened Js

  /** A stored line item: product name, quantity, unit price and the total saved with it. */
  datatype StoredItem = StoredItem(
    product: Option<string>,
    qty: Option<real>,
    price: Option<real>,
    total: Option<real>)

  /** The fields of a stored order that the totals depend on. */
  datatype StoredOrder = StoredOrder(
    items: Option<seq<StoredItem>>,
    vat: Option<real>,
    discount: Option<real>)

  /** What `item?.f` reads when no item is passed at all. */
  const NoItem := StoredItem(None, None, None, None)
}
