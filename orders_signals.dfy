/** orders/signals.py: the pre_delete hook of OrderItem, which gives the item's
    quantity back to its product while the order is PENDING or CANCELLED. It runs
    for real deletes only (a queryset delete, `hard_delete`), never for the soft
    `delete()` of an instance. */
module OrderSignals {
  import opened Basics
  import opened CommonUtils
  import opened Catalog
  import opened OrderModels

  /** The statuses in which a deleted item's stock comes back. */
  predicate RestoresOnDelete(s: OrderStatus) {
    s == Pending || s == Cancelled
  }

  /** The product table after restore_inventory_on_delete for `item`, whose order
      has status `status`. */
  function RestoredOnDelete(products: map<ProductId, Product>, status: OrderStatus, item: OrderItem)
    : (r: map<ProductId, Product>)
    requires item.product in products
    ensures r.Keys == products.Keys
    ensures RestoresOnDelete(status) ==>
      r == products[item.product := products[item.product].(inventory := products[item.product].inventory + item.quantity)]
    ensures !RestoresOnDelete(status) ==> r == products
  {
    if RestoresOnDelete(status) then
      products[item.product := products[item.product].(inventory := products[item.product].inventory + item.quantity)]
    else products
  }

  /** restore_inventory_on_delete on the store: `instance.product.inventory +=
      instance.quantity` and a save of that one field. The order is not touched. */
  method OnOrderItemDelete(store: Store, item: OrderItem)
    requires store.Valid() && item.order < |store.orders| && item.product in store.catalog.products
    modifies store.catalog
    ensures store.Valid()
    ensures store.catalog.products == RestoredOnDelete(old(store.catalog.products), store.orders[item.order].status, item)
    ensures store.catalog.reviews == old(store.catalog.reviews)
  {
    if RestoresOnDelete(store.orders[item.order].status) {
      var product := store.catalog.products[item.product];
      store.catalog.products := store.catalog.products[item.product := product.(inventory := product.inventory + item.quantity)];
      TablesValidSameKeys(old(store.catalog.products), store.catalog.products, store.carts, store.orders, store.orderItems);
    }
  }

  /** Only the deleted item's product changes, by exactly its quantity, and only
      for a PENDING or CANCELLED order. */
  lemma DeleteRestoresOnlyItsProduct(products: map<ProductId, Product>, status: OrderStatus, item: OrderItem)
    requires item.product in products
    ensures var r := RestoredOnDelete(products, status, item);
      && r[item.product].inventory == products[item.product].inventory + (if RestoresOnDelete(status) then item.quantity else 0)
      && r[item.product] == products[item.product].(inventory := r[item.product].inventory)
      && (forall p :: p in products && p != item.product ==> r[p] == products[p])
  {
  }

  /** Cancelling an order gives its items' stock back, and the order is then
      CANCELLED; deleting one of those items afterwards gives the same quantity
      back a second time. */
  lemma CancelThenDeleteRestoresTwice(products: map<ProductId, Product>, o: Order, reason: string,
                                      items: seq<OrderItem>, it: OrderItem)
    requires CanBeCancelled(o)
    requires forall i :: 0 <= i < |items| ==> items[i].product in products
    requires it in items
    ensures var afterCancel := RestoreAll(products, items);
      var afterDelete := RestoredOnDelete(afterCancel, CancelledOrder(o, reason).status, it);
      afterDelete[it.product].inventory
        == products[it.product].inventory + QuantityOf(items, it.product) + it.quantity
  {
    RestoreAllInventoryAt(products, items, it.product);
  }
}
