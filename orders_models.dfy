/** orders/models.py: carts and their totals, orders with their number, the
    cancel operation that gives stock back, order items with their product
    snapshot, shipping methods and vendor earnings. */
module OrderModels {
  import opened Basics
  import opened Text
  import opened CommonUtils
  import opened SoftDelete
  import opened Catalog
  import opened Users

  // ----- Cart and CartItem -----

  /** A CartItem row; the cart it belongs to is the Cart value holding it. */
  datatype CartItem = CartItem(product: ProductId, quantity: nat, deletion: Deletion)

  /** A Cart row with its items (`cart.items.all()`, soft-deleted rows included). */
  datatype Cart = Cart(user: Option<UserId>, sessionKey: Option<string>, items: seq<CartItem>, deletion: Deletion)

  /** unique_together = ['cart', 'product'] */
  ghost predicate DistinctProducts(items: seq<CartItem>) {
    forall i, j :: 0 <= i < |items| && 0 <= j < |items| && i != j ==> items[i].product != items[j].product
  }

  /** Every line refers to a row of the product table. */
  ghost predicate LinesKnown(products: map<ProductId, Product>, items: seq<CartItem>) {
    forall i :: 0 <= i < |items| ==> items[i].product in products
  }

  /** Cart.total_items: `Sum('quantity') or 0`. */
  function TotalItems(items: seq<CartItem>): (r: nat)
    ensures items == [] ==> r == 0
    ensures forall i :: 0 <= i < |items| ==> items[i].quantity <= r
  {
    if items == [] then 0 else items[0].quantity + TotalItems(items[1..])
  }

  /** The aggregate splits over a concatenation of lines. */
  lemma {:induction false} TotalItemsAppend(a: seq<CartItem>, b: seq<CartItem>)
    ensures TotalItems(a + b) == TotalItems(a) + TotalItems(b)
  {
    if a != [] {
      assert (a + b)[0] == a[0];
      assert (a + b)[1..] == a[1..] + b;
      TotalItemsAppend(a[1..], b);
    } else {
      assert a + b == b;
    }
  }

  /** CartItem.unit_price */
  function UnitPrice(products: map<ProductId, Product>, item: CartItem): (r: Cents)
    requires item.product in products
    ensures IsOnSale(products[item.product]) ==> r < products[item.product].price
    ensures !HasSalePrice(products[item.product]) ==> r == products[item.product].price
  {
    CurrentPriceAgainstPrice(products[item.product]);
    CurrentPrice(products[item.product])
  }

  /** CartItem.total_price */
  function LineTotal(products: map<ProductId, Product>, item: CartItem): (r: Cents)
    requires item.product in products
    ensures item.quantity == 0 ==> r == 0
    ensures item.quantity >= 1 && UnitPrice(products, item) >= 0 ==> r >= UnitPrice(products, item)
  {
    var u := UnitPrice(products, item);
    if item.quantity >= 1 && u > 0 then MulMonotone(u, 1, item.quantity); u * item.quantity
    else u * item.quantity
  }

  /** The value of Cart.subtotal: Σ total_price over the lines, in loop order. */
  function SubtotalOf(products: map<ProductId, Product>, items: seq<CartItem>): (r: Cents)
    requires LinesKnown(products, items)
    ensures items == [] ==> r == 0
    ensures (forall i :: 0 <= i < |items| ==> LineTotal(products, items[i]) >= 0) ==>
      r >= 0 && forall i :: 0 <= i < |items| ==> LineTotal(products, items[i]) <= r
  {
    if items == [] then 0
    else
      var init := items[..|items| - 1];
      assert forall i :: 0 <= i < |init| ==> init[i] == items[i];
      SubtotalOf(products, init) + LineTotal(products, items[|items| - 1])
  }

  /** What one on-sale line saves: (price - current_price) × quantity. */
  function LineSavings(products: map<ProductId, Product>, item: CartItem): (r: Cents)
    requires item.product in products
    ensures r >= 0
  {
    var p := products[item.product];
    if IsOnSale(p) then
      assert p.price - CurrentPrice(p) > 0;
      (p.price - CurrentPrice(p)) * item.quantity
    else 0
  }

  /** The value of Cart.total_savings. It is never negative: only on-sale lines
      count, and on sale the current price is below the list price. */
  function SavingsOf(products: map<ProductId, Product>, items: seq<CartItem>): (r: Cents)
    requires LinesKnown(products, items)
    ensures r >= 0
  {
    if items == [] then 0
    else SavingsOf(products, items[..|items| - 1]) + LineSavings(products, items[|items| - 1])
  }

  /** Σ list price × quantity. */
  function ListTotalOf(products: map<ProductId, Product>, items: seq<CartItem>): Cents
    requires LinesKnown(products, items)
  {
    if items == [] then 0
    else ListTotalOf(products, items[..|items| - 1])
         + products[items[|items| - 1].product].price * items[|items| - 1].quantity
  }

  /** A product whose sale price is set but not below the list price is charged at
      that sale price without being on sale. */
  predicate ChargedAboveList(p: Product) { HasSalePrice(p) && !IsOnSale(p) }

  /** Subtotal and savings add up to the list-price total, unless some line is
      charged at a sale price at or above its list price; such a line makes the
      subtotal exceed the list total by more than the (zero) savings. */
  lemma {:induction false} SubtotalPlusSavings(products: map<ProductId, Product>, items: seq<CartItem>)
    requires LinesKnown(products, items)
    ensures (forall i :: 0 <= i < |items| ==> !ChargedAboveList(products[items[i].product]))
      ==> SubtotalOf(products, items) + SavingsOf(products, items) == ListTotalOf(products, items)
    ensures SubtotalOf(products, items) + SavingsOf(products, items) >= ListTotalOf(products, items)
  {
    if items != [] {
      var init := items[..|items| - 1];
      var last := items[|items| - 1];
      SubtotalPlusSavings(products, init);
      LineSplit(products, last);
      assert SubtotalOf(products, items) == SubtotalOf(products, init) + LineTotal(products, last);
      assert SavingsOf(products, items) == SavingsOf(products, init) + LineSavings(products, last);
      assert ListTotalOf(products, items)
        == ListTotalOf(products, init) + products[last.product].price * last.quantity;
    }
  }

  /** One line of SubtotalPlusSavings. */
  lemma LineSplit(products: map<ProductId, Product>, item: CartItem)
    requires item.product in products
    ensures var p := products[item.product];
      && (!ChargedAboveList(p) ==> LineTotal(products, item) + LineSavings(products, item) == p.price * item.quantity)
      && LineTotal(products, item) + LineSavings(products, item) >= p.price * item.quantity
  {
    var p := products[item.product];
    var q := item.quantity;
    if IsOnSale(p) {
      assert CurrentPrice(p) * q + (p.price - CurrentPrice(p)) * q == p.price * q;
    } else if ChargedAboveList(p) {
      assert CurrentPrice(p) * q - p.price * q == (CurrentPrice(p) - p.price) * q;
    }
  }

  /** Cart.subtotal: the loop over the cart's items. */
  method Subtotal(products: map<ProductId, Product>, items: seq<CartItem>) returns (total: Cents)
    requires LinesKnown(products, items)
    ensures total == SubtotalOf(products, items)
  {
    total := 0;
    var i := 0;
    while i < |items|
      invariant 0 <= i <= |items|
      invariant total == SubtotalOf(products, items[..i])
    {
      assert items[..i + 1][..i] == items[..i];
      total := total + LineTotal(products, items[i]);
      i := i + 1;
    }
    assert items[..|items|] == items;
  }

  /** Cart.total_savings: the loop over the cart's items. */
  method TotalSavings(products: map<ProductId, Product>, items: seq<CartItem>) returns (savings: Cents)
    requires LinesKnown(products, items)
    ensures savings == SavingsOf(products, items) && savings >= 0
  {
    savings := 0;
    var i := 0;
    while i < |items|
      invariant 0 <= i <= |items|
      invariant savings == SavingsOf(products, items[..i])
    {
      assert items[..i + 1][..i] == items[..i];
      var p := products[items[i].product];
      if IsOnSale(p) {
        var original := p.price * items[i].quantity;
        var sale := CurrentPrice(p) * items[i].quantity;
        savings := savings + (original - sale);
      }
      i := i + 1;
    }
    assert items[..|items|] == items;
  }

  // ----- Order -----

  /** The JSON copy of an address kept on the order. */
  datatype AddressSnapshot = AddressSnapshot(
    firstName: string, lastName: string, company: string, line1: string, line2: string,
    city: string, state: string, postalCode: string, country: string, phone: string)

  /** The ten address fields the order copies. */
  function Snapshot(a: Address): (s: AddressSnapshot)
    ensures s.firstName == a.firstName && s.lastName == a.lastName && s.company == a.company
    ensures s.line1 == a.line1 && s.line2 == a.line2 && s.city == a.city && s.state == a.state
    ensures s.postalCode == a.postalCode && s.country == a.country && s.phone == a.phone
  {
    AddressSnapshot(a.firstName, a.lastName, a.company, a.line1, a.line2,
                    a.city, a.state, a.postalCode, a.country, a.phone)
  }

  /** The snapshot ignores what makes an address a row of the address book: its
      owner, its type and its default flag. */
  lemma SnapshotIgnoresBookkeeping(a: Address, user: UserId, kind: AddressType, isDefault: bool)
    ensures Snapshot(a.(user := user, kind := kind, isDefault := isDefault)) == Snapshot(a)
  {
  }

  datatype Order = Order(
    user: UserId,
    orderNumber: string,
    status: OrderStatus,
    subtotal: Cents,
    taxAmount: real,
    shippingAmount: Cents,
    discountAmount: Cents,
    totalAmount: real,
    shippingAddress: AddressSnapshot,
    billingAddress: AddressSnapshot,
    paymentMethod: string,
    paymentReference: string,
    paidAt: Option<Time>,
    shippedAt: Option<Time>,
    deliveredAt: Option<Time>,
    trackingNumber: string,
    customerNotes: string,
    internalNotes: string,
    deletion: Deletion)

  predicate IsLowerHex(c: char) { '0' <= c <= '9' || 'a' <= c <= 'f' }
  predicate IsUpperHex(c: char) { '0' <= c <= '9' || 'A' <= c <= 'F' }

  /** `uuid.uuid4().hex`: 32 lower-case hexadecimal digits, supplied by the caller. */
  predicate IsUuidHex(h: string) {
    |h| == 32 && forall i :: 0 <= i < |h| ==> IsLowerHex(h[i])
  }

  /** Order.generate_order_number: "ORD-" and the first eight hex digits in upper
      case; lower-casing the tail gives those digits back. */
  function GenerateOrderNumber(hex: string): (r: string)
    requires IsUuidHex(hex)
    ensures |r| == 12 && r[..4] == "ORD-"
    ensures forall i :: 4 <= i < 12 ==> IsUpperHex(r[i])
    ensures Lower(r[4..]) == hex[..8]
  {
    var tail := Upper(Take(hex, 8));
    assert Lower(tail) == hex[..8] by {
      forall i | 0 <= i < 8
        ensures Lower(tail)[i] == hex[i]
      {
        assert IsLowerHex(hex[i]);
      }
    }
    assert ("ORD-" + tail)[4..] == tail;
    "ORD-" + tail
  }

  /** Order.save: a number is generated only when the order has none. */
  function SaveOrder(o: Order, hex: string): (r: Order)
    requires o.orderNumber == "" ==> IsUuidHex(hex)
    ensures r.orderNumber != ""
    ensures o.orderNumber != "" ==> r == o
    ensures o.orderNumber == "" ==> r == o.(orderNumber := GenerateOrderNumber(hex))
  {
    if o.orderNumber == "" then o.(orderNumber := GenerateOrderNumber(hex)) else o
  }

  /** A second save never replaces the number the first one gave. */
  lemma SaveOrderIdempotent(o: Order, hex1: string, hex2: string)
    requires o.orderNumber == "" ==> IsUuidHex(hex1)
    ensures SaveOrder(SaveOrder(o, hex1), hex2) == SaveOrder(o, hex1)
  {
  }

  /** Order.can_be_cancelled */
  predicate CanBeCancelled(o: Order)
    ensures CanBeCancelled(o) ==> o.status != Shipped && o.status != Delivered && o.status != Cancelled
  { o.status == Pending || o.status == Paid }

  /** The order as Order.cancel leaves it. */
  function CancelledOrder(o: Order, reason: string): (r: Order)
    ensures r.status == Cancelled && !CanBeCancelled(r)
    ensures r.internalNotes == o.internalNotes + "\nCancelled: " + reason
    ensures r.(status := o.status, internalNotes := o.internalNotes) == o
  {
    o.(status := Cancelled, internalNotes := o.internalNotes + "\nCancelled: " + reason)
  }

  /** Exactly PENDING and PAID orders can be cancelled, and a cancelled order can
      never be cancelled again. */
  lemma CancelOnlyOnce(o: Order, reason: string)
    ensures CanBeCancelled(o) <==> StatusName(o.status) == "PENDING" || StatusName(o.status) == "PAID"
    ensures !CanBeCancelled(CancelledOrder(o, reason))
  {
  }

  // ----- OrderItem -----

  datatype OrderItem = OrderItem(
    order: nat,
    product: ProductId,
    productSku: string,
    productTitle: string,
    productPrice: Cents,
    quantity: nat,
    unitPrice: Cents,
    totalPrice: Cents,
    vendor: UserId,
    deletion: Deletion)

  /** `order.items.all()`: the item rows of order `id`, in table order. */
  function ItemsOf(items: seq<OrderItem>, id: nat): (r: seq<OrderItem>)
    ensures |r| <= |items|
    ensures forall i :: 0 <= i < |r| ==> r[i].order == id && r[i] in items
    ensures forall i :: 0 <= i < |items| && items[i].order == id ==> items[i] in r
  {
    if items == [] then []
    else (if items[0].order == id then [items[0]] else []) + ItemsOf(items[1..], id)
  }

  /** OrderItem.save, with `p` the item's product: the snapshot is taken only when
      no SKU is stored yet, the unit price defaults to the current price only when
      unset (zero), and the line total is always recomputed. */
  function SaveOrderItem(p: Product, it: OrderItem): (r: OrderItem)
    ensures r.totalPrice == r.unitPrice * r.quantity
    ensures r.quantity == it.quantity && r.order == it.order && r.product == it.product
    ensures r.unitPrice == if it.unitPrice == 0 then CurrentPrice(p) else it.unitPrice
    ensures it.productSku == "" ==>
      r.productSku == p.sku && r.productTitle == p.title && r.productPrice == p.price && r.vendor == p.vendor
    ensures it.productSku != "" ==>
      r.productSku == it.productSku && r.productTitle == it.productTitle
      && r.productPrice == it.productPrice && r.vendor == it.vendor
  {
    var snap := if it.productSku == "" then
      it.(productSku := p.sku, productTitle := p.title, productPrice := p.price, vendor := p.vendor)
    else it;
    var priced := if snap.unitPrice == 0 then snap.(unitPrice := CurrentPrice(p)) else snap;
    priced.(totalPrice := priced.unitPrice * priced.quantity)
  }

  /** Saving an item again changes nothing, even after the product was edited,
      once a SKU and a non-zero price are stored. */
  lemma SaveOrderItemStable(p: Product, p2: Product, it: OrderItem)
    ensures SaveOrderItem(p, SaveOrderItem(p, it)) == SaveOrderItem(p, it)
    ensures p.sku != "" && SaveOrderItem(p, it).unitPrice != 0 ==>
      SaveOrderItem(p2, SaveOrderItem(p, it)) == SaveOrderItem(p, it)
  {
  }

  // ----- ShippingMethod -----

  datatype ShippingMethod = ShippingMethod(
    name: string, description: string, price: Cents,
    estimatedDaysMin: nat, estimatedDaysMax: nat, isActive: bool)

  /** The numbers a delivery label is made of. */
  function DeliveryParts(m: ShippingMethod): seq<string> {
    if m.estimatedDaysMin == m.estimatedDaysMax then [NatToString(m.estimatedDaysMin)]
    else [NatToString(m.estimatedDaysMin), NatToString(m.estimatedDaysMax)]
  }

  /** ShippingMethod.estimated_delivery. The label's format is its specification,
      so the ensures spell that format out; what it determines is stated by
      EstimatedDeliveryDeterminesBounds. */
  function EstimatedDelivery(m: ShippingMethod): (r: string)
    ensures m.estimatedDaysMin == m.estimatedDaysMax ==> r == NatToString(m.estimatedDaysMin) + " days"
    ensures m.estimatedDaysMin != m.estimatedDaysMax ==>
      r == NatToString(m.estimatedDaysMin) + "-" + NatToString(m.estimatedDaysMax) + " days"
  {
    if m.estimatedDaysMin == m.estimatedDaysMax then NatToString(m.estimatedDaysMin) + " days"
    else NatToString(m.estimatedDaysMin) + "-" + NatToString(m.estimatedDaysMax) + " days"
  }

  lemma NoDashInNumber(n: nat)
    ensures '-' !in NatToString(n)
  {
  }

  /** The label determines both bounds: two methods with the same label promise
      the same range of days. */
  lemma EstimatedDeliveryDeterminesBounds(a: ShippingMethod, b: ShippingMethod)
    requires EstimatedDelivery(a) == EstimatedDelivery(b)
    ensures a.estimatedDaysMin == b.estimatedDaysMin && a.estimatedDaysMax == b.estimatedDaysMax
  {
    var pa, pb := DeliveryParts(a), DeliveryParts(b);
    NoDashInNumber(a.estimatedDaysMin); NoDashInNumber(a.estimatedDaysMax);
    NoDashInNumber(b.estimatedDaysMin); NoDashInNumber(b.estimatedDaysMax);
    assert EstimatedDelivery(a) == Join(pa, '-') + " days";
    assert EstimatedDelivery(b) == Join(pb, '-') + " days";
    var la := EstimatedDelivery(a);
    assert Join(pa, '-') == la[..|la| - 5];
    assert Join(pb, '-') == la[..|la| - 5];
    JoinSplit(pa, '-');
    JoinSplit(pb, '-');
    assert pa == pb;
    NatToStringRoundTrip(a.estimatedDaysMin); NatToStringRoundTrip(a.estimatedDaysMax);
    NatToStringRoundTrip(b.estimatedDaysMin); NatToStringRoundTrip(b.estimatedDaysMax);
  }

  // ----- VendorEarnings -----

  datatype EarningsStatus = EarningsPending | Available | PaidOut

  datatype VendorEarnings = VendorEarnings(
    vendor: UserId,
    order: nat,
    grossAmount: real,
    platformFee: real,
    netAmount: real,
    status: EarningsStatus,
    paidAt: Option<Time>,
    deletion: Deletion)

  /** VendorEarnings.save: the net amount is derived only when it is unset (zero). */
  function SaveEarnings(e: VendorEarnings): (r: VendorEarnings)
    ensures e.netAmount == 0.0 ==> r.platformFee + r.netAmount == r.grossAmount
    ensures e.netAmount != 0.0 ==> r == e
    ensures r.(netAmount := e.netAmount) == e
  {
    if e.netAmount == 0.0 then e.(netAmount := e.grossAmount - e.platformFee) else e
  }

  /** Saving twice is saving once. */
  lemma SaveEarningsIdempotent(e: VendorEarnings)
    ensures SaveEarnings(SaveEarnings(e)) == SaveEarnings(e)
  {
  }

  // ----- Inventory restoration -----

  /** The product table after `inventory += quantity` for each item, in order. */
  function RestoreAll(products: map<ProductId, Product>, items: seq<OrderItem>): (r: map<ProductId, Product>)
    requires forall i :: 0 <= i < |items| ==> items[i].product in products
    ensures r.Keys == products.Keys
  {
    if items == [] then products
    else
      var before := RestoreAll(products, items[..|items| - 1]);
      var last := items[|items| - 1];
      before[last.product := before[last.product].(inventory := before[last.product].inventory + last.quantity)]
  }

  /** Σ quantity over the items of product `p`. */
  function QuantityOf(items: seq<OrderItem>, p: ProductId): nat {
    if items == [] then 0
    else QuantityOf(items[..|items| - 1], p) + (if items[|items| - 1].product == p then items[|items| - 1].quantity else 0)
  }

  /** Restoring raises each product's inventory by the quantity its items carry
      and changes no other field of any product. */
  lemma {:induction false} RestoreAllInventory(products: map<ProductId, Product>, items: seq<OrderItem>)
    requires forall i :: 0 <= i < |items| ==> items[i].product in products
    ensures forall p :: p in products ==>
      RestoreAll(products, items)[p] == products[p].(inventory := products[p].inventory + QuantityOf(items, p))
  {
    if items != [] {
      RestoreAllInventory(products, items[..|items| - 1]);
    }
  }

  lemma {:induction false} RestoreAllInventoryAt(products: map<ProductId, Product>, items: seq<OrderItem>, p: ProductId)
    requires forall i :: 0 <= i < |items| ==> items[i].product in products
    requires p in products
    ensures RestoreAll(products, items)[p] == products[p].(inventory := products[p].inventory + QuantityOf(items, p))
  {
    if items != [] {
      RestoreAllInventoryAt(products, items[..|items| - 1], p);
    }
  }

  /** The loop of Order.cancel: `item.product.inventory += item.quantity` and a
      save, for each item in turn. */
  method RestoreInventory(catalog: ProductCatalog, items: seq<OrderItem>)
    requires forall k :: 0 <= k < |items| ==> items[k].product in catalog.products
    modifies catalog
    ensures catalog.products == RestoreAll(old(catalog.products), items)
    ensures catalog.reviews == old(catalog.reviews)
  {
    var i := 0;
    while i < |items|
      invariant 0 <= i <= |items|
      invariant catalog.products == RestoreAll(old(catalog.products), items[..i])
      invariant catalog.reviews == old(catalog.reviews)
    {
      assert items[..i + 1][..i] == items[..i];
      var product := catalog.products[items[i].product];
      catalog.products := catalog.products[items[i].product := product.(inventory := product.inventory + items[i].quantity)];
      i := i + 1;
    }
    assert items[..|items|] == items;
  }

  // ----- The orders app's tables -----

  /** The cart table: one line per product in each cart, every line's product
      exists, no cart has both a user and a session key, and carts are unique per
      user (OneToOneField) and per session key (get_or_create). */
  ghost predicate CartsValid(products: map<ProductId, Product>, carts: seq<Cart>) {
    (forall i :: 0 <= i < |carts| ==>
       DistinctProducts(carts[i].items) && LinesKnown(products, carts[i].items)
       && (carts[i].user.None? || carts[i].sessionKey.None?))
    && (forall i, j :: 0 <= i < |carts| && 0 <= j < |carts| && i != j && carts[i].user.Some?
          ==> carts[i].user != carts[j].user)
    && (forall i, j :: 0 <= i < |carts| && 0 <= j < |carts| && i != j && carts[i].sessionKey.Some?
          ==> carts[i].sessionKey != carts[j].sessionKey)
  }

  /** Row ids are positions. The cart table is valid, every order item refers to
      an order and a product, and saved orders have a number. */
  ghost predicate TablesValid(products: map<ProductId, Product>, carts: seq<Cart>,
                              orders: seq<Order>, orderItems: seq<OrderItem>)
  {
    CartsValid(products, carts)
    && (forall i :: 0 <= i < |orderItems| ==>
          orderItems[i].order < |orders| && orderItems[i].product in products)
    && (forall i :: 0 <= i < |orders| ==> orders[i].orderNumber != "")
  }

  /** The invariant only looks at which products exist, not at their fields. */
  lemma TablesValidSameKeys(products: map<ProductId, Product>, products2: map<ProductId, Product>,
                            carts: seq<Cart>, orders: seq<Order>, orderItems: seq<OrderItem>)
    requires TablesValid(products, carts, orders, orderItems) && products2.Keys == products.Keys
    ensures TablesValid(products2, carts, orders, orderItems)
  {
  }

  class Store {
    const catalog: ProductCatalog
    var carts: seq<Cart>
    var orders: seq<Order>
    var orderItems: seq<OrderItem>
    var earnings: seq<VendorEarnings>
    var shippingMethods: map<nat, ShippingMethod>

    ghost predicate Valid()
      reads this, catalog
    {
      TablesValid(catalog.products, carts, orders, orderItems)
    }

    constructor (catalog: ProductCatalog)
      ensures Valid() && this.catalog == catalog
      ensures carts == [] && orders == [] && orderItems == [] && earnings == []
      ensures shippingMethods == map[]
    {
      this.catalog := catalog;
      carts, orders, orderItems, earnings, shippingMethods := [], [], [], [], map[];
    }

    /** Order.cancel on order `id`; `false` is the ValueError of a status other
        than PENDING or PAID, which changes nothing. */
    method Cancel(id: nat, reason: string) returns (ok: bool)
      requires Valid() && id < |orders|
      modifies this, catalog
      ensures Valid()
      ensures ok == CanBeCancelled(old(orders[id]))
      ensures !ok ==> orders == old(orders) && catalog.products == old(catalog.products)
      ensures ok ==> orders == old(orders)[id := CancelledOrder(old(orders[id]), reason)]
      ensures ok ==> catalog.products == RestoreAll(old(catalog.products), ItemsOf(old(orderItems), id))
      ensures carts == old(carts) && orderItems == old(orderItems) && earnings == old(earnings)
      ensures shippingMethods == old(shippingMethods) && catalog.reviews == old(catalog.reviews)
    {
      if !CanBeCancelled(orders[id]) {
        return false;
      }
      RestoreInventory(catalog, ItemsOf(orderItems, id));
      orders := orders[id := CancelledOrder(orders[id], reason)];
      ok := true;
    }
  }
}
