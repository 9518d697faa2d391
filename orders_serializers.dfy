/** orders/serializers.py: the cart-item validators, the checkout request
    validators, and checkout itself (OrderCreateSerializer.create), which turns
    the user's cart into an order, reserves stock line by line and empties the
    cart, all inside one transaction. */
module OrderSerializers {
  import opened Basics
  import opened Text
  import opened CommonUtils
  import opened SoftDelete
  import opened Catalog
  import opened Users
  import opened OrderModels

  // ----- CartItemSerializer -----

  /** `Product.objects.get(id=..., is_active=True)` succeeds. The manager does not
      filter soft-deleted rows, so those are found as well. */
  predicate ActiveProduct(products: map<ProductId, Product>, id: int) {
    id >= 0 && id in products && products[id].isActive
  }

  /** CartItemSerializer.validate_product_id */
  function ValidateProductId(products: map<ProductId, Product>, id: int): (v: Verdict)
    ensures v.Accept? <==> ActiveProduct(products, id) && products[id].inventory >= 1
    ensures v.Accept? ==> IsInStock(products[id])
    ensures !ActiveProduct(products, id) ==> v == Reject("Product not found.")
    ensures ActiveProduct(products, id) && products[id].inventory < 1 ==> v == Reject("Product is out of stock.")
  {
    if !ActiveProduct(products, id) then Reject("Product not found.")
    else if products[id].inventory < 1 then Reject("Product is out of stock.")
    else Accept
  }

  /** CartItemSerializer.validate_quantity; `rawProductId` is
      `initial_data.get('product_id')`, whose falsy values (absent, 0) skip the
      stock check, as does a product that is not found. */
  function ValidateQuantity(products: map<ProductId, Product>, rawProductId: Option<int>, value: int): (v: Verdict)
    ensures value < 1 ==> v == Reject("Quantity must be at least 1.")
    ensures value >= 1 && rawProductId.Some? && rawProductId.value != 0
            && ActiveProduct(products, rawProductId.value)
            && value > products[rawProductId.value].inventory
            ==> v == Reject("Only " + NatToString(products[rawProductId.value].inventory) + " items available in stock.")
    ensures v.Accept? <==> (value >= 1 && !(rawProductId.Some? && rawProductId.value != 0
                                            && ActiveProduct(products, rawProductId.value)
                                            && value > products[rawProductId.value].inventory))
  {
    if value < 1 then Reject("Quantity must be at least 1.")
    else if rawProductId.Some? && rawProductId.value != 0 && ActiveProduct(products, rawProductId.value)
            && value > products[rawProductId.value].inventory then
      Reject("Only " + NatToString(products[rawProductId.value].inventory) + " items available in stock.")
    else Accept
  }

  /** Both validators passing on the same non-zero product id bound the quantity
      by the stock: 1 <= quantity <= inventory. */
  lemma ValidatedQuantityInStock(products: map<ProductId, Product>, id: int, value: int)
    requires id != 0
    requires ValidateProductId(products, id).Accept? && ValidateQuantity(products, Some(id), value).Accept?
    ensures id in products && 1 <= value <= products[id].inventory
  {
  }

  // ----- OrderCreateSerializer: validation -----

  datatype CheckoutRequest = CheckoutRequest(
    shippingAddressId: nat,
    billingAddressId: nat,
    shippingMethodId: nat,
    paymentMethod: string,
    customerNotes: Option<string>)

  /** The keys of the payment_method choices. */
  const PaymentChoices: seq<string> := ["stripe", "paypal", "cash_on_delivery"]

  const NotesMaxLength: nat := 500

  /** `Address.objects.get(id=..., user=user, type=...)` succeeds. */
  predicate OwnAddress(addresses: map<nat, Address>, user: UserId, id: nat, kind: AddressType) {
    id in addresses && addresses[id].user == user && addresses[id].kind == kind
  }

  /** `ShippingMethod.objects.get(id=..., is_active=True)` succeeds. */
  predicate ActiveMethod(methods: map<nat, ShippingMethod>, id: nat) {
    id in methods && methods[id].isActive
  }

  datatype FieldError = FieldError(field: string, message: string)

  /** An error for `field` when `ok` fails. */
  function Check(ok: bool, field: string, message: string): seq<FieldError> {
    if ok then [] else [FieldError(field, message)]
  }

  /** `is_valid()`: every field is validated and the errors are collected in field
      order. The choice and length messages are the framework's defaults; the
      notes, a CharField, are stripped of surrounding whitespace before their
      length is checked. */
  function ValidateCheckout(addresses: map<nat, Address>, methods: map<nat, ShippingMethod>,
                            user: UserId, req: CheckoutRequest): (errors: seq<FieldError>)
    ensures errors == [] <==>
      OwnAddress(addresses, user, req.shippingAddressId, Shipping)
      && OwnAddress(addresses, user, req.billingAddressId, Billing)
      && ActiveMethod(methods, req.shippingMethodId)
      && req.paymentMethod in PaymentChoices
      && (req.customerNotes.Some? ==> |Strip(req.customerNotes.value)| <= NotesMaxLength)
    ensures !OwnAddress(addresses, user, req.shippingAddressId, Shipping) ==>
      errors[0] == FieldError("shipping_address_id", "Invalid shipping address.")
    ensures !OwnAddress(addresses, user, req.billingAddressId, Billing) ==>
      FieldError("billing_address_id", "Invalid billing address.") in errors
    ensures !ActiveMethod(methods, req.shippingMethodId) ==>
      FieldError("shipping_method_id", "Invalid shipping method.") in errors
  {
    Check(OwnAddress(addresses, user, req.shippingAddressId, Shipping), "shipping_address_id", "Invalid shipping address.")
    + Check(OwnAddress(addresses, user, req.billingAddressId, Billing), "billing_address_id", "Invalid billing address.")
    + Check(ActiveMethod(methods, req.shippingMethodId), "shipping_method_id", "Invalid shipping method.")
    + Check(req.paymentMethod in PaymentChoices, "payment_method",
            "\"" + req.paymentMethod + "\" is not a valid choice.")
    + Check(req.customerNotes.None? || |Strip(req.customerNotes.value)| <= NotesMaxLength, "customer_notes",
            "Ensure this field has no more than 500 characters.")
  }

  /** One's own shipping address is never accepted as the billing address: the
      two validators demand different address types. */
  lemma AddressTypesExclusive(addresses: map<nat, Address>, methods: map<nat, ShippingMethod>,
                              user: UserId, req: CheckoutRequest)
    requires req.shippingAddressId == req.billingAddressId
    ensures ValidateCheckout(addresses, methods, user, req) != []
  {
  }

  /** Notes of exactly 500 characters followed by a blank pass the length check:
      the request is accepted exactly when it would be without notes, and the
      order keeps them without the blank. */
  lemma PaddedNotesAccepted(addresses: map<nat, Address>, methods: map<nat, ShippingMethod>,
                            user: UserId, req: CheckoutRequest, notes: string)
    requires |notes| == NotesMaxLength && !IsSpace(notes[0]) && !IsSpace(notes[|notes| - 1])
    requires req.customerNotes == Some(notes + " ")
    ensures ValidateCheckout(addresses, methods, user, req) == [] <==>
            ValidateCheckout(addresses, methods, user, req.(customerNotes := None)) == []
    ensures Strip(req.customerNotes.value) == notes
  {
    StripTrailingBlank(notes);
  }

  // ----- OrderCreateSerializer.create: the pieces -----

  /** `Cart.objects.get(user=user)`: the cart row of `user`, soft-deleted or not. */
  function UserCart(carts: seq<Cart>, user: UserId): (r: Option<nat>)
    ensures r.Some? ==> r.value < |carts| && carts[r.value].user == Some(user)
    ensures r.None? ==> forall i :: 0 <= i < |carts| ==> carts[i].user != Some(user)
  {
    FirstMatch(carts, (c: Cart) => c.user == Some(user))
  }

  /** Decimal('0.08') */
  const TaxRate: real := 0.08

  /** The order row `Order.objects.create` inserts, after Order.save gave it a
      number; the notes are stored as validated, that is stripped. */
  function NewOrder(user: UserId, subtotal: Cents, shipMethod: ShippingMethod, shipping: Address,
                    billing: Address, req: CheckoutRequest, hex: string): (o: Order)
    requires IsUuidHex(hex)
    ensures o.status == Pending && o.user == user && o.orderNumber == GenerateOrderNumber(hex)
    ensures o.subtotal == subtotal && o.shippingAmount == shipMethod.price && o.discountAmount == 0
    ensures o.taxAmount == subtotal as real * TaxRate
    ensures o.totalAmount == subtotal as real + o.taxAmount + shipMethod.price as real
    ensures o.shippingAddress == Snapshot(shipping) && o.billingAddress == Snapshot(billing)
    ensures o.customerNotes == (if req.customerNotes.Some? then Strip(req.customerNotes.value) else "")
    ensures o.paidAt.None? && o.shippedAt.None? && o.deliveredAt.None? && o.trackingNumber == ""
  {
    var tax := subtotal as real * TaxRate;
    SaveOrder(Order(user, "", Pending, subtotal, tax, shipMethod.price, 0,
                    subtotal as real + tax + shipMethod.price as real,
                    Snapshot(shipping), Snapshot(billing), req.paymentMethod, "",
                    None, None, None, "",
                    if req.customerNotes.Some? then Strip(req.customerNotes.value) else "", "", Live), hex)
  }

  /** The OrderItem row created for one cart line: `unit_price=cart_item.unit_price`,
      then OrderItem.save takes the snapshot and the line total. */
  function NewItem(products: map<ProductId, Product>, order: nat, line: CartItem): (it: OrderItem)
    requires line.product in products
    ensures it.order == order && it.product == line.product && it.quantity == line.quantity
    ensures it.unitPrice == CurrentPrice(products[line.product])
    ensures it.totalPrice == it.unitPrice * it.quantity
    ensures it.vendor == products[line.product].vendor && it.productSku == products[line.product].sku
  {
    var p := products[line.product];
    SaveOrderItem(p, OrderItem(order, line.product, "", "", 0, line.quantity, CurrentPrice(p), 0, 0, Live))
  }

  /** The item rows of a completed checkout: one per cart line, in line order. */
  function NewItems(products: map<ProductId, Product>, order: nat, lines: seq<CartItem>): (r: seq<OrderItem>)
    requires LinesKnown(products, lines)
    ensures |r| == |lines|
    ensures forall i :: 0 <= i < |lines| ==> r[i] == NewItem(products, order, lines[i])
  {
    if lines == [] then []
    else NewItems(products, order, lines[..|lines| - 1]) + [NewItem(products, order, lines[|lines| - 1])]
  }

  /** The stock check and decrement of the checkout loop, line after line. */
  datatype Reservation = Reserved(products: map<ProductId, Product>) | Short(index: nat)

  function Reserve(products: map<ProductId, Product>, lines: seq<CartItem>): (r: Reservation)
    requires LinesKnown(products, lines)
    ensures r.Reserved? ==> r.products.Keys == products.Keys
    ensures r.Short? ==> r.index < |lines|
  {
    if lines == [] then Reserved(products)
    else
      match Reserve(products, lines[..|lines| - 1])
      case Short(i) => Short(i)
      case Reserved(ps) =>
        var last := lines[|lines| - 1];
        if ps[last.product].inventory < last.quantity then Short(|lines| - 1)
        else Reserved(ps[last.product := ps[last.product].(inventory := ps[last.product].inventory - last.quantity)])
  }

  /** Σ quantity over the lines of product `p`. */
  function LineQuantityOf(lines: seq<CartItem>, p: ProductId): nat {
    if lines == [] then 0
    else LineQuantityOf(lines[..|lines| - 1], p) + (if lines[|lines| - 1].product == p then lines[|lines| - 1].quantity else 0)
  }

  /** A successful reservation lowers each product's stock by exactly the quantity
      ordered of it and touches no other field. */
  lemma {:induction false} ReserveInventory(products: map<ProductId, Product>, lines: seq<CartItem>)
    requires LinesKnown(products, lines) && Reserve(products, lines).Reserved?
    ensures var r := Reserve(products, lines).products;
      forall p :: p in products ==>
        r[p].inventory + LineQuantityOf(lines, p) == products[p].inventory
        && r[p] == products[p].(inventory := r[p].inventory)
  {
    if lines != [] {
      ReserveInventory(products, lines[..|lines| - 1]);
    }
  }

  lemma {:induction false} ReserveInventoryAt(products: map<ProductId, Product>, lines: seq<CartItem>, p: ProductId)
    requires LinesKnown(products, lines) && Reserve(products, lines).Reserved? && p in products
    ensures var r := Reserve(products, lines).products;
      r[p].inventory + LineQuantityOf(lines, p) == products[p].inventory
      && r[p] == products[p].(inventory := r[p].inventory)
  {
    if lines != [] {
      ReserveInventoryAt(products, lines[..|lines| - 1], p);
    }
  }

  /** With one line per product (unique_together), checkout succeeds exactly when
      every line fits the stock it started with. */
  lemma {:induction false} ReserveSucceedsIffInStock(products: map<ProductId, Product>, lines: seq<CartItem>)
    requires LinesKnown(products, lines) && DistinctProducts(lines)
    ensures Reserve(products, lines).Reserved? <==>
      forall i :: 0 <= i < |lines| ==> lines[i].quantity <= products[lines[i].product].inventory
  {
    if lines != [] {
      var init := lines[..|lines| - 1];
      var last := lines[|lines| - 1];
      assert DistinctProducts(init) by {
        forall i, j | 0 <= i < |init| && 0 <= j < |init| && i != j
          ensures init[i].product != init[j].product
        {
          assert init[i] == lines[i] && init[j] == lines[j];
        }
      }
      ReserveSucceedsIffInStock(products, init);
      match Reserve(products, init)
      case Short(_) =>
      case Reserved(ps) =>
        assert forall i :: 0 <= i < |init| ==> init[i].product != last.product by {
          forall i | 0 <= i < |init| ensures init[i].product != last.product {
            assert init[i] == lines[i];
          }
        }
        NotOrderedNoQuantity(init, last.product);
        ReserveInventoryAt(products, init, last.product);
        assert ps[last.product].inventory == products[last.product].inventory;
    }
  }

  lemma {:induction false} NotOrderedNoQuantity(lines: seq<CartItem>, p: ProductId)
    requires forall i :: 0 <= i < |lines| ==> lines[i].product != p
    ensures LineQuantityOf(lines, p) == 0
  {
    if lines != [] {
      NotOrderedNoQuantity(lines[..|lines| - 1], p);
    }
  }

  /** A short line stops the loop: the verdict of a prefix carries over. */
  lemma {:induction false} ShortPrefix(products: map<ProductId, Product>, lines: seq<CartItem>, n: nat)
    requires n <= |lines| && LinesKnown(products, lines)
    requires Reserve(products, lines[..n]).Short?
    ensures Reserve(products, lines) == Reserve(products, lines[..n])
    decreases |lines| - n
  {
    if n < |lines| {
      assert lines[..n + 1][..n] == lines[..n];
      ShortPrefix(products, lines, n + 1);
    } else {
      assert lines[..n] == lines;
    }
  }

  lemma {:induction false} ItemQuantities(products: map<ProductId, Product>, order: nat, lines: seq<CartItem>, p: ProductId)
    requires LinesKnown(products, lines)
    ensures QuantityOf(NewItems(products, order, lines), p) == LineQuantityOf(lines, p)
  {
    if lines != [] {
      var init := lines[..|lines| - 1];
      ItemQuantities(products, order, init, p);
      assert NewItems(products, order, lines)[..|lines| - 1] == NewItems(products, order, init);
    }
  }

  /** Cancelling (or deleting) the items of a fresh order gives back exactly the
      stock the checkout took: the product table returns to what it was. */
  lemma ReserveThenRestore(products: map<ProductId, Product>, order: nat, lines: seq<CartItem>)
    requires LinesKnown(products, lines) && Reserve(products, lines).Reserved?
    ensures var r := Reserve(products, lines).products;
      forall i :: 0 <= i < |lines| ==> NewItems(products, order, lines)[i].product in r
    ensures RestoreAll(Reserve(products, lines).products, NewItems(products, order, lines)) == products
  {
    var r := Reserve(products, lines).products;
    var items := NewItems(products, order, lines);
    var back := RestoreAll(r, items);
    forall p | p in products
      ensures back[p] == products[p]
    {
      ReserveInventoryAt(products, lines, p);
      RestoreAllInventoryAt(r, items, p);
      ItemQuantities(products, order, lines, p);
    }
    assert back.Keys == products.Keys;
  }

  /** The stock operations of the checkout loop read a product only for its
      prices, SKU, title and vendor, never for its inventory. */
  lemma NewItemIgnoresInventory(products: map<ProductId, Product>, ps: map<ProductId, Product>,
                                order: nat, line: CartItem)
    requires line.product in products && line.product in ps
    requires ps[line.product] == products[line.product].(inventory := ps[line.product].inventory)
    ensures NewItem(ps, order, line) == NewItem(products, order, line)
  {
  }

  /** One pass of the checkout loop on a line that fits. */
  lemma ReserveStep(products0: map<ProductId, Product>, order: nat, lines: seq<CartItem>, i: nat,
                    ps: map<ProductId, Product>)
    requires i < |lines| && LinesKnown(products0, lines)
    requires Reserve(products0, lines[..i]) == Reserved(ps)
    requires ps[lines[i].product].inventory >= lines[i].quantity
    ensures var p := ps[lines[i].product];
      Reserve(products0, lines[..i + 1]) == Reserved(ps[lines[i].product := p.(inventory := p.inventory - lines[i].quantity)])
    ensures NewItems(products0, order, lines[..i + 1])
            == NewItems(products0, order, lines[..i]) + [NewItem(ps, order, lines[i])]
  {
    var pre := lines[..i + 1];
    assert pre[..i] == lines[..i] && pre[i] == lines[i];
    assert NewItems(products0, order, pre) == NewItems(products0, order, lines[..i]) + [NewItem(products0, order, lines[i])];
    assert NewItem(products0, order, lines[i]) == NewItem(ps, order, lines[i]) by {
      ReserveInventory(products0, lines[..i]);
      NewItemIgnoresInventory(products0, ps, order, lines[i]);
    }
  }

  /** One pass of the checkout loop on a line that does not fit: the loop's
      verdict is that line. */
  lemma ReserveStepShort(products0: map<ProductId, Product>, lines: seq<CartItem>, i: nat,
                         ps: map<ProductId, Product>)
    requires i < |lines| && LinesKnown(products0, lines)
    requires Reserve(products0, lines[..i]) == Reserved(ps)
    requires ps[lines[i].product].inventory < lines[i].quantity
    ensures Reserve(products0, lines) == Short(i)
  {
    var pre := lines[..i + 1];
    assert pre[..i] == lines[..i] && pre[i] == lines[i];
    assert Reserve(products0, pre) == Short(i);
    ShortPrefix(products0, lines, i + 1);
  }

  // ----- OrderCreateSerializer.create -----

  /** The loop of create over `lines`: for each line the stock check, the item row
      and the decrement, on the product table `products0` and the item table
      `items0`. `short` is the index of the first line that does not fit; the
      caller then rolls the transaction back. */
  method ReserveLines(products0: map<ProductId, Product>, items0: seq<OrderItem>, order: nat,
                      lines: seq<CartItem>)
    returns (short: Option<nat>, products: map<ProductId, Product>, items: seq<OrderItem>)
    requires LinesKnown(products0, lines)
    ensures short.None? ==> Reserve(products0, lines) == Reserved(products)
    ensures short.None? ==> items == items0 + NewItems(products0, order, lines)
    ensures short.Some? ==> Reserve(products0, lines) == Short(short.value)
  {
    products, items := products0, items0;
    var i := 0;
    short := None;
    while i < |lines|
      invariant 0 <= i <= |lines| && short.None?
      invariant Reserve(products0, lines[..i]) == Reserved(products)
      invariant items == items0 + NewItems(products0, order, lines[..i])
    {
      var line := lines[i];
      var product := products[line.product];
      if product.inventory < line.quantity {
        ReserveStepShort(products0, lines, i, products);
        short := Some(i);
        break;
      }
      ReserveStep(products0, order, lines, i, products);
      items := items + [NewItem(products, order, line)];
      products := products[line.product := product.(inventory := product.inventory - line.quantity)];
      i := i + 1;
    }
    if short.None? {
      assert lines[..|lines|] == lines;
    }
  }

  datatype CheckoutOutcome = Created(order: nat) | Refused(message: string)

  /** The four tables checkout writes. */
  datatype Tables = Tables(products: map<ProductId, Product>, carts: seq<Cart>,
                           orders: seq<Order>, orderItems: seq<OrderItem>)

  ghost predicate Consistent(t: Tables) {
    TablesValid(t.products, t.carts, t.orders, t.orderItems)
  }

  /** What OrderCreateSerializer.create does to the tables, given the validated
      shipping method and the two addresses its lookups find. */
  function CheckoutOf(t: Tables, user: UserId, shipMethod: ShippingMethod, shipping: Address,
                      billing: Address, req: CheckoutRequest, hex: string): (r: (CheckoutOutcome, Tables))
    requires Consistent(t) && IsUuidHex(hex)
    ensures r.0.Refused? ==> r.1.orders == t.orders && r.1.orderItems == t.orderItems
    ensures r.0.Created? ==> r.0.order == |t.orders| && |r.1.orders| == |t.orders| + 1
  {
    var k := UserCart(t.carts, user);
    if k.None? || t.carts[k.value].items == [] then (Refused("Cart is empty."), t)
    else
      var lines := t.carts[k.value].items;
      var id := |t.orders|;
      match Reserve(t.products, lines)
      case Short(i) =>
        (Refused("Insufficient inventory for " + t.products[lines[i].product].title + "."), t)
      case Reserved(after) =>
        (Created(id),
         Tables(after, t.carts[k.value := t.carts[k.value].(items := [])],
                t.orders + [NewOrder(user, SubtotalOf(t.products, lines), shipMethod, shipping, billing, req, hex)],
                t.orderItems + NewItems(t.products, id, lines)))
  }

  /** Checkout is all or nothing: a refusal leaves every table as it was. It is
      refused with "Cart is empty." exactly when the user has no cart or the
      cart has no item rows. */
  lemma CheckoutAllOrNothing(t: Tables, user: UserId, shipMethod: ShippingMethod, shipping: Address,
                             billing: Address, req: CheckoutRequest, hex: string)
    requires Consistent(t) && IsUuidHex(hex)
    ensures var (out, t2) := CheckoutOf(t, user, shipMethod, shipping, billing, req, hex);
      out.Refused? ==> t2 == t
    ensures var (out, _) := CheckoutOf(t, user, shipMethod, shipping, billing, req, hex);
      var k := UserCart(t.carts, user);
      out == Refused("Cart is empty.") <==> (k.None? || t.carts[k.value].items == [])
  {
    var k := UserCart(t.carts, user);
    if k.Some? && t.carts[k.value].items != [] {
      var lines := t.carts[k.value].items;
      match Reserve(t.products, lines)
      case Short(i) =>
        var title := t.products[lines[i].product].title;
        assert ("Insufficient inventory for " + title + ".")[..4] == "Insu";
      case Reserved(_) =>
    }
  }

  /** With one line per product, checkout creates an order exactly when the user
      has a non-empty cart and every line fits the stock. */
  lemma CheckoutSucceedsIff(t: Tables, user: UserId, shipMethod: ShippingMethod, shipping: Address,
                            billing: Address, req: CheckoutRequest, hex: string)
    requires Consistent(t) && IsUuidHex(hex)
    ensures var (out, _) := CheckoutOf(t, user, shipMethod, shipping, billing, req, hex);
      var k := UserCart(t.carts, user);
      out.Created? <==> (k.Some? && t.carts[k.value].items != []
                         && forall i :: 0 <= i < |t.carts[k.value].items| ==>
                              t.carts[k.value].items[i].quantity <= t.products[t.carts[k.value].items[i].product].inventory)
  {
    var k := UserCart(t.carts, user);
    if k.Some? {
      ReserveSucceedsIffInStock(t.products, t.carts[k.value].items);
    }
  }

  /** A created order: PENDING, numbered, priced at subtotal + 8 % tax + shipping
      with no discount, copying both addresses; one item per cart line with the
      line's quantity at the current price; the stock of each product lowered by
      exactly what was ordered of it; and the cart kept but emptied. */
  lemma CheckoutCreated(t: Tables, user: UserId, shipMethod: ShippingMethod, shipping: Address,
                        billing: Address, req: CheckoutRequest, hex: string)
    requires Consistent(t) && IsUuidHex(hex)
    requires CheckoutOf(t, user, shipMethod, shipping, billing, req, hex).0.Created?
    ensures var (out, t2) := CheckoutOf(t, user, shipMethod, shipping, billing, req, hex);
      var k := UserCart(t.carts, user).value;
      var lines := t.carts[k].items;
      var o := t2.orders[out.order];
      && out.order == |t.orders| && |t2.orders| == |t.orders| + 1 && t2.orders[..|t.orders|] == t.orders
      && o.status == Pending && o.user == user && o.orderNumber == GenerateOrderNumber(hex)
      && o.subtotal == SubtotalOf(t.products, lines)
      && o.taxAmount == o.subtotal as real * TaxRate
      && o.totalAmount == o.subtotal as real + o.taxAmount + shipMethod.price as real
      && o.shippingAddress == Snapshot(shipping) && o.billingAddress == Snapshot(billing)
      && |t2.orderItems| == |t.orderItems| + |lines| && t2.orderItems[..|t.orderItems|] == t.orderItems
      && (forall i :: 0 <= i < |lines| ==>
            var it := t2.orderItems[|t.orderItems| + i];
            it.order == out.order && it.product == lines[i].product && it.quantity == lines[i].quantity
            && it.unitPrice == CurrentPrice(t.products[lines[i].product]))
      && (forall p :: p in t.products ==>
            p in t2.products && t2.products[p].inventory + LineQuantityOf(lines, p) == t.products[p].inventory
            && t2.products[p] == t.products[p].(inventory := t2.products[p].inventory))
      && t2.products.Keys == t.products.Keys
      && t2.carts == t.carts[k := t.carts[k].(items := [])]
  {
    var k := UserCart(t.carts, user).value;
    var lines := t.carts[k].items;
    ReserveInventory(t.products, lines);
    var o := NewOrder(user, SubtotalOf(t.products, lines), shipMethod, shipping, billing, req, hex);
    var t2 := Tables(Reserve(t.products, lines).products, t.carts[k := t.carts[k].(items := [])],
                     t.orders + [o], t.orderItems + NewItems(t.products, |t.orders|, lines));
    assert CheckoutOf(t, user, shipMethod, shipping, billing, req, hex) == (Created(|t.orders|), t2);
  }

  /** Checkout keeps the tables' invariant. */
  lemma CheckoutKeepsValid(t: Tables, user: UserId, shipMethod: ShippingMethod, shipping: Address,
                           billing: Address, req: CheckoutRequest, hex: string)
    requires Consistent(t) && IsUuidHex(hex)
    ensures Consistent(CheckoutOf(t, user, shipMethod, shipping, billing, req, hex).1)
  {
    var k := UserCart(t.carts, user);
    if k.Some? && t.carts[k.value].items != [] {
      var lines := t.carts[k.value].items;
      var r := Reserve(t.products, lines);
      if r.Reserved? {
        var id := |t.orders|;
        var order := NewOrder(user, SubtotalOf(t.products, lines), shipMethod, shipping, billing, req, hex);
        EmptiedCartsValid(t.products, r.products, t.carts, k.value);
        AppendedOrderValid(t, r.products, order, NewItems(t.products, id, lines));
        assert CheckoutOf(t, user, shipMethod, shipping, billing, req, hex).1
          == Tables(r.products, t.carts[k.value := t.carts[k.value].(items := [])],
                    t.orders + [order], t.orderItems + NewItems(t.products, id, lines));
      }
    }
  }

  /** Emptying one cart keeps the cart table valid over a product table with
      the same keys. */
  lemma EmptiedCartsValid(products: map<ProductId, Product>, after: map<ProductId, Product>,
                          carts: seq<Cart>, k: nat)
    requires CartsValid(products, carts) && after.Keys == products.Keys && k < |carts|
    ensures CartsValid(after, carts[k := carts[k].(items := [])])
  {
    var carts2 := carts[k := carts[k].(items := [])];
    assert forall i :: 0 <= i < |carts2| ==>
      carts2[i].user == carts[i].user && carts2[i].sessionKey == carts[i].sessionKey;
    forall i | 0 <= i < |carts2|
      ensures DistinctProducts(carts2[i].items) && LinesKnown(after, carts2[i].items)
    {
      if i != k { assert LinesKnown(products, carts[i].items); }
    }
  }

  /** One new order row whose items all refer to it keeps the order and item
      tables valid. */
  lemma AppendedOrderValid(t: Tables, after: map<ProductId, Product>, order: Order, added: seq<OrderItem>)
    requires Consistent(t) && after.Keys == t.products.Keys && order.orderNumber != ""
    requires forall i :: 0 <= i < |added| ==> added[i].order == |t.orders| && added[i].product in t.products
    ensures forall i :: 0 <= i < |t.orderItems + added| ==>
      (t.orderItems + added)[i].order < |t.orders + [order]| && (t.orderItems + added)[i].product in after
    ensures forall i :: 0 <= i < |t.orders + [order]| ==> (t.orders + [order])[i].orderNumber != ""
  {
  }

  /** The steps of OrderCreateSerializer.create on the tables' values: the cart
      lookup, the subtotal, the order row, the loop over the lines and the
      emptied cart. A refusal is a ValidationError raised inside the
      transaction, which rolls the order row back. */
  method CheckoutSteps(t: Tables, user: UserId, shipMethod: ShippingMethod, shipping: Address,
                       billing: Address, req: CheckoutRequest, hex: string)
    returns (out: CheckoutOutcome, t2: Tables)
    requires Consistent(t) && IsUuidHex(hex)
    ensures (out, t2) == CheckoutOf(t, user, shipMethod, shipping, billing, req, hex)
  {
    t2 := t;
    var k := UserCart(t.carts, user);
    if k.None? || t.carts[k.value].items == [] {
      return Refused("Cart is empty."), t2;
    }
    var cart := t.carts[k.value];
    var subtotal := Subtotal(t.products, cart.items);
    var order := NewOrder(user, subtotal, shipMethod, shipping, billing, req, hex);
    var id := |t.orders|;
    var orders := t.orders + [order];
    var short, products, items := ReserveLines(t.products, t.orderItems, id, cart.items);
    if short.Some? {
      return Refused("Insufficient inventory for " + t.products[cart.items[short.value].product].title + "."), t2;
    }
    // `cart.items.all().delete()` is a queryset delete: the rows are removed.
    t2 := Tables(products, t.carts[k.value := cart.(items := [])], orders, items);
    out := Created(id);
  }

  /** OrderCreateSerializer.create on the store, for a request that passed
      validation; `hex` is the uuid4 the order number is made from. */
  method Checkout(store: Store, accounts: Accounts, user: UserId, req: CheckoutRequest, hex: string)
    returns (out: CheckoutOutcome)
    requires store.Valid() && IsUuidHex(hex)
    requires ValidateCheckout(accounts.addresses, store.shippingMethods, user, req) == []
    modifies store, store.catalog
    ensures store.Valid()
    ensures store.earnings == old(store.earnings) && store.shippingMethods == old(store.shippingMethods)
    ensures store.catalog.reviews == old(store.catalog.reviews)
    ensures (out, Tables(store.catalog.products, store.carts, store.orders, store.orderItems))
      == CheckoutOf(old(Tables(store.catalog.products, store.carts, store.orders, store.orderItems)),
                    user, store.shippingMethods[req.shippingMethodId],
                    accounts.addresses[req.shippingAddressId], accounts.addresses[req.billingAddressId], req, hex)
  {
    var t0 := Tables(store.catalog.products, store.carts, store.orders, store.orderItems);
    var shipMethod := store.shippingMethods[req.shippingMethodId];
    var shipping := accounts.addresses[req.shippingAddressId];
    var billing := accounts.addresses[req.billingAddressId];
    var t2;
    out, t2 := CheckoutSteps(t0, user, shipMethod, shipping, billing, req, hex);
    CheckoutKeepsValid(t0, user, shipMethod, shipping, billing, req, hex);
    store.catalog.products := t2.products;
    store.carts, store.orders, store.orderItems := t2.carts, t2.orders, t2.orderItems;
  }
}
