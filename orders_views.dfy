/** orders/views.py: the cart a request works on (with the login-time merge),
    adding to the cart, the explicit merge endpoint, the earnings split after
    checkout, and the two order-status endpoints. */
module OrderViews {
  import opened Basics
  import opened Text
  import opened CommonUtils
  import opened SoftDelete
  import opened Catalog
  import opened Users
  import opened OrderModels
  import opened OrderSerializers

  // ----- Cart lookups -----

  /** Python truthiness of a session key: set and non-empty. */
  predicate Truthy(key: Option<string>) {
    key.Some? && key.value != ""
  }

  /** `Cart.objects.get(session_key=key)` (and get_or_create on the key). The
      default manager does not hide soft-deleted rows, so a session cart that a
      merge already deleted is found again. */
  function CartOfKey(carts: seq<Cart>, key: string): (r: Option<nat>)
    ensures r.Some? ==> r.value < |carts| && carts[r.value].sessionKey == Some(key)
    ensures r.None? <==> forall i :: 0 <= i < |carts| ==> carts[i].sessionKey != Some(key)
  {
    FirstMatch(carts, (c: Cart) => c.sessionKey == Some(key))
  }

  /** The session-cart lookup of the two merges with soft-deleted carts left out:
      a merged session cart is not merged a second time. */
  function LiveCartOfKey(carts: seq<Cart>, key: string): (r: Option<nat>)
    ensures r.Some? ==> r.value < |carts| && carts[r.value].sessionKey == Some(key)
                        && !carts[r.value].deletion.isDeleted
    ensures r.None? <==> forall i :: 0 <= i < |carts| ==>
                           carts[i].sessionKey != Some(key) || carts[i].deletion.isDeleted
  {
    FirstMatch(carts, (c: Cart) => c.sessionKey == Some(key) && !c.deletion.isDeleted)
  }

  /** Session keys are unique among the carts. */
  ghost predicate OnlyCartOfKey(carts: seq<Cart>, s: nat, key: string) {
    s < |carts| && carts[s].sessionKey == Some(key)
    && forall i :: 0 <= i < |carts| && i != s ==> carts[i].sessionKey != Some(key)
  }

  /** Once a merge has soft-deleted the session cart, the lookup as written still
      returns it (so each later request merges its items again), while the live
      lookup finds nothing. */
  lemma DeletedSessionCartFoundAgain(carts: seq<Cart>, s: nat, key: string, now: Time)
    requires OnlyCartOfKey(carts, s, key)
    ensures var after := carts[s := carts[s].(deletion := MarkDeleted(carts[s].deletion, now))];
      CartOfKey(after, key) == Some(s) && LiveCartOfKey(after, key).None?
  {
    var after := carts[s := carts[s].(deletion := MarkDeleted(carts[s].deletion, now))];
    assert after[s].sessionKey == Some(key);
  }

  /** The merge step of get_or_create_cart as written, for a user whose cart `k`
      already existed and a truthy session key: the session cart is looked up
      with the unfiltered CartOfKey, its lines are added to cart `k` without
      clamping, and it is soft-deleted. */
  function MergeSessionAsWritten(products: map<ProductId, Product>, carts: seq<Cart>, k: nat,
                                 key: string, now: Time): (r: seq<Cart>)
    requires k < |carts|
    requires CartOfKey(carts, key).Some? ==> LinesKnown(products, carts[CartOfKey(carts, key).value].items)
    ensures |r| == |carts|
    ensures CartOfKey(carts, key).None? ==> r == carts
    ensures CartOfKey(carts, key).Some? ==> r[CartOfKey(carts, key).value].deletion.isDeleted
  {
    match CartOfKey(carts, key)
    case None => carts
    case Some(s) =>
      carts[k := carts[k].(items := MergeLines(products, carts[k].items, carts[s].items, false))]
           [s := SoftDeleted(carts[s], now)]
  }

  /** The merge for a session line's product: it ends with Merged(...) of what
      the cart held. */
  lemma MergeLinesAtLine(products: map<ProductId, Product>, m: seq<CartItem>, session: seq<CartItem>, i: nat)
    requires DistinctProducts(m) && DistinctProducts(session)
    requires LinesKnown(products, session) && i < |session|
    ensures QuantityIn(MergeLines(products, m, session, false), session[i].product)
            == Some(Merged(products, QuantityIn(m, session[i].product), session[i], false))
  {
    LineOfDistinct(session, i);
    MergeLinesAt(products, m, session, false, session[i].product);
  }

  /** The quantity of `p` a cart holds, 0 without a line. */
  function QuantityOrZero(items: seq<CartItem>, p: ProductId): nat {
    if QuantityIn(items, p).Some? then QuantityIn(items, p).value else 0
  }

  /** Merging without clamping adds a session line's quantity to what the cart
      held of its product. */
  lemma MergeLinesAdds(products: map<ProductId, Product>, m: seq<CartItem>, session: seq<CartItem>, i: nat)
    requires DistinctProducts(m) && DistinctProducts(session)
    requires LinesKnown(products, session) && i < |session|
    ensures QuantityIn(MergeLines(products, m, session, false), session[i].product)
            == Some(QuantityOrZero(m, session[i].product) + session[i].quantity)
    ensures DistinctProducts(MergeLines(products, m, session, false))
  {
    var line := session[i];
    var e := QuantityIn(m, line.product);
    var r := MergeLines(products, m, session, false);
    assert QuantityIn(r, line.product) == Some(Merged(products, e, line, false)) by {
      MergeLinesAtLine(products, m, session, i);
    }
    assert Merged(products, e, line, false) == QuantityOrZero(m, line.product) + line.quantity by {
      if e.Some? {
        assert QuantityOrZero(m, line.product) == e.value;
      } else {
        assert QuantityOrZero(m, line.product) == 0;
      }
    }
    assert DistinctProducts(r) by {
      MergeLinesShape(products, m, session, false);
    }
  }

  /** The lookup by key depends only on the carts' keys. */
  lemma CartOfKeySameKeys(a: seq<Cart>, b: seq<Cart>, key: string)
    requires |a| == |b| && forall j :: 0 <= j < |a| ==> a[j].sessionKey == b[j].sessionKey
    ensures CartOfKey(a, key) == CartOfKey(b, key)
  {
    if a != [] {
      CartOfKeySameKeys(a[1..], b[1..], key);
    }
  }

  /** One merge as written, when the key finds cart `s`: the key still finds
      `s` afterwards, with its lines in place, and cart `k` holds the merged lines. */
  lemma MergeSessionFound(products: map<ProductId, Product>, carts: seq<Cart>, k: nat, s: nat,
                          key: string, now: Time)
    requires k < |carts| && k != s && CartOfKey(carts, key) == Some(s)
    requires LinesKnown(products, carts[s].items)
    ensures CartOfKey(MergeSessionAsWritten(products, carts, k, key, now), key) == Some(s)
    ensures MergeSessionAsWritten(products, carts, k, key, now)[s].items == carts[s].items
    ensures MergeSessionAsWritten(products, carts, k, key, now)[k].items
            == MergeLines(products, carts[k].items, carts[s].items, false)
  {
    var once := MergeSessionAsWritten(products, carts, k, key, now);
    assert once == carts[k := carts[k].(items := MergeLines(products, carts[k].items, carts[s].items, false))]
                        [s := SoftDeleted(carts[s], now)];
    assert forall j :: 0 <= j < |once| ==> once[j].sessionKey == carts[j].sessionKey;
    CartOfKeySameKeys(once, carts, key);
  }

  /** One session line merged without clamping adds its quantity to the first
      line of its product, or becomes that line. */
  lemma MergeLineAdds(products: map<ProductId, Product>, items: seq<CartItem>, line: CartItem)
    requires line.product in products
    ensures QuantityIn(MergeLine(products, items, line, false), line.product)
            == Some(QuantityOrZero(items, line.product) + line.quantity)
  {
    var r := MergeLine(products, items, line, false);
    match LineOf(items, line.product)
    case None =>
      LineOfAppend(items, CartItem(line.product, line.quantity, Live), line.product);
    case Some(j) =>
      LineOfSameProducts(r, items, line.product);
  }

  /** The same line merged twice without clamping: its quantity is added twice. */
  lemma MergeLineTwice(products: map<ProductId, Product>, items: seq<CartItem>, line: CartItem)
    requires line.product in products
    ensures QuantityIn(MergeLine(products, MergeLine(products, items, line, false), line, false), line.product)
            == Some(QuantityOrZero(items, line.product) + 2 * line.quantity)
  {
    var m1 := MergeLine(products, items, line, false);
    MergeLineAdds(products, items, line);
    assert QuantityOrZero(m1, line.product) == QuantityOrZero(items, line.product) + line.quantity;
    MergeLineAdds(products, m1, line);
  }

  /** Two requests with the same session key, as written, when the session cart
      `s` holds one line: the soft-deleted session cart is found again, so the
      user's cart `k` ends with that line merged in twice, which by
      MergeLineTwice adds its quantity twice. */
  lemma SessionCartMergedTwice(products: map<ProductId, Product>, carts: seq<Cart>, k: nat, s: nat,
                              key: string, now1: Time, now2: Time)
    requires k < |carts| && k != s && CartOfKey(carts, key) == Some(s)
    requires |carts[s].items| == 1 && carts[s].items[0].product in products
    ensures CartOfKey(MergeSessionAsWritten(products, carts, k, key, now1), key) == Some(s)
    ensures MergeSessionAsWritten(products, MergeSessionAsWritten(products, carts, k, key, now1), k, key, now2)[k].items
            == MergeLine(products, MergeLine(products, carts[k].items, carts[s].items[0], false), carts[s].items[0], false)
  {
    var line := carts[s].items[0];
    assert LinesKnown(products, carts[s].items);
    var once := MergeSessionAsWritten(products, carts, k, key, now1);
    MergeSessionFound(products, carts, k, s, key, now1);
    MergeLinesSingle(products, carts[k].items, carts[s].items);
    MergeSessionFound(products, once, k, s, key, now2);
    MergeLinesSingle(products, once[k].items, once[s].items);
  }

  /** The merge loop over a one-line session cart is one merged line. */
  lemma MergeLinesSingle(products: map<ProductId, Product>, items: seq<CartItem>, session: seq<CartItem>)
    requires |session| == 1 && session[0].product in products
    ensures MergeLines(products, items, session, false) == MergeLine(products, items, session[0], false)
  {
    assert session[..0] == [];
  }

  /** `Cart.objects.get_or_create(user=user)`: the user's cart, or a new empty one
      appended to the table. */
  function UserCartOrNew(carts: seq<Cart>, user: UserId): (r: (nat, seq<Cart>))
    ensures r.0 < |r.1| && r.1[r.0].user == Some(user)
    ensures UserCart(carts, user).Some? ==> r == (UserCart(carts, user).value, carts)
    ensures UserCart(carts, user).None? ==>
      r == (|carts|, carts + [Cart(Some(user), None, [], Live)])
  {
    match UserCart(carts, user)
    case Some(k) => (k, carts)
    case None => (|carts|, carts + [Cart(Some(user), None, [], Live)])
  }

  // ----- Cart lines -----

  /** The line of product `p`: `CartItem.objects.get(cart=..., product=p)`,
      soft-deleted lines included. */
  function LineOf(items: seq<CartItem>, p: ProductId): (r: Option<nat>)
    ensures r.Some? ==> r.value < |items| && items[r.value].product == p
    ensures r.None? <==> forall i :: 0 <= i < |items| ==> items[i].product != p
  {
    FirstMatch(items, (l: CartItem) => l.product == p)
  }

  /** The quantity on the line of `p`, or None when the cart has no such line. */
  function QuantityIn(items: seq<CartItem>, p: ProductId): Option<nat> {
    match LineOf(items, p)
    case None => None
    case Some(j) => Some(items[j].quantity)
  }

  /** `if quantity > inventory: quantity = inventory` */
  function Clamp(q: nat, inventory: nat): (r: nat)
    ensures r <= q && r <= inventory
    ensures r == q || r == inventory
  {
    if q > inventory then inventory else q
  }

  /** The quantity a line of `line.product` ends with when `line` is merged into a
      cart whose quantity for that product was `existing`. */
  function Merged(products: map<ProductId, Product>, existing: Option<nat>, line: CartItem, clamp: bool): (r: nat)
    requires line.product in products
    ensures existing.None? ==> r == line.quantity
    ensures existing.Some? && !clamp ==> r == existing.value + line.quantity
    ensures existing.Some? && clamp ==>
      r <= products[line.product].inventory && r <= existing.value + line.quantity
      && (r == existing.value + line.quantity || r == products[line.product].inventory)
  {
    match existing
    case None => line.quantity
    case Some(q) => if clamp then Clamp(q + line.quantity, products[line.product].inventory) else q + line.quantity
  }

  /** One session line merged into a cart: `get_or_create` on the product; an
      existing line gets the quantity added (and clamped to stock when `clamp`), a
      new line gets exactly the incoming quantity. */
  function MergeLine(products: map<ProductId, Product>, items: seq<CartItem>, line: CartItem, clamp: bool): (r: seq<CartItem>)
    requires line.product in products
    ensures |r| == if LineOf(items, line.product).None? then |items| + 1 else |items|
    ensures forall i :: 0 <= i < |items| ==> r[i].product == items[i].product
    ensures forall i :: 0 <= i < |items| && items[i].product != line.product ==> r[i] == items[i]
  {
    match LineOf(items, line.product)
    case None => items + [CartItem(line.product, line.quantity, Live)]
    case Some(j) => items[j := items[j].(quantity := Merged(products, Some(items[j].quantity), line, clamp))]
  }

  /** The merge loop over the session cart's lines, in order. */
  function MergeLines(products: map<ProductId, Product>, items: seq<CartItem>, session: seq<CartItem>,
                      clamp: bool): (r: seq<CartItem>)
    requires LinesKnown(products, session)
    ensures |items| <= |r| <= |items| + |session|
    ensures forall i :: 0 <= i < |items| ==> r[i].product == items[i].product
  {
    if session == [] then items
    else MergeLine(products, MergeLines(products, items, session[..|session| - 1], clamp), session[|session| - 1], clamp)
  }

  /** Which line a product has depends only on the lines' products. */
  lemma LineOfSameProducts(a: seq<CartItem>, b: seq<CartItem>, p: ProductId)
    requires |a| == |b| && forall i :: 0 <= i < |a| ==> a[i].product == b[i].product
    ensures LineOf(a, p) == LineOf(b, p)
  {
  }

  /** With one line per product, the line of a line's product is that line. */
  lemma LineOfDistinct(items: seq<CartItem>, i: nat)
    requires DistinctProducts(items) && i < |items|
    ensures LineOf(items, items[i].product) == Some(i)
  {
  }

  /** A line appended for a product the cart lacks is that product's line. */
  lemma LineOfAppend(a: seq<CartItem>, x: CartItem, p: ProductId)
    ensures LineOf(a + [x], p) ==
      if LineOf(a, p).Some? then LineOf(a, p) else if x.product == p then Some(|a|) else None
  {
    var r := LineOf(a + [x], p);
    if LineOf(a, p).Some? {
      var j := LineOf(a, p).value;
      assert (a + [x])[j].product == p;
      assert forall i :: 0 <= i < j ==> (a + [x])[i] == a[i];
    } else if x.product == p {
      assert (a + [x])[|a|].product == p;
      assert forall i :: 0 <= i < |a| ==> (a + [x])[i] == a[i];
    } else {
      forall i | 0 <= i < |a + [x]|
        ensures (a + [x])[i].product != p
      {
        if i < |a| {
          assert (a + [x])[i] == a[i];
        }
      }
    }
  }

  /** One merged line: the merged product ends with Merged(...) and every other
      product keeps its line; one line per product and known products are kept. */
  lemma MergeLineEffect(products: map<ProductId, Product>, items: seq<CartItem>, line: CartItem, clamp: bool)
    requires DistinctProducts(items) && line.product in products
    ensures var r := MergeLine(products, items, line, clamp);
      && DistinctProducts(r)
      && (LinesKnown(products, items) ==> LinesKnown(products, r))
      && QuantityIn(r, line.product) == Some(Merged(products, QuantityIn(items, line.product), line, clamp))
      && (forall p :: p != line.product ==> QuantityIn(r, p) == QuantityIn(items, p))
  {
    var r := MergeLine(products, items, line, clamp);
    match LineOf(items, line.product)
    case None =>
      var x := CartItem(line.product, line.quantity, Live);
      assert r == items + [x];
      forall p
        ensures LineOf(r, p) == if LineOf(items, p).Some? then LineOf(items, p) else if x.product == p then Some(|items|) else None
      {
        LineOfAppend(items, x, p);
      }
      forall p | p != line.product
        ensures QuantityIn(r, p) == QuantityIn(items, p)
      {
        if LineOf(items, p).Some? {
          assert r[LineOf(items, p).value] == items[LineOf(items, p).value];
        }
      }
    case Some(j) =>
      forall p
        ensures LineOf(r, p) == LineOf(items, p)
      {
        LineOfSameProducts(r, items, p);
      }
      forall p | p != line.product
        ensures QuantityIn(r, p) == QuantityIn(items, p)
      {
        if LineOf(items, p).Some? {
          assert LineOf(items, p).value != j;
        }
      }
  }

  /** The merge keeps one line per product, all of them known. */
  lemma {:induction false} MergeLinesShape(products: map<ProductId, Product>, items: seq<CartItem>,
                                           session: seq<CartItem>, clamp: bool)
    requires DistinctProducts(items) && LinesKnown(products, session)
    ensures DistinctProducts(MergeLines(products, items, session, clamp))
    ensures LinesKnown(products, items) ==> LinesKnown(products, MergeLines(products, items, session, clamp))
  {
    if session != [] {
      MergeLinesShape(products, items, session[..|session| - 1], clamp);
      MergeLineEffect(products, MergeLines(products, items, session[..|session| - 1], clamp), session[|session| - 1], clamp);
    }
  }

  /** The merge for one product `p`: a product of the session cart ends with
      Merged(...) of what the cart had for it; any other product keeps its line. */
  lemma {:induction false} MergeLinesAt(products: map<ProductId, Product>, items: seq<CartItem>,
                                        session: seq<CartItem>, clamp: bool, p: ProductId)
    requires DistinctProducts(items) && DistinctProducts(session) && LinesKnown(products, session)
    ensures var r := MergeLines(products, items, session, clamp);
      match LineOf(session, p)
      case None => QuantityIn(r, p) == QuantityIn(items, p)
      case Some(j) => QuantityIn(r, p) == Some(Merged(products, QuantityIn(items, p), session[j], clamp))
  {
    if session != [] {
      var init := session[..|session| - 1];
      var last := session[|session| - 1];
      assert session == init + [last];
      assert DistinctProducts(init);
      MergeLinesAt(products, items, init, clamp, p);
      var before := MergeLines(products, items, init, clamp);
      MergeLinesShape(products, items, init, clamp);
      MergeLineEffect(products, before, last, clamp);
      LineOfAppend(init, last, p);
      if p == last.product {
        assert LineOf(init, p).None?;
      } else if LineOf(init, p).Some? {
        assert session[LineOf(init, p).value] == init[LineOf(init, p).value];
      }
    }
  }

  /** The whole merge, for every product. */
  lemma MergeLinesEffect(products: map<ProductId, Product>, items: seq<CartItem>,
                         session: seq<CartItem>, clamp: bool)
    requires DistinctProducts(items) && DistinctProducts(session) && LinesKnown(products, session)
    ensures var r := MergeLines(products, items, session, clamp);
      && DistinctProducts(r)
      && (LinesKnown(products, items) ==> LinesKnown(products, r))
      && (forall i :: 0 <= i < |session| ==>
            QuantityIn(r, session[i].product) == Some(Merged(products, QuantityIn(items, session[i].product), session[i], clamp)))
      && (forall p :: LineOf(session, p).None? ==> QuantityIn(r, p) == QuantityIn(items, p))
  {
    MergeLinesShape(products, items, session, clamp);
    forall p
      ensures var r := MergeLines(products, items, session, clamp);
        match LineOf(session, p)
        case None => QuantityIn(r, p) == QuantityIn(items, p)
        case Some(j) => QuantityIn(r, p) == Some(Merged(products, QuantityIn(items, p), session[j], clamp))
    {
      MergeLinesAt(products, items, session, clamp, p);
    }
    forall i | 0 <= i < |session|
      ensures LineOf(session, session[i].product) == Some(i)
    {
    }
  }

  /** The merge loop (`for session_item in session_cart.items.all()`) over the
      lines' values; `count` is `merged_count`. */
  method MergeItems(products: map<ProductId, Product>, items: seq<CartItem>, session: seq<CartItem>, clamp: bool)
    returns (merged: seq<CartItem>, count: nat)
    requires LinesKnown(products, session)
    ensures merged == MergeLines(products, items, session, clamp)
    ensures count == |session|
  {
    merged, count := items, 0;
    var i := 0;
    while i < |session|
      invariant 0 <= i <= |session| && count == i
      invariant merged == MergeLines(products, items, session[..i], clamp)
    {
      assert session[..i + 1][..i] == session[..i];
      merged := MergeLine(products, merged, session[i], clamp);
      count := count + 1;
      i := i + 1;
    }
    assert session[..|session|] == session;
  }

  // ----- get_or_create_cart -----

  /** The session cart marked deleted by `session_cart.delete()`; its lines stay. */
  function SoftDeleted(c: Cart, now: Time): (r: Cart)
    ensures r.deletion.isDeleted && r.(deletion := c.deletion) == c
  {
    c.(deletion := MarkDeleted(c.deletion, now))
  }

  /** get_or_create_cart on the cart table. `user` is the authenticated user, if
      any; `sessionKey` the request's session key; `newKey` the key
      `session.create()` assigns when there is none; `now` the clock. The result is
      the cart's index and the new table. */
  function ResolveCart(products: map<ProductId, Product>, carts: seq<Cart>, user: Option<UserId>,
                       sessionKey: Option<string>, newKey: string, now: Time): (r: (nat, seq<Cart>))
    requires CartsValid(products, carts)
    ensures r.0 < |r.1|
  {
    match user
    case None =>
      var key := if Truthy(sessionKey) then sessionKey.value else newKey;
      (match CartOfKey(carts, key)
       case Some(k) => (k, carts)
       case None => (|carts|, carts + [Cart(None, Some(key), [], Live)]))
    case Some(u) =>
      var (k, carts1) := UserCartOrNew(carts, u);
      if Truthy(sessionKey) && UserCart(carts, u).Some? then
        match LiveCartOfKey(carts, sessionKey.value)
        case None => (k, carts)
        case Some(s) =>
          (k, carts[k := carts[k].(items := MergeLines(products, carts[k].items, carts[s].items, false))]
                   [s := SoftDeleted(carts[s], now)])
      else (k, carts1)
  }

  /** A cart with a session key belongs to no user, so it is never the user's cart. */
  lemma SessionCartIsNotUserCart(products: map<ProductId, Product>, carts: seq<Cart>, u: UserId, key: string)
    requires CartsValid(products, carts) && UserCart(carts, u).Some? && LiveCartOfKey(carts, key).Some?
    ensures UserCart(carts, u).value != LiveCartOfKey(carts, key).value
  {
    var s := LiveCartOfKey(carts, key).value;
    assert carts[s].sessionKey.Some?;
  }

  /** A new cart row keeps the cart table valid when its owner and key are new. */
  lemma AppendCartValid(products: map<ProductId, Product>, carts: seq<Cart>, c: Cart)
    requires CartsValid(products, carts) && c.items == [] && (c.user.None? || c.sessionKey.None?)
    requires c.user.Some? ==> forall i :: 0 <= i < |carts| ==> carts[i].user != c.user
    requires c.sessionKey.Some? ==> forall i :: 0 <= i < |carts| ==> carts[i].sessionKey != c.sessionKey
    ensures CartsValid(products, carts + [c])
  {
    var carts2 := carts + [c];
    assert forall i :: 0 <= i < |carts| ==> carts2[i] == carts[i];
  }

  /** Replacing a cart row by one with the same owner and key and valid lines
      keeps the cart table valid. */
  lemma ReplaceCartValid(products: map<ProductId, Product>, carts: seq<Cart>, k: nat, c: Cart)
    requires CartsValid(products, carts) && k < |carts|
    requires c.user == carts[k].user && c.sessionKey == carts[k].sessionKey
    requires DistinctProducts(c.items) && LinesKnown(products, c.items)
    ensures CartsValid(products, carts[k := c])
  {
    var carts2 := carts[k := c];
    assert forall i :: 0 <= i < |carts| ==>
      carts2[i].user == carts[i].user && carts2[i].sessionKey == carts[i].sessionKey;
  }

  /** get_or_create_cart keeps the cart table valid. */
  lemma ResolveCartValid(products: map<ProductId, Product>, carts: seq<Cart>, user: Option<UserId>,
                         sessionKey: Option<string>, newKey: string, now: Time)
    requires CartsValid(products, carts)
    ensures CartsValid(products, ResolveCart(products, carts, user, sessionKey, newKey, now).1)
  {
    match user
    case None =>
      var key := if Truthy(sessionKey) then sessionKey.value else newKey;
      if CartOfKey(carts, key).None? {
        AppendCartValid(products, carts, Cart(None, Some(key), [], Live));
      }
    case Some(u) =>
      if UserCart(carts, u).None? {
        AppendCartValid(products, carts, Cart(Some(u), None, [], Live));
      } else if Truthy(sessionKey) && LiveCartOfKey(carts, sessionKey.value).Some? {
        var k := UserCart(carts, u).value;
        var s := LiveCartOfKey(carts, sessionKey.value).value;
        SessionCartIsNotUserCart(products, carts, u, sessionKey.value);
        var merged := carts[k].(items := MergeLines(products, carts[k].items, carts[s].items, false));
        MergeLinesShape(products, carts[k].items, carts[s].items, false);
        ReplaceCartValid(products, carts, k, merged);
        var carts1 := carts[k := merged];
        assert carts1[s] == carts[s];
        ReplaceCartValid(products, carts1, s, SoftDeleted(carts[s], now));
        assert ResolveCart(products, carts, user, sessionKey, newKey, now).1 == carts1[s := SoftDeleted(carts[s], now)];
      }
  }

  /** The login-time merge runs only when the user's cart already existed and a
      live cart has the session key. It then adds each session quantity to the
      user's line with no stock clamp (a new product gets the session quantity),
      keeps the user's other lines, and soft-deletes the session cart, lines kept.
      Otherwise the table is unchanged but for a new empty user cart. */
  lemma ResolveCartLogin(products: map<ProductId, Product>, carts: seq<Cart>, u: UserId,
                         sessionKey: Option<string>, newKey: string, now: Time)
    requires CartsValid(products, carts)
    ensures var (k, carts2) := ResolveCart(products, carts, Some(u), sessionKey, newKey, now);
      var merges := Truthy(sessionKey) && UserCart(carts, u).Some? && LiveCartOfKey(carts, sessionKey.value).Some?;
      && carts2[k].user == Some(u)
      && (UserCart(carts, u).None? ==> k == |carts| && carts2 == carts + [Cart(Some(u), None, [], Live)])
      && (UserCart(carts, u).Some? && !merges ==> carts2 == carts)
      && (merges ==>
            var s := LiveCartOfKey(carts, sessionKey.value).value;
            var session := carts[s].items;
            && k == UserCart(carts, u).value && |carts2| == |carts|
            && carts2[s] == SoftDeleted(carts[s], now)
            && (forall i :: 0 <= i < |carts| && i != k && i != s ==> carts2[i] == carts[i])
            && (forall i :: 0 <= i < |session| ==>
                  QuantityIn(carts2[k].items, session[i].product)
                  == Some(if QuantityIn(carts[k].items, session[i].product).None? then session[i].quantity
                          else QuantityIn(carts[k].items, session[i].product).value + session[i].quantity))
            && (forall p :: LineOf(session, p).None? ==> QuantityIn(carts2[k].items, p) == QuantityIn(carts[k].items, p)))
  {
    if Truthy(sessionKey) && UserCart(carts, u).Some? && LiveCartOfKey(carts, sessionKey.value).Some? {
      var k := UserCart(carts, u).value;
      var s := LiveCartOfKey(carts, sessionKey.value).value;
      SessionCartIsNotUserCart(products, carts, u, sessionKey.value);
      MergeLinesEffect(products, carts[k].items, carts[s].items, false);
    }
  }

  /** An anonymous request gets the cart of its session key (a new key when it has
      none), created empty when no cart row has that key. */
  lemma ResolveCartAnonymous(products: map<ProductId, Product>, carts: seq<Cart>,
                             sessionKey: Option<string>, newKey: string, now: Time)
    requires CartsValid(products, carts)
    ensures var (k, carts2) := ResolveCart(products, carts, None, sessionKey, newKey, now);
      var key := if Truthy(sessionKey) then sessionKey.value else newKey;
      && carts2[k].sessionKey == Some(key)
      && (CartOfKey(carts, key).Some? ==> carts2 == carts)
      && (CartOfKey(carts, key).None? ==> k == |carts| && carts2 == carts + [Cart(None, Some(key), [], Live)])
  {
  }

  /** get_or_create_cart on the store. */
  method GetOrCreateCart(store: Store, user: Option<UserId>, sessionKey: Option<string>, newKey: string, now: Time)
    returns (k: nat)
    requires store.Valid()
    modifies store
    ensures store.Valid()
    ensures (k, store.carts) == ResolveCart(store.catalog.products, old(store.carts), user, sessionKey, newKey, now)
    ensures store.orders == old(store.orders) && store.orderItems == old(store.orderItems)
    ensures store.earnings == old(store.earnings) && store.shippingMethods == old(store.shippingMethods)
  {
    var products := store.catalog.products;
    ResolveCartValid(products, store.carts, user, sessionKey, newKey, now);
    if user.None? {
      var key := if Truthy(sessionKey) then sessionKey.value else newKey;
      var found := CartOfKey(store.carts, key);
      if found.Some? {
        return found.value;
      }
      store.carts := store.carts + [Cart(None, Some(key), [], Live)];
      return |store.carts| - 1;
    }
    var existing := UserCart(store.carts, user.value);
    if existing.None? {
      store.carts := store.carts + [Cart(user, None, [], Live)];
      return |store.carts| - 1;
    }
    k := existing.value;
    if Truthy(sessionKey) {
      var found := LiveCartOfKey(store.carts, sessionKey.value);
      if found.Some? {
        var s := found.value;
        SessionCartIsNotUserCart(products, store.carts, user.value, sessionKey.value);
        var merged, _ := MergeItems(products, store.carts[k].items, store.carts[s].items, false);
        store.carts := store.carts[k := store.carts[k].(items := merged)];
        store.carts := store.carts[s := SoftDeleted(store.carts[s], now)];
      }
    }
  }

  // ----- CartItemListView.perform_create -----

  /** The line update of perform_create for a validated product and quantity: an
      existing line is incremented and clamped to stock, otherwise a new line. */
  function AddLine(products: map<ProductId, Product>, items: seq<CartItem>, product: ProductId, quantity: nat): (r: seq<CartItem>)
    requires product in products
    ensures |items| <= |r| <= |items| + 1
    ensures forall i :: 0 <= i < |items| && items[i].product != product ==> r[i] == items[i]
  {
    MergeLine(products, items, CartItem(product, quantity, Live), true)
  }

  /** Adding a product already in the cart gives min(existing + quantity,
      inventory); a product not yet in the cart gets exactly `quantity`; other
      lines are untouched and the cart keeps one line per product. */
  lemma AddLineEffect(products: map<ProductId, Product>, items: seq<CartItem>, product: ProductId, quantity: nat)
    requires DistinctProducts(items) && LinesKnown(products, items) && product in products
    ensures var r := AddLine(products, items, product, quantity);
      && DistinctProducts(r) && LinesKnown(products, r)
      && QuantityIn(r, product) == Some(
           if QuantityIn(items, product).None? then quantity
           else Clamp(QuantityIn(items, product).value + quantity, products[product].inventory))
      && (forall p :: p != product ==> QuantityIn(r, p) == QuantityIn(items, p))
  {
    MergeLineEffect(products, items, CartItem(product, quantity, Live), true);
  }

  /** CartItemListView.perform_create, after the serializer validated
      `product` and `quantity`. */
  method AddToCart(store: Store, user: Option<UserId>, sessionKey: Option<string>, newKey: string, now: Time,
                   product: ProductId, quantity: nat)
    returns (k: nat)
    requires store.Valid() && product in store.catalog.products
    modifies store
    ensures store.Valid()
    ensures var (k0, carts1) := ResolveCart(store.catalog.products, old(store.carts), user, sessionKey, newKey, now);
      k == k0 && store.carts == carts1[k := carts1[k].(items := AddLine(store.catalog.products, carts1[k].items, product, quantity))]
    ensures store.orders == old(store.orders) && store.orderItems == old(store.orderItems)
    ensures store.earnings == old(store.earnings) && store.shippingMethods == old(store.shippingMethods)
  {
    k := GetOrCreateCart(store, user, sessionKey, newKey, now);
    var items := store.carts[k].items;
    AddLineEffect(store.catalog.products, items, product, quantity);
    store.carts := store.carts[k := store.carts[k].(items := AddLine(store.catalog.products, items, product, quantity))];
  }

  // ----- merge_cart -----

  /** The user's cart, found or created, leaves the table valid and every
      existing row as it was. */
  lemma UserCartOrNewValid(products: map<ProductId, Product>, carts: seq<Cart>, u: UserId)
    requires CartsValid(products, carts)
    ensures var (k, carts1) := UserCartOrNew(carts, u);
      CartsValid(products, carts1) && |carts| <= |carts1| && carts1[..|carts|] == carts
  {
  }

  /** The successful merge: the session cart `s` merged, with clamping, into the
      user's cart (found or created), then soft-deleted. */
  function MergeInto(products: map<ProductId, Product>, carts: seq<Cart>, u: UserId, s: nat, now: Time): (r: seq<Cart>)
    requires CartsValid(products, carts) && s < |carts| && carts[s].sessionKey.Some?
    ensures |carts| <= |r| <= |carts| + 1
    ensures r[s] == SoftDeleted(carts[s], now)
    ensures forall i :: 0 <= i < |carts| && i != s && carts[i].user != Some(u) ==> r[i] == carts[i]
  {
    var (k, carts1) := UserCartOrNew(carts, u);
    UserCartOrNewValid(products, carts, u);
    assert carts1[s] == carts[s];
    carts1[k := carts1[k].(items := MergeLines(products, carts1[k].items, carts[s].items, true))]
          [s := SoftDeleted(carts[s], now)]
  }

  /** merge_cart on the cart table; `sessionKey` is `request.data.get('session_key')`. */
  function MergeCartOf(products: map<ProductId, Product>, carts: seq<Cart>, user: Option<UserId>,
                       sessionKey: Option<string>, now: Time): (r: (Reply, seq<Cart>))
    requires CartsValid(products, carts)
    ensures r.0.status == if user.None? then 401 else 200
    ensures |carts| <= |r.1| <= |carts| + 1
  {
    if user.None? then (Reply(401, "User must be authenticated."), carts)
    else if !Truthy(sessionKey) then (Reply(200, "No session cart to merge."), carts)
    else match LiveCartOfKey(carts, sessionKey.value)
      case None => (Reply(200, "Session cart not found."), carts)
      case Some(s) =>
        (Reply(200, "Merged " + NatToString(|carts[s].items|) + " items into cart."),
         MergeInto(products, carts, user.value, s, now))
  }

  /** merge_cart changes nothing unless an authenticated user names a live session
      cart; the reply is 401 for an anonymous caller and 200 otherwise. */
  lemma MergeCartRefused(products: map<ProductId, Product>, carts: seq<Cart>, user: Option<UserId>,
                         sessionKey: Option<string>, now: Time)
    requires CartsValid(products, carts)
    ensures var (reply, carts2) := MergeCartOf(products, carts, user, sessionKey, now);
      && (user.None? ==> reply == Reply(401, "User must be authenticated.") && carts2 == carts)
      && (user.Some? && (!Truthy(sessionKey) || LiveCartOfKey(carts, sessionKey.value).None?) ==>
            reply.status == 200 && carts2 == carts)
  {
  }

  /** A successful merge: every session product ends with the session quantity if
      the user's cart lacked it and with min(existing + session, inventory)
      otherwise; the user's other lines stay; the message counts every session
      line; the session cart is soft-deleted with its lines left in place; no
      other cart changes; and the table stays valid. */
  lemma MergeIntoEffect(products: map<ProductId, Product>, carts: seq<Cart>, u: UserId, s: nat, now: Time)
    requires CartsValid(products, carts) && s < |carts| && carts[s].sessionKey.Some?
    ensures var (k, carts1) := UserCartOrNew(carts, u);
      var carts2 := MergeInto(products, carts, u, s, now);
      var session := carts[s].items;
      && CartsValid(products, carts2)
      && k != s && |carts2| == |carts1| && carts2[s] == SoftDeleted(carts[s], now) && carts2[k].user == Some(u)
      && (forall i :: 0 <= i < |carts1| && i != k && i != s ==> carts2[i] == carts1[i])
      && (forall i :: 0 <= i < |session| ==>
            QuantityIn(carts2[k].items, session[i].product)
            == Some(if QuantityIn(carts1[k].items, session[i].product).None? then session[i].quantity
                    else Clamp(QuantityIn(carts1[k].items, session[i].product).value + session[i].quantity,
                               products[session[i].product].inventory)))
      && (forall p :: LineOf(session, p).None? ==> QuantityIn(carts2[k].items, p) == QuantityIn(carts1[k].items, p))
  {
    var (k, carts1) := UserCartOrNew(carts, u);
    MergeIntoValid(products, carts, u, s, now);
    assert carts1[s] == carts[s];
    MergeLinesEffect(products, carts1[k].items, carts[s].items, true);
    var merged := carts1[k].(items := MergeLines(products, carts1[k].items, carts[s].items, true));
    assert MergeInto(products, carts, u, s, now) == carts1[k := merged][s := SoftDeleted(carts[s], now)];
  }

  /** The merge leaves the cart table valid. */
  lemma MergeIntoValid(products: map<ProductId, Product>, carts: seq<Cart>, u: UserId, s: nat, now: Time)
    requires CartsValid(products, carts) && s < |carts| && carts[s].sessionKey.Some?
    ensures CartsValid(products, MergeInto(products, carts, u, s, now))
    ensures UserCartOrNew(carts, u).0 != s
  {
    var (k, carts1) := UserCartOrNew(carts, u);
    UserCartOrNewValid(products, carts, u);
    assert carts1[s] == carts[s];
    MergeLinesShape(products, carts1[k].items, carts[s].items, true);
    var merged := carts1[k].(items := MergeLines(products, carts1[k].items, carts[s].items, true));
    ReplaceCartValid(products, carts1, k, merged);
    ReplaceCartValid(products, carts1[k := merged], s, SoftDeleted(carts[s], now));
    assert MergeInto(products, carts, u, s, now) == carts1[k := merged][s := SoftDeleted(carts[s], now)];
  }

  /** merge_cart on the store. */
  method MergeCart(store: Store, user: Option<UserId>, sessionKey: Option<string>, now: Time)
    returns (reply: Reply)
    requires store.Valid()
    modifies store
    ensures store.Valid()
    ensures (reply, store.carts) == MergeCartOf(store.catalog.products, old(store.carts), user, sessionKey, now)
    ensures store.orders == old(store.orders) && store.orderItems == old(store.orderItems)
    ensures store.earnings == old(store.earnings) && store.shippingMethods == old(store.shippingMethods)
  {
    if user.None? {
      return Reply(401, "User must be authenticated.");
    }
    if !Truthy(sessionKey) {
      return Reply(200, "No session cart to merge.");
    }
    var found := LiveCartOfKey(store.carts, sessionKey.value);
    if found.None? {
      return Reply(200, "Session cart not found.");
    }
    var products := store.catalog.products;
    var carts0 := store.carts;
    var s := found.value;
    MergeIntoEffect(products, carts0, user.value, s, now);
    var session := carts0[s];
    var k, carts1 := UserCartOrNew(carts0, user.value).0, UserCartOrNew(carts0, user.value).1;
    UserCartOrNewValid(products, carts0, user.value);
    var merged, count := MergeItems(products, carts1[k].items, session.items, true);
    store.carts := carts1[k := carts1[k].(items := merged)][s := SoftDeleted(session, now)];
    reply := Reply(200, "Merged " + NatToString(count) + " items into cart.");
  }

  // ----- OrderCreateView.create: the earnings split -----

  /** The keys of `vendor_totals`: the vendors of the items, each once, in order
      of first appearance. */
  function VendorsOf(items: seq<OrderItem>): (r: seq<UserId>)
    ensures forall i, j :: 0 <= i < j < |r| ==> r[i] != r[j]
    ensures forall i :: 0 <= i < |items| ==> items[i].vendor in r
    ensures forall v :: v in r ==> exists i :: 0 <= i < |items| && items[i].vendor == v
  {
    if items == [] then []
    else
      var init := items[..|items| - 1];
      var vs := VendorsOf(init);
      var v := items[|items| - 1].vendor;
      assert forall i :: 0 <= i < |init| ==> init[i] == items[i];
      if v in vs then vs else vs + [v]
  }

  /** No item has a negative total price. */
  predicate PricesNonNegative(items: seq<OrderItem>) {
    forall i :: 0 <= i < |items| ==> items[i].totalPrice >= 0
  }

  /** `vendor_totals[v]['gross_amount']`: Σ total_price over the items of `v`. */
  function GrossOf(items: seq<OrderItem>, v: UserId): (r: Cents)
    ensures items == [] ==> r == 0
  {
    if items == [] then 0
    else GrossOf(items[..|items| - 1], v) + (if items[|items| - 1].vendor == v then items[|items| - 1].totalPrice else 0)
  }

  /** Σ total_price over all the items. */
  function TotalOf(items: seq<OrderItem>): Cents {
    if items == [] then 0 else TotalOf(items[..|items| - 1]) + items[|items| - 1].totalPrice
  }

  /** Σ gross over the vendors `vs`. */
  function GrossSum(items: seq<OrderItem>, vs: seq<UserId>): Cents {
    if vs == [] then 0 else GrossSum(items, vs[..|vs| - 1]) + GrossOf(items, vs[|vs| - 1])
  }

  /** With no negative prices, a vendor's gross lies between 0 and the order's
      total. */
  lemma {:induction false} GrossAtMostTotal(items: seq<OrderItem>, v: UserId)
    requires PricesNonNegative(items)
    ensures 0 <= GrossOf(items, v) <= TotalOf(items)
  {
    if items != [] {
      var init := items[..|items| - 1];
      assert forall i :: 0 <= i < |init| ==> init[i] == items[i];
      GrossAtMostTotal(init, v);
    }
  }

  lemma {:induction false} GrossOfAbsent(items: seq<OrderItem>, v: UserId)
    requires forall i :: 0 <= i < |items| ==> items[i].vendor != v
    ensures GrossOf(items, v) == 0
  {
    if items != [] {
      GrossOfAbsent(items[..|items| - 1], v);
    }
  }

  /** One more item adds its total to the sum over distinct vendors exactly when
      its vendor is one of them. */
  lemma {:induction false} GrossSumStep(init: seq<OrderItem>, last: OrderItem, vs: seq<UserId>)
    requires forall i, j :: 0 <= i < j < |vs| ==> vs[i] != vs[j]
    ensures GrossSum(init + [last], vs) == GrossSum(init, vs) + (if last.vendor in vs then last.totalPrice else 0)
  {
    assert (init + [last])[..|init|] == init;
    if vs != [] {
      var pre := vs[..|vs| - 1];
      GrossSumStep(init, last, pre);
      assert vs == pre + [vs[|vs| - 1]];
    }
  }

  /** Σ gross over the vendors of the order = Σ item totals: the split neither
      loses nor double-counts an item. */
  lemma {:induction false} GrossSumsToTotal(items: seq<OrderItem>)
    ensures GrossSum(items, VendorsOf(items)) == TotalOf(items)
  {
    if items != [] {
      var init := items[..|items| - 1];
      var last := items[|items| - 1];
      assert items == init + [last];
      var vs := VendorsOf(init);
      GrossSumsToTotal(init);
      GrossSumStep(init, last, vs);
      if last.vendor !in vs {
        assert (vs + [last.vendor])[..|vs|] == vs;
        GrossOfAbsent(init, last.vendor);
      }
    }
  }

  /** One more item: its vendor joins the list if new, and its total goes to
      that vendor's gross. */
  lemma VendorTotalsStep(items: seq<OrderItem>, i: nat)
    requires i < |items|
    ensures VendorsOf(items[..i + 1]) ==
      if items[i].vendor in VendorsOf(items[..i]) then VendorsOf(items[..i]) else VendorsOf(items[..i]) + [items[i].vendor]
    ensures forall v :: (GrossOf(items[..i + 1], v)
                         == GrossOf(items[..i], v) + (if items[i].vendor == v then items[i].totalPrice else 0))
  {
    var pre := items[..i + 1];
    assert pre[..i] == items[..i] && pre[i] == items[i];
  }

  /** One turn of the grouping loop keeps `vendor_totals` equal to the vendors
      and gross amounts of the items seen so far. */
  lemma VendorTotalsKept(items: seq<OrderItem>, i: nat, vendors: seq<UserId>, gross: map<UserId, Cents>,
                         vendors2: seq<UserId>, gross2: map<UserId, Cents>)
    requires i < |items| && vendors == VendorsOf(items[..i])
    requires forall v :: v in gross <==> v in vendors
    requires forall v :: v in gross ==> gross[v] == GrossOf(items[..i], v)
    requires vendors2 == if items[i].vendor in gross then vendors else vendors + [items[i].vendor]
    requires gross2 == gross[items[i].vendor := (if items[i].vendor in gross then gross[items[i].vendor] else 0)
                                                + items[i].totalPrice]
    ensures vendors2 == VendorsOf(items[..i + 1])
    ensures forall v :: v in gross2 <==> v in vendors2
    ensures forall v :: v in gross2 ==> gross2[v] == GrossOf(items[..i + 1], v)
  {
    var v := items[i].vendor;
    VendorTotalsStep(items, i);
    if v !in gross {
      assert forall j :: 0 <= j < i ==> items[..i][j].vendor != v;
      GrossOfAbsent(items[..i], v);
    }
    forall w | w in gross2 ensures gross2[w] == GrossOf(items[..i + 1], w) {
      if w != v {
        assert gross2[w] == gross[w];
      }
    }
  }

  /** The grouping loop of create: `vendor_totals` as the list of its keys and a
      map of their gross amounts. */
  method VendorTotals(items: seq<OrderItem>) returns (vendors: seq<UserId>, gross: map<UserId, Cents>)
    ensures vendors == VendorsOf(items)
    ensures forall v :: v in gross <==> v in vendors
    ensures forall v :: v in gross ==> gross[v] == GrossOf(items, v)
  {
    vendors, gross := [], map[];
    var i := 0;
    while i < |items|
      invariant 0 <= i <= |items|
      invariant vendors == VendorsOf(items[..i])
      invariant forall v :: v in gross <==> v in vendors
      invariant forall v :: v in gross ==> gross[v] == GrossOf(items[..i], v)
    {
      vendors, gross := AddToVendorTotals(items, i, vendors, gross);
      i := i + 1;
    }
    assert items[..|items|] == items;
  }

  /** One turn of the grouping loop: item `i` added to `vendor_totals`. */
  method AddToVendorTotals(items: seq<OrderItem>, i: nat, vendors: seq<UserId>, gross: map<UserId, Cents>)
    returns (vendors2: seq<UserId>, gross2: map<UserId, Cents>)
    requires i < |items| && vendors == VendorsOf(items[..i])
    requires forall v :: v in gross <==> v in vendors
    requires forall v :: v in gross ==> gross[v] == GrossOf(items[..i], v)
    ensures vendors2 == VendorsOf(items[..i + 1])
    ensures forall v :: v in gross2 <==> v in vendors2
    ensures forall v :: v in gross2 ==> gross2[v] == GrossOf(items[..i + 1], v)
  {
    var v := items[i].vendor;
    vendors2 := if v in gross then vendors else vendors + [v];
    gross2 := gross[v := (if v in gross then gross[v] else 0) + items[i].totalPrice];
    VendorTotalsKept(items, i, vendors, gross, vendors2, gross2);
  }

  /** The platform's share, 5 %, exact. */
  const PlatformFeeRate: real := 0.05

  /** The row `VendorEarnings.objects.create` inserts for one vendor, net amount
      derived by VendorEarnings.save. */
  function NewEarnings(order: nat, vendor: UserId, gross: Cents): (e: VendorEarnings)
    ensures e.vendor == vendor && e.order == order && e.grossAmount == gross as real
    ensures e.platformFee == gross as real / 20.0
    ensures e.netAmount == gross as real * 19.0 / 20.0
    ensures e.status == EarningsPending && e.paidAt.None?
  {
    SaveEarnings(VendorEarnings(vendor, order, gross as real, gross as real * PlatformFeeRate, 0.0,
                                EarningsPending, None, Live))
  }

  /** The earnings rows of an order whose items are `items`: one per vendor, in
      the order of `vendor_totals`. */
  function EarningsRows(order: nat, items: seq<OrderItem>): (r: seq<VendorEarnings>)
    ensures |r| == |VendorsOf(items)|
    ensures forall k :: 0 <= k < |r| ==>
      r[k] == NewEarnings(order, VendorsOf(items)[k], GrossOf(items, VendorsOf(items)[k]))
  {
    var vs := VendorsOf(items);
    seq(|vs|, k requires 0 <= k < |vs| => NewEarnings(order, vs[k], GrossOf(items, vs[k])))
  }

  lemma EarningsRowsVendor(order: nat, items: seq<OrderItem>)
    ensures forall k :: 0 <= k < |EarningsRows(order, items)| ==>
      EarningsRows(order, items)[k].vendor == VendorsOf(items)[k]
  {
  }

  /** Every vendor of the order's items gets an earnings row. */
  lemma EarningsForEveryVendor(order: nat, items: seq<OrderItem>, i: nat)
    requires i < |items|
    ensures exists k :: 0 <= k < |EarningsRows(order, items)| && EarningsRows(order, items)[k].vendor == items[i].vendor
  {
    var vs := VendorsOf(items);
    EarningsRowsVendor(order, items);
    assert items[i].vendor in vs;
    var k :| 0 <= k < |vs| && vs[k] == items[i].vendor;
    assert EarningsRows(order, items)[k].vendor == items[i].vendor;
  }

  /** Every earnings row is for a vendor of the order's items, and no vendor gets
      two rows, so (vendor, order) stays unique. */
  lemma EarningsOnlyForVendors(order: nat, items: seq<OrderItem>)
    ensures var r := EarningsRows(order, items);
      && (forall k :: 0 <= k < |r| ==> exists i :: 0 <= i < |items| && items[i].vendor == r[k].vendor)
      && (forall k, l :: 0 <= k < l < |r| ==> r[k].vendor != r[l].vendor)
  {
    var r := EarningsRows(order, items);
    var vs := VendorsOf(items);
    EarningsRowsVendor(order, items);
    forall k | 0 <= k < |r|
      ensures exists i :: 0 <= i < |items| && items[i].vendor == r[k].vendor
    {
      assert vs[k] in vs;
    }
  }

  /** Each row is for this order, pending, with its vendor's gross, a 5 % fee and
      the rest as net. */
  lemma EarningsSplitAmounts(order: nat, items: seq<OrderItem>)
    ensures var r := EarningsRows(order, items);
      forall k :: 0 <= k < |r| ==>
        r[k].order == order && r[k].status == EarningsPending
        && r[k].grossAmount == GrossOf(items, r[k].vendor) as real
        && r[k].platformFee + r[k].netAmount == r[k].grossAmount
        && r[k].platformFee == r[k].grossAmount * PlatformFeeRate
  {
  }

  /** The earnings step as written: the first `gross_amount * 0.05` multiplies a
      Decimal by a float, which raises TypeError. So no row is ever created, and
      an order with items gets an error response although checkout, which ran in
      its own transaction, has committed it. Returns the rows and whether it
      raised. */
  function EarningsAsWritten(order: nat, items: seq<OrderItem>): (r: (seq<VendorEarnings>, bool))
    ensures r.0 == []
    ensures r.1 <==> items != []
  {
    if VendorsOf(items) == [] then ([], false) else
      assert items[0].vendor in VendorsOf(items);
      ([], true)
  }

  /** An order's items: ItemsOf over the table distributes over concatenation. */
  lemma {:induction false} ItemsOfAppend(a: seq<OrderItem>, b: seq<OrderItem>, id: nat)
    ensures ItemsOf(a + b, id) == ItemsOf(a, id) + ItemsOf(b, id)
  {
    if a != [] {
      assert (a + b)[0] == a[0] && (a + b)[1..] == a[1..] + b;
      ItemsOfAppend(a[1..], b, id);
    } else {
      assert a + b == b;
    }
  }

  lemma {:induction false} ItemsOfAll(items: seq<OrderItem>, id: nat)
    requires forall i :: 0 <= i < |items| ==> items[i].order == id
    ensures ItemsOf(items, id) == items
  {
    if items != [] {
      ItemsOfAll(items[1..], id);
    }
  }

  lemma {:induction false} ItemsOfNone(items: seq<OrderItem>, id: nat)
    requires forall i :: 0 <= i < |items| ==> items[i].order < id
    ensures ItemsOf(items, id) == []
  {
    if items != [] {
      ItemsOfNone(items[1..], id);
    }
  }

  /** After a successful checkout, `order.items.all()` is exactly the new item
      rows, one per cart line: so the earnings step as written always fails, and
      the corrected one creates at least one row. */
  lemma CreatedOrderItems(t: Tables, user: UserId, shipMethod: ShippingMethod, shipping: Address,
                          billing: Address, req: CheckoutRequest, hex: string)
    requires Consistent(t) && IsUuidHex(hex)
    requires CheckoutOf(t, user, shipMethod, shipping, billing, req, hex).0.Created?
    ensures var (out, t2) := CheckoutOf(t, user, shipMethod, shipping, billing, req, hex);
      var k := UserCart(t.carts, user).value;
      && ItemsOf(t2.orderItems, out.order) == NewItems(t.products, out.order, t.carts[k].items)
      && EarningsAsWritten(out.order, ItemsOf(t2.orderItems, out.order)) == ([], true)
      && |EarningsRows(out.order, ItemsOf(t2.orderItems, out.order))| >= 1
  {
    var k := UserCart(t.carts, user).value;
    var lines := t.carts[k].items;
    var id := |t.orders|;
    var added := NewItems(t.products, id, lines);
    var r := Reserve(t.products, lines);
    var t2 := Tables(r.products, t.carts[k := t.carts[k].(items := [])],
                     t.orders + [NewOrder(user, SubtotalOf(t.products, lines), shipMethod, shipping, billing, req, hex)],
                     t.orderItems + added);
    assert CheckoutOf(t, user, shipMethod, shipping, billing, req, hex) == (Created(id), t2);
    NewOrderItems(t.orderItems, added, id);
    assert added[0].vendor in VendorsOf(added);
  }

  /** Rows appended for a new order id are exactly that order's items. */
  lemma NewOrderItems(before: seq<OrderItem>, added: seq<OrderItem>, id: nat)
    requires forall i :: 0 <= i < |before| ==> before[i].order < id
    requires forall i :: 0 <= i < |added| ==> added[i].order == id
    ensures ItemsOf(before + added, id) == added
  {
    ItemsOfAppend(before, added, id);
    ItemsOfNone(before, id);
    ItemsOfAll(added, id);
  }

  /** Lines 181-200 of create on the order's items: the grouping loop, then one
      row per entry of `vendor_totals`. */
  method SplitEarnings(order: nat, items: seq<OrderItem>) returns (rows: seq<VendorEarnings>)
    ensures rows == EarningsRows(order, items)
  {
    var vendors, gross := VendorTotals(items);
    ghost var target := EarningsRows(order, items);
    rows := [];
    var i := 0;
    while i < |vendors|
      invariant 0 <= i <= |vendors| == |target| && |rows| == i
      invariant forall k :: 0 <= k < i ==> rows[k] == target[k]
    {
      assert target[i] == NewEarnings(order, vendors[i], gross[vendors[i]]);
      rows := rows + [NewEarnings(order, vendors[i], gross[vendors[i]])];
      i := i + 1;
    }
  }

  /** OrderCreateView.create with the earnings step corrected: validation,
      checkout, then one earnings row per vendor of the new order with the exact
      5 % fee. As written, `gross_amount * 0.05` raises TypeError once checkout
      has committed (EarningsAsWritten, CreatedOrderItems): the order stays, the
      client gets a server error and no earnings row is written. */
  method OrderCreate(store: Store, accounts: Accounts, user: UserId, req: CheckoutRequest, hex: string)
    returns (reply: Reply)
    requires store.Valid() && IsUuidHex(hex)
    modifies store, store.catalog
    ensures store.Valid()
    ensures store.shippingMethods == old(store.shippingMethods) && store.catalog.reviews == old(store.catalog.reviews)
    ensures ValidateCheckout(accounts.addresses, store.shippingMethods, user, req) != [] ==>
      reply.status == 400
      && unchanged(store) && store.catalog.products == old(store.catalog.products)
    ensures ValidateCheckout(accounts.addresses, store.shippingMethods, user, req) == [] ==>
      var (out, t2) := CheckoutOf(old(Tables(store.catalog.products, store.carts, store.orders, store.orderItems)),
                                  user, store.shippingMethods[req.shippingMethodId],
                                  accounts.addresses[req.shippingAddressId], accounts.addresses[req.billingAddressId],
                                  req, hex);
      && Tables(store.catalog.products, store.carts, store.orders, store.orderItems) == t2
      && (out.Refused? ==> reply == Reply(400, out.message) && store.earnings == old(store.earnings))
      && (out.Created? ==>
            reply.status == 201
            && store.earnings == old(store.earnings) + EarningsRows(out.order, ItemsOf(t2.orderItems, out.order)))
  {
    var errors := ValidateCheckout(accounts.addresses, store.shippingMethods, user, req);
    if errors != [] {
      return Reply(400, errors[0].message);
    }
    var out := Checkout(store, accounts, user, req, hex);
    if out.Refused? {
      return Reply(400, out.message);
    }
    RecordEarnings(store, out.order);
    reply := Reply(201, "");
  }

  /** Lines 181-200 of create on the store, corrected: the earnings rows of
      one order are appended and no other table changes. As written this step
      raises before any row is created (EarningsAsWritten). */
  method RecordEarnings(store: Store, order: nat)
    requires store.Valid()
    modifies store
    ensures store.Valid()
    ensures store.earnings == old(store.earnings) + EarningsRows(order, ItemsOf(store.orderItems, order))
    ensures store.carts == old(store.carts) && store.orders == old(store.orders)
    ensures store.orderItems == old(store.orderItems) && store.shippingMethods == old(store.shippingMethods)
  {
    var items := ItemsOf(store.orderItems, order);
    var rows := SplitEarnings(order, items);
    store.earnings := store.earnings + rows;
  }

  // ----- cancel_order -----

  const DefaultCancelReason: string := "Customer request"

  /** cancel_order: `Order.objects.get(id=..., user=user)`, the status guard, then
      Order.cancel with `request.data.get('reason', 'Customer request')`. */
  method CancelOrder(store: Store, user: UserId, orderId: nat, reason: Option<string>) returns (reply: Reply)
    requires store.Valid()
    modifies store, store.catalog
    ensures store.Valid()
    ensures orderId >= |old(store.orders)| || old(store.orders[orderId].user) != user ==>
      reply == Reply(404, "Order not found.")
    ensures orderId < |old(store.orders)| && old(store.orders[orderId].user) == user
            && !CanBeCancelled(old(store.orders[orderId])) ==>
      reply == Reply(400, "Order cannot be cancelled in current status.")
    ensures reply.status != 200 ==>
      store.orders == old(store.orders) && store.catalog.products == old(store.catalog.products)
    ensures reply.status == 200 ==>
      var o := old(store.orders[orderId]);
      && orderId < |old(store.orders)| && o.user == user && CanBeCancelled(o)
      && reply.message == "Order cancelled successfully."
      && store.orders == old(store.orders)[orderId := CancelledOrder(o, if reason.Some? then reason.value else DefaultCancelReason)]
      && store.catalog.products == RestoreAll(old(store.catalog.products), ItemsOf(old(store.orderItems), orderId))
    ensures store.carts == old(store.carts) && store.orderItems == old(store.orderItems)
    ensures store.earnings == old(store.earnings) && store.shippingMethods == old(store.shippingMethods)
  {
    if orderId >= |store.orders| || store.orders[orderId].user != user {
      return Reply(404, "Order not found.");
    }
    if !CanBeCancelled(store.orders[orderId]) {
      return Reply(400, "Order cannot be cancelled in current status.");
    }
    var ok := store.Cancel(orderId, if reason.Some? then reason.value else DefaultCancelReason);
    reply := Reply(200, "Order cancelled successfully.");
  }

  // ----- update_order_status -----

  /** The order after update_order_status sets `target` (with `tracking` the
      request's tracking number, "" when absent, and `now` the clock). */
  function StatusUpdated(o: Order, target: OrderStatus, tracking: string, now: Time): (r: Order)
    ensures r.status == target
    ensures r.paidAt == if target == Paid && o.status != Paid then Some(now) else o.paidAt
    ensures r.shippedAt == if target == Shipped && o.status != Shipped then Some(now) else o.shippedAt
    ensures r.deliveredAt == if target == Delivered && o.status != Delivered then Some(now) else o.deliveredAt
    ensures r.trackingNumber ==
      if target == Shipped && o.status != Shipped && tracking != "" then tracking else o.trackingNumber
    ensures r.(status := o.status, paidAt := o.paidAt, shippedAt := o.shippedAt,
               deliveredAt := o.deliveredAt, trackingNumber := o.trackingNumber) == o
  {
    var o1 := o.(status := target);
    if target == Paid && o.status != Paid then o1.(paidAt := Some(now))
    else if target == Shipped && o.status != Shipped then
      o1.(shippedAt := Some(now), trackingNumber := if tracking != "" then tracking else o.trackingNumber)
    else if target == Delivered && o.status != Delivered then o1.(deliveredAt := Some(now))
    else o1
  }

  /** Re-setting the current status changes nothing: no timestamp, no tracking
      number. */
  lemma SameStatusNoChange(o: Order, tracking: string, now: Time)
    ensures StatusUpdated(o, o.status, tracking, now) == o
  {
  }

  /** Every status can follow every status: the endpoint forbids no transition,
      CANCELLED to PAID and DELIVERED to PENDING included. */
  lemma AnyTransition(o: Order, target: OrderStatus, tracking: string, now: Time)
    ensures StatusUpdated(o, target, tracking, now).status == target
    ensures StatusUpdated(o, target, tracking, now).orderNumber == o.orderNumber
  {
  }

  /** Applying the same update twice is the same as applying it once. */
  lemma StatusUpdateIdempotent(o: Order, target: OrderStatus, tracking: string, now: Time, later: Time)
    ensures StatusUpdated(StatusUpdated(o, target, tracking, now), target, tracking, later)
            == StatusUpdated(o, target, tracking, now)
  {
  }

  /** `VendorEarnings.objects.filter(order=order).update(status='available')`:
      a queryset update, soft-deleted rows included. */
  function ReleaseEarnings(earnings: seq<VendorEarnings>, id: nat): (r: seq<VendorEarnings>)
    ensures |r| == |earnings|
    ensures forall k :: 0 <= k < |r| ==>
      r[k] == if earnings[k].order == id then earnings[k].(status := Available) else earnings[k]
  {
    seq(|earnings|, k requires 0 <= k < |earnings| =>
      if earnings[k].order == id then earnings[k].(status := Available) else earnings[k])
  }

  /** Releasing leaves every row of the order available, touches no other row or
      field, and a second release changes nothing. */
  lemma ReleaseEarningsEffect(earnings: seq<VendorEarnings>, id: nat)
    ensures forall k :: 0 <= k < |earnings| && earnings[k].order == id ==>
      ReleaseEarnings(earnings, id)[k].status == Available
      && ReleaseEarnings(earnings, id)[k].(status := earnings[k].status) == earnings[k]
    ensures forall k :: 0 <= k < |earnings| && earnings[k].order != id ==> ReleaseEarnings(earnings, id)[k] == earnings[k]
    ensures ReleaseEarnings(ReleaseEarnings(earnings, id), id) == ReleaseEarnings(earnings, id)
  {
  }

  /** update_order_status; `newStatus` and `tracking` are the request's fields. */
  method UpdateOrderStatus(store: Store, orderId: nat, newStatus: Option<string>, tracking: Option<string>,
                           now: Time) returns (reply: Reply)
    requires store.Valid()
    modifies store
    ensures store.Valid()
    ensures orderId >= |old(store.orders)| ==>
      reply == Reply(404, "Order not found.") && store.orders == old(store.orders) && store.earnings == old(store.earnings)
    ensures orderId < |old(store.orders)| && (newStatus.None? || StatusFromName(newStatus.value).None?) ==>
      reply == Reply(400, "Invalid status.") && store.orders == old(store.orders) && store.earnings == old(store.earnings)
    ensures orderId < |old(store.orders)| && newStatus.Some? && StatusFromName(newStatus.value).Some? ==>
      var o := old(store.orders[orderId]);
      var target := StatusFromName(newStatus.value).value;
      && reply == Reply(200, "Order status updated to " + newStatus.value + ".")
      && store.orders == old(store.orders)[orderId := StatusUpdated(o, target, if tracking.Some? then tracking.value else "", now)]
      && store.earnings == if target == Paid && o.status != Paid then ReleaseEarnings(old(store.earnings), orderId)
                           else old(store.earnings)
    ensures store.carts == old(store.carts) && store.orderItems == old(store.orderItems)
    ensures store.shippingMethods == old(store.shippingMethods)
  {
    if orderId >= |store.orders| {
      return Reply(404, "Order not found.");
    }
    var target := if newStatus.Some? then StatusFromName(newStatus.value) else None;
    if target.None? {
      return Reply(400, "Invalid status.");
    }
    var o := store.orders[orderId];
    var number := if tracking.Some? then tracking.value else "";
    if target.value == Paid && o.status != Paid {
      store.earnings := ReleaseEarnings(store.earnings, orderId);
    }
    // order.save(): the order already has its number, so Order.save keeps it.
    store.orders := store.orders[orderId := StatusUpdated(o, target.value, number, now)];
    reply := Reply(200, "Order status updated to " + newStatus.value + ".");
  }
}
