/** orders/admin.py: the cart owner shown and the admin actions that mark an
    order paid or shipped and mark vendor earnings paid out. */
module OrderAdmin {
  import opened Basics
  import opened Text
  import opened CommonUtils
  import opened Users
  import opened OrderModels
  import opened OrderViews

  /** CartAdmin.cart_owner (and CartItemAdmin.cart_owner on the item's cart): the
      user's email, else "Anonymous (" + the first 8 characters of the session key
      + "...)". None is the TypeError of slicing a missing session key. The column's
      format is its specification, so the ensures spell it out case by case; what
      the label keeps of the key is stated by AnonymousLabelShowsEight. */
  function CartOwner(users: map<UserId, User>, c: Cart): (r: Option<string>)
    requires c.user.Some? ==> c.user.value in users
    ensures c.user.Some? ==> r == Some(users[c.user.value].email)
    ensures c.user.None? && c.sessionKey.None? ==> r.None?
    ensures c.user.None? && c.sessionKey.Some? ==>
      r.Some? && r.value == "Anonymous (" + Take(c.sessionKey.value, 8) + "...)"
  {
    if c.user.Some? then Some(users[c.user.value].email)
    else if c.sessionKey.None? then None
    else Some("Anonymous (" + Take(c.sessionKey.value, 8) + "...)")
  }

  /** An anonymous owner label shows at most 8 characters of the key, and exactly its
      first 8 when the key is at least that long. */
  lemma AnonymousLabelShowsEight(users: map<UserId, User>, c: Cart)
    requires c.user.None? && c.sessionKey.Some?
    ensures var key := c.sessionKey.value;
      var shown := CartOwner(users, c).value;
      && |shown| == |"Anonymous ("| + (if |key| < 8 then |key| else 8) + |"...)"|
      && (|key| >= 8 ==> shown[11..19] == key[..8])
  {
    var key := c.sessionKey.value;
    var shown := CartOwner(users, c).value;
    assert shown == "Anonymous (" + Take(key, 8) + "...)";
    if |key| >= 8 {
      assert shown[11..19] == Take(key, 8);
    }
  }

  /** The order after mark_paid: status PAID and paid_at overwritten, whatever
      the status was. */
  function MarkedPaid(o: Order, now: Time): (r: Order)
    ensures r.status == Paid && r.paidAt == Some(now)
    ensures r.(status := o.status, paidAt := o.paidAt) == o
  {
    o.(status := Paid, paidAt := Some(now))
  }

  /** The order after mark_shipped: status SHIPPED and shipped_at set; the
      tracking number stays as it was. */
  function MarkedShipped(o: Order, now: Time): (r: Order)
    ensures r.status == Shipped && r.shippedAt == Some(now) && r.trackingNumber == o.trackingNumber
    ensures r.(status := o.status, shippedAt := o.shippedAt) == o
  {
    o.(status := Shipped, shippedAt := Some(now))
  }

  /** The admin actions are laxer than update_order_status: on an order already
      PAID the endpoint changes nothing while mark_paid stamps paid_at again, and
      a CANCELLED order is marked paid as readily as a pending one. */
  lemma MarkPaidLaxerThanEndpoint(o: Order, tracking: string, now: Time)
    requires o.status == Paid && o.paidAt != Some(now)
    ensures StatusUpdated(o, Paid, tracking, now) == o
    ensures MarkedPaid(o, now) != o && MarkedPaid(o, now).paidAt == Some(now)
    ensures MarkedPaid(o.(status := Cancelled), now).status == Paid
  {
  }

  /** OrderAdmin.mark_paid; None is the DoesNotExist of an unknown id. The message
      names the order number, which Order.save keeps. */
  method MarkPaid(store: Store, orderId: nat, now: Time) returns (message: Option<string>)
    requires store.Valid()
    modifies store
    ensures store.Valid()
    ensures orderId >= |old(store.orders)| ==>
      message.None? && store.orders == old(store.orders) && store.earnings == old(store.earnings)
    ensures orderId < |old(store.orders)| ==>
      && message == Some("Order " + old(store.orders[orderId].orderNumber) + " marked as paid.")
      && store.orders == old(store.orders)[orderId := MarkedPaid(old(store.orders[orderId]), now)]
      && store.earnings == ReleaseEarnings(old(store.earnings), orderId)
    ensures store.carts == old(store.carts) && store.orderItems == old(store.orderItems)
    ensures store.shippingMethods == old(store.shippingMethods)
  {
    if orderId >= |store.orders| {
      return None;
    }
    var o := MarkedPaid(store.orders[orderId], now);
    store.orders := store.orders[orderId := o];
    store.earnings := ReleaseEarnings(store.earnings, orderId);
    message := Some("Order " + o.orderNumber + " marked as paid.");
  }

  /** OrderAdmin.mark_shipped; None is the DoesNotExist of an unknown id. */
  method MarkShipped(store: Store, orderId: nat, now: Time) returns (message: Option<string>)
    requires store.Valid()
    modifies store
    ensures store.Valid()
    ensures orderId >= |old(store.orders)| ==> message.None? && store.orders == old(store.orders)
    ensures orderId < |old(store.orders)| ==>
      && message == Some("Order " + old(store.orders[orderId].orderNumber) + " marked as shipped.")
      && store.orders == old(store.orders)[orderId := MarkedShipped(old(store.orders[orderId]), now)]
    ensures store.earnings == old(store.earnings)
    ensures store.carts == old(store.carts) && store.orderItems == old(store.orderItems)
    ensures store.shippingMethods == old(store.shippingMethods)
  {
    if orderId >= |store.orders| {
      return None;
    }
    var o := MarkedShipped(store.orders[orderId], now);
    store.orders := store.orders[orderId := o];
    message := Some("Order " + o.orderNumber + " marked as shipped.");
  }

  /** `queryset.update(status='paid', paid_at=now)` over the selected rows. */
  function PaidOutRows(earnings: seq<VendorEarnings>, selected: set<nat>, now: Time): (r: seq<VendorEarnings>)
    ensures |r| == |earnings|
    ensures forall k :: 0 <= k < |r| && k in selected ==>
      r[k].status == PaidOut && r[k].paidAt == Some(now)
      && r[k].(status := earnings[k].status, paidAt := earnings[k].paidAt) == earnings[k]
    ensures forall k :: 0 <= k < |r| && k !in selected ==> r[k] == earnings[k]
  {
    seq(|earnings|, k requires 0 <= k < |earnings| =>
      if k in selected then earnings[k].(status := PaidOut, paidAt := Some(now)) else earnings[k])
  }

  /** Paying out twice stamps the second time and changes nothing else. */
  lemma PaidOutTwice(earnings: seq<VendorEarnings>, selected: set<nat>, now: Time, later: Time)
    ensures PaidOutRows(PaidOutRows(earnings, selected, now), selected, later) == PaidOutRows(earnings, selected, later)
  {
  }

  /** VendorEarningsAdmin.mark_as_paid over the rows `selected` (ids of existing
      rows); `updated` is the number of rows the update matched. */
  method MarkAsPaid(store: Store, selected: set<nat>, now: Time) returns (updated: nat, message: string)
    requires store.Valid() && forall k :: k in selected ==> k < |store.earnings|
    modifies store
    ensures store.Valid()
    ensures updated == |selected|
    ensures message == NatToString(updated) + " earnings marked as paid."
    ensures store.earnings == PaidOutRows(old(store.earnings), selected, now)
    ensures store.orders == old(store.orders) && store.carts == old(store.carts)
    ensures store.orderItems == old(store.orderItems) && store.shippingMethods == old(store.shippingMethods)
  {
    store.earnings := PaidOutRows(store.earnings, selected, now);
    updated := |selected|;
    message := NatToString(updated) + " earnings marked as paid.";
  }
}
