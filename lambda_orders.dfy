/**
 * The Node.js order handlers: checkout of an active cart into a pending
 * order, and a change of an order's status.  Checkout copies every line of
 * the cart into the order-items table in one batch and marks the cart
 * "converted"; the cart's lines and totals stay as they were.
 */
module LambdaOrders {
  import opened Wrappers
  import opened Sums
  import opened JsValues
  import opened LambdaStore
  import Store

  /** The parsed checkout body; absent fields are `None`. */
  datatype OrderBody = OrderBody(
    cartId: Option<string>, customerId: Option<string>,
    shippingAddress: Option<Json>, billingAddress: Option<Json>, paymentMethod: Option<Json>)

  /** The parsed status-update body. */
  datatype StatusBody = StatusBody(status: Option<Json>)

  const OrderFieldsMissing := "Missing required fields: cartId, customerId, shippingAddress, paymentMethod"

  /** The fixed shipping cost every order carries. */
  const ShippingCost := 10

  /** The statuses an order may be given, in the order the error message lists them. */
  const ValidStatuses := ["pending", "processing", "shipped", "delivered", "cancelled"]

  /** The rejection names the valid statuses joined by ", ". */
  const InvalidStatus := "Invalid status. Must be one of: pending, processing, shipped, delivered, cancelled"

  function NotOwner(cartId: string, customerId: string): string {
    "Cart " + cartId + " does not belong to customer " + customerId
  }
  function EmptyCart(cartId: string): string { "Cart " + cartId + " is empty" }
  function OrderNotFound(orderId: string): string { "Order with ID " + orderId + " not found" }

  // -------------------------------------------------------------- checkout

  /**
   * The response checkout turns a request away with, its checks taken in
   * the handler's order; `None` when the order can be placed.
   */
  function OrderRejection(carts: map<string, Cart>, cartItems: map<Key, CartItem>, body: OrderBody): (e: Option<Response>)
    ensures e.None? <==>
      && Filled(body.cartId) && Filled(body.customerId)
      && Present(body.shippingAddress) && Present(body.paymentMethod)
      && body.cartId.value in carts
      && carts[body.cartId.value].customerId == body.customerId.value
      && carts[body.cartId.value].status == "active"
      && Store.LinesOf(cartItems, body.cartId.value) != {}
    ensures e.Some? ==> e.value.statusCode == 400 || e.value.statusCode == 404
  {
    if !Filled(body.cartId) || !Filled(body.customerId) || !Present(body.shippingAddress) || !Present(body.paymentMethod) then
      Some(Bad(OrderFieldsMissing))
    else
      var c, u := body.cartId.value, body.customerId.value;
      if c !in carts then Some(Missing(CartNotFound(c)))
      else if carts[c].customerId != u then Some(Bad(NotOwner(c, u)))
      else if carts[c].status != "active" then Some(Bad(NotActive(c)))
      else if Store.LinesOf(cartItems, c) == {} then Some(Bad(EmptyCart(c)))
      else None
  }

  /**
   * The order checkout stores: pending, dated now, billed to the shipping
   * address unless a billing address is given, and totalling the cart's
   * price plus tax plus shipping.  `tax` is the handler's rounded tenth of
   * the cart total, given as it is.
   */
  function PlacedOrder(orderId: string, body: OrderBody, cart: Cart, tax: int, now: string): (o: Order)
    requires body.customerId.Some? && body.shippingAddress.Some? && body.paymentMethod.Some?
    ensures o.orderId == orderId && o.customerId == body.customerId.value && o.status == "pending"
    ensures o.orderDate == now && o.createdAt == now && o.updatedAt == now
    ensures Present(body.billingAddress) ==> o.billingAddress == body.billingAddress.value
    ensures !Present(body.billingAddress) ==> o.billingAddress == o.shippingAddress == body.shippingAddress.value
    ensures o.tax == tax && o.shippingCost == ShippingCost && o.totalAmount == cart.totalPrice + o.tax + o.shippingCost
  {
    Order(orderId, body.customerId.value, now, "pending", body.shippingAddress.value,
          Or(body.billingAddress, body.shippingAddress.value), body.paymentMethod.value,
          cart.totalPrice + tax + ShippingCost, tax, ShippingCost, now, now)
  }

  /** The order line copied from a cart line. */
  function ToOrderItem(orderId: string, it: CartItem): (line: OrderItem)
    ensures OrderLineKey(line) == (orderId, it.productId)
    ensures line.quantity == it.quantity && line.price * line.quantity == LineValue(it)
  {
    OrderItem(orderId, it.productId, it.quantity, it.price)
  }

  /** The cart lines mapped to order lines, in the listing's order. */
  function ToOrderItems(orderId: string, items: seq<CartItem>): seq<OrderItem> {
    seq(|items|, i requires 0 <= i < |items| => ToOrderItem(orderId, items[i]))
  }

  function OrderKeys(lines: seq<OrderItem>): seq<Key> {
    seq(|lines|, i requires 0 <= i < |lines| => OrderLineKey(lines[i]))
  }

  /** The order-items table after one batch of puts, later puts winning. */
  function PutAll(m: map<Key, OrderItem>, lines: seq<OrderItem>): map<Key, OrderItem>
    decreases |lines|
  {
    if lines == [] then m
    else PutAll(m, lines[..|lines| - 1])[OrderLineKey(lines[|lines| - 1]) := lines[|lines| - 1]]
  }

  /** A batch of puts under distinct keys stores each line under its key and keeps every other row. */
  lemma {:induction false} PutAllEffect(m: map<Key, OrderItem>, lines: seq<OrderItem>)
    requires Distinct(OrderKeys(lines))
    ensures PutAll(m, lines).Keys == m.Keys + Elems(OrderKeys(lines))
    ensures forall i :: 0 <= i < |lines| ==>
      OrderLineKey(lines[i]) in PutAll(m, lines) && PutAll(m, lines)[OrderLineKey(lines[i])] == lines[i]
    ensures forall k :: k in m && k !in Elems(OrderKeys(lines)) ==> PutAll(m, lines)[k] == m[k]
    decreases |lines|
  {
    if lines != [] {
      var n := |lines| - 1;
      var front, last := lines[..n], lines[n];
      var ks, fks := OrderKeys(lines), OrderKeys(front);
      assert Distinct(fks) by {
        forall i, j | 0 <= i < j < n ensures fks[i] != fks[j] {
          assert fks[i] == ks[i] && fks[j] == ks[j];
        }
      }
      PutAllEffect(m, front);
      assert Elems(ks) == Elems(fks) + {OrderLineKey(last)} by {
        assert ks == fks + [OrderLineKey(last)];
      }
      forall i | 0 <= i < |lines|
        ensures OrderLineKey(lines[i]) in PutAll(m, lines) && PutAll(m, lines)[OrderLineKey(lines[i])] == lines[i]
      {
        if i < n {
          assert ks[i] != ks[n];
          assert front[i] == lines[i];
        }
      }
    }
  }

  /** `lines` lists the lines of order `orderId` in `m`, each once. */
  ghost predicate ListsOrderLines(lines: seq<OrderItem>, m: map<Key, OrderItem>, orderId: string) {
    && Distinct(OrderKeys(lines))
    && Elems(OrderKeys(lines)) == Store.LinesOf(m, orderId)
    && (forall i :: 0 <= i < |lines| ==> OrderLineKey(lines[i]) in m && m[OrderLineKey(lines[i])] == lines[i])
  }

  /** `items` lists the lines of cart `c` in `cartItems`, each once, as the cart-items query returns them. */
  ghost predicate ListsCartLines(items: seq<CartItem>, keys: seq<Key>, cartItems: map<Key, CartItem>, c: string) {
    && |items| == |keys| && Distinct(keys) && Elems(keys) == Store.LinesOf(cartItems, c)
    && (forall i :: 0 <= i < |keys| ==> keys[i] in cartItems && items[i] == cartItems[keys[i]])
  }

  /**
   * The order-items table after checkout of cart `c` into order `orderId`:
   * one copy of each line of the cart under the order, every other row kept.
   */
  ghost predicate LinesCopied(before: map<Key, OrderItem>, after: map<Key, OrderItem>,
                              cartItems: map<Key, CartItem>, c: string, orderId: string) {
    && (forall k :: k in after <==> k in before || (k.0 == orderId && (c, k.1) in cartItems))
    && (forall k :: k in before ==> after[k] == before[k])
    && (forall p :: (c, p) in cartItems ==> after[(orderId, p)] == ToOrderItem(orderId, cartItems[(c, p)]))
  }

  /** What a line adds to its order's value. */
  function OrderLineValue(it: OrderItem): int { it.price * it.quantity }

  /** The value of the lines of order `orderId`. */
  ghost function OrderValue(orderItems: map<Key, OrderItem>, orderId: string): int {
    SetSum(orderItems, Store.LinesOf(orderItems, orderId), OrderLineValue)
  }

  /**
   * Copying a listing of cart `c` into a new order in one batch stores one
   * order line per cart line, and the copied lines list the new order.
   */
  lemma CopyListing(om: map<Key, OrderItem>, cartItems: map<Key, CartItem>, items: seq<CartItem>, keys: seq<Key>,
                    c: string, orderId: string)
    requires forall k :: k in cartItems ==> LineKey(cartItems[k]) == k
    requires ListsCartLines(items, keys, cartItems, c)
    requires Store.LinesOf(om, orderId) == {}
    ensures var lines := ToOrderItems(orderId, items);
      && ListsOrderLines(lines, PutAll(om, lines), orderId)
      && LinesCopied(om, PutAll(om, lines), cartItems, c, orderId)
  {
    var lines := ToOrderItems(orderId, items);
    var ks := OrderKeys(lines);
    forall i | 0 <= i < |keys| ensures ks[i] == (orderId, keys[i].1) && keys[i] == (c, keys[i].1) {
      assert keys[i] in Store.LinesOf(cartItems, c);
      assert LineKey(cartItems[keys[i]]) == keys[i];
    }
    assert Distinct(ks) by {
      forall i, j | 0 <= i < j < |ks| ensures ks[i] != ks[j] {
        assert keys[i] != keys[j];
      }
    }
    forall k ensures k in Elems(ks) <==> k.0 == orderId && (c, k.1) in cartItems {
      if k.0 == orderId && (c, k.1) in cartItems {
        assert (c, k.1) in Elems(keys);
        var i :| 0 <= i < |keys| && keys[i] == (c, k.1);
        assert ks[i] == k;
      }
    }
    PutAllEffect(om, lines);
    var after := PutAll(om, lines);
    forall p | (c, p) in cartItems
      ensures after[(orderId, p)] == ToOrderItem(orderId, cartItems[(c, p)])
    {
      assert (c, p) in Elems(keys);
      var i :| 0 <= i < |keys| && keys[i] == (c, p);
      assert ks[i] == (orderId, p);
    }
    assert Store.LinesOf(after, orderId) == Elems(ks);
  }

  /** The lines of an order copied from a listing of cart `c` are worth what the cart's lines are worth. */
  lemma CopiedValue(after: map<Key, OrderItem>, cartItems: map<Key, CartItem>, items: seq<CartItem>, keys: seq<Key>,
                    c: string, orderId: string)
    requires ListsCartLines(items, keys, cartItems, c)
    requires ListsOrderLines(ToOrderItems(orderId, items), after, orderId)
    ensures OrderValue(after, orderId) == CartValue(cartItems, c)
  {
    var lines := ToOrderItems(orderId, items);
    SeqSumEnumerates(after, OrderKeys(lines), lines, OrderLineValue);
    SeqSumEnumerates(cartItems, keys, items, LineValue);
    SeqSumPointwise(lines, OrderLineValue, items, LineValue);
  }

  /** The 201 reply: the stored order with its lines attached as "items". */
  function OrderCreated(order: Order, lines: seq<OrderItem>): Response {
    Made(JObj(OrderFields(order)["items" := JArr(OrderItemsJson(lines))]))
  }

  /** Every stored order has one of the statuses the handlers accept. */
  ghost predicate KnownStatuses(orders: map<string, Order>) {
    forall id :: id in orders ==> orders[id].status in ValidStatuses
  }

  /** Store the order and its lines (putItem, then one batchWrite). */
  method RecordOrder(db: Tables, order: Order, lines: seq<OrderItem>)
    requires db.Valid() && order.orderId !in db.orders
    requires forall i :: 0 <= i < |lines| ==> lines[i].orderId == order.orderId
    requires Distinct(OrderKeys(lines))
    modifies db`orders, db`orderItems
    ensures db.Valid()
    ensures db.orders == old(db.orders)[order.orderId := order]
    ensures db.orderItems == PutAll(old(db.orderItems), lines)
    ensures old(KnownStatuses(db.orders)) && order.status in ValidStatuses ==> KnownStatuses(db.orders)
  {
    PutAllEffect(db.orderItems, lines);
    forall k | k in PutAll(db.orderItems, lines) ensures OrderLineKey(PutAll(db.orderItems, lines)[k]) == k {
      if k !in db.orderItems {
        var i :| 0 <= i < |lines| && OrderKeys(lines)[i] == k;
      } else if k in Elems(OrderKeys(lines)) {
        var i :| 0 <= i < |lines| && OrderKeys(lines)[i] == k;
      }
    }
    db.orders := db.orders[order.orderId := order];
    db.orderItems := PutAll(db.orderItems, lines);
  }

  /** Mark cart `c` converted: it is no longer active and keeps its lines and totals. */
  method ConvertCart(db: Tables, c: string, now: string)
    requires db.Valid() && c in db.carts
    modifies db`carts
    ensures db.Valid()
    ensures db.carts == old(db.carts)[c := old(db.carts)[c].(status := "converted", updatedAt := now)]
    ensures old(OneActiveCart(db.carts)) ==> OneActiveCart(db.carts)
    ensures old(db.TotalsTracked()) ==> db.TotalsTracked()
  {
    var cart := db.carts[c].(status := "converted", updatedAt := now);
    db.carts := db.carts[c := cart];
  }

  /**
   * POST /orders: check the request and the cart, store a pending order with
   * a copy of each cart line, and mark the cart converted.  When the cart's
   * totals were right, the order's total is the value of its lines plus tax
   * and shipping.
   */
  method CreateOrder(db: Tables, body: OrderBody, orderId: string, tax: int, now: string) returns (r: Response)
    requires db.Valid() && orderId !in db.orders && Store.LinesOf(db.orderItems, orderId) == {}
    modifies db`orders, db`orderItems, db`carts
    ensures db.Valid()
    ensures var e := OrderRejection(old(db.carts), old(db.cartItems), body);
      if e.Some? then r == e.value && unchanged(db)
      else
        var c := body.cartId.value;
        var order := PlacedOrder(orderId, body, old(db.carts)[c], tax, now);
        && db.orders == old(db.orders)[orderId := order]
        && LinesCopied(old(db.orderItems), db.orderItems, db.cartItems, c, orderId)
        && db.carts == old(db.carts)[c := old(db.carts)[c].(status := "converted", updatedAt := now)]
        && (exists lines :: ListsOrderLines(lines, db.orderItems, orderId) && r == OrderCreated(order, lines))
        && (old(db.TotalsTracked()) ==> order.totalAmount == OrderValue(db.orderItems, orderId) + tax + ShippingCost)
    ensures old(OneActiveCart(db.carts)) ==> OneActiveCart(db.carts)
    ensures old(db.TotalsTracked()) ==> db.TotalsTracked()
    ensures old(KnownStatuses(db.orders)) ==> KnownStatuses(db.orders)
  {
    if !Filled(body.cartId) || !Filled(body.customerId) || !Present(body.shippingAddress) || !Present(body.paymentMethod) {
      return Bad(OrderFieldsMissing);
    }
    var c, u := body.cartId.value, body.customerId.value;
    if c !in db.carts {
      return Missing(CartNotFound(c));
    }
    var cart := db.carts[c];
    if cart.customerId != u {
      return Bad(NotOwner(c, u));
    }
    if cart.status != "active" {
      return Bad(NotActive(c));
    }
    var items, keys := db.QueryCartItems(c);
    if |items| == 0 {
      assert keys == [];
      return Bad(EmptyCart(c));
    }
    assert keys[0] in Store.LinesOf(db.cartItems, c);
    var order := PlacedOrder(orderId, body, cart, tax, now);
    r := Checkout(db, c, order, items, keys, now);
  }

  /** Store `order` with a copy of each listed line of cart `c`, mark the cart converted, and reply. */
  method Checkout(db: Tables, c: string, order: Order, items: seq<CartItem>, ghost keys: seq<Key>, now: string)
    returns (r: Response)
    requires db.Valid() && c in db.carts && ListsCartLines(items, keys, db.cartItems, c)
    requires order.orderId !in db.orders && Store.LinesOf(db.orderItems, order.orderId) == {}
    requires order.status == "pending"
    modifies db`orders, db`orderItems, db`carts
    ensures db.Valid()
    ensures db.orders == old(db.orders)[order.orderId := order]
    ensures LinesCopied(old(db.orderItems), db.orderItems, db.cartItems, c, order.orderId)
    ensures db.carts == old(db.carts)[c := old(db.carts)[c].(status := "converted", updatedAt := now)]
    ensures exists lines :: ListsOrderLines(lines, db.orderItems, order.orderId) && r == OrderCreated(order, lines)
    ensures OrderValue(db.orderItems, order.orderId) == CartValue(db.cartItems, c)
    ensures old(OneActiveCart(db.carts)) ==> OneActiveCart(db.carts)
    ensures old(db.TotalsTracked()) ==> db.TotalsTracked()
    ensures old(KnownStatuses(db.orders)) ==> KnownStatuses(db.orders)
  {
    var lines := ToOrderItems(order.orderId, items);
    CopyListing(db.orderItems, db.cartItems, items, keys, c, order.orderId);
    RecordOrder(db, order, lines);
    CopiedValue(db.orderItems, db.cartItems, items, keys, c, order.orderId);
    ConvertCart(db, c, now);
    r := OrderCreated(order, lines);
    assert ListsOrderLines(lines, db.orderItems, order.orderId);
  }

  /** Once checkout has converted a cart, a second checkout of the same request is refused as "not active". */
  lemma NoSecondCheckout(carts: map<string, Cart>, cartItems: map<Key, CartItem>, body: OrderBody, now: string)
    requires OrderRejection(carts, cartItems, body).None?
    ensures var c := body.cartId.value;
      OrderRejection(carts[c := carts[c].(status := "converted", updatedAt := now)], cartItems, body)
        == Some(Bad(NotActive(c)))
  {
  }

  // --------------------------------------------------------- status update

  /** A status the update accepts: one of the five lower-case names, as a string. */
  predicate IsValidStatus(v: Json) {
    v.JStr? && v.s in ValidStatuses
  }

  /**
   * PUT /orders/{orderId}: set the status of an existing order to one of the
   * five statuses and stamp it; the reply is the whole updated order.
   */
  method UpdateStatus(db: Tables, orderId: string, body: StatusBody, now: string) returns (r: Response)
    requires db.Valid()
    modifies db`orders
    ensures db.Valid()
    ensures
      if orderId !in old(db.orders) then r == Missing(OrderNotFound(orderId)) && unchanged(db)
      else if !Present(body.status) then r == Bad("Missing required field: status") && unchanged(db)
      else if !IsValidStatus(body.status.value) then r == Bad(InvalidStatus) && unchanged(db)
      else
        var o := old(db.orders)[orderId].(status := body.status.value.s, updatedAt := now);
        && db.orders == old(db.orders)[orderId := o]
        && r == Ok(OrderJson(o))
    ensures KnownStatuses(db.orders) <== old(KnownStatuses(db.orders))
  {
    if orderId !in db.orders {
      return Missing(OrderNotFound(orderId));
    }
    if !Present(body.status) {
      return Bad("Missing required field: status");
    }
    var status := body.status.value;
    if !IsValidStatus(status) {
      return Bad(InvalidStatus);
    }
    var o := db.orders[orderId].(status := status.s, updatedAt := now);
    db.orders := db.orders[orderId := o];
    r := Ok(OrderJson(o));
  }

  /** The status update accepts a string exactly when it names one of the five statuses; case matters. */
  lemma StatusAccepted(s: string)
    ensures IsValidStatus(JStr(s)) <==> s == "pending" || s == "processing" || s == "shipped" || s == "delivered" || s == "cancelled"
    ensures !IsValidStatus(JStr("PENDING"))
  {
  }
}
