/**
 * The Java order handlers: checkout (an order built from a cart), status
 * update, and delete of a pending order.
 */
module OrderHandlers {
  import opened Wrappers
  import opened Sums
  import opened Entities
  import opened Store
  import CartHandlers
  import Text
  import ApiResponse

  /** The parsed create-order body. */
  datatype OrderBody = OrderBody(
    cartId: Option<string>, customerId: Option<string>,
    shippingAddress: Option<string>, paymentMethod: Option<string>)

  /** The parsed status-update body. */
  datatype StatusBody = StatusBody(status: Option<string>)

  /** The statuses an order may be given, compared case-sensitively. */
  const ValidStatuses: seq<string> := ["PENDING", "PROCESSING", "SHIPPED", "DELIVERED", "CANCELLED"]

  const InvalidStatusMessage: string := "Invalid status. Valid statuses are: " + Text.Join(", ", ValidStatuses)

  /** The frozen copy of a cart line in order `orderId`. */
  function ToOrderLine(orderId: string, it: CartItem, now: string): (o: OrderItem)
    ensures OrderKeyOf(o) == (orderId, it.productId)
    ensures o.name == it.name && o.price == it.price && o.quantity == it.quantity
    ensures o.imageUrl == it.imageUrl && o.totalPrice == it.totalPrice
    ensures o.createdAt == now && o.updatedAt == now
  {
    OrderItem(orderId, it.productId, it.name, it.price, it.quantity, it.imageUrl, it.totalPrice, now, now)
  }

  function OrderLines(orderId: string, items: seq<CartItem>, now: string): (ls: seq<OrderItem>)
    ensures |ls| == |items|
    ensures forall i :: 0 <= i < |items| ==> ls[i] == ToOrderLine(orderId, items[i], now)
  {
    seq(|items|, i requires 0 <= i < |items| => ToOrderLine(orderId, items[i], now))
  }

  /** Stock after an order of `quantity`: reduced by it, but never below 0. */
  function Decrement(stock: int, quantity: int): (s: int)
    ensures s >= 0 && s >= stock - quantity
    ensures s == stock - quantity || (s == 0 && stock - quantity < 0)
  {
    var n := stock - quantity;
    if n < 0 then 0 else n
  }

  /** The product table after the stock step for one cart line; an unknown product is skipped. */
  function StockAfter(products: map<string, Product>, it: CartItem, now: string): (r: map<string, Product>)
    ensures r.Keys == products.Keys
    ensures forall p :: p in products && p != it.productId ==> r[p] == products[p]
    ensures it.productId in products ==>
      var p := products[it.productId];
      && r[it.productId].stock == Decrement(p.stock, it.quantity) && r[it.productId].updatedAt == now
      && r[it.productId].(stock := p.stock, updatedAt := p.updatedAt) == p
  {
    if it.productId in products then
      var p := products[it.productId];
      products[it.productId := p.(stock := Decrement(p.stock, it.quantity), updatedAt := now)]
    else products
  }

  /** The product table after the stock steps for `items`, in order. */
  function ApplyStock(products: map<string, Product>, items: seq<CartItem>, now: string): map<string, Product>
    decreases |items|
  {
    if items == [] then products
    else StockAfter(ApplyStock(products, items[..|items| - 1], now), items[|items| - 1], now)
  }

  /** The products the lines name. */
  function ProductIds(items: seq<CartItem>): (ids: set<string>)
    ensures forall i :: 0 <= i < |items| ==> items[i].productId in ids
    ensures forall p :: p in ids ==> exists i :: 0 <= i < |items| && items[i].productId == p
  {
    set it | it in items :: it.productId
  }

  /**
   * When the lines name distinct products, each named product's stock drops
   * by that line's quantity (clamped at 0) and every other product is kept.
   */
  lemma {:induction false} ApplyStockEffect(products: map<string, Product>, items: seq<CartItem>, now: string)
    requires forall i, j :: 0 <= i < j < |items| ==> items[i].productId != items[j].productId
    ensures ApplyStock(products, items, now).Keys == products.Keys
    ensures forall i :: 0 <= i < |items| && items[i].productId in products ==>
      ApplyStock(products, items, now)[items[i].productId]
        == products[items[i].productId].(
             stock := Decrement(products[items[i].productId].stock, items[i].quantity),
             updatedAt := now)
    ensures forall p :: p in products && p !in ProductIds(items) ==> ApplyStock(products, items, now)[p] == products[p]
    decreases |items|
  {
    if items != [] {
      var n := |items| - 1;
      var front, last := items[..n], items[n];
      var mid := ApplyStock(products, front, now);
      var after := ApplyStock(products, items, now);
      ApplyStockEffect(products, front, now);
      assert after == StockAfter(mid, last, now);
      assert last.productId !in ProductIds(front);
      forall i | 0 <= i < |items| && items[i].productId in products
        ensures after[items[i].productId]
             == products[items[i].productId].(
                  stock := Decrement(products[items[i].productId].stock, items[i].quantity),
                  updatedAt := now)
      {
        if i < n {
          assert items[i] == front[i];
        }
      }
      forall p | p in products && p !in ProductIds(items)
        ensures after[p] == products[p]
      {
        assert p != last.productId;
        assert p !in ProductIds(front);
      }
    }
  }

  /** The order-line table after putting `lines`, in order. */
  function PutLines(m: map<ItemKey, OrderItem>, lines: seq<OrderItem>): map<ItemKey, OrderItem>
    decreases |lines|
  {
    if lines == [] then m
    else PutLines(m, lines[..|lines| - 1])[OrderKeyOf(lines[|lines| - 1]) := lines[|lines| - 1]]
  }

  /** Putting lines with distinct keys stores each under its key and keeps every other row. */
  lemma {:induction false} PutLinesEffect(m: map<ItemKey, OrderItem>, lines: seq<OrderItem>)
    requires Distinct(OrderKeysOf(lines))
    ensures PutLines(m, lines).Keys == m.Keys + Elems(OrderKeysOf(lines))
    ensures forall i :: 0 <= i < |lines| ==> PutLines(m, lines)[OrderKeyOf(lines[i])] == lines[i]
    ensures forall k :: k in m && k !in Elems(OrderKeysOf(lines)) ==> PutLines(m, lines)[k] == m[k]
    decreases |lines|
  {
    if lines != [] {
      var n := |lines| - 1;
      var front, last := lines[..n], lines[n];
      var ks, fks := OrderKeysOf(lines), OrderKeysOf(front);
      assert Distinct(fks) by {
        forall i, j | 0 <= i < j < n ensures fks[i] != fks[j] {
          assert fks[i] == ks[i] && fks[j] == ks[j];
        }
      }
      PutLinesEffect(m, front);
      var prev := PutLines(m, front);
      assert PutLines(m, lines) == prev[OrderKeyOf(last) := last];
      assert Elems(ks) == Elems(fks) + {OrderKeyOf(last)} by {
        assert ks == fks + [OrderKeyOf(last)];
      }
      forall i | 0 <= i < |lines|
        ensures PutLines(m, lines)[OrderKeyOf(lines[i])] == lines[i]
      {
        if i < n {
          assert ks[i] != ks[n];
          assert front[i] == lines[i];
        }
      }
    }
  }

  /** The first loop of checkout: copy each cart line and take its quantity from stock. */
  method TakeStock(db: Tables, orderId: string, items: seq<CartItem>, now: string) returns (lines: seq<OrderItem>)
    modifies db`products
    ensures lines == OrderLines(orderId, items, now)
    ensures db.products == ApplyStock(old(db.products), items, now)
  {
    lines := [];
    for i := 0 to |items|
      invariant lines == OrderLines(orderId, items[..i], now)
      invariant db.products == ApplyStock(old(db.products), items[..i], now)
    {
      var it := items[i];
      lines := lines + [ToOrderLine(orderId, it, now)];
      if it.productId in db.products {
        var product := db.products[it.productId];
        var newStock := product.stock - it.quantity;
        if newStock < 0 {
          newStock := 0;
        }
        db.products := db.products[it.productId := product.(stock := newStock, updatedAt := now)];
      }
      assert items[..i + 1][..i] == items[..i];
    }
    assert items[..|items|] == items;
  }

  /** The second loop of checkout: store every built order line. */
  method WriteLines(db: Tables, lines: seq<OrderItem>)
    modifies db`orderItems
    ensures db.orderItems == PutLines(old(db.orderItems), lines)
  {
    for i := 0 to |lines|
      invariant db.orderItems == PutLines(old(db.orderItems), lines[..i])
    {
      db.orderItems := db.orderItems[OrderKeyOf(lines[i]) := lines[i]];
      assert lines[..i + 1][..i] == lines[..i];
    }
    assert lines[..|lines|] == lines;
  }

  /** The third loop of checkout: delete each cart line of cart `c` by key. */
  method DeleteLines(db: Tables, c: string, items: seq<CartItem>)
    requires forall i :: 0 <= i < |items| ==> items[i].cartId == c
    modifies db`cartItems
    ensures db.cartItems == old(db.cartItems) - Elems(KeysOf(items))
  {
    for i := 0 to |items|
      invariant db.cartItems == old(db.cartItems) - Elems(KeysOf(items[..i]))
    {
      assert Elems(KeysOf(items[..i + 1])) == Elems(KeysOf(items[..i])) + {(c, items[i].productId)};
      db.cartItems := db.cartItems - {(c, items[i].productId)};
    }
    assert items[..|items|] == items;
  }

  /** What a listing of cart `c`'s lines says about each of its entries. */
  lemma ListingFacts(items: seq<CartItem>, m: map<ItemKey, CartItem>, c: string)
    requires Lists(items, m, LinesOf(m, c))
    ensures forall i :: 0 <= i < |items| ==>
      items[i].cartId == c && (c, items[i].productId) in m && m[(c, items[i].productId)] == items[i]
    ensures forall i, j :: 0 <= i < j < |items| ==> items[i].productId != items[j].productId
    ensures forall p :: (c, p) in m <==> p in ProductIds(items)
  {
    forall i | 0 <= i < |items|
      ensures items[i].cartId == c
    {
      assert KeysOf(items)[i] in Elems(KeysOf(items));
    }
    forall i, j | 0 <= i < j < |items|
      ensures items[i].productId != items[j].productId
    {
      assert KeysOf(items)[i] != KeysOf(items)[j];
    }
    forall p | (c, p) in m
      ensures p in ProductIds(items)
    {
      assert (c, p) in Elems(KeysOf(items));
      var i :| 0 <= i < |items| && KeysOf(items)[i] == (c, p);
    }
  }

  /**
   * The product table after checkout of cart `c`, whose lines are in `m`:
   * each product in the cart loses that line's quantity of stock, clamped
   * at 0, and every other product is kept.
   */
  ghost predicate StockTaken(before: map<string, Product>, after: map<string, Product>,
                             m: map<ItemKey, CartItem>, c: string, now: string) {
    && after.Keys == before.Keys
    && forall p :: p in before ==>
         after[p] == if (c, p) in m then
           before[p].(stock := Decrement(before[p].stock, m[(c, p)].quantity), updatedAt := now)
         else before[p]
  }

  /**
   * The order-line table after checkout of cart `c` into order `orderId`:
   * one copy of each cart line under the order, every other row kept.
   */
  ghost predicate LinesCopied(before: map<ItemKey, OrderItem>, after: map<ItemKey, OrderItem>,
                              m: map<ItemKey, CartItem>, c: string, orderId: string, now: string) {
    && (forall k :: k in after <==> k in before || (k.0 == orderId && (c, k.1) in m))
    && (forall k :: k in before ==> after[k] == before[k])
    && (forall p :: (c, p) in m ==> after[(orderId, p)] == ToOrderLine(orderId, m[(c, p)], now))
  }

  /** The stock loop over a listing of cart `c` does what `StockTaken` says, whatever the listing's order. */
  lemma CheckoutStock(products: map<string, Product>, m: map<ItemKey, CartItem>, items: seq<CartItem>, c: string, now: string)
    requires Lists(items, m, LinesOf(m, c))
    ensures StockTaken(products, ApplyStock(products, items, now), m, c, now)
  {
    ListingFacts(items, m, c);
    ApplyStockEffect(products, items, now);
    forall p | p in products && (c, p) in m
      ensures ApplyStock(products, items, now)[p]
           == products[p].(stock := Decrement(products[p].stock, m[(c, p)].quantity), updatedAt := now)
    {
      var i :| 0 <= i < |items| && items[i].productId == p;
    }
  }

  /** The order lines copied from a listing of cart `c` have distinct keys: one per line of the cart. */
  lemma OrderLineKeys(m: map<ItemKey, CartItem>, items: seq<CartItem>, c: string, orderId: string, now: string)
    requires Lists(items, m, LinesOf(m, c))
    ensures Distinct(OrderKeysOf(OrderLines(orderId, items, now)))
    ensures forall k :: k in Elems(OrderKeysOf(OrderLines(orderId, items, now))) <==> k.0 == orderId && (c, k.1) in m
  {
    ListingFacts(items, m, c);
    var ks := OrderKeysOf(OrderLines(orderId, items, now));
    assert forall i :: 0 <= i < |items| ==> ks[i] == (orderId, items[i].productId);
    forall k
      ensures k in Elems(ks) <==> k.0 == orderId && (c, k.1) in m
    {
      if k.0 == orderId && (c, k.1) in m {
        var i :| 0 <= i < |items| && items[i].productId == k.1;
        assert ks[i] == k;
      }
    }
  }

  /**
   * The order-line writes over a listing of cart `c` do what `LinesCopied`
   * says, and the written lines list all of the new order's lines.
   */
  lemma CheckoutLines(om: map<ItemKey, OrderItem>, m: map<ItemKey, CartItem>, items: seq<CartItem>,
                      c: string, orderId: string, now: string)
    requires Lists(items, m, LinesOf(m, c))
    requires LinesOf(om, orderId) == {}
    ensures var lines := OrderLines(orderId, items, now);
      && ListsOrder(lines, PutLines(om, lines), LinesOf(PutLines(om, lines), orderId))
      && LinesCopied(om, PutLines(om, lines), m, c, orderId, now)
  {
    var lines := OrderLines(orderId, items, now);
    OrderLineKeys(m, items, c, orderId, now);
    PutLinesEffect(om, lines);
    var after := PutLines(om, lines);
    forall p | (c, p) in m
      ensures after[(orderId, p)] == ToOrderLine(orderId, m[(c, p)], now)
    {
      ListingFacts(items, m, c);
      var i :| 0 <= i < |items| && items[i].productId == p;
      assert OrderKeyOf(lines[i]) == (orderId, p);
    }
    assert LinesOf(after, orderId) == Elems(OrderKeysOf(lines));
  }

  /** An order made from a cart whose totals were right has totals that are the sums over its lines. */
  lemma OrderTotalsFromCart(cart: Cart, m: map<ItemKey, CartItem>, items: seq<CartItem>,
                            om: map<ItemKey, OrderItem>, order: Order, now: string)
    requires TotalsMatch(cart, m)
    requires Lists(items, m, LinesOf(m, cart.cartId))
    requires LinesOf(om, order.orderId) == {}
    requires order.totalPrice == cart.totalPrice && order.totalItems == cart.totalItems
    ensures OrderTotalsMatch(order, PutLines(om, OrderLines(order.orderId, items, now)))
  {
    var lines := OrderLines(order.orderId, items, now);
    var after := PutLines(om, lines);
    CheckoutLines(om, m, items, cart.cartId, order.orderId, now);
    ListedSum(items, m, LinesOf(m, cart.cartId), LineTotal);
    ListedSum(items, m, LinesOf(m, cart.cartId), Qty);
    SeqSumPointwise(items, LineTotal, lines, OrderLineTotal);
    SeqSumPointwise(items, Qty, lines, OrderQty);
    SeqSumEnumerates(after, OrderKeysOf(lines), lines, OrderLineTotal);
    SeqSumEnumerates(after, OrderKeysOf(lines), lines, OrderQty);
  }

  /** The first loop of checkout, with what it does to the tables. */
  method StockStep(db: Tables, c: string, items: seq<CartItem>, orderId: string, now: string)
    returns (lines: seq<OrderItem>)
    requires db.Valid()
    requires Lists(items, db.cartItems, LinesOf(db.cartItems, c))
    modifies db`products
    ensures db.Valid()
    ensures lines == OrderLines(orderId, items, now)
    ensures db.products == ApplyStock(old(db.products), items, now)
  {
    lines := TakeStock(db, orderId, items, now);
    CheckoutStock(old(db.products), db.cartItems, items, c, now);
  }

  /** The second loop of checkout, with what it does to the tables. */
  method LineStep(db: Tables, c: string, items: seq<CartItem>, orderId: string, now: string, lines: seq<OrderItem>)
    requires db.Valid() && orderId in db.orders && LinesOf(db.orderItems, orderId) == {}
    requires Lists(items, db.cartItems, LinesOf(db.cartItems, c))
    requires lines == OrderLines(orderId, items, now)
    modifies db`orderItems
    ensures db.Valid()
    ensures db.orderItems == PutLines(old(db.orderItems), lines)
  {
    WriteLines(db, lines);
    CheckoutLines(old(db.orderItems), db.cartItems, items, c, orderId, now);
    ListingFacts(items, db.cartItems, c);
    forall k | k in db.orderItems
      ensures OrderKeyOf(db.orderItems[k]) == k && k.0 in db.orders
      ensures db.orderItems[k].totalPrice == db.orderItems[k].price * db.orderItems[k].quantity
    {
      if k !in old(db.orderItems) {
        assert (c, k.1) in db.cartItems;
      }
    }
  }

  /** The third loop of checkout and the reset of the cart's totals. */
  method EmptyCart(db: Tables, c: string, items: seq<CartItem>, now: string)
    requires db.Valid() && c in db.carts
    requires Lists(items, db.cartItems, LinesOf(db.cartItems, c))
    modifies db`cartItems, db`carts
    ensures db.Valid()
    ensures old(db.TotalsConsistent()) ==> db.TotalsConsistent()
    ensures db.cartItems == CartHandlers.ClearLines(old(db.cartItems), c)
    ensures db.carts == old(db.carts)[c := CartHandlers.Emptied(old(db.carts)[c], now)]
  {
    ListingFacts(items, db.cartItems, c);
    DeleteLines(db, c, items);
    assert db.cartItems == CartHandlers.ClearLines(old(db.cartItems), c);
    assert LinesOf(db.cartItems, c) == {};
    db.carts := db.carts[c := CartHandlers.Emptied(db.carts[c], now)];
    if old(db.TotalsConsistent()) {
      TotalsKept(old(db.carts), old(db.cartItems), db.carts, db.cartItems, c);
    }
  }

  /** `r` carries order `orderId` with status `code` and a listing of all the order's lines. */
  ghost predicate ShowsOrder(r: Response, code: int, orders: map<string, Order>, lines: map<ItemKey, OrderItem>, orderId: string)
    requires orderId in orders
  {
    && Sent(r).Some? && Sent(r).value.OrderView?
    && r == ApiResponse.CreateResponse(code, ApiResponse.Object(ApiResponse.Entity(OrderView(orders[orderId], Sent(r).value.orderItems))), None)
    && ListsOrder(Sent(r).value.orderItems, lines, LinesOf(lines, orderId))
  }

  /** A 201 carrying an order and a listing of its lines shows that order. */
  lemma MadeShowsOrder(order: Order, lines: seq<OrderItem>, orders: map<string, Order>, olines: map<ItemKey, OrderItem>)
    requires order.orderId in orders && orders[order.orderId] == order
    requires ListsOrder(lines, olines, LinesOf(olines, order.orderId))
    ensures ShowsOrder(Made(OrderView(order, lines)), 201, orders, olines, order.orderId)
  {
  }

  /** The order half of checkout: place `order`, take the stock and copy the lines of cart `c`. */
  method RecordOrder(db: Tables, c: string, items: seq<CartItem>, order: Order, now: string) returns (lines: seq<OrderItem>)
    requires db.Valid() && c in db.carts && order.orderId !in db.orders
    requires Lists(items, db.cartItems, LinesOf(db.cartItems, c))
    modifies db`orders, db`orderItems, db`products
    ensures db.Valid()
    ensures db.orders == old(db.orders)[order.orderId := order]
    ensures LinesCopied(old(db.orderItems), db.orderItems, db.cartItems, c, order.orderId, now)
    ensures StockTaken(old(db.products), db.products, db.cartItems, c, now)
    ensures ListsOrder(lines, db.orderItems, LinesOf(db.orderItems, order.orderId))
    ensures db.TotalsConsistent() && order.totalPrice == db.carts[c].totalPrice
            && order.totalItems == db.carts[c].totalItems
            ==> OrderTotalsMatch(order, db.orderItems)
  {
    ghost var products, orderItems := db.products, db.orderItems;
    assert LinesOf(orderItems, order.orderId) == {};
    db.orders := db.orders[order.orderId := order];
    lines := StockStep(db, c, items, order.orderId, now);
    LineStep(db, c, items, order.orderId, now, lines);
    CheckoutStock(products, db.cartItems, items, c, now);
    CheckoutLines(orderItems, db.cartItems, items, c, order.orderId, now);
    if db.TotalsConsistent() && order.totalPrice == db.carts[c].totalPrice && order.totalItems == db.carts[c].totalItems {
      OrderTotalsFromCart(db.carts[c], db.cartItems, items, orderItems, order, now);
    }
  }

  /**
   * The response checkout turns a request away with, the checks taken in
   * the handler's order; `None` when the order can be placed.
   */
  function OrderRejection(carts: map<string, Cart>, lines: map<ItemKey, CartItem>, body: Option<OrderBody>): (e: Option<Response>)
    ensures e.None? <==>
      && body.Some? && !Blank(body.value.cartId) && !Blank(body.value.customerId)
      && !Blank(body.value.shippingAddress) && !Blank(body.value.paymentMethod)
      && body.value.cartId.value in carts
      && carts[body.value.cartId.value].customerId == body.value.customerId.value
      && carts[body.value.cartId.value].totalItems != 0
      && LinesOf(lines, body.value.cartId.value) != {}
    ensures e.Some? ==> e.value.statusCode in {400, 403, 404}
  {
    if body.None? then Some(Bad("Request body is required"))
    else if Blank(body.value.cartId) then Some(Bad("Cart ID is required"))
    else if Blank(body.value.customerId) then Some(Bad("Customer ID is required"))
    else if Blank(body.value.shippingAddress) then Some(Bad("Shipping address is required"))
    else if Blank(body.value.paymentMethod) then Some(Bad("Payment method is required"))
    else if body.value.cartId.value !in carts then
      Some(NotFound("Cart", body.value.cartId.value))
    else if carts[body.value.cartId.value].customerId != body.value.customerId.value then
      Some(ApiResponse.Forbidden(Some("Cart does not belong to the customer"), None))
    else if carts[body.value.cartId.value].totalItems == 0 then Some(Bad("Cart is empty"))
    else if LinesOf(lines, body.value.cartId.value) == {} then Some(Bad("No items found in cart"))
    else None
  }

  /**
   * The write half of POST /orders, once every check has passed: list the
   * cart's lines, place `order`, take the stock, copy and clear the lines,
   * and answer 201 with the order and its lines.
   */
  method PlaceOrder(db: Tables, c: string, order: Order, now: string) returns (r: Response)
    requires db.Valid() && c in db.carts && order.orderId !in db.orders
    requires LinesOf(db.cartItems, c) != {}
    modifies db`orders, db`orderItems, db`products, db`cartItems, db`carts
    ensures db.Valid()
    ensures old(db.TotalsConsistent()) ==> db.TotalsConsistent()
    ensures db.orders == old(db.orders)[order.orderId := order]
    ensures LinesCopied(old(db.orderItems), db.orderItems, old(db.cartItems), c, order.orderId, now)
    ensures StockTaken(old(db.products), db.products, old(db.cartItems), c, now)
    ensures db.cartItems == CartHandlers.ClearLines(old(db.cartItems), c)
    ensures db.carts == old(db.carts)[c := CartHandlers.Emptied(old(db.carts)[c], now)]
    ensures ShowsOrder(r, 201, db.orders, db.orderItems, order.orderId)
    ensures old(db.TotalsConsistent()) && order.totalPrice == old(db.carts)[c].totalPrice
            && order.totalItems == old(db.carts)[c].totalItems
            ==> OrderTotalsMatch(db.orders[order.orderId], db.orderItems)
  {
    var items := db.QueryCartItems(c);
    var lines := RecordOrder(db, c, items, order, now);
    EmptyCart(db, c, items, now);
    r := Made(OrderView(order, lines));
    MadeShowsOrder(order, lines, db.orders, db.orderItems);
  }

  /** POST /orders: turn cart `cartId` into a new order stored under `orderId`. */
  method CreateOrder(db: Tables, body: Option<OrderBody>, orderId: string, now: string) returns (r: Response)
    requires db.Valid() && orderId !in db.orders
    modifies db`orders, db`orderItems, db`products, db`cartItems, db`carts
    ensures db.Valid()
    ensures old(db.TotalsConsistent()) ==> db.TotalsConsistent()
    ensures OrderRejection(old(db.carts), old(db.cartItems), body).Some? ==>
      r == OrderRejection(old(db.carts), old(db.cartItems), body).value && unchanged(db)
    ensures OrderRejection(old(db.carts), old(db.cartItems), body).None? ==>
      var b, cart := body.value, old(db.carts)[body.value.cartId.value];
      && db.orders == old(db.orders)[orderId := Order(
           orderId, b.customerId.value, None, "PENDING", cart.totalPrice, cart.totalItems,
           b.shippingAddress.value, b.paymentMethod.value, now, now)]
      && LinesCopied(old(db.orderItems), db.orderItems, old(db.cartItems), b.cartId.value, orderId, now)
      && StockTaken(old(db.products), db.products, old(db.cartItems), b.cartId.value, now)
      && db.cartItems == CartHandlers.ClearLines(old(db.cartItems), b.cartId.value)
      && db.carts == old(db.carts)[b.cartId.value := CartHandlers.Emptied(cart, now)]
      && ShowsOrder(r, 201, db.orders, db.orderItems, orderId)
      && (old(db.TotalsConsistent()) ==> OrderTotalsMatch(db.orders[orderId], db.orderItems))
  {
    if body.None? {
      return Bad("Request body is required");
    }
    var b := body.value;
    if Blank(b.cartId) {
      return Bad("Cart ID is required");
    }
    if Blank(b.customerId) {
      return Bad("Customer ID is required");
    }
    if Blank(b.shippingAddress) {
      return Bad("Shipping address is required");
    }
    if Blank(b.paymentMethod) {
      return Bad("Payment method is required");
    }
    var c, customerId := b.cartId.value, b.customerId.value;
    if c !in db.carts {
      return NotFound("Cart", c);
    }
    var cart := db.carts[c];
    if cart.customerId != customerId {
      return ApiResponse.Forbidden(Some("Cart does not belong to the customer"), None);
    }
    if cart.totalItems == 0 {
      return Bad("Cart is empty");
    }
    if LinesOf(db.cartItems, c) == {} {
      return Bad("No items found in cart");
    }
    var order := Order(orderId, customerId, None, "PENDING", cart.totalPrice, cart.totalItems,
                       b.shippingAddress.value, b.paymentMethod.value, now, now);
    r := PlaceOrder(db, c, order, now);
  }

  /** Every stored order has one of the statuses the order service accepts. */
  ghost predicate KnownStatuses(orders: map<string, Order>) {
    forall id :: id in orders ==> orders[id].status in ValidStatuses
  }

  /** PUT /orders/{orderId}/status: set the status of an order and answer with the order and its lines. */
  method UpdateOrderStatus(db: Tables, orderId: Option<string>, body: Option<StatusBody>, now: string) returns (r: Response)
    requires db.Valid()
    modifies db`orders
    ensures db.Valid()
    ensures KnownStatuses(old(db.orders)) ==> KnownStatuses(db.orders)
    ensures
      if orderId.None? then r == Bad("Order ID is required") && unchanged(db)
      else if body.None? then r == Bad("Request body is required") && unchanged(db)
      else if Blank(body.value.status) then r == Bad("Status is required") && unchanged(db)
      else if body.value.status.value !in ValidStatuses then r == Bad(InvalidStatusMessage) && unchanged(db)
      else if orderId.value !in old(db.orders) then
        r == NotFound("Order", orderId.value) && unchanged(db)
      else
        var o := orderId.value;
        && db.orders == old(db.orders)[o := old(db.orders)[o].(status := body.value.status.value, updatedAt := now)]
        && ShowsOrder(r, 200, db.orders, db.orderItems, o)
  {
    if orderId.None? {
      return Bad("Order ID is required");
    }
    var o := orderId.value;
    if body.None? {
      return Bad("Request body is required");
    }
    if Blank(body.value.status) {
      return Bad("Status is required");
    }
    var status := body.value.status.value;
    if status !in ValidStatuses {
      return Bad(InvalidStatusMessage);
    }
    if o !in db.orders {
      return NotFound("Order", o);
    }
    var order := db.orders[o].(status := status, updatedAt := now);
    db.orders := db.orders[o := order];
    var items := db.QueryOrderItems(o);
    r := Ok(OrderView(order, items));
  }

  /** Dropping an order together with all its lines leaves no line without its order. */
  lemma DropOrderValid(orders: map<string, Order>, orderItems: map<ItemKey, OrderItem>, o: string)
    requires OrderTablesValid(orders, orderItems)
    ensures OrderTablesValid(orders - {o}, CartHandlers.ClearLines(orderItems, o))
  {
  }

  /** The refusal to delete an order whose status is `status`. */
  function NotPending(status: string): string {
    "Cannot delete order with status " + status + ". Only PENDING orders can be deleted."
  }

  /** DELETE /orders/{orderId}: remove a PENDING order together with its lines. */
  method DeleteOrder(db: Tables, orderId: Option<string>) returns (r: Response)
    requires db.Valid()
    modifies db`orders, db`orderItems
    ensures db.Valid()
    ensures KnownStatuses(old(db.orders)) ==> KnownStatuses(db.orders)
    ensures
      if orderId.None? then r == Bad("Order ID is required") && unchanged(db)
      else if orderId.value !in old(db.orders) then
        r == NotFound("Order", orderId.value) && unchanged(db)
      else if old(db.orders)[orderId.value].status != "PENDING" then
        r == Bad(NotPending(old(db.orders)[orderId.value].status)) && unchanged(db)
      else
        var o := orderId.value;
        && db.orders == old(db.orders) - {o}
        && db.orderItems == CartHandlers.ClearLines(old(db.orderItems), o)
        && LinesOf(db.orderItems, o) == {}
        && r == ApiResponse.NoContent(None)
  {
    if orderId.None? {
      return Bad("Order ID is required");
    }
    var o := orderId.value;
    if o !in db.orders {
      return NotFound("Order", o);
    }
    var status := db.orders[o].status;
    if status != "PENDING" {
      return Bad(NotPending(status));
    }
    var items := db.QueryOrderItems(o);
    if |items| > 0 {
      db.orderItems := db.orderItems - Elems(OrderKeysOf(items));
    }
    assert db.orderItems == CartHandlers.ClearLines(old(db.orderItems), o);
    db.orders := db.orders - {o};
    DropOrderValid(old(db.orders), old(db.orderItems), o);
    r := ApiResponse.NoContent(None);
  }
}
