/**
 * The DynamoDB tables the Node.js handlers use, as one object whose fields
 * map primary keys to records.  Carts, cart lines, orders and order lines
 * have the fixed shapes the handlers write; products, customers and
 * categories are attribute maps, because their update handlers write
 * whatever allowed attribute a request names.
 */
module LambdaStore {
  import opened Wrappers
  import opened Sums
  import opened JsValues
  import Store
  import LambdaResponse

  type Key = (string, string)

  /** An item of a table written field by field: attribute name to value. */
  type Item = map<string, Json>

  datatype Cart = Cart(
    cartId: string, customerId: string, status: string,
    totalItems: int, totalPrice: int, createdAt: string, updatedAt: string)

  /** A cart line; `addedAt` is set when the line is first put, `updatedAt` by later updates. */
  datatype CartItem = CartItem(
    cartId: string, productId: string, quantity: int, price: int,
    addedAt: Option<string>, updatedAt: Option<string>)

  /**
   * An order.  `tax` and `totalAmount` are the floating-point amounts the
   * handler derives from the cart total; the model records them as given.
   */
  datatype Order = Order(
    orderId: string, customerId: string, orderDate: string, status: string,
    shippingAddress: Json, billingAddress: Json, paymentMethod: Json,
    totalAmount: int, tax: int, shippingCost: int, createdAt: string, updatedAt: string)

  datatype OrderItem = OrderItem(orderId: string, productId: string, quantity: int, price: int)

  function LineKey(it: CartItem): Key { (it.cartId, it.productId) }
  function OrderLineKey(it: OrderItem): Key { (it.orderId, it.productId) }

  /** What a cart line adds to its cart's totalPrice. */
  function LineValue(it: CartItem): int { it.price * it.quantity }
  function LineQty(it: CartItem): int { it.quantity }

  // ------------------------------------------------------- JSON renderings

  function CartJson(c: Cart): Json {
    JObj(map[
      "cartId" := JStr(c.cartId), "customerId" := JStr(c.customerId), "status" := JStr(c.status),
      "totalItems" := JNum(c.totalItems), "totalPrice" := JNum(c.totalPrice),
      "createdAt" := JStr(c.createdAt), "updatedAt" := JStr(c.updatedAt)])
  }

  function OrderItemJson(it: OrderItem): Json {
    JObj(map[
      "orderId" := JStr(it.orderId), "productId" := JStr(it.productId),
      "quantity" := JNum(it.quantity), "price" := JNum(it.price)])
  }

  function OrderFields(o: Order): map<string, Json> {
    map[
      "orderId" := JStr(o.orderId), "customerId" := JStr(o.customerId), "orderDate" := JStr(o.orderDate),
      "status" := JStr(o.status), "shippingAddress" := o.shippingAddress,
      "billingAddress" := o.billingAddress, "paymentMethod" := o.paymentMethod,
      "totalAmount" := JNum(o.totalAmount), "tax" := JNum(o.tax), "shippingCost" := JNum(o.shippingCost),
      "createdAt" := JStr(o.createdAt), "updatedAt" := JStr(o.updatedAt)]
  }

  function OrderJson(o: Order): Json {
    JObj(OrderFields(o))
  }

  /** The JSON of the order items, in list order. */
  function OrderItemsJson(items: seq<OrderItem>): (js: seq<Json>)
    ensures |js| == |items|
    ensures forall i :: 0 <= i < |items| ==> js[i] == OrderItemJson(items[i])
  {
    if items == [] then [] else OrderItemsJson(items[..|items| - 1]) + [OrderItemJson(items[|items| - 1])]
  }

  // ------------------------------------------------------------- responses

  type Response = LambdaResponse.Response

  function Ok(v: Json): Response { LambdaResponse.Success(v, map[]) }
  function Made(v: Json): Response { LambdaResponse.Created(v, map[]) }
  function Bad(message: string): Response { LambdaResponse.BadRequest(Some(JStr(message)), map[]) }
  function Missing(message: string): Response { LambdaResponse.NotFound(Some(JStr(message)), map[]) }

  function CartNotFound(cartId: string): string { "Cart with ID " + cartId + " not found" }
  function NotActive(cartId: string): string { "Cart with ID " + cartId + " is not active" }
  function ProductNotFound(productId: string): string { "Product with ID " + productId + " not found" }

  // ---------------------------------------------------------- invariants

  /** The ids of the customers whose "email" attribute is the string `email`. */
  function EmailHolders(customers: map<string, Item>, email: string): (ids: set<string>)
    ensures ids <= customers.Keys
  {
    set id | id in customers && "email" in customers[id] && customers[id]["email"] == JStr(email)
  }

  /** Every cart sits under its id and every cart line under its (cart, product) key. */
  ghost predicate CartTablesKeyed(carts: map<string, Cart>, cartItems: map<Key, CartItem>) {
    && (forall id :: id in carts ==> carts[id].cartId == id)
    && (forall k :: k in cartItems ==> LineKey(cartItems[k]) == k)
  }

  /** Every order sits under its id and every order line under its (order, product) key. */
  ghost predicate OrderTablesKeyed(orders: map<string, Order>, orderItems: map<Key, OrderItem>) {
    && (forall id :: id in orders ==> orders[id].orderId == id)
    && (forall k :: k in orderItems ==> OrderLineKey(orderItems[k]) == k)
  }

  /** Every item of `table` carries its own key as the string attribute `keyName`. */
  ghost predicate ItemsKeyed(table: map<string, Item>, keyName: string) {
    forall id :: id in table ==> keyName in table[id] && table[id][keyName] == JStr(id)
  }

  /**
   * Every product has a numeric price: the product handlers store the parsed
   * number, never the request's raw value.
   */
  ghost predicate PricesNumeric(products: map<string, Item>) {
    forall id :: id in products ==> "price" in products[id] && products[id]["price"].JNum?
  }

  /** The lines of cart `c`, summed. */
  ghost function CartQuantity(cartItems: map<Key, CartItem>, c: string): int {
    SetSum(cartItems, Store.LinesOf(cartItems, c), LineQty)
  }

  ghost function CartValue(cartItems: map<Key, CartItem>, c: string): int {
    SetSum(cartItems, Store.LinesOf(cartItems, c), LineValue)
  }

  /**
   * The property the delta updates are meant to keep: each cart's totals
   * are the sums of its lines' quantities and of price times quantity.
   */
  ghost predicate TotalsTrack(carts: map<string, Cart>, cartItems: map<Key, CartItem>) {
    forall c :: c in carts ==>
      carts[c].totalItems == CartQuantity(cartItems, c) && carts[c].totalPrice == CartValue(cartItems, c)
  }

  /** No customer has two active carts. */
  ghost predicate OneActiveCart(carts: map<string, Cart>) {
    forall a, b ::
      (&& a in carts && b in carts
       && carts[a].status == "active" && carts[b].status == "active"
       && carts[a].customerId == carts[b].customerId) ==> a == b
  }

  // ------------------------------------------------------- line-sum algebra

  /** Writing line `v` under `k` moves the sums of cart `k.0` by `v` less what was there. */
  lemma PutLineSums(m: map<Key, CartItem>, k: Key, v: CartItem, f: CartItem -> int)
    ensures SetSum(m[k := v], Store.LinesOf(m[k := v], k.0), f)
         == SetSum(m, Store.LinesOf(m, k.0), f) - (if k in m then f(m[k]) else 0) + f(v)
  {
    var m2 := m[k := v];
    var before := Store.LinesOf(m, k.0);
    var rest := before - {k};
    assert Store.LinesOf(m2, k.0) == rest + {k};
    SetSumFrame(m, m2, rest, f);
    SetSumInsert(m2, rest, k, f);
    if k in m {
      SetSumRemove(m, before, k, f);
    } else {
      assert rest == before;
    }
  }

  /** Deleting the line under `k` takes its value off the sums of cart `k.0`. */
  lemma DeleteLineSums(m: map<Key, CartItem>, k: Key, f: CartItem -> int)
    requires k in m
    ensures SetSum(m - {k}, Store.LinesOf(m - {k}, k.0), f)
         == SetSum(m, Store.LinesOf(m, k.0), f) - f(m[k])
  {
    var m2 := m - {k};
    var before := Store.LinesOf(m, k.0);
    assert Store.LinesOf(m2, k.0) == before - {k};
    SetSumFrame(m, m2, before - {k}, f);
    SetSumRemove(m, before, k, f);
  }

  /** Changing only lines of cart `c` leaves every other cart's sums alone. */
  lemma OtherCartSums(m1: map<Key, CartItem>, m2: map<Key, CartItem>, c: string, d: string)
    requires c != d
    requires forall k: Key :: k.0 != c ==> (k in m1 <==> k in m2)
    requires forall k :: k in m1 && k.0 != c ==> m1[k] == m2[k]
    ensures CartQuantity(m1, d) == CartQuantity(m2, d) && CartValue(m1, d) == CartValue(m2, d)
  {
    assert Store.LinesOf(m1, d) == Store.LinesOf(m2, d);
    SetSumFrame(m1, m2, Store.LinesOf(m1, d), LineQty);
    SetSumFrame(m1, m2, Store.LinesOf(m1, d), LineValue);
  }

  /** The cart record after its totals move by `dq` items and `dp` in price. */
  function Shifted(cart: Cart, dq: int, dp: int, now: string): (s: Cart)
    ensures s.totalItems - cart.totalItems == dq && s.totalPrice - cart.totalPrice == dp
    ensures s.cartId == cart.cartId && s.customerId == cart.customerId && s.status == cart.status
    ensures s.createdAt == cart.createdAt && s.updatedAt == now
  {
    cart.(totalItems := cart.totalItems + dq, totalPrice := cart.totalPrice + dp, updatedAt := now)
  }

  /**
   * Putting a line and shifting its cart's totals by exactly the change in
   * that line's quantity and value keeps every cart's totals right.
   */
  lemma PutKeepsTotals(carts: map<string, Cart>, items: map<Key, CartItem>, k: Key, v: CartItem, dq: int, dp: int, now: string)
    requires TotalsTrack(carts, items) && k.0 in carts
    requires dq == LineQty(v) - (if k in items then LineQty(items[k]) else 0)
    requires dp == LineValue(v) - (if k in items then LineValue(items[k]) else 0)
    ensures TotalsTrack(carts[k.0 := Shifted(carts[k.0], dq, dp, now)], items[k := v])
  {
    var carts2 := carts[k.0 := Shifted(carts[k.0], dq, dp, now)];
    var items2 := items[k := v];
    PutLineSums(items, k, v, LineQty);
    PutLineSums(items, k, v, LineValue);
    forall d | d in carts2 && d != k.0
      ensures carts2[d].totalItems == CartQuantity(items2, d) && carts2[d].totalPrice == CartValue(items2, d)
    {
      OtherCartSums(items, items2, k.0, d);
    }
  }

  /** Deleting a line and taking its quantity and value off its cart keeps every cart's totals right. */
  lemma DeleteKeepsTotals(carts: map<string, Cart>, items: map<Key, CartItem>, k: Key, now: string)
    requires TotalsTrack(carts, items) && k.0 in carts && k in items
    ensures TotalsTrack(carts[k.0 := Shifted(carts[k.0], -LineQty(items[k]), -LineValue(items[k]), now)], items - {k})
  {
    var carts2 := carts[k.0 := Shifted(carts[k.0], -LineQty(items[k]), -LineValue(items[k]), now)];
    var items2 := items - {k};
    DeleteLineSums(items, k, LineQty);
    DeleteLineSums(items, k, LineValue);
    forall d | d in carts2 && d != k.0
      ensures carts2[d].totalItems == CartQuantity(items2, d) && carts2[d].totalPrice == CartValue(items2, d)
    {
      OtherCartSums(items, items2, k.0, d);
    }
  }

  // -------------------------------------------------------------- tables

  class Tables {
    var carts: map<string, Cart>
    var cartItems: map<Key, CartItem>
    var orders: map<string, Order>
    var orderItems: map<Key, OrderItem>
    var products: map<string, Item>
    var customers: map<string, Item>
    var categories: map<string, Item>

    /** The part of `Valid` the cart handlers rely on and keep. */
    ghost predicate CartsValid()
      reads this
    {
      CartTablesKeyed(carts, cartItems)
    }

    ghost predicate Valid()
      reads this
    {
      && CartsValid()
      && OrderTablesKeyed(orders, orderItems)
      && ItemsKeyed(products, "productId") && PricesNumeric(products)
      && ItemsKeyed(customers, "customerId")
      && ItemsKeyed(categories, "categoryId")
    }

    constructor ()
      ensures carts == map[] && cartItems == map[] && orders == map[] && orderItems == map[]
      ensures products == map[] && customers == map[] && categories == map[]
      ensures Valid()
    {
      carts, cartItems, orders, orderItems := map[], map[], map[], map[];
      products, customers, categories := map[], map[], map[];
    }

    /** Every cart's totals are the sums over its lines. */
    ghost predicate TotalsTracked()
      reads this
    {
      TotalsTrack(carts, cartItems)
    }

    /** The active carts of a customer (the CustomerIndex query with its status filter). */
    function ActiveCartIds(customerId: string): (ids: set<string>)
      reads this
      ensures ids <= carts.Keys
    {
      set id | id in carts && carts[id].customerId == customerId && carts[id].status == "active"
    }

    /** The customers whose "email" attribute is `email` (the EmailIndex query). */
    function EmailOwners(email: string): (ids: set<string>)
      reads this
      ensures ids <= customers.Keys
    {
      EmailHolders(customers, email)
    }

    method QueryActiveCarts(customerId: string) returns (found: seq<Cart>)
      ensures |found| == 0 <==> ActiveCartIds(customerId) == {}
      ensures forall i :: 0 <= i < |found| ==> found[i] in carts.Values
    {
      ghost var ids;
      found, ids := Store.Enumerate(carts, ActiveCartIds(customerId));
      if |found| == 0 {
        assert ids == [];
      } else {
        assert ids[0] in Elems(ids);
      }
    }

    method QueryCustomersByEmail(email: string) returns (found: seq<Item>)
      ensures |found| == 0 <==> EmailOwners(email) == {}
    {
      ghost var ids;
      found, ids := Store.Enumerate(customers, EmailOwners(email));
      if |found| == 0 {
        assert ids == [];
      } else {
        assert ids[0] in Elems(ids);
      }
    }

    /** The query on the cart-items table by cartId: each line of the cart once. */
    method QueryCartItems(cartId: string) returns (items: seq<CartItem>, ghost keys: seq<Key>)
      ensures |items| == |keys| && Distinct(keys) && Elems(keys) == Store.LinesOf(cartItems, cartId)
      ensures forall i :: 0 <= i < |keys| ==> keys[i] in cartItems && items[i] == cartItems[keys[i]]
    {
      items, keys := Store.Enumerate(cartItems, Store.LinesOf(cartItems, cartId));
    }

    /** A put (or update) on the products table; the item must carry its id and a numeric price. */
    method PutProduct(id: string, item: Item)
      requires Valid()
      requires "productId" in item && item["productId"] == JStr(id)
      requires "price" in item && item["price"].JNum?
      modifies this`products
      ensures products == old(products)[id := item]
      ensures Valid()
    {
      products := products[id := item];
    }

    /** A put (or update) on the customers table; the item must carry its id. */
    method PutCustomer(id: string, item: Item)
      requires Valid()
      requires "customerId" in item && item["customerId"] == JStr(id)
      modifies this`customers
      ensures customers == old(customers)[id := item]
      ensures Valid()
    {
      customers := customers[id := item];
    }

    /** A put (or update) on the categories table; the item must carry its id. */
    method PutCategory(id: string, item: Item)
      requires Valid()
      requires "categoryId" in item && item["categoryId"] == JStr(id)
      modifies this`categories
      ensures categories == old(categories)[id := item]
      ensures Valid()
    {
      categories := categories[id := item];
    }
  }
}
