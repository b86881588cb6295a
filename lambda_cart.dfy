/**
 * The Node.js cart handlers: add a line, change a line's quantity, remove
 * a line and create a cart.  Unlike the Java handlers they never recompute
 * a cart's totals; each write moves them by the change it believes it
 * made, and only carts whose status is "active" accept changes.
 */
module LambdaCart {
  import opened Wrappers
  import opened JsValues
  import opened LambdaStore
  import Store

  /** The parsed add-item body; absent fields are `None`. */
  datatype AddItemBody = AddItemBody(productId: Option<string>, quantity: Option<Json>)

  /** The parsed update-item body. */
  datatype QuantityBody = QuantityBody(quantity: Option<Json>)

  /** The parsed create-cart body. */
  datatype CartBody = CartBody(customerId: Option<string>)

  const AddFieldsMissing := "Missing required fields: productId, quantity"
  const NotPositive := "Quantity must be a positive number"

  function ItemNotFound(productId: string, cartId: string): string {
    "Item with product ID " + productId + " not found in cart " + cartId
  }

  /** The handlers' success body: a message and the cart as the store returns it after the update. */
  function CartReply(message: string, cart: Cart): Response {
    Ok(JObj(map["message" := JStr(message), "cart" := CartJson(cart)]))
  }

  /** `parseInt` of a requested quantity when it is a positive number, `None` otherwise. */
  function PositiveQuantity(v: Json): (q: Option<int>)
    ensures q.Some? <==> ParseInt(v).Some? && ParseInt(v).value > 0
    ensures q.Some? ==> q == ParseInt(v)
  {
    var n := ParseInt(v);
    if n.Some? && n.value > 0 then n else None
  }

  /** A quantity given as a decimal string is accepted exactly when it is positive. */
  lemma QuantityFromString(n: int)
    ensures PositiveQuantity(JStr(Text.IntToString(n))) == if n > 0 then Some(n) else None
  {
    ParseRendered(n);
  }

  // ------------------------------------------------------------- add item

  /** The outcome of the add handler's checks: the error it returns, or what it goes on with. */
  datatype AddCheck = Reject(response: Response) | Accept(productId: string, quantity: int, price: int)

  /** The add handler's checks, in the order it makes them; nothing is written before they pass. */
  function CheckAdd(carts: map<string, Cart>, products: map<string, Item>, cartId: string, body: AddItemBody): (v: AddCheck)
    requires PricesNumeric(products)
    ensures v.Accept? <==>
      && body.productId.Some? && body.productId.value != "" && Present(body.quantity)
      && PositiveQuantity(body.quantity.value).Some?
      && cartId in carts && carts[cartId].status == "active"
      && body.productId.value in products
      && !LessThan(Store.Lookup(products[body.productId.value], "inventory"), PositiveQuantity(body.quantity.value).value)
    ensures v.Accept? ==>
      && body.productId == Some(v.productId)
      && Some(v.quantity) == PositiveQuantity(body.quantity.value) && v.quantity > 0
      && v.price == products[v.productId]["price"].n
    ensures v.Reject? ==> v.response.statusCode == 400 || v.response.statusCode == 404
    ensures body.productId.None? || !Present(body.quantity) ==> v == Reject(Bad(AddFieldsMissing))
  {
    if body.productId.None? || body.productId.value == "" || !Present(body.quantity) then Reject(Bad(AddFieldsMissing))
    else
      var productId := body.productId.value;
      var q := PositiveQuantity(body.quantity.value);
      if q.None? then Reject(Bad(NotPositive))
      else if cartId !in carts then Reject(Missing(CartNotFound(cartId)))
      else if carts[cartId].status != "active" then Reject(Bad(NotActive(cartId)))
      else if productId !in products then Reject(Missing(ProductNotFound(productId)))
      else if LessThan(Store.Lookup(products[productId], "inventory"), q.value) then
        Reject(Bad("Not enough inventory for product " + productId))
      else Accept(productId, q.value, products[productId]["price"].n)
  }

  /**
   * An inventory that does not convert to a number never blocks an add: every
   * comparison with NaN is false, so any positive quantity is accepted.
   */
  lemma NaNStockAccepted(carts: map<string, Cart>, products: map<string, Item>, cartId: string, productId: string, q: int)
    requires PricesNumeric(products) && cartId in carts && carts[cartId].status == "active"
    requires productId in products && productId != "" && q > 0
    requires ToNumber(Store.Lookup(products[productId], "inventory")).None?
    ensures CheckAdd(carts, products, cartId, AddItemBody(Some(productId), Some(JNum(q))))
      == Accept(productId, q, products[productId]["price"].n)
  {
    assert Present(Some(JNum(q)));
    assert PositiveQuantity(JNum(q)) == Some(q);
  }

  /**
   * The line the add handler leaves under (cartId, productId): the stored
   * line with its quantity raised and its price refreshed to the product's
   * current price, or a new line.
   */
  function AddedLine(existing: Option<CartItem>, cartId: string, productId: string, quantity: int, price: int, now: string): (line: CartItem)
    requires existing.Some? ==> LineKey(existing.value) == (cartId, productId)
    ensures LineKey(line) == (cartId, productId)
    ensures line.price == price
    ensures line.quantity == quantity + (if existing.Some? then existing.value.quantity else 0)
    ensures existing.Some? ==> line.addedAt == existing.value.addedAt && line.updatedAt == Some(now)
    ensures existing.None? ==> line.addedAt == Some(now) && line.updatedAt == None
  {
    match existing
    case Some(e) => e.(quantity := e.quantity + quantity, price := price, updatedAt := Some(now))
    case None => CartItem(cartId, productId, quantity, price, Some(now), None)
  }

  /** `dq` and `dp` are exactly what putting `line` changes in its cart's sums. */
  ghost predicate KeepsSums(items: map<Key, CartItem>, line: CartItem, dq: int, dp: int) {
    var k := LineKey(line);
    && dq == LineQty(line) - (if k in items then LineQty(items[k]) else 0)
    && dp == LineValue(line) - (if k in items then LineValue(items[k]) else 0)
  }

  /** Writes `line` and moves its cart's totals by `dq` and `dp`. */
  method PutAndShift(db: Tables, line: CartItem, dq: int, dp: int, now: string) returns (cart: Cart)
    requires db.CartsValid() && line.cartId in db.carts
    modifies db`carts, db`cartItems
    ensures db.CartsValid()
    ensures db.cartItems == old(db.cartItems)[LineKey(line) := line]
    ensures cart == Shifted(old(db.carts)[line.cartId], dq, dp, now)
    ensures db.carts == old(db.carts)[line.cartId := cart]
    ensures old(db.TotalsTracked()) && KeepsSums(old(db.cartItems), line, dq, dp) ==>
      db.TotalsTracked()
  {
    if TotalsTrack(db.carts, db.cartItems) && KeepsSums(db.cartItems, line, dq, dp) {
      PutKeepsTotals(db.carts, db.cartItems, LineKey(line), line, dq, dp, now);
    }
    db.cartItems := db.cartItems[LineKey(line) := line];
    cart := Shifted(db.carts[line.cartId], dq, dp, now);
    db.carts := db.carts[line.cartId := cart];
  }

  /**
   * The add handler as written: the line's quantity grows by q and its price
   * becomes the product's price, while the cart's totals grow by q and by
   * price × q.  The totals stay the sums over the lines when the line is new
   * or its stored price equals the product's price.
   */
  method AddItem(db: Tables, cartId: string, body: AddItemBody, now: string) returns (r: Response)
    requires db.CartsValid() && PricesNumeric(db.products)
    modifies db`carts, db`cartItems
    ensures db.CartsValid()
    ensures var v := CheckAdd(old(db.carts), old(db.products), cartId, body);
      if v.Reject? then r == v.response && unchanged(db)
      else
        var existing := Store.Lookup(old(db.cartItems), (cartId, v.productId));
        && db.cartItems == old(db.cartItems)[(cartId, v.productId) := AddedLine(existing, cartId, v.productId, v.quantity, v.price, now)]
        && db.carts == old(db.carts)[cartId := Shifted(old(db.carts)[cartId], v.quantity, v.price * v.quantity, now)]
        && r == CartReply("Item added to cart successfully", db.carts[cartId])
    ensures old(db.TotalsTracked()) && RepriceFree(old(db.cartItems), old(db.products)) ==>
      db.TotalsTracked()
  {
    var v := CheckAdd(db.carts, db.products, cartId, body);
    if v.Reject? {
      return v.response;
    }
    var k := (cartId, v.productId);
    var existing := Store.Lookup(db.cartItems, k);
    var newQuantity := v.quantity;
    var priceChange := v.price * v.quantity;
    if existing.Some? {
      newQuantity := existing.value.quantity + v.quantity;
      priceChange := v.price * (newQuantity - existing.value.quantity);
    }
    var line := AddedLine(existing, cartId, v.productId, v.quantity, v.price, now);
    if RepriceFree(db.cartItems, db.products) {
      assert RepricedChange(existing, v.price, v.quantity) == priceChange;
      assert KeepsSums(db.cartItems, line, v.quantity, priceChange);
    }
    var cart := PutAndShift(db, line, v.quantity, priceChange, now);
    r := CartReply("Item added to cart successfully", cart);
  }

  /** Every stored line is priced at its product's current price (when the product exists). */
  ghost predicate RepriceFree(cartItems: map<Key, CartItem>, products: map<string, Item>) {
    forall k :: k in cartItems && k.1 in products ==>
      "price" in products[k.1] && products[k.1]["price"] == JNum(cartItems[k].price)
  }

  /**
   * The as-written add loses track of the totals once the product's price has
   * changed since the line was first added: a line of 1 at 100 re-added once
   * at 150 holds 2 at 150, worth 300, while the cart's total becomes 250.
   */
  lemma AddItemPriceDrift()
    ensures var cart := Cart("c", "u", "active", 1, 100, "t0", "t0");
            var e := CartItem("c", "p", 1, 100, Some("t0"), None);
            var carts := map["c" := cart];
            var items := map[("c", "p") := e];
            var line := AddedLine(Some(e), "c", "p", 1, 150, "t1");
            && TotalsTrack(carts, items)
            && !TotalsTrack(carts["c" := Shifted(cart, 1, 150 * 1, "t1")], items[("c", "p") := line])
  {
    var cart := Cart("c", "u", "active", 1, 100, "t0", "t0");
    var e := CartItem("c", "p", 1, 100, Some("t0"), None);
    var carts := map["c" := cart];
    var items := map[("c", "p") := e];
    var line := AddedLine(Some(e), "c", "p", 1, 150, "t1");
    var items2 := items[("c", "p") := line];
    SingleLineSums(items, ("c", "p"));
    SingleLineSums(items2, ("c", "p"));
    assert CartValue(items2, "c") == 300;
  }

  /** A table holding one line: the sums of its cart are that line's quantity and value. */
  lemma SingleLineSums(items: map<Key, CartItem>, k: Key)
    requires items.Keys == {k}
    ensures CartQuantity(items, k.0) == LineQty(items[k]) && CartValue(items, k.0) == LineValue(items[k])
  {
    assert Store.LinesOf(items, k.0) == {k};
    Sums.SetSumRemove(items, {k}, k, LineQty);
    Sums.SetSumRemove(items, {k}, k, LineValue);
    assert {k} - {k} == {};
  }

  /** The corrected price change: the new line's value less the old line's. */
  function RepricedChange(existing: Option<CartItem>, price: int, quantity: int): (dp: int)
    ensures existing.None? ==> dp == price * quantity
    ensures existing.Some? && existing.value.price == price ==> dp == price * quantity
  {
    match existing
    case None => price * quantity
    case Some(e) =>
      var q := e.quantity + quantity;
      assert e.price == price ==> price * q - e.price * e.quantity == price * quantity;
      price * q - e.price * e.quantity
  }

  /**
   * The add handler with its price change corrected to the new line's value
   * less the old line's: it accepts and rejects exactly as `AddItem` does and
   * keeps every cart's totals equal to the sums over its lines.
   */
  method AddItemRepriced(db: Tables, cartId: string, body: AddItemBody, now: string) returns (r: Response)
    requires db.CartsValid() && PricesNumeric(db.products)
    modifies db`carts, db`cartItems
    ensures db.CartsValid()
    ensures var v := CheckAdd(old(db.carts), old(db.products), cartId, body);
      if v.Reject? then r == v.response && unchanged(db)
      else
        var existing := Store.Lookup(old(db.cartItems), (cartId, v.productId));
        && db.cartItems == old(db.cartItems)[(cartId, v.productId) := AddedLine(existing, cartId, v.productId, v.quantity, v.price, now)]
        && db.carts == old(db.carts)[cartId := Shifted(old(db.carts)[cartId], v.quantity, RepricedChange(existing, v.price, v.quantity), now)]
        && r == CartReply("Item added to cart successfully", db.carts[cartId])
    ensures old(db.TotalsTracked()) ==> db.TotalsTracked()
  {
    var v := CheckAdd(db.carts, db.products, cartId, body);
    if v.Reject? {
      return v.response;
    }
    var k := (cartId, v.productId);
    var existing := Store.Lookup(db.cartItems, k);
    var priceChange := RepricedChange(existing, v.price, v.quantity);
    var line := AddedLine(existing, cartId, v.productId, v.quantity, v.price, now);
    assert KeepsSums(db.cartItems, line, v.quantity, priceChange);
    var cart := PutAndShift(db, line, v.quantity, priceChange, now);
    r := CartReply("Item added to cart successfully", cart);
  }

  // ---------------------------------------------------------- update item

  /** The update handler's checks, in the order it makes them: the error it returns, or `None`. */
  function UpdateRejection(carts: map<string, Cart>, cartItems: map<Key, CartItem>, cartId: string, productId: string, body: QuantityBody): (e: Option<Response>)
    ensures e.None? <==>
      && Present(body.quantity) && PositiveQuantity(body.quantity.value).Some?
      && cartId in carts && carts[cartId].status == "active"
      && (cartId, productId) in cartItems
    ensures e.Some? ==> e.value.statusCode == 400 || e.value.statusCode == 404
    ensures !Present(body.quantity) ==> e == Some(Bad("Missing required field: quantity"))
  {
    if !Present(body.quantity) then Some(Bad("Missing required field: quantity"))
    else if PositiveQuantity(body.quantity.value).None? then Some(Bad(NotPositive))
    else if cartId !in carts then Some(Missing(CartNotFound(cartId)))
    else if carts[cartId].status != "active" then Some(Bad(NotActive(cartId)))
    else if (cartId, productId) !in cartItems then Some(Missing(ItemNotFound(productId, cartId)))
    else None
  }

  /**
   * PUT /carts/{cartId}/items/{productId}: set the line's quantity, keep its
   * stored price, and move the cart's totals by the difference.
   */
  method UpdateItem(db: Tables, cartId: string, productId: string, body: QuantityBody, now: string) returns (r: Response)
    requires db.CartsValid()
    modifies db`carts, db`cartItems
    ensures db.CartsValid()
    ensures var e := UpdateRejection(old(db.carts), old(db.cartItems), cartId, productId, body);
      if e.Some? then r == e.value && unchanged(db)
      else
        var q := PositiveQuantity(body.quantity.value).value;
        var line := old(db.cartItems)[(cartId, productId)];
        && db.cartItems == old(db.cartItems)[(cartId, productId) := line.(quantity := q, updatedAt := Some(now))]
        && db.carts == old(db.carts)[cartId := Shifted(old(db.carts)[cartId], q - line.quantity, line.price * (q - line.quantity), now)]
        && r == CartReply("Cart item updated successfully", db.carts[cartId])
    ensures old(db.TotalsTracked()) ==> db.TotalsTracked()
  {
    var rejection := UpdateRejection(db.carts, db.cartItems, cartId, productId, body);
    if rejection.Some? {
      return rejection.value;
    }
    var q := PositiveQuantity(body.quantity.value).value;
    var e := db.cartItems[(cartId, productId)];
    var quantityDifference := q - e.quantity;
    var priceDifference := e.price * quantityDifference;
    var line := e.(quantity := q, updatedAt := Some(now));
    assert LineValue(line) - LineValue(e) == e.price * q - e.price * e.quantity == priceDifference;
    var cart := PutAndShift(db, line, quantityDifference, priceDifference, now);
    r := CartReply("Cart item updated successfully", cart);
  }

  /** Setting a line to the quantity it already has leaves the cart's totals as they were. */
  lemma SameQuantityNoShift(cart: Cart, e: CartItem, now: string)
    ensures Shifted(cart, e.quantity - e.quantity, e.price * (e.quantity - e.quantity), now) == cart.(updatedAt := now)
  {
  }

  // ---------------------------------------------------------- remove item

  /** Deletes the line under `k` and takes its quantity and value off its cart. */
  method DeleteAndShift(db: Tables, k: Key, now: string) returns (cart: Cart)
    requires db.CartsValid() && k.0 in db.carts && k in db.cartItems
    modifies db`carts, db`cartItems
    ensures db.CartsValid()
    ensures db.cartItems == old(db.cartItems) - {k}
    ensures cart == Shifted(old(db.carts)[k.0], -LineQty(old(db.cartItems)[k]), -LineValue(old(db.cartItems)[k]), now)
    ensures db.carts == old(db.carts)[k.0 := cart]
    ensures old(db.TotalsTracked()) ==> db.TotalsTracked()
  {
    if TotalsTrack(db.carts, db.cartItems) {
      DeleteKeepsTotals(db.carts, db.cartItems, k, now);
    }
    var e := db.cartItems[k];
    var quantityChange := -e.quantity;
    var priceChange := -e.price * e.quantity;
    db.cartItems := db.cartItems - {k};
    cart := Shifted(db.carts[k.0], quantityChange, priceChange, now);
    db.carts := db.carts[k.0 := cart];
  }

  /** The remove handler's checks, in the order it makes them: the error it returns, or `None`. */
  function RemoveRejection(carts: map<string, Cart>, cartItems: map<Key, CartItem>, cartId: string, productId: string): (e: Option<Response>)
    ensures e.None? <==> cartId in carts && carts[cartId].status == "active" && (cartId, productId) in cartItems
    ensures e.Some? ==> e.value.statusCode == 400 || e.value.statusCode == 404
  {
    if cartId !in carts then Some(Missing(CartNotFound(cartId)))
    else if carts[cartId].status != "active" then Some(Bad(NotActive(cartId)))
    else if (cartId, productId) !in cartItems then Some(Missing(ItemNotFound(productId, cartId)))
    else None
  }

  /** DELETE /carts/{cartId}/items/{productId}: drop the line and its share of the totals. */
  method RemoveItem(db: Tables, cartId: string, productId: string, now: string) returns (r: Response)
    requires db.CartsValid()
    modifies db`carts, db`cartItems
    ensures db.CartsValid()
    ensures var e := RemoveRejection(old(db.carts), old(db.cartItems), cartId, productId);
      if e.Some? then r == e.value && unchanged(db)
      else
        var line := old(db.cartItems)[(cartId, productId)];
        && db.cartItems == old(db.cartItems) - {(cartId, productId)}
        && db.carts == old(db.carts)[cartId := Shifted(old(db.carts)[cartId], -LineQty(line), -LineValue(line), now)]
        && r == CartReply("Item removed from cart successfully", db.carts[cartId])
    ensures old(db.TotalsTracked()) ==> db.TotalsTracked()
  {
    var rejection := RemoveRejection(db.carts, db.cartItems, cartId, productId);
    if rejection.Some? {
      r := rejection.value;
    } else {
      var cart := DeleteAndShift(db, (cartId, productId), now);
      r := CartReply("Item removed from cart successfully", cart);
    }
  }

  /** Removing a line right after adding it to a cart that lacked it restores the cart's totals. */
  lemma AddThenRemoveRestores(cart: Cart, q: int, price: int, t1: string, t2: string)
    ensures var line := AddedLine(None, cart.cartId, "p", q, price, t1);
            Shifted(Shifted(cart, q, price * q, t1), -LineQty(line), -LineValue(line), t2) == cart.(updatedAt := t2)
  {
  }

  // ---------------------------------------------------------- create cart

  /** POST /carts: open a new active cart unless the customer already has one. */
  method CreateCart(db: Tables, body: CartBody, freshId: string, now: string) returns (r: Response)
    requires db.CartsValid() && freshId !in db.carts && Store.LinesOf(db.cartItems, freshId) == {}
    modifies db`carts
    ensures db.CartsValid()
    ensures
      if body.customerId.None? || body.customerId.value == "" then
        r == Bad("Missing required field: customerId") && unchanged(db)
      else if old(db.ActiveCartIds(body.customerId.value)) != {} then
        r == Bad("Customer " + body.customerId.value + " already has an active cart") && unchanged(db)
      else
        var cart := Cart(freshId, body.customerId.value, "active", 0, 0, now, now);
        && db.carts == old(db.carts)[freshId := cart]
        && db.ActiveCartIds(body.customerId.value) == {freshId}
        && r == Made(CartJson(cart))
    ensures old(OneActiveCart(db.carts)) ==> OneActiveCart(db.carts)
    ensures old(db.TotalsTracked()) ==> db.TotalsTracked()
  {
    if body.customerId.None? || body.customerId.value == "" {
      return Bad("Missing required field: customerId");
    }
    var customerId := body.customerId.value;
    var existingCarts := db.QueryActiveCarts(customerId);
    if |existingCarts| > 0 {
      return Bad("Customer " + customerId + " already has an active cart");
    }
    var cart := Cart(freshId, customerId, "active", 0, 0, now, now);
    forall id | id in db.carts && db.carts[id].customerId == customerId
      ensures db.carts[id].status != "active"
    {
      assert id !in db.ActiveCartIds(customerId);
    }
    OpenKeepsOne(db.carts, cart);
    OpenKeepsTotals(db.carts, db.cartItems, cart);
    db.carts := db.carts[freshId := cart];
    r := Made(CartJson(cart));
    assert db.ActiveCartIds(customerId) == {freshId} by {
      forall id | id in db.ActiveCartIds(customerId) ensures id == freshId {
        assert id !in old(db.ActiveCartIds(customerId));
      }
    }
  }

  /** A new cart with no lines and zero totals keeps every cart's totals equal to its sums. */
  lemma OpenKeepsTotals(carts: map<string, Cart>, cartItems: map<Key, CartItem>, cart: Cart)
    requires Store.LinesOf(cartItems, cart.cartId) == {}
    requires cart.totalItems == 0 && cart.totalPrice == 0
    ensures TotalsTrack(carts, cartItems) ==> TotalsTrack(carts[cart.cartId := cart], cartItems)
  {
    assert CartQuantity(cartItems, cart.cartId) == 0 && CartValue(cartItems, cart.cartId) == 0;
  }

  /** Opening an active cart for a customer who has none keeps one active cart per customer. */
  lemma OpenKeepsOne(carts: map<string, Cart>, cart: Cart)
    requires cart.cartId !in carts
    requires forall id :: id in carts && carts[id].customerId == cart.customerId ==> carts[id].status != "active"
    ensures OneActiveCart(carts) ==> OneActiveCart(carts[cart.cartId := cart])
  {
    var m := carts[cart.cartId := cart];
    if OneActiveCart(carts) {
      forall a, b | && a in m && b in m && m[a].status == "active" && m[b].status == "active"
                    && m[a].customerId == m[b].customerId
        ensures a == b
      {
        if a != cart.cartId && b != cart.cartId {
          assert carts[a] == m[a] && carts[b] == m[b];
        }
      }
    }
  }
}
