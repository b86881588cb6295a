/**
 * The Java cart handlers: add a line, delete a line, clear a cart and
 * create a cart.  The add and delete handlers recompute the cart's totals
 * from all of its lines after their write, so a successful call leaves that
 * cart's totals equal to the sums over its lines.
 */
module CartHandlers {
  import opened Wrappers
  import opened Sums
  import opened Entities
  import opened Store
  import Text

  /** The parsed add-item body; a field that is absent is `None`. */
  datatype AddItemBody = AddItemBody(productId: Option<string>, quantity: Option<int>)

  /** The parsed create-cart body. */
  datatype CreateCartBody = CreateCartBody(customerId: Option<string>)

  /** The 400 message for a quantity above the stock: it names the available count, then the requested one. */
  function OutOfStock(available: int, requested: int): (m: string)
    ensures var head := "Product is out of stock. Available: " + Text.IntToString(available);
      |head| <= |m| && m[..|head|] == head
    ensures var q := Text.IntToString(requested);
      |q| <= |m| && m[|m| - |q|..] == q
  {
    var head := "Product is out of stock. Available: " + Text.IntToString(available);
    var tail := ", Requested: " + Text.IntToString(requested);
    assert (head + tail)[..|head|] == head;
    head + tail
  }

  /**
   * The line the add handler writes for `product` in cart `cartId`: the
   * stored line with its quantity raised, or a new line copying the product.
   */
  function MergeLine(existing: Option<CartItem>, cartId: string, product: Product, quantity: int, now: string): (line: CartItem)
    requires existing.Some? ==> KeyOf(existing.value) == (cartId, product.productId)
    ensures KeyOf(line) == (cartId, product.productId)
    ensures line.quantity == quantity + (if existing.Some? then existing.value.quantity else 0)
    ensures line.totalPrice == line.price * line.quantity
    ensures line.updatedAt == now
    ensures existing.Some? ==>
      && line.price == existing.value.price && line.name == existing.value.name
      && line.imageUrl == existing.value.imageUrl && line.createdAt == existing.value.createdAt
    ensures existing.None? ==>
      && line.price == product.price && line.name == product.name
      && line.imageUrl == product.imageUrl && line.createdAt == now
  {
    match existing
    case Some(prev) =>
      var q := prev.quantity + quantity;
      prev.(quantity := q, totalPrice := prev.price * q, updatedAt := now)
    case None =>
      CartItem(cartId, product.productId, product.name, product.price, quantity,
               product.imageUrl, product.price * quantity, now, now)
  }

  /**
   * Two adds of one product give one line holding both quantities, priced
   * at the product's price at the first add even if it changed since.
   */
  lemma AddTwiceAccumulates(cartId: string, first: Product, later: Product, q1: int, q2: int, t1: string, t2: string)
    requires first.productId == later.productId
    ensures var once := MergeLine(None, cartId, first, q1, t1);
            var twice := MergeLine(Some(once), cartId, later, q2, t2);
            && KeyOf(twice) == KeyOf(once)
            && twice.quantity == q1 + q2
            && twice.price == first.price
            && twice.totalPrice == first.price * (q1 + q2)
  {
  }

  /** The cart record after a clear: totals zeroed, identity kept. */
  function Emptied(cart: Cart, now: string): (e: Cart)
    ensures e.totalPrice == 0 && e.totalItems == 0 && e.updatedAt == now
    ensures e.cartId == cart.cartId && e.customerId == cart.customerId && e.createdAt == cart.createdAt
  {
    cart.(totalPrice := 0, totalItems := 0, updatedAt := now)
  }

  /** A line table without the lines of cart `c`. */
  function ClearLines<V>(m: map<ItemKey, V>, c: string): (r: map<ItemKey, V>)
    ensures forall k :: k in r <==> k in m && k.0 != c
    ensures forall k :: k in r ==> r[k] == m[k]
  {
    m - LinesOf(m, c)
  }

  /** Clearing twice is clearing once, apart from the cart's updatedAt. */
  lemma ClearIdempotent<V>(m: map<ItemKey, V>, cart: Cart, t1: string, t2: string)
    ensures ClearLines(ClearLines(m, cart.cartId), cart.cartId) == ClearLines(m, cart.cartId)
    ensures Emptied(Emptied(cart, t1), t2) == Emptied(cart, t1).(updatedAt := t2)
  {
    var once := ClearLines(m, cart.cartId);
    assert ClearLines(once, cart.cartId).Keys == once.Keys;
  }

  /** `r` is a 200 response carrying cart `c` and a listing of all its lines. */
  ghost predicate ShowsCart(r: Response, carts: map<string, Cart>, lines: map<ItemKey, CartItem>, c: string)
    requires c in carts
  {
    && Sent(r).Some? && Sent(r).value.CartView?
    && r == Ok(CartView(carts[c], Sent(r).value.items))
    && Lists(Sent(r).value.items, lines, LinesOf(lines, c))
  }

  /** The accumulation loop of the add and delete handlers. */
  method SumLines(items: seq<CartItem>) returns (totalPrice: int, totalItems: int)
    ensures totalPrice == SeqSum(items, LineTotal)
    ensures totalItems == SeqSum(items, Qty)
  {
    totalPrice, totalItems := 0, 0;
    for i := 0 to |items|
      invariant totalPrice == SeqSum(items[..i], LineTotal)
      invariant totalItems == SeqSum(items[..i], Qty)
    {
      assert items[..i + 1] == items[..i] + [items[i]];
      SeqSumSnoc(items[..i], items[i], LineTotal);
      SeqSumSnoc(items[..i], items[i], Qty);
      totalPrice := totalPrice + items[i].totalPrice;
      totalItems := totalItems + items[i].quantity;
    }
    assert items[..|items|] == items;
  }

  /**
   * The totals step shared by the add and delete handlers: query the
   * cart's lines, sum their line totals and quantities, and store the sums
   * in the cart with a new updatedAt.
   */
  method RecomputeTotals(db: Tables, cartId: string, now: string) returns (items: seq<CartItem>)
    requires db.Valid() && cartId in db.carts
    modifies db`carts
    ensures db.Valid()
    ensures Lists(items, db.cartItems, LinesOf(db.cartItems, cartId))
    ensures db.carts == old(db.carts)[cartId := old(db.carts)[cartId].(
              totalPrice := SetSum(db.cartItems, LinesOf(db.cartItems, cartId), LineTotal),
              totalItems := SetSum(db.cartItems, LinesOf(db.cartItems, cartId), Qty),
              updatedAt := now)]
    ensures TotalsMatch(db.carts[cartId], db.cartItems)
  {
    var cart := db.carts[cartId];
    items := db.QueryCartItems(cartId);
    var totalPrice, totalItems := SumLines(items);
    ListedSum(items, db.cartItems, LinesOf(db.cartItems, cartId), LineTotal);
    ListedSum(items, db.cartItems, LinesOf(db.cartItems, cartId), Qty);
    db.carts := db.carts[cartId := cart.(totalPrice := totalPrice, totalItems := totalItems, updatedAt := now)];
  }

  /** Writes `line` into cart `c` and recomputes that cart's totals. */
  method PutLine(db: Tables, c: string, line: CartItem, now: string) returns (items: seq<CartItem>)
    requires db.Valid() && c in db.carts && line.cartId == c
    requires line.totalPrice == line.price * line.quantity
    modifies db`carts, db`cartItems
    ensures db.Valid()
    ensures old(db.TotalsConsistent()) ==> db.TotalsConsistent()
    ensures db.cartItems == old(db.cartItems)[KeyOf(line) := line]
    ensures db.carts == old(db.carts)[c := old(db.carts)[c].(
              totalPrice := SetSum(db.cartItems, LinesOf(db.cartItems, c), LineTotal),
              totalItems := SetSum(db.cartItems, LinesOf(db.cartItems, c), Qty),
              updatedAt := now)]
    ensures Lists(items, db.cartItems, LinesOf(db.cartItems, c))
  {
    db.cartItems := db.cartItems[KeyOf(line) := line];
    items := RecomputeTotals(db, c, now);
    if old(db.TotalsConsistent()) {
      TotalsKept(old(db.carts), old(db.cartItems), db.carts, db.cartItems, c);
    }
  }

  /** Deletes line (c, p) and recomputes cart `c`'s totals. */
  method RemoveLine(db: Tables, c: string, p: string, now: string) returns (items: seq<CartItem>)
    requires db.Valid() && c in db.carts
    modifies db`carts, db`cartItems
    ensures db.Valid()
    ensures old(db.TotalsConsistent()) ==> db.TotalsConsistent()
    ensures db.cartItems == old(db.cartItems) - {(c, p)}
    ensures db.carts == old(db.carts)[c := old(db.carts)[c].(
              totalPrice := SetSum(db.cartItems, LinesOf(db.cartItems, c), LineTotal),
              totalItems := SetSum(db.cartItems, LinesOf(db.cartItems, c), Qty),
              updatedAt := now)]
    ensures LinesOf(old(db.cartItems), c) == {(c, p)} ==> db.carts[c].totalPrice == 0 && db.carts[c].totalItems == 0
    ensures Lists(items, db.cartItems, LinesOf(db.cartItems, c))
  {
    db.cartItems := db.cartItems - {(c, p)};
    items := RecomputeTotals(db, c, now);
    if LinesOf(old(db.cartItems), c) == {(c, p)} {
      assert LinesOf(db.cartItems, c) == {};
    }
    if old(db.TotalsConsistent()) {
      TotalsKept(old(db.carts), old(db.cartItems), db.carts, db.cartItems, c);
    }
  }

  /** POST /carts/{cartId}/items. */
  method AddCartItem(db: Tables, cartId: Option<string>, body: Option<AddItemBody>, now: string) returns (r: Response)
    requires db.Valid()
    modifies db`carts, db`cartItems
    ensures db.Valid()
    ensures old(db.TotalsConsistent()) ==> db.TotalsConsistent()
    ensures
      if cartId.None? then r == Bad("Cart ID is required") && unchanged(db)
      else if body.None? then r == Bad("Request body is required") && unchanged(db)
      else if Blank(body.value.productId) then r == Bad("Product ID is required") && unchanged(db)
      else if body.value.quantity.None? || body.value.quantity.value <= 0 then
        r == Bad("Quantity must be greater than 0") && unchanged(db)
      else if cartId.value !in old(db.carts) then
        r == NotFound("Cart", cartId.value) && unchanged(db)
      else if body.value.productId.value !in old(db.products) then
        r == NotFound("Product", body.value.productId.value) && unchanged(db)
      else if old(db.products)[body.value.productId.value].stock < body.value.quantity.value then
        r == Bad(OutOfStock(old(db.products)[body.value.productId.value].stock, body.value.quantity.value))
        && unchanged(db)
      else
        var c, p, q := cartId.value, body.value.productId.value, body.value.quantity.value;
        && db.cartItems == old(db.cartItems)[(c, p) :=
             MergeLine(Lookup(old(db.cartItems), (c, p)), c, old(db.products)[p], q, now)]
        && db.carts == old(db.carts)[c := old(db.carts)[c].(
             totalPrice := SetSum(db.cartItems, LinesOf(db.cartItems, c), LineTotal),
             totalItems := SetSum(db.cartItems, LinesOf(db.cartItems, c), Qty),
             updatedAt := now)]
        && ShowsCart(r, db.carts, db.cartItems, c)
  {
    if cartId.None? {
      return Bad("Cart ID is required");
    }
    var c := cartId.value;
    if body.None? {
      return Bad("Request body is required");
    }
    var productId, quantity := body.value.productId, body.value.quantity;
    if Blank(productId) {
      return Bad("Product ID is required");
    }
    var p := productId.value;
    if quantity.None? || quantity.value <= 0 {
      return Bad("Quantity must be greater than 0");
    }
    var q := quantity.value;
    if c !in db.carts {
      return NotFound("Cart", c);
    }
    if p !in db.products {
      return NotFound("Product", p);
    }
    var product := db.products[p];
    if product.stock < q {
      return Bad(OutOfStock(product.stock, q));
    }
    var existing := Lookup(db.cartItems, (c, p));
    var line := MergeLine(existing, c, product, q, now);
    var items := PutLine(db, c, line, now);
    r := Ok(CartView(db.carts[c], items));
  }

  /** DELETE /carts/{cartId}/items/{productId}. */
  method DeleteCartItem(db: Tables, cartId: Option<string>, productId: Option<string>, now: string) returns (r: Response)
    requires db.Valid()
    modifies db`carts, db`cartItems
    ensures db.Valid()
    ensures old(db.TotalsConsistent()) ==> db.TotalsConsistent()
    ensures
      if cartId.None? || productId.None? then
        r == Bad("Cart ID and Product ID are required") && unchanged(db)
      else if cartId.value !in old(db.carts) then
        r == NotFound("Cart", cartId.value) && unchanged(db)
      else if (cartId.value, productId.value) !in old(db.cartItems) then
        r == Missing("Cart item with cart ID " + cartId.value + " and product ID " + productId.value + " not found")
        && unchanged(db)
      else
        var c := cartId.value;
        && db.cartItems == old(db.cartItems) - {(c, productId.value)}
        && db.carts == old(db.carts)[c := old(db.carts)[c].(
             totalPrice := SetSum(db.cartItems, LinesOf(db.cartItems, c), LineTotal),
             totalItems := SetSum(db.cartItems, LinesOf(db.cartItems, c), Qty),
             updatedAt := now)]
        && (LinesOf(old(db.cartItems), c) == {(c, productId.value)} ==>
              db.carts[c].totalPrice == 0 && db.carts[c].totalItems == 0)
        && ShowsCart(r, db.carts, db.cartItems, c)
  {
    if cartId.None? || productId.None? {
      return Bad("Cart ID and Product ID are required");
    }
    var c, p := cartId.value, productId.value;
    if c !in db.carts {
      return NotFound("Cart", c);
    }
    if (c, p) !in db.cartItems {
      return Missing("Cart item with cart ID " + c + " and product ID " + p + " not found");
    }
    var items := RemoveLine(db, c, p, now);
    r := Ok(CartView(db.carts[c], items));
  }

  /** The write half of clearing cart `c`: one batch delete of its lines, then zero totals. */
  method ResetCart(db: Tables, c: string, now: string) returns (cart: Cart)
    requires db.Valid() && c in db.carts
    modifies db`carts, db`cartItems
    ensures db.Valid()
    ensures old(db.TotalsConsistent()) ==> db.TotalsConsistent()
    ensures cart == Emptied(old(db.carts)[c], now)
    ensures db.cartItems == ClearLines(old(db.cartItems), c)
    ensures db.carts == old(db.carts)[c := cart]
    ensures TotalsMatch(cart, db.cartItems)
  {
    var items := db.QueryCartItems(c);
    if |items| > 0 {
      db.cartItems := db.cartItems - Elems(KeysOf(items));
    }
    assert db.cartItems == ClearLines(old(db.cartItems), c);
    assert LinesOf(db.cartItems, c) == {};
    cart := Emptied(db.carts[c], now);
    db.carts := db.carts[c := cart];
    if old(db.TotalsConsistent()) {
      TotalsKept(old(db.carts), old(db.cartItems), db.carts, db.cartItems, c);
    }
  }

  /** DELETE /carts/{cartId}/items. */
  method ClearCart(db: Tables, cartId: Option<string>, now: string) returns (r: Response)
    requires db.Valid()
    modifies db`carts, db`cartItems
    ensures db.Valid()
    ensures old(db.TotalsConsistent()) ==> db.TotalsConsistent()
    ensures
      if cartId.None? then r == Bad("Cart ID is required") && unchanged(db)
      else if cartId.value !in old(db.carts) then
        r == NotFound("Cart", cartId.value) && unchanged(db)
      else
        var c := cartId.value;
        && db.cartItems == ClearLines(old(db.cartItems), c)
        && db.carts == old(db.carts)[c := Emptied(old(db.carts)[c], now)]
        && TotalsMatch(db.carts[c], db.cartItems)
        && r == Ok(CartView(db.carts[c], []))
  {
    if cartId.None? {
      return Bad("Cart ID is required");
    }
    var c := cartId.value;
    if c !in db.carts {
      return NotFound("Cart", c);
    }
    var cart := ResetCart(db, c, now);
    r := Ok(CartView(cart, []));
  }

  /** POST /carts: return the customer's cart, or create an empty one under `freshId`. */
  method CreateCart(db: Tables, body: Option<CreateCartBody>, freshId: string, now: string) returns (r: Response)
    requires db.Valid() && freshId !in db.carts
    modifies db`carts
    ensures db.Valid()
    ensures old(db.TotalsConsistent()) ==> db.TotalsConsistent()
    ensures
      if body.None? then r == Bad("Request body is required") && unchanged(db)
      else if Blank(body.value.customerId) then r == Bad("Customer ID is required") && unchanged(db)
      else if old(db.CustomerCartIds(body.value.customerId.value)) != {} then
        && unchanged(db)
        && Sent(r).Some? && Sent(r).value.CartRecord?
        && r == Ok(Sent(r).value)
        && Sent(r).value.cart.cartId in db.CustomerCartIds(body.value.customerId.value)
        && db.carts[Sent(r).value.cart.cartId] == Sent(r).value.cart
      else
        && db.carts == old(db.carts)[freshId := Cart(freshId, body.value.customerId.value, 0, 0, now, now)]
        && db.CustomerCartIds(body.value.customerId.value) == {freshId}
        && r == Made(CartView(db.carts[freshId], []))
  {
    if body.None? {
      return Bad("Request body is required");
    }
    var customerId := body.value.customerId;
    if Blank(customerId) {
      return Bad("Customer ID is required");
    }
    var existing := db.QueryCartsByCustomer(customerId.value);
    if |existing| > 0 {
      return Ok(CartRecord(existing[0]));
    }
    var cart := Cart(freshId, customerId.value, 0, 0, now, now);
    db.carts := db.carts[freshId := cart];
    assert LinesOf(db.cartItems, freshId) == {};
    if old(db.TotalsConsistent()) {
      TotalsKept(old(db.carts), old(db.cartItems), db.carts, db.cartItems, freshId);
    }
    r := Made(CartView(cart, []));
  }
}
