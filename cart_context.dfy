/**
 * The React cart provider of the web front end: an in-memory list of cart
 * lines and a cart object whose totals are recomputed from that list after
 * every change.  The list computations are pure functions; the provider's
 * two pieces of state (`cart`, `cartItems`) and its error message are the
 * fields of a class whose methods replace them.
 */
module CartContext {
  import opened Wrappers
  import opened Sums

  /** The fields of a product the provider copies into a new line. */
  datatype Product = Product(productId: string, name: string, price: int, imageUrl: string)

  /** A cart line; prices are in cents. */
  datatype Item = Item(productId: string, name: string, price: int, quantity: int, imageUrl: string)

  /**
   * The cart object.  `cartId`, `customerId` and `status` are the fields the
   * spread `...cart` carries over; they are absent when the cart was still
   * null before its first change.
   */
  datatype CartRecord = CartRecord(
    cartId: Option<string>, customerId: Option<string>, status: Option<string>,
    items: seq<Item>, totalItems: int, totalPrice: int)

  /** What `updateCartItem` does: resolve with the new cart, or throw. */
  datatype Outcome = Resolved(cart: CartRecord) | Thrown(message: string)

  const ItemNotFound := "Item not found in cart"

  /** The two `reduce` callbacks: a line's quantity and its price × quantity. */
  function Quantity(it: Item): int { it.quantity }
  function Value(it: Item): int { it.price * it.quantity }

  /** `findIndex` on productId: the first line of the product, or -1. */
  function FindIndex(items: seq<Item>, productId: string): (i: int)
    ensures -1 <= i < |items|
    ensures i >= 0 ==> items[i].productId == productId
    ensures forall j :: 0 <= j < |items| && (i < 0 || j < i) ==> items[j].productId != productId
  {
    if items == [] then -1
    else if items[0].productId == productId then 0
    else
      var k := FindIndex(items[1..], productId);
      if k < 0 then -1 else k + 1
  }

  /** No product has two lines. */
  predicate DistinctIds(items: seq<Item>) {
    forall i, j :: 0 <= i < j < |items| ==> items[i].productId != items[j].productId
  }

  /**
   * `{...cart, items, totalItems, totalPrice}` with both totals reduced from
   * `items`: the other fields of the cart carry over.
   */
  function WithItems(cart: Option<CartRecord>, items: seq<Item>): (c: CartRecord)
    ensures c.items == items
    ensures c.totalItems == SeqSum(items, Quantity) && c.totalPrice == SeqSum(items, Value)
    ensures cart.Some? ==>
      c.cartId == cart.value.cartId && c.customerId == cart.value.customerId && c.status == cart.value.status
    ensures cart.None? ==> c.cartId.None? && c.customerId.None? && c.status.None?
  {
    match cart
    case Some(c) => c.(items := items, totalItems := SeqSum(items, Quantity), totalPrice := SeqSum(items, Value))
    case None => CartRecord(None, None, None, items, SeqSum(items, Quantity), SeqSum(items, Value))
  }

  // ------------------------------------------------------------ addToCart

  /** The line list after `addToCart(product, quantity)`. */
  function AddedItems(items: seq<Item>, product: Product, quantity: int): (r: seq<Item>)
    ensures FindIndex(items, product.productId) < 0 ==>
      r == items + [Item(product.productId, product.name, product.price, quantity, product.imageUrl)]
  {
    var i := FindIndex(items, product.productId);
    if i >= 0 then items[i := items[i].(quantity := items[i].quantity + quantity)]
    else items + [Item(product.productId, product.name, product.price, quantity, product.imageUrl)]
  }

  /**
   * Adding a product already in the cart keeps the list's length and order
   * and changes nothing but that line's quantity, which grows by `quantity`.
   */
  lemma AddToExisting(items: seq<Item>, product: Product, quantity: int, i: int)
    requires 0 <= i < |items| && items[i].productId == product.productId && DistinctIds(items)
    ensures var r := AddedItems(items, product, quantity);
      && |r| == |items|
      && r[i].quantity == items[i].quantity + quantity
      && r[i].(quantity := items[i].quantity) == items[i]
      && forall j :: 0 <= j < |items| && j != i ==> r[j] == items[j]
  {
    assert FindIndex(items, product.productId) == i;
  }

  /** Re-adding keeps one line per product. */
  lemma AddKeepsDistinct(items: seq<Item>, product: Product, quantity: int)
    requires DistinctIds(items)
    ensures DistinctIds(AddedItems(items, product, quantity))
  {
    var i := FindIndex(items, product.productId);
    var r := AddedItems(items, product, quantity);
    if i < 0 {
      forall a, b | 0 <= a < b < |r| ensures r[a].productId != r[b].productId {
        if b == |items| {
          assert r[a] == items[a];
        }
      }
    } else {
      assert forall j :: 0 <= j < |r| ==> r[j].productId == items[j].productId;
    }
  }

  /** The sum of a list after one element is replaced. */
  lemma SeqSumReplace<V>(s: seq<V>, i: int, x: V, f: V -> int)
    requires 0 <= i < |s|
    ensures SeqSum(s[i := x], f) == SeqSum(s, f) - f(s[i]) + f(x)
  {
    assert s == s[..i] + [s[i]] + s[i + 1..];
    assert s[i := x] == s[..i] + [x] + s[i + 1..];
    SeqSumAppend(s[..i] + [s[i]], s[i + 1..], f);
    SeqSumAppend(s[..i] + [x], s[i + 1..], f);
    SeqSumSnoc(s[..i], s[i], f);
    SeqSumSnoc(s[..i], x, f);
  }

  /**
   * The recomputed totals of an add differ from the old ones by exactly the
   * added quantity, and by that quantity at the line's unit price: the
   * stored price of an existing line, the product's price for a new one.
   */
  lemma AddTotals(items: seq<Item>, product: Product, quantity: int)
    ensures var r := AddedItems(items, product, quantity);
            var i := FindIndex(items, product.productId);
            && SeqSum(r, Quantity) == SeqSum(items, Quantity) + quantity
            && SeqSum(r, Value) == SeqSum(items, Value) + (if i >= 0 then items[i].price else product.price) * quantity
  {
    var i := FindIndex(items, product.productId);
    if i >= 0 {
      var e := items[i];
      var line := e.(quantity := e.quantity + quantity);
      SeqSumReplace(items, i, line, Quantity);
      SeqSumReplace(items, i, line, Value);
      assert Value(line) - Value(e) == e.price * quantity by {
        assert e.price * (e.quantity + quantity) == e.price * e.quantity + e.price * quantity;
      }
    } else {
      var line := Item(product.productId, product.name, product.price, quantity, product.imageUrl);
      SeqSumSnoc(items, line, Quantity);
      SeqSumSnoc(items, line, Value);
    }
  }

  // ------------------------------------------------------- updateCartItem

  /** `cartItems.filter(item => item.productId !== productId)`. */
  function Without(items: seq<Item>, productId: string): (r: seq<Item>)
    ensures |r| <= |items|
    ensures forall x :: x in r <==> x in items && x.productId != productId
  {
    if items == [] then []
    else
      var n := |items| - 1;
      var rest := Without(items[..n], productId);
      assert forall x :: x in items <==> x in items[..n] || x == items[n];
      if items[n].productId == productId then rest else rest + [items[n]]
  }

  /** A filter that matches nothing returns the list itself. */
  lemma {:induction false} WithoutAbsent(items: seq<Item>, productId: string)
    requires forall j :: 0 <= j < |items| ==> items[j].productId != productId
    ensures Without(items, productId) == items
  {
    if items != [] {
      var n := |items| - 1;
      WithoutAbsent(items[..n], productId);
      assert items[..n] + [items[n]] == items;
    }
  }

  /** Filtering out the one line of a product takes exactly its share off both sums. */
  lemma {:induction false} WithoutSums(items: seq<Item>, i: int, f: Item -> int)
    requires 0 <= i < |items| && DistinctIds(items)
    ensures SeqSum(Without(items, items[i].productId), f) == SeqSum(items, f) - f(items[i])
    decreases |items|
  {
    var p := items[i].productId;
    var n := |items| - 1;
    if i == n {
      WithoutAbsent(items[..n], p);
    } else {
      WithoutSums(items[..n], i, f);
      assert items[n].productId != p;
      SeqSumSnoc(Without(items[..n], p), items[n], f);
    }
  }

  /** Filtering keeps one line per product. */
  lemma {:induction false} WithoutKeepsDistinct(items: seq<Item>, productId: string)
    requires DistinctIds(items)
    ensures DistinctIds(Without(items, productId))
    decreases |items|
  {
    if items != [] {
      var n := |items| - 1;
      WithoutKeepsDistinct(items[..n], productId);
      var rest := Without(items[..n], productId);
      if items[n].productId != productId {
        var r := rest + [items[n]];
        forall a, b | 0 <= a < b < |r| ensures r[a].productId != r[b].productId {
          if b == |rest| {
            assert r[a] in items[..n];
          }
        }
      }
    }
  }

  /**
   * The line list after `updateCartItem(productId, quantity)`, or `None`
   * when it throws because no line has that product.
   */
  function UpdatedItems(items: seq<Item>, productId: string, quantity: int): (r: Option<seq<Item>>)
    ensures r.None? <==> forall j :: 0 <= j < |items| ==> items[j].productId != productId
    ensures r.Some? && quantity <= 0 ==> forall x :: x in r.value ==> x.productId != productId
  {
    var i := FindIndex(items, productId);
    if i < 0 then None
    else if quantity <= 0 then Some(Without(items, productId))
    else Some(items[i := items[i].(quantity := quantity)])
  }

  /**
   * A positive quantity sets exactly that line's quantity and leaves every
   * other line; the sums move by the line's change.
   */
  lemma SetQuantityEffect(items: seq<Item>, i: int, quantity: int)
    requires 0 <= i < |items| && DistinctIds(items) && quantity > 0
    ensures UpdatedItems(items, items[i].productId, quantity) == Some(items[i := items[i].(quantity := quantity)])
    ensures DistinctIds(items[i := items[i].(quantity := quantity)])
    ensures SeqSum(items[i := items[i].(quantity := quantity)], Quantity) == SeqSum(items, Quantity) - items[i].quantity + quantity
    ensures SeqSum(items[i := items[i].(quantity := quantity)], Value) == SeqSum(items, Value) + items[i].price * (quantity - items[i].quantity)
  {
    assert FindIndex(items, items[i].productId) == i;
    var e := items[i];
    var line := e.(quantity := quantity);
    SeqSumReplace(items, i, line, Quantity);
    SeqSumReplace(items, i, line, Value);
    assert e.price * quantity - e.price * e.quantity == e.price * (quantity - e.quantity);
    assert forall j :: 0 <= j < |items| ==> items[i := line][j].productId == items[j].productId;
  }

  /**
   * A quantity of 0 or less removes the product's line and leaves every
   * other line; the sums lose exactly that line's share.
   */
  lemma RemoveEffect(items: seq<Item>, i: int, quantity: int)
    requires 0 <= i < |items| && DistinctIds(items) && quantity <= 0
    ensures var r := UpdatedItems(items, items[i].productId, quantity);
      && r.Some? && DistinctIds(r.value)
      && (forall x :: x in r.value <==> x in items && x != items[i])
      && SeqSum(r.value, Quantity) == SeqSum(items, Quantity) - items[i].quantity
      && SeqSum(r.value, Value) == SeqSum(items, Value) - items[i].price * items[i].quantity
  {
    var p := items[i].productId;
    assert FindIndex(items, p) == i;
    WithoutSums(items, i, Quantity);
    WithoutSums(items, i, Value);
    WithoutKeepsDistinct(items, p);
    forall x | x in items && x.productId == p ensures x == items[i] {
      var j :| 0 <= j < |items| && items[j] == x;
      assert j == i;
    }
  }

  // --------------------------------------------------------- the provider

  /** The provider's state: `cart`, `cartItems` and `error`. */
  class CartProvider {
    var cart: Option<CartRecord>
    var cartItems: seq<Item>
    var error: Option<string>

    /**
     * The cart object mirrors the line list and its totals are the list's
     * sums; no product has two lines.
     */
    ghost predicate Valid()
      reads this
    {
      && DistinctIds(cartItems)
      && (cart.Some? ==> cart.value == WithItems(cart, cartItems))
    }

    /** The state before the stored cart is loaded: no cart, no lines, no error. */
    constructor ()
      ensures cart == None && cartItems == [] && error == None
      ensures Valid()
    {
      cart, cartItems, error := None, [], None;
    }

    /** `addToCart(product, quantity = 1)`. */
    method AddToCart(product: Product, quantity: Option<int>) returns (updatedCart: CartRecord)
      requires Valid()
      modifies this
      ensures cartItems == AddedItems(old(cartItems), product, quantity.GetOr(1))
      ensures updatedCart == WithItems(old(cart), cartItems) && cart == Some(updatedCart)
      ensures error == None
      ensures Valid()
    {
      error := None;
      var updatedItems := AddedItems(cartItems, product, quantity.GetOr(1));
      AddKeepsDistinct(cartItems, product, quantity.GetOr(1));
      updatedCart := WithItems(cart, updatedItems);
      cart := Some(updatedCart);
      cartItems := updatedItems;
    }

    /** `updateCartItem(productId, quantity)`; an unknown product throws and changes nothing else. */
    method UpdateCartItem(productId: string, quantity: int) returns (r: Outcome)
      requires Valid()
      modifies this
      ensures var u := UpdatedItems(old(cartItems), productId, quantity);
        if u.None? then
          && r == Thrown(ItemNotFound) && error == Some(ItemNotFound)
          && cart == old(cart) && cartItems == old(cartItems)
        else
          && cartItems == u.value && error == None
          && r == Resolved(WithItems(old(cart), cartItems)) && cart == Some(r.cart)
      ensures Valid()
    {
      error := None;
      var i := FindIndex(cartItems, productId);
      if i < 0 {
        error := Some(ItemNotFound);
        return Thrown(ItemNotFound);
      }
      if quantity > 0 {
        SetQuantityEffect(cartItems, i, quantity);
      } else {
        RemoveEffect(cartItems, i, quantity);
      }
      var updatedItems := UpdatedItems(cartItems, productId, quantity).value;
      var updatedCart := WithItems(cart, updatedItems);
      cart := Some(updatedCart);
      cartItems := updatedItems;
      r := Resolved(updatedCart);
    }

    /** `removeFromCart(productId)` is `updateCartItem(productId, 0)`. */
    method RemoveFromCart(productId: string) returns (r: Outcome)
      requires Valid()
      modifies this
      ensures var u := UpdatedItems(old(cartItems), productId, 0);
        if u.None? then
          && r == Thrown(ItemNotFound) && error == Some(ItemNotFound)
          && cart == old(cart) && cartItems == old(cartItems)
        else
          && cartItems == u.value && error == None
          && r == Resolved(WithItems(old(cart), cartItems)) && cart == Some(r.cart)
      ensures Valid()
    {
      r := UpdateCartItem(productId, 0);
    }

    /** `clearCart()`: no lines, zero totals, the cart's other fields kept. */
    method ClearCart() returns (emptyCart: CartRecord)
      requires Valid()
      modifies this
      ensures emptyCart == WithItems(old(cart), []) && cart == Some(emptyCart)
      ensures emptyCart.totalItems == 0 && emptyCart.totalPrice == 0
      ensures cartItems == [] && error == None
      ensures Valid()
    {
      error := None;
      emptyCart := match cart
        case Some(c) => c.(items := [], totalItems := 0, totalPrice := 0)
        case None => CartRecord(None, None, None, [], 0, 0);
      cart := Some(emptyCart);
      cartItems := [];
    }
  }
}
