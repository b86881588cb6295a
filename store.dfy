/**
 * The DynamoDB tables the Java handlers read and write, as one object
 * whose fields are maps from primary key to record.  A `getItem` is a map
 * lookup, a `putItem`/`updateItem` a map update, a `deleteItem` a key
 * removal, and a query on a secondary index lists the rows whose indexed
 * attribute matches, in an order the model leaves open.
 */
module Store {
  import opened Wrappers
  import opened Sums
  import opened Entities

  /** Lists the rows of `m` under the keys `ks`, once each, in some order. */
  method Enumerate<K, V>(m: map<K, V>, ks: set<K>) returns (rows: seq<V>, ghost keys: seq<K>)
    requires ks <= m.Keys
    ensures |rows| == |keys| && Distinct(keys) && Elems(keys) == ks
    ensures forall i :: 0 <= i < |keys| ==> keys[i] in m && rows[i] == m[keys[i]]
  {
    rows, keys := [], [];
    var rest := ks;
    while rest != {}
      invariant rest <= ks
      invariant |rows| == |keys| && Distinct(keys) && Elems(keys) == ks - rest
      invariant forall i :: 0 <= i < |keys| ==> keys[i] in m && rows[i] == m[keys[i]]
      decreases rest
    {
      var k :| k in rest;
      assert Elems(keys + [k]) == Elems(keys) + {k};
      rows, keys := rows + [m[k]], keys + [k];
      rest := rest - {k};
    }
  }

  /** `items` lists the cart lines of `m` under the keys `ks`, each exactly once. */
  ghost predicate Lists(items: seq<CartItem>, m: map<ItemKey, CartItem>, ks: set<ItemKey>) {
    && Distinct(KeysOf(items))
    && Elems(KeysOf(items)) == ks
    && forall i :: 0 <= i < |items| ==> KeyOf(items[i]) in m && m[KeyOf(items[i])] == items[i]
  }

  /** `items` lists the order lines of `m` under the keys `ks`, each exactly once. */
  ghost predicate ListsOrder(items: seq<OrderItem>, m: map<ItemKey, OrderItem>, ks: set<ItemKey>) {
    && Distinct(OrderKeysOf(items))
    && Elems(OrderKeysOf(items)) == ks
    && forall i :: 0 <= i < |items| ==> OrderKeyOf(items[i]) in m && m[OrderKeyOf(items[i])] == items[i]
  }

  /** Summing a listing is summing the table over the listed keys. */
  lemma ListedSum(items: seq<CartItem>, m: map<ItemKey, CartItem>, ks: set<ItemKey>, f: CartItem -> int)
    requires Lists(items, m, ks)
    ensures ks <= m.Keys
    ensures SeqSum(items, f) == SetSum(m, ks, f)
  {
    SeqSumEnumerates(m, KeysOf(items), items, f);
  }

  /** The lines of cart (or order) `id` in a line table keyed by (id, productId). */
  function LinesOf<V>(m: map<ItemKey, V>, id: string): (ks: set<ItemKey>)
    ensures ks <= m.Keys
    ensures forall k :: k in ks <==> k in m && k.0 == id
  {
    set k | k in m && k.0 == id
  }

  /** `m` looked up at `k`, `None` when there is no such row. */
  function Lookup<K, V>(m: map<K, V>, k: K): (r: Option<V>)
    ensures r.Some? <==> k in m
    ensures r.Some? ==> r.value == m[k]
  {
    if k in m then Some(m[k]) else None
  }

  /** A cart's totals are the sums of its lines' quantities and line totals. */
  ghost predicate TotalsMatch(cart: Cart, lines: map<ItemKey, CartItem>) {
    && cart.totalItems == SetSum(lines, LinesOf(lines, cart.cartId), Qty)
    && cart.totalPrice == SetSum(lines, LinesOf(lines, cart.cartId), LineTotal)
  }

  /** An order's totals are the sums of its lines' quantities and line totals. */
  ghost predicate OrderTotalsMatch(order: Order, lines: map<ItemKey, OrderItem>) {
    && order.totalItems == SetSum(lines, LinesOf(lines, order.orderId), OrderQty)
    && order.totalPrice == SetSum(lines, LinesOf(lines, order.orderId), OrderLineTotal)
  }

  ghost predicate AllTotalsMatch(carts: map<string, Cart>, lines: map<ItemKey, CartItem>) {
    forall id :: id in carts ==> TotalsMatch(carts[id], lines)
  }

  /**
   * Changing the lines and the record of one cart `c` only (and possibly
   * adding `c`) keeps every other cart's totals right: if `c`'s totals are
   * right afterwards, all are.
   */
  lemma TotalsKept(carts1: map<string, Cart>, lines1: map<ItemKey, CartItem>,
                   carts2: map<string, Cart>, lines2: map<ItemKey, CartItem>, c: string)
    requires AllTotalsMatch(carts1, lines1)
    requires forall id :: id in carts2 && id != c ==> id in carts1 && carts2[id] == carts1[id] && carts1[id].cartId == id
    requires forall k: ItemKey :: k.0 != c ==> (k in lines1 <==> k in lines2)
    requires forall k :: k in lines1 && k.0 != c ==> lines1[k] == lines2[k]
    requires c in carts2 ==> TotalsMatch(carts2[c], lines2)
    ensures AllTotalsMatch(carts2, lines2)
  {
    forall id | id in carts2
      ensures TotalsMatch(carts2[id], lines2)
    {
      if id != c {
        assert LinesOf(lines1, id) == LinesOf(lines2, id);
        SetSumFrame(lines1, lines2, LinesOf(lines1, id), Qty);
        SetSumFrame(lines1, lines2, LinesOf(lines1, id), LineTotal);
      }
    }
  }

  /**
   * Every cart sits under its own id; every cart line sits under its
   * (cart, product) key, belongs to a stored cart, and costs its price
   * times its quantity.
   */
  ghost predicate CartTablesValid(carts: map<string, Cart>, cartItems: map<ItemKey, CartItem>) {
    && (forall id :: id in carts ==> carts[id].cartId == id)
    && (forall k :: k in cartItems ==> KeyOf(cartItems[k]) == k)
    && (forall k :: k in cartItems ==> k.0 in carts)
    && (forall k :: k in cartItems ==> cartItems[k].totalPrice == cartItems[k].price * cartItems[k].quantity)
  }

  /** The same for orders and their lines. */
  ghost predicate OrderTablesValid(orders: map<string, Order>, orderItems: map<ItemKey, OrderItem>) {
    && (forall id :: id in orders ==> orders[id].orderId == id)
    && (forall k :: k in orderItems ==> OrderKeyOf(orderItems[k]) == k)
    && (forall k :: k in orderItems ==> k.0 in orders)
    && (forall k :: k in orderItems ==> orderItems[k].totalPrice == orderItems[k].price * orderItems[k].quantity)
  }

  /** Every product, category and customer sits under its own id. */
  ghost predicate CatalogValid(products: map<string, Product>, categories: map<string, Category>,
                               customers: map<string, Customer>) {
    && (forall id :: id in products ==> products[id].productId == id)
    && (forall id :: id in categories ==> categories[id].categoryId == id)
    && (forall id :: id in customers ==> customers[id].customerId == id)
  }

  class Tables {
    var carts: map<string, Cart>
    var cartItems: map<ItemKey, CartItem>
    var products: map<string, Product>
    var categories: map<string, Category>
    var customers: map<string, Customer>
    var orders: map<string, Order>
    var orderItems: map<ItemKey, OrderItem>

    /** The invariants of all seven tables hold. */
    ghost predicate Valid()
      reads this
    {
      && CartTablesValid(carts, cartItems)
      && OrderTablesValid(orders, orderItems)
      && CatalogValid(products, categories, customers)
    }

    constructor ()
      ensures carts == map[] && cartItems == map[] && products == map[] && categories == map[]
      ensures customers == map[] && orders == map[] && orderItems == map[]
      ensures Valid()
    {
      carts, cartItems, products, categories := map[], map[], map[], map[];
      customers, orders, orderItems := map[], map[], map[];
    }

    /** The carts of a customer (the CustomerIndex of the carts table). */
    function CustomerCartIds(customerId: string): (ids: set<string>)
      reads this
      ensures ids <= carts.Keys
    {
      set id | id in carts && carts[id].customerId == customerId
    }

    /** The customers registered under an email (the EmailIndex of the customers table). */
    function EmailOwners(email: string): (ids: set<string>)
      reads this
      ensures ids <= customers.Keys
    {
      set id | id in customers && customers[id].email == email
    }

    /** Every cart's totals are the sums over its lines. */
    ghost predicate TotalsConsistent()
      reads this
    {
      AllTotalsMatch(carts, cartItems)
    }

    /** The query on the CartIndex of the cart-items table. */
    method QueryCartItems(cartId: string) returns (items: seq<CartItem>)
      requires Valid()
      ensures Lists(items, cartItems, LinesOf(cartItems, cartId))
      ensures forall i :: 0 <= i < |items| ==> items[i].cartId == cartId
    {
      ghost var keys;
      items, keys := Enumerate(cartItems, LinesOf(cartItems, cartId));
      assert KeysOf(items) == keys;
      forall i | 0 <= i < |items| ensures items[i].cartId == cartId {
        assert keys[i] in Elems(keys);
      }
    }

    /** The query on the OrderIndex of the order-items table. */
    method QueryOrderItems(orderId: string) returns (items: seq<OrderItem>)
      requires Valid()
      ensures ListsOrder(items, orderItems, LinesOf(orderItems, orderId))
      ensures forall i :: 0 <= i < |items| ==> items[i].orderId == orderId
    {
      ghost var keys;
      items, keys := Enumerate(orderItems, LinesOf(orderItems, orderId));
      assert OrderKeysOf(items) == keys;
      forall i | 0 <= i < |items| ensures items[i].orderId == orderId {
        assert keys[i] in Elems(keys);
      }
    }

    /** The query on the CustomerIndex of the carts table. */
    method QueryCartsByCustomer(customerId: string) returns (found: seq<Cart>)
      requires Valid()
      ensures |found| == 0 <==> CustomerCartIds(customerId) == {}
      ensures forall i :: 0 <= i < |found| ==>
        found[i].cartId in CustomerCartIds(customerId) && carts[found[i].cartId] == found[i]
    {
      ghost var ids;
      found, ids := Enumerate(carts, CustomerCartIds(customerId));
      if |found| == 0 {
        assert ids == [];
      } else {
        assert ids[0] in Elems(ids);
      }
    }

    /** The query on the EmailIndex of the customers table. */
    method QueryCustomersByEmail(email: string) returns (found: seq<Customer>)
      requires Valid()
      ensures |found| == 0 <==> EmailOwners(email) == {}
      ensures forall i :: 0 <= i < |found| ==>
        found[i].customerId in EmailOwners(email) && customers[found[i].customerId] == found[i]
    {
      ghost var ids;
      found, ids := Enumerate(customers, EmailOwners(email));
      if |found| == 0 {
        assert ids == [];
      } else {
        assert ids[0] in Elems(ids);
      }
    }
  }
}
