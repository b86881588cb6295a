/**
 * The records of the Java backend's tables and the views its handlers
 * return.  Prices and totals are integer cents; a field that the handlers
 * may leave null is an `Option`.
 */
module Entities {
  import opened Wrappers
  import ApiResponse

  /** A composite key: (cartId, productId) or (orderId, productId). */
  type ItemKey = (string, string)

  datatype Cart = Cart(
    cartId: string, customerId: string,
    totalPrice: int, totalItems: int,
    createdAt: string, updatedAt: string)

  /** A cart line: a snapshot of the product's name, price and image, and its quantity. */
  datatype CartItem = CartItem(
    cartId: string, productId: string,
    name: string, price: int, quantity: int, imageUrl: string,
    totalPrice: int,
    createdAt: string, updatedAt: string)

  datatype Product = Product(
    productId: string, name: string, description: string,
    price: int, stock: int, imageUrl: string, categoryId: string,
    createdAt: string, updatedAt: string)

  datatype Category = Category(
    categoryId: string, name: string, description: string, imageUrl: string,
    createdAt: string, updatedAt: string)

  /** The password is stored as given. */
  datatype Customer = Customer(
    customerId: string, email: string,
    firstName: Option<string>, lastName: Option<string>,
    password: string,
    address: Option<string>, phone: Option<string>,
    createdAt: string, updatedAt: string)

  /** `orderDate` is never set by the handlers. */
  datatype Order = Order(
    orderId: string, customerId: string, orderDate: Option<string>,
    status: string, totalPrice: int, totalItems: int,
    shippingAddress: string, paymentMethod: string,
    createdAt: string, updatedAt: string)

  /** A frozen copy of a cart line. */
  datatype OrderItem = OrderItem(
    orderId: string, productId: string,
    name: string, price: int, quantity: int, imageUrl: string,
    totalPrice: int,
    createdAt: string, updatedAt: string)

  /** What the handlers put in a response body. */
  datatype Payload =
    | CartView(cart: Cart, items: seq<CartItem>)
    | CartRecord(cart: Cart)
    | OrderView(order: Order, orderItems: seq<OrderItem>)
    | ProductRecord(product: Product)
    | CategoryRecord(category: Category)
    | CustomerRecord(customer: Customer)
    | CustomerProfile(
        customerId: string, email: string,
        firstName: Option<string>, lastName: Option<string>,
        address: Option<string>, phone: Option<string>)

  type Response = ApiResponse.Response<Payload>

  function Qty(it: CartItem): int { it.quantity }
  function LineTotal(it: CartItem): int { it.totalPrice }

  function OrderQty(it: OrderItem): int { it.quantity }
  function OrderLineTotal(it: OrderItem): int { it.totalPrice }

  function KeyOf(it: CartItem): ItemKey { (it.cartId, it.productId) }
  function OrderKeyOf(it: OrderItem): ItemKey { (it.orderId, it.productId) }

  /** The keys of a list of cart lines, in list order. */
  function KeysOf(items: seq<CartItem>): (ks: seq<ItemKey>)
    ensures |ks| == |items|
    ensures forall i :: 0 <= i < |items| ==> ks[i] == KeyOf(items[i])
  {
    seq(|items|, i requires 0 <= i < |items| => KeyOf(items[i]))
  }

  /** The keys of a list of order lines, in list order. */
  function OrderKeysOf(items: seq<OrderItem>): (ks: seq<ItemKey>)
    ensures |ks| == |items|
    ensures forall i :: 0 <= i < |items| ==> ks[i] == OrderKeyOf(items[i])
  {
    seq(|items|, i requires 0 <= i < |items| => OrderKeyOf(items[i]))
  }

  /** `null` and `""` are both rejected by the required-field checks. */
  predicate Blank(s: Option<string>) {
    s.None? || s.value == ""
  }

  /** The payload a response carries, if its body is a serialized record. */
  function Sent(r: Response): Option<Payload> {
    if r.body.Serialized? && r.body.obj.Entity? then Some(r.body.obj.value) else None
  }

  // Shorthands for the handlers' calls of the one-argument helpers.
  function Ok(p: Payload): Response { ApiResponse.Success(ApiResponse.Object(ApiResponse.Entity(p)), None) }
  function Made(p: Payload): Response { ApiResponse.Created(ApiResponse.Object(ApiResponse.Entity(p)), None) }
  function Bad(msg: string): Response { ApiResponse.BadRequest(Some(msg), None) }
  function Missing(msg: string): Response { ApiResponse.NotFound(Some(msg), None) }
  /** The 404 for a `kind` record with key `id` that is not stored. */
  function NotFound(kind: string, id: string): Response { Missing(kind + " with ID " + id + " not found") }
}
