# Shopping-cart backend: a Dafny model

This project models the write paths of a small e-commerce backend that
exists in two versions.

- **Java handlers.** Carts, cart lines, checkout into orders, order status
  and deletion, and product, category and customer create/update/login.
  They share a response envelope, `ApiResponse`.
- **Node.js Lambda handlers.** The same resources with different rules:
  cart totals move by deltas, carts have an `active`/`converted` status,
  and updates use an allow-list update-expression builder. Their envelope
  is `response.js`.
- **React cart provider.** `CartContext.js` in the web front end.

The database is modelled as maps, one per DynamoDB table. For the Java
handlers these are `Store.Tables`; for the Node.js handlers they are
`LambdaStore.Tables`. Lines are keyed by `(cartId, productId)` and
`(orderId, productId)`. Each handler is a method on a `Tables` object and
changes only the tables it names in `modifies`. Every one of these methods
states its whole new state and its response, error paths included, in the
order the handler makes its checks.

The central invariants, and where they are proved:

- **Java carts.** A cart's totals are the sums of its lines' quantities and
  line totals (`Store.Tables.TotalsConsistent`). Every cart and order
  handler keeps this.
- **Node.js carts.** A cart's totals are the sums of quantity and of price ×
  quantity (`LambdaStore.Tables.TotalsTracked`). Update and remove keep it.
  Add keeps it only while stored prices are current (see Findings).
- **Node.js customers.** At most one active cart per customer.
- **Customers, both backends.** E-mail addresses are unique.
- **Orders.** Every order has a known status.
- **Front end.** The provider's cart mirrors its line list, and its totals
  are the list's sums.

Fresh ids (`UUID.randomUUID`, `uuidv4`) and timestamps (`Instant.now`,
`new Date`) are method parameters. Money has a unit per backend. In the Java
handlers and the front end, a price (a `Double` in the source) is an
integer number of cents. In the Node.js handlers, numbers are JavaScript
numbers restricted to integers, so a price is a whole number of currency
units. A query on a
secondary index is `Store.Enumerate`. It lists the matching rows once each,
in an order the model leaves open.

The two backends, and a model class and its handler, differ in places:

- The Java cart handlers rebuild a cart's totals from its lines after
  every change (`CartHandlers.RecomputeTotals`, `AddCartItemHandler.java:230-243`).
  The Node.js cart handlers shift the stored totals by deltas instead
  (`addItem.js:124-135`). Each backend is modelled as it is written.
- `OrderItem.java` declares no `updatedAt` field, but
  `CreateOrderHandler.java:265` sets one. The model's `OrderItem` has the
  field.
- The Java product has a `stock` attribute. The Node.js add-to-cart check
  reads `inventory` instead, and compares it with JavaScript's `<`, so a
  missing or non-numeric inventory never blocks an add.

## Model

All Java paths are under `backend-java/src/main/java/com/shopcart/`, written out in full below.

| member | source | states |
|---|---|---|
| ApiResponse.CreateResponse | backend-java/src/main/java/com/shopcart/utils/ApiResponse.java:33-59 | status code as given; headers are the three defaults with every caller header added and winning on a clash; a string body verbatim, any other serialized, the fixed error body when serialization fails |
| ApiResponse.BuildResponse | backend-java/src/main/java/com/shopcart/utils/ApiResponse.java:33-59 | the sequence of puts, the caller's putAll and the body branch produces exactly the response `CreateResponse` specifies |
| ApiResponse.ErrorResponse | backend-java/src/main/java/com/shopcart/utils/ApiResponse.java:122-210 | an error response has the given code and a single "error" field holding the message, or the reason phrase when it is null; with no caller headers it carries only the defaults |
| ApiResponse.Success | backend-java/src/main/java/com/shopcart/utils/ApiResponse.java:67-69 | success is createResponse with 200 |
| ApiResponse.Created | backend-java/src/main/java/com/shopcart/utils/ApiResponse.java:86-88 | created is createResponse with 201 |
| ApiResponse.NoContent | backend-java/src/main/java/com/shopcart/utils/ApiResponse.java:104-106 | noContent answers 204 with the empty string as body |
| ApiResponse.BadRequest | backend-java/src/main/java/com/shopcart/utils/ApiResponse.java:122-126 | 400 error response |
| ApiResponse.Unauthorized | backend-java/src/main/java/com/shopcart/utils/ApiResponse.java:143-147 | 401 error response |
| ApiResponse.Forbidden | backend-java/src/main/java/com/shopcart/utils/ApiResponse.java:164-168 | 403 error response |
| ApiResponse.NotFound | backend-java/src/main/java/com/shopcart/utils/ApiResponse.java:185-189 | 404 error response |
| ApiResponse.ServerError | backend-java/src/main/java/com/shopcart/utils/ApiResponse.java:206-210 | 500 error response |
| ApiResponse.ErrorHelpersFaithful | backend-java/src/main/java/com/shopcart/utils/ApiResponse.java:122-210 | the five error helpers answer 400, 401, 403, 404 and 500, and the message each was given reads back from the body, the reason phrase for null |
| ApiResponse.DefaultHeadersOnly | backend-java/src/main/java/com/shopcart/utils/ApiResponse.java:36-42 | with no caller headers a response carries exactly the three defaults, Allow-Credentials being the string "true" |
| Store.Enumerate | backend-java/src/main/java/com/shopcart/utils/DynamoDBUtil.java:116-140 | an index query returns the rows under the matching keys, each exactly once |
| Store.ListedSum | backend-java/src/main/java/com/shopcart/handlers/cart/AddCartItemHandler.java:230-243 | summing a listing of a cart's lines gives the sum over the table's lines of that cart, whatever the listing's order |
| Store.Lookup | backend-java/src/main/java/com/shopcart/utils/DynamoDBUtil.java:44-55 | getItem yields the stored row exactly when the key is present, and nothing otherwise |
| Store.LinesOf | backend-java/src/main/java/com/shopcart/utils/DynamoDBUtil.java:116-140 | the keys of the lines of one cart or order are exactly the table's keys with that first component |
| Store.TotalsKept | backend-java/src/main/java/com/shopcart/handlers/cart/AddCartItemHandler.java:226-243 | changing the lines and record of one cart only keeps every other cart's totals equal to its sums |
| Store.Tables.CustomerCartIds | backend-java/src/main/java/com/shopcart/handlers/cart/CreateCartHandler.java:141-143 | the carts the customer index finds for a customer are stored carts |
| Store.Tables.EmailOwners | backend-java/src/main/java/com/shopcart/handlers/customers/CreateCustomerHandler.java:76-78 | the customers the email index finds are stored customers |
| Store.Tables.constructor | backend-java/src/main/java/com/shopcart/utils/DynamoDBUtil.java:28-44 | empty tables satisfy the table invariants |
| Store.Tables.QueryCartItems | backend-java/src/main/java/com/shopcart/handlers/cart/AddCartItemHandler.java:230-233 | the cart-line query lists every line of the cart once, and nothing else |
| Store.Tables.QueryOrderItems | backend-java/src/main/java/com/shopcart/handlers/orders/UpdateOrderStatusHandler.java:232-234 | the order-line query lists every line of the order once, and nothing else |
| Store.Tables.QueryCartsByCustomer | backend-java/src/main/java/com/shopcart/handlers/cart/CreateCartHandler.java:141-143 | empty exactly when the customer has no cart; each row returned is a stored cart of the customer |
| Store.Tables.QueryCustomersByEmail | backend-java/src/main/java/com/shopcart/handlers/customers/LoginHandler.java:87-89 | empty exactly when nobody has the email; each row returned is a stored customer with it |
| CartHandlers.MergeLine | backend-java/src/main/java/com/shopcart/handlers/cart/AddCartItemHandler.java:197-222 | re-adding raises the stored line's quantity and keeps its snapshot price, name and image; a first add copies them from the product; line total = price × quantity |
| CartHandlers.AddTwiceAccumulates | backend-java/src/main/java/com/shopcart/handlers/cart/AddCartItemHandler.java:197-209 | two adds of one product make one line with both quantities, priced at the first add's price |
| CartHandlers.Emptied | backend-java/src/main/java/com/shopcart/handlers/cart/ClearCartHandler.java:197-203 | a cleared cart has totals 0/0 and keeps its id, customer and createdAt |
| CartHandlers.ClearLines | backend-java/src/main/java/com/shopcart/handlers/cart/ClearCartHandler.java:180-194 | clearing removes exactly the lines of that cart and keeps every other row |
| CartHandlers.ClearIdempotent | backend-java/src/main/java/com/shopcart/handlers/cart/ClearCartHandler.java:183-203 | clearing twice leaves the tables as clearing once, apart from updatedAt |
| CartHandlers.SumLines | backend-java/src/main/java/com/shopcart/handlers/cart/AddCartItemHandler.java:234-239 | the accumulation loop yields the sums of the line totals and of the quantities |
| CartHandlers.RecomputeTotals | backend-java/src/main/java/com/shopcart/handlers/cart/AddCartItemHandler.java:230-243 | the cart's totals become the sums over all its stored lines |
| CartHandlers.OutOfStock | backend-java/src/main/java/com/shopcart/handlers/cart/AddCartItemHandler.java:187-192 | the 400 message starts with the available count after "Product is out of stock. Available: " and ends with the requested quantity |
| CartHandlers.PutLine | backend-java/src/main/java/com/shopcart/handlers/cart/AddCartItemHandler.java:226-243 | writes the line, recomputes that cart's totals, and keeps every cart's totals consistent |
| CartHandlers.RemoveLine | backend-java/src/main/java/com/shopcart/handlers/cart/DeleteCartItemHandler.java:185-203 | deletes the line and recomputes the totals; deleting the only line gives 0/0 |
| CartHandlers.AddCartItem | backend-java/src/main/java/com/shopcart/handlers/cart/AddCartItemHandler.java:134-255 | each 400/404 in the handler's order with no write; the stock check uses the requested quantity alone; success merges into the one row for the key, sets totals to the sums and answers 200 with the cart and all its lines |
| CartHandlers.DeleteCartItem | backend-java/src/main/java/com/shopcart/handlers/cart/DeleteCartItemHandler.java:152-215 | 400 without ids, 404 for unknown cart or line, no write; on success exactly that row is gone, the totals are the remaining sums (0/0 when it was the last) and the answer is 200 with the remaining lines |
| CartHandlers.ResetCart | backend-java/src/main/java/com/shopcart/handlers/cart/ClearCartHandler.java:180-203 | the batch delete removes every line of the cart only, and the totals become 0/0 |
| CartHandlers.ClearCart | backend-java/src/main/java/com/shopcart/handlers/cart/ClearCartHandler.java:160-211 | 400/404 with no change; otherwise no line of the cart remains, other carts' lines are untouched, totals are 0/0 and the answer is 200 with no lines |
| CartHandlers.CreateCart | backend-java/src/main/java/com/shopcart/handlers/cart/CreateCartHandler.java:124-171 | 400 without body or customerId; an existing cart of the customer is answered 200 with no write; otherwise a new empty cart under the fresh id becomes the customer's only cart and is answered 201 with no lines |
| OrderHandlers.ToOrderLine | backend-java/src/main/java/com/shopcart/handlers/orders/CreateOrderHandler.java:256-265 | an order line copies product, name, price, quantity, image and line total of the cart line, dated now |
| OrderHandlers.OrderLines | backend-java/src/main/java/com/shopcart/handlers/orders/CreateOrderHandler.java:253-267 | one order line per cart line, in the listing's order |
| OrderHandlers.Decrement | backend-java/src/main/java/com/shopcart/handlers/orders/CreateOrderHandler.java:272-273 | the new stock is stock − quantity, or 0 when that is negative |
| OrderHandlers.StockAfter | backend-java/src/main/java/com/shopcart/handlers/orders/CreateOrderHandler.java:269-277 | one stock step keeps the table's keys and every other product; the line's product gets the clamped new stock and updatedAt = now, with its other fields unchanged |
| OrderHandlers.ProductIds | backend-java/src/main/java/com/shopcart/handlers/orders/CreateOrderHandler.java:255-278 | the products a listing names are exactly those of its lines |
| OrderHandlers.ApplyStockEffect | backend-java/src/main/java/com/shopcart/handlers/orders/CreateOrderHandler.java:269-277 | `ApplyStock`, the stock loop: each product of the cart loses its line's quantity, clamped at 0; a missing product is skipped and every other product is kept |
| OrderHandlers.PutLinesEffect | backend-java/src/main/java/com/shopcart/handlers/orders/CreateOrderHandler.java:282-284 | storing lines with distinct keys puts each under its key and keeps every other row |
| OrderHandlers.TakeStock | backend-java/src/main/java/com/shopcart/handlers/orders/CreateOrderHandler.java:255-278 | the first checkout loop builds the order lines and leaves the products as `ApplyStock` computes them |
| OrderHandlers.WriteLines | backend-java/src/main/java/com/shopcart/handlers/orders/CreateOrderHandler.java:282-284 | the second loop stores every built order line |
| OrderHandlers.DeleteLines | backend-java/src/main/java/com/shopcart/handlers/orders/CreateOrderHandler.java:290-293 | the third loop deletes exactly the listed cart lines |
| OrderHandlers.ListingFacts | backend-java/src/main/java/com/shopcart/handlers/orders/CreateOrderHandler.java:224-226 | a listing of a cart's lines names each of its products once and nothing else |
| OrderHandlers.CheckoutStock | backend-java/src/main/java/com/shopcart/handlers/orders/CreateOrderHandler.java:269-277 | the stock loop over any listing of the cart gives the same product table |
| OrderHandlers.OrderLineKeys | backend-java/src/main/java/com/shopcart/handlers/orders/CreateOrderHandler.java:253-267 | the copied lines have distinct keys, one per line of the cart |
| OrderHandlers.CheckoutLines | backend-java/src/main/java/com/shopcart/handlers/orders/CreateOrderHandler.java:253-284 | the order-line table gains exactly one copy of each cart line under the new order and keeps every other row |
| OrderHandlers.OrderTotalsFromCart | backend-java/src/main/java/com/shopcart/handlers/orders/CreateOrderHandler.java:240-241 | an order that copies the totals of a consistent cart has totals equal to the sums over its copied lines |
| OrderHandlers.StockStep | backend-java/src/main/java/com/shopcart/handlers/orders/CreateOrderHandler.java:255-278 | the stock loop keeps the table invariants |
| OrderHandlers.LineStep | backend-java/src/main/java/com/shopcart/handlers/orders/CreateOrderHandler.java:282-284 | the line writes keep the table invariants |
| OrderHandlers.EmptyCart | backend-java/src/main/java/com/shopcart/handlers/orders/CreateOrderHandler.java:290-299 | the cart loses all its lines and its totals become 0/0; totals stay consistent |
| OrderHandlers.MadeShowsOrder | backend-java/src/main/java/com/shopcart/handlers/orders/CreateOrderHandler.java:302-307 | a 201 carrying the order and a listing of its lines is the checkout's answer |
| OrderHandlers.RecordOrder | backend-java/src/main/java/com/shopcart/handlers/orders/CreateOrderHandler.java:250-284 | stores the order, takes the stock and copies the lines; the order's totals match its lines when the cart's did |
| OrderHandlers.OrderRejection | backend-java/src/main/java/com/shopcart/handlers/orders/CreateOrderHandler.java:161-230 | the request passes exactly when the body and its four fields are present, the cart exists, belongs to the customer, is not empty and has lines; otherwise 400, 403 or 404 in the handler's order |
| OrderHandlers.PlaceOrder | backend-java/src/main/java/com/shopcart/handlers/orders/CreateOrderHandler.java:236-307 | the write half of checkout: order stored, stock taken, lines copied, cart emptied, 201 with the order and its lines |
| OrderHandlers.CreateOrder | backend-java/src/main/java/com/shopcart/handlers/orders/CreateOrderHandler.java:156-307 | a rejection writes nothing; otherwise a PENDING order copying the cart's totals, address and payment method with createdAt = updatedAt, one line per cart line, stock clamped at 0, and an emptied cart; totals stay consistent and the order's match its lines |
| OrderHandlers.UpdateOrderStatus | backend-java/src/main/java/com/shopcart/handlers/orders/UpdateOrderStatusHandler.java:163-241 | 400s for missing id, body or status and for a status outside the five upper-case names, checked before the lookup; 404 for an unknown order; otherwise only status and updatedAt change, any status may follow any, and the answer is 200 with the order and its lines |
| OrderHandlers.DropOrderValid | backend-java/src/main/java/com/shopcart/handlers/orders/DeleteOrderHandler.java:66-87 | removing an order with all its lines leaves no line without its order |
| OrderHandlers.DeleteOrder | backend-java/src/main/java/com/shopcart/handlers/orders/DeleteOrderHandler.java:35-91 | 400 without id, 404 for an unknown order, 400 for a status other than PENDING, each with no change; otherwise the order and all its lines are gone, other orders' lines are kept, and the answer is 204 |
| CatalogHandlers.NewProduct | backend-java/src/main/java/com/shopcart/handlers/products/CreateProductHandler.java:96-114 | the new product has the fresh id, createdAt = updatedAt, the given fields, and stock 0, description "" and imageUrl "" when absent |
| CatalogHandlers.MergeProduct | backend-java/src/main/java/com/shopcart/handlers/products/UpdateProductHandler.java:97-122 | each of the six fields is replaced exactly when supplied; id and createdAt never change; updatedAt is refreshed |
| CatalogHandlers.MergeProductIdempotent | backend-java/src/main/java/com/shopcart/handlers/products/UpdateProductHandler.java:97-119 | the same update twice equals it once, apart from updatedAt |
| CatalogHandlers.EmptyProductUpdate | backend-java/src/main/java/com/shopcart/handlers/products/UpdateProductHandler.java:97-122 | an all-null update changes only updatedAt |
| CatalogHandlers.RecreateIsUpdateNoop | backend-java/src/main/java/com/shopcart/handlers/products/UpdateProductHandler.java:97-119 | updating a product with the body it was created from changes only updatedAt |
| CatalogHandlers.CreateProduct | backend-java/src/main/java/com/shopcart/handlers/products/CreateProductHandler.java:62-122 | 400 for an empty body, then for name, price and categoryId in that order, with no write; otherwise the new product is stored and answered 201 |
| CatalogHandlers.PatchProduct | backend-java/src/main/java/com/shopcart/handlers/products/UpdateProductHandler.java:97-122 | the chain of null-checked setters computes the merge |
| CatalogHandlers.UpdateProduct | backend-java/src/main/java/com/shopcart/handlers/products/UpdateProductHandler.java:64-130 | 400 for missing id or body, 404 for an unknown product, with no write; otherwise the merged product is stored and answered 200 |
| CatalogHandlers.NewCategory | backend-java/src/main/java/com/shopcart/handlers/categories/CreateCategoryHandler.java:101-115 | fresh id, createdAt = updatedAt, the given name, description and imageUrl "" when absent |
| CatalogHandlers.MergeCategory | backend-java/src/main/java/com/shopcart/handlers/categories/UpdateCategoryHandler.java:116-129 | each of name, description and imageUrl is replaced exactly when supplied; id and createdAt kept |
| CatalogHandlers.MergeCategoryIdempotent | backend-java/src/main/java/com/shopcart/handlers/categories/UpdateCategoryHandler.java:116-126 | the same update twice equals it once, apart from updatedAt |
| CatalogHandlers.EmptyCategoryUpdate | backend-java/src/main/java/com/shopcart/handlers/categories/UpdateCategoryHandler.java:116-129 | an all-null update changes only updatedAt |
| CatalogHandlers.CreateCategory | backend-java/src/main/java/com/shopcart/handlers/categories/CreateCategoryHandler.java:79-123 | 400 for an empty body or name with no write; otherwise the new category is stored and answered 201 |
| CatalogHandlers.PatchCategory | backend-java/src/main/java/com/shopcart/handlers/categories/UpdateCategoryHandler.java:116-129 | the setter chain computes the merge |
| CatalogHandlers.UpdateCategory | backend-java/src/main/java/com/shopcart/handlers/categories/UpdateCategoryHandler.java:83-137 | 400 for missing id or body, 404 for an unknown category, with no write; otherwise the merge is stored and answered 200 |
| CustomerHandlers.NewCustomer | backend-java/src/main/java/com/shopcart/handlers/customers/CreateCustomerHandler.java:90-102 | the stored customer has the fresh id, createdAt = updatedAt, and the request's fields, password as given |
| CustomerHandlers.AddKeepsUnique | backend-java/src/main/java/com/shopcart/handlers/customers/CreateCustomerHandler.java:76-102 | adding a customer with an unused email keeps emails unique |
| CustomerHandlers.CreateCustomer | backend-java/src/main/java/com/shopcart/handlers/customers/CreateCustomerHandler.java:47-106 | 400 for empty body, email, password, and an email already held, with no write; a failed lookup is ignored; otherwise stored and answered 201; emails stay unique when the lookup worked |
| CustomerHandlers.MergeCustomer | backend-java/src/main/java/com/shopcart/handlers/customers/UpdateCustomerHandler.java:81-124 | names, address and phone replaced when supplied; email when supplied; password only when supplied and not empty; id and createdAt kept |
| CustomerHandlers.MergeCustomerIdempotent | backend-java/src/main/java/com/shopcart/handlers/customers/UpdateCustomerHandler.java:81-121 | the same update twice equals it once, apart from updatedAt |
| CustomerHandlers.PatchCustomer | backend-java/src/main/java/com/shopcart/handlers/customers/UpdateCustomerHandler.java:81-124 | the setter chain, the email set only when it differs, computes the merge |
| CustomerHandlers.ReplaceKeepsUnique | backend-java/src/main/java/com/shopcart/handlers/customers/UpdateCustomerHandler.java:98-115 | replacing a customer by one with its own or an unused email keeps emails unique |
| CustomerHandlers.UpdateCustomer | backend-java/src/main/java/com/shopcart/handlers/customers/UpdateCustomerHandler.java:48-131 | 400/404 with no write; a changed email held by anyone gives 400 and nothing is stored; otherwise the merge is stored and answered 200; emails stay unique when the lookup worked |
| CustomerHandlers.Profile | backend-java/src/main/java/com/shopcart/handlers/customers/LoginHandler.java:113-119 | the login answer carries id, email, names, address and phone, and no password |
| CustomerHandlers.LoginAnswer | backend-java/src/main/java/com/shopcart/handlers/customers/LoginHandler.java:101-126 | 200 with the profile exactly when the password is equal; otherwise the 401 "Invalid email or password" |
| CustomerHandlers.Login | backend-java/src/main/java/com/shopcart/handlers/customers/LoginHandler.java:56-126 | 400s in order, 500 on a failed lookup, the same 401 for an unknown email and a wrong password; a 200 only for a stored customer with equal password; with unique emails the right password always succeeds; nothing is written |
| JsValues.Field | backend/functions/cart/addItem.js:49 | a field read is defined exactly when the object has it |
| JsValues.Or | backend/functions/products/create.js:47-51 | `a \|\| b` is `a` when truthy and `b` otherwise |
| JsValues.Truthy | backend/functions/cart/addItem.js:50 | a value is falsy exactly when it is null, false, 0 or the empty string (an absent field is `None`) |
| JsValues.DigitRun | backend/functions/cart/addItem.js:54 | the run of leading digits never extends past the string |
| JsValues.DigitRunLongest | backend/functions/cart/addItem.js:54 | the run is the longest prefix of digits in the radix: every character in it is a digit and the one after it is not |
| JsValues.TrimStart | backend/functions/cart/addItem.js:54 | the result is no longer than the input and does not start with white space |
| JsValues.TrimStartDrops | backend/functions/cart/addItem.js:54 | exactly the leading white space is skipped: the result is a suffix of the input and every character dropped is white space |
| JsValues.TrimEnd | backend/functions/cart/addItem.js:77 | the result is no longer than the input and does not end in white space |
| JsValues.TrimEndDrops | backend/functions/cart/addItem.js:77 | exactly the trailing white space is dropped: the result is a prefix and every character dropped is white space |
| JsValues.LeadingDecimal | backend/functions/products/create.js:26 | a string parses to a number exactly when, after an optional sign, it starts with a decimal digit; otherwise NaN |
| JsValues.LeadingInt | backend/functions/cart/addItem.js:54 | without a `0x`/`0X` prefix parseInt reads the string as `LeadingDecimal` does; with one it is a number exactly when a hexadecimal digit follows |
| JsValues.ParseInt | backend/functions/cart/addItem.js:54-55 | parseInt of a number is that number; null, booleans and objects are NaN |
| JsValues.ParseFloat | backend/functions/products/create.js:26 | parseFloat of a number is that number; null, booleans and objects are NaN |
| JsValues.IntFloatAgree | backend/functions/products/update.js:43-59 | parseInt and parseFloat agree on every value without a hexadecimal prefix |
| JsValues.DigitOf | backend/functions/cart/addItem.js:54 | the character written for a digit d < 10 is a decimal digit worth d |
| JsValues.DigitRunAll | backend/functions/cart/addItem.js:54 | a string of digits only is read whole |
| JsValues.DigitsRoundTrip | backend/functions/cart/addItem.js:54 | a decimal numeral consists of digits and reads back as its value |
| JsValues.ReadDigits | backend/functions/cart/addItem.js:54 | a run of decimal digits with no `x` in second place is read whole, and both parsers agree on it |
| JsValues.ReadNegated | backend/functions/cart/addItem.js:54 | a minus sign before such a run negates its value |
| JsValues.ParseRendered | backend/functions/cart/addItem.js:54 | parseInt of the decimal string of n is n |
| JsValues.ParseFloatRendered | backend/functions/products/create.js:26 | parseFloat of the decimal string of n is n |
| JsValues.HexPrefix | backend/functions/cart/addItem.js:54 | parseInt reads "0x10" as 16 while parseFloat reads it as 0 |
| JsValues.SignedHex | backend/functions/cart/addItem.js:54 | "-0x10" parses to −16; "0x" with no hexadecimal digit is NaN |
| JsValues.VerticalTab | backend/functions/cart/addItem.js:54 | a leading vertical tab is skipped as white space |
| JsValues.WholeIn | backend/functions/cart/addItem.js:77 | a digit string is read whole exactly when it is not empty and all of it is digits of the radix |
| JsValues.Numeral | backend/functions/cart/addItem.js:77 | a literal with no radix prefix whose unsigned part is all decimal digits converts to its signed value |
| JsValues.WholeNumeral | backend/functions/cart/addItem.js:77 | a blank or all-white-space string converts to 0 |
| JsValues.JsNumber | backend/functions/cart/addItem.js:77 | null, `[]` and `[null]` are 0; a number is itself; true and false are 1 and 0; objects and arrays of two or more elements are NaN |
| JsValues.ToNumber | backend/functions/cart/addItem.js:77 | an absent attribute (undefined) is NaN; a present one converts as `JsNumber` says |
| JsValues.ArrayExamples | backend/functions/cart/addItem.js:77 | `[5]` converts to 5, `[null]` to 0 and `[true]` to NaN |
| JsValues.PrefixExamples | backend/functions/cart/addItem.js:77 | "0x10" converts to 16 and "0b11" to 3 |
| JsValues.TrailingText | backend/functions/cart/addItem.js:54-77 | "5px" is NaN for the comparison but 5 for parseInt |
| JsValues.NumberRendered | backend/functions/cart/addItem.js:77 | the decimal string of n converts back to n |
| JsValues.WholeDigits | backend/functions/cart/addItem.js:77 | a string of decimal digits converts to their value |
| JsValues.WholeNegated | backend/functions/cart/addItem.js:77 | a minus sign before such a string converts to the negated value |
| JsValues.LessThan | backend/functions/cart/addItem.js:77 | `a < b` against a number is the numeric comparison when a is a number, and false whenever a converts to NaN |
| LambdaResponse.CreateResponse | backend/functions/utils/response.js:10-21 | status as given; the three defaults with caller headers spread over them; a string body verbatim, anything else stringified |
| LambdaResponse.BodyRoundTrip | backend/functions/utils/response.js:19 | for every JSON value, which has no undefined, NaN or function in it, what a handler passes as body is what the client reads back |
| LambdaResponse.Success | backend/functions/utils/response.js:29-31 | 200 with the given body |
| LambdaResponse.Created | backend/functions/utils/response.js:39-41 | 201 with the given body |
| LambdaResponse.NoContent | backend/functions/utils/response.js:48-50 | 204 with '' |
| LambdaResponse.ErrorObject | backend/functions/utils/response.js:58-100 | `{error: message}` with the default used only for an undefined message |
| LambdaResponse.BadRequest | backend/functions/utils/response.js:58-60 | 400 with the error object |
| LambdaResponse.Unauthorized | backend/functions/utils/response.js:68-70 | 401 with the error object |
| LambdaResponse.Forbidden | backend/functions/utils/response.js:78-80 | 403 with the error object |
| LambdaResponse.NotFound | backend/functions/utils/response.js:88-90 | 404 with the error object |
| LambdaResponse.ServerError | backend/functions/utils/response.js:98-100 | 500 with the error object |
| LambdaResponse.ErrorHelpersFaithful | backend/functions/utils/response.js:58-100 | each error helper sends back its message, or its reason phrase when it is undefined |
| LambdaResponse.DefaultHeadersOnly | backend/functions/utils/response.js:13-18 | with no caller headers exactly the three defaults, Allow-Credentials being the boolean true |
| LambdaStore.OrderItemsJson | backend/functions/orders/create.js:153-155 | the order's items in the response are its lines, one object per line, in order |
| LambdaStore.EmailHolders | backend/functions/customers/create.js:24-32 | the customers the email index finds are stored customers |
| LambdaStore.Shifted | backend/functions/cart/addItem.js:124-135 | the totals move by exactly the given deltas; id, customer, status and createdAt kept |
| LambdaStore.PutLineSums | backend/functions/cart/updateItem.js:86-111 | writing a line moves its cart's sums by the new line less the old |
| LambdaStore.DeleteLineSums | backend/functions/cart/removeItem.js:73-90 | deleting a line takes exactly its share off its cart's sums |
| LambdaStore.OtherCartSums | backend/functions/cart/updateItem.js:82-111 | changing one cart's lines leaves every other cart's sums alone |
| LambdaStore.PutKeepsTotals | backend/functions/cart/updateItem.js:82-111 | a put with totals shifted by the line's change keeps every cart's totals equal to its sums |
| LambdaStore.DeleteKeepsTotals | backend/functions/cart/removeItem.js:73-90 | a delete with totals shifted by minus the line's share keeps every cart's totals equal to its sums |
| LambdaStore.Tables.constructor | backend/functions/utils/dynamodb.js:11-53 | empty tables satisfy the table invariants |
| LambdaStore.Tables.ActiveCartIds | backend/functions/cart/create.js:50-63 | the active carts the customer index finds are stored carts |
| LambdaStore.Tables.EmailOwners | backend/functions/customers/create.js:24-32 | the email holders are stored customers |
| LambdaStore.Tables.QueryActiveCarts | backend/functions/cart/create.js:50-63 | empty exactly when the customer has no active cart |
| LambdaStore.Tables.QueryCustomersByEmail | backend/functions/customers/create.js:24-32 | empty exactly when nobody has the email |
| LambdaStore.Tables.QueryCartItems | backend/functions/orders/create.js:92-99 | every line of the cart once, and nothing else |
| LambdaStore.Tables.PutProduct | backend/functions/utils/dynamodb.js:74-95 | a put replaces only that product and keeps the table invariants |
| LambdaStore.Tables.PutCustomer | backend/functions/utils/dynamodb.js:74-95 | a put replaces only that customer |
| LambdaStore.Tables.PutCategory | backend/functions/utils/dynamodb.js:74-95 | a put replaces only that category |
| LambdaCart.PositiveQuantity | backend/functions/cart/addItem.js:54-57 | a quantity is accepted exactly when parseInt gives a positive number (hexadecimal strings included), and then it is that number |
| LambdaCart.QuantityFromString | backend/functions/cart/addItem.js:54-57 | a quantity sent as a decimal string is accepted exactly when it is positive |
| LambdaCart.CheckAdd | backend/functions/cart/addItem.js:49-79 | accepted exactly when productId and quantity are truthy, the quantity parses to a positive number, the cart exists and is active, the product exists and `inventory < quantity` is false (so a NaN inventory never blocks); the first failing check's 400/404 otherwise |
| LambdaCart.NaNStockAccepted | backend/functions/cart/addItem.js:77-79 | an inventory that converts to NaN lets every positive quantity through |
| LambdaCart.AddedLine | backend/functions/cart/addItem.js:88-122 | an existing line's quantity grows by q and its price becomes the product's; a new line has q, the price and addedAt |
| LambdaCart.PutAndShift | backend/functions/cart/addItem.js:95-135 | writes the line and shifts its cart's totals; totals stay the sums when the shift is the line's change |
| LambdaCart.AddItem | backend/functions/cart/addItem.js:40-140 | rejections write nothing; otherwise the line as `AddedLine`, totals shifted by q and price × q, and 200 with the updated cart; totals stay the sums while stored prices are current |
| LambdaCart.AddItemPriceDrift | backend/functions/cart/addItem.js:88-93 | a re-add after a price change leaves totals that are no longer the sums |
| LambdaCart.SingleLineSums | backend/functions/cart/addItem.js:111-135 | a cart whose one line is the new one has that line's quantity and value as its sums |
| LambdaCart.RepricedChange | backend/functions/cart/addItem.js:88-93 | the corrected price change equals price × q for a new line or an unchanged price |
| LambdaCart.AddItemRepriced | backend/functions/cart/addItem.js:40-140 | the add with the corrected price change accepts and rejects as the original and always keeps totals equal to the sums |
| LambdaCart.UpdateRejection | backend/functions/cart/updateItem.js:54-79 | passes exactly when a positive quantity is given and the cart exists, is active and has the line; otherwise the first failing check's 400/404 |
| LambdaCart.UpdateItem | backend/functions/cart/updateItem.js:45-116 | rejections write nothing; otherwise the line's quantity is set with its price kept, totals shift by the difference and by price × difference, and the answer is 200; totals stay the sums |
| LambdaCart.SameQuantityNoShift | backend/functions/cart/updateItem.js:82-111 | setting the current quantity leaves the totals unchanged |
| LambdaCart.DeleteAndShift | backend/functions/cart/removeItem.js:73-90 | deletes the line and takes its quantity and value off the cart |
| LambdaCart.RemoveRejection | backend/functions/cart/removeItem.js:56-70 | passes exactly when the cart exists, is active and has the line |
| LambdaCart.RemoveItem | backend/functions/cart/removeItem.js:48-95 | rejections write nothing; otherwise the line is deleted, totals drop by its quantity and price × quantity, and the answer is 200; totals stay the sums |
| LambdaCart.AddThenRemoveRestores | backend/functions/cart/removeItem.js:73-90 | removing a just-added line restores the cart's totals |
| LambdaCart.CreateCart | backend/functions/cart/create.js:39-80 | 400 without customerId or when the customer has an active cart, no write; otherwise an active cart with 0/0 totals and createdAt = updatedAt becomes the customer's only active cart and is answered 201 |
| LambdaCart.OpenKeepsTotals | backend/functions/cart/create.js:68-77 | a new cart with no lines and zero totals keeps totals equal to the sums |
| LambdaCart.OpenKeepsOne | backend/functions/cart/create.js:50-80 | opening a cart for a customer without an active one keeps one active cart per customer |
| LambdaUpdate.Converted | backend/functions/products/update.js:42-62 | price is refused exactly when parseFloat gives NaN and inventory exactly when parseInt does; otherwise they are stored as those numbers, and every other field verbatim |
| LambdaUpdate.BuildUpdate | backend/functions/products/update.js:30-66 | the builder loop refuses on the first unparsable value, otherwise yields the expression, names, values and whether any field was given |
| LambdaUpdate.InvalidSticks | backend/functions/products/update.js:40-50 | a refusal in a prefix of the allow-list is the refusal of the whole list |
| LambdaUpdate.GivenMembers | backend/functions/products/update.js:37-41 | the fields updated are exactly the allowed fields the body carries |
| LambdaUpdate.FirstInvalidMeans | backend/functions/products/update.js:42-50 | a refusal happens exactly when a given price or inventory does not parse |
| LambdaUpdate.NoNumbersNoRefusal | backend/functions/customers/update.js:32-41 | an allow-list without price and inventory is never refused |
| LambdaUpdate.NamesFacts | backend/functions/products/update.js:52-53 | the names map `#f` to `f` for exactly the given allowed fields |
| LambdaUpdate.ValuesFacts | backend/functions/products/update.js:31-33 | `:updatedAt` is the time and `:f` the stored value of each given allowed field |
| LambdaUpdate.PlanApplies | backend/functions/products/update.js:30-79 | applying the built expression to an item gives the intended updated item |
| LambdaUpdate.UpdateEffect | backend/functions/products/update.js:30-79 | an update changes exactly the given allowed fields and updatedAt, keeps every other attribute and removes none |
| LambdaUpdate.NumbersStayNumbers | backend/functions/products/update.js:42-62 | an accepted update keeps a numeric price or inventory numeric |
| LambdaCatalog.PatchOf | backend/functions/products/update.js:24-81 | 404 for a missing item, the builder's refusal, 400 when no allowed field is given, otherwise the updated item |
| LambdaCatalog.PlanPatch | backend/functions/products/update.js:29-81 | the builder run yields the verdict's reply and the item to write |
| LambdaCatalog.PatchKeepsKey | backend/functions/products/update.js:37-40 | an update never changes an item's key attribute |
| LambdaCatalog.PatchKeepsNumbers | backend/functions/products/update.js:42-62 | a product update keeps prices numeric, and inventories when they were |
| LambdaCatalog.UpdateProduct | backend/functions/products/update.js:17-85 | stores exactly the verdict's item and answers its reply; prices and inventories stay numeric |
| LambdaCatalog.CategoryNeverInvalid | backend/functions/categories/update.js:47-58 | a category update is never refused as non-numeric |
| LambdaCatalog.UpdateCategory | backend/functions/categories/update.js:28-77 | stores exactly the verdict's item and answers its reply |
| LambdaCatalog.PutKeepsEmailsUnique | backend/functions/customers/create.js:24-49 | writing a customer whose email nobody else has keeps emails unique |
| LambdaCatalog.PatchKeepsEmailsUnique | backend/functions/customers/update.js:32-57 | an update that takes no other customer's email keeps emails unique |
| LambdaCatalog.UpdateCustomer | backend/functions/customers/update.js:12-61 | stores exactly the verdict's item and answers its reply; emails stay unique only without a clash |
| LambdaCatalog.EmailUpdateDuplicates | backend/functions/customers/update.js:32-57 | the update accepts another customer's email and leaves two customers with it |
| LambdaCatalog.TwoCustomers | backend/functions/customers/update.js:32-57 | a customers table of two with distinct emails |
| LambdaCatalog.UpdateCustomerChecked | backend/functions/customers/update.js:12-61 | the update with the create handler's email check refuses a taken email and keeps emails unique |
| LambdaCatalog.CreateProduct | backend/functions/products/create.js:16-61 | 400 for a falsy name, price or categoryId, then for an unparsable price, no write; otherwise the product with defaults and the parsed price is stored and answered 201 |
| LambdaCatalog.NewProduct | backend/functions/products/create.js:44-54 | the item has exactly the nine attributes, its own id, the parsed price, createdAt = updatedAt = now, name and categoryId as sent, and inventory 0, description "" and imageUrl "" when falsy |
| LambdaCatalog.StockGuarded | backend/functions/cart/addItem.js:77-79 | with numeric inventories an accepted add never exceeds the inventory |
| LambdaCatalog.UnparsedStockPassesCheck | backend/functions/products/create.js:51 | a product created with inventory "lots" accepts an add of 1000 |
| LambdaCatalog.LotsProduct | backend/functions/products/create.js:51 | a product created with inventory "lots" stores that word as its inventory |
| LambdaCatalog.WordIsNaN | backend/functions/cart/addItem.js:77 | "lots" compares as NaN |
| LambdaCatalog.CreateProductChecked | backend/functions/products/create.js:16-61 | the create with its inventory parsed refuses a non-numeric one and keeps inventories numeric |
| LambdaCatalog.CreateCustomer | backend/functions/customers/create.js:13-54 | 400 for a missing field or a held email, no write; otherwise stored with defaults, the only holder of the email, answered 201; emails stay unique |
| LambdaCatalog.NewCustomer | backend/functions/customers/create.js:38-47 | the item has exactly the eight attributes, its own id, the sent e-mail, createdAt = updatedAt = now, and address {} and phoneNumber "" when falsy |
| LambdaCatalog.HeldElsewhereIff | backend/functions/customers/create.js:22-35 | another customer has the address exactly when the e-mail index finds one other than the customer itself |
| LambdaCatalog.NewCustomerOwnsEmail | backend/functions/customers/create.js:24-49 | a new customer with an unheld email is its only holder |
| LambdaCatalog.CreateCategory | backend/functions/categories/create.js:26-52 | 400 for a missing name with no write; otherwise stored with defaults and answered 201 |
| LambdaCatalog.NewCategory | backend/functions/categories/create.js:38-45 | the item has exactly the six attributes, its own id, the sent name, createdAt = updatedAt = now, and description and imageUrl "" when falsy |
| LambdaOrders.OrderRejection | backend/functions/orders/create.js:71-101 | passes exactly when the four fields are present and the cart exists, is the customer's, is active and has lines; otherwise 400/404 in order |
| LambdaOrders.PlacedOrder | backend/functions/orders/create.js:104-122 | the order is pending, dated now, billed to the billing address when truthy and to the shipping address otherwise, with shipping 10 and total = cart total + tax + shipping |
| LambdaOrders.ToOrderItem | backend/functions/orders/create.js:125-130 | the order line sits under (orderId, productId) and keeps the cart line's quantity and value |
| LambdaOrders.PutAllEffect | backend/functions/utils/dynamodb.js:148-160 | a batch write of distinct keys stores each line and keeps every other row |
| LambdaOrders.CopyListing | backend/functions/orders/create.js:125-136 | `ToOrderItems`, the `map` of the cart lines: one order line per cart line with the same product, quantity and price, and they list the new order |
| LambdaOrders.CopiedValue | backend/functions/orders/create.js:125-136 | the order's lines are worth what the cart's are |
| LambdaOrders.RecordOrder | backend/functions/orders/create.js:133-136 | stores the order and its lines; statuses stay known |
| LambdaOrders.ConvertCart | backend/functions/orders/create.js:139-150 | the cart becomes converted, keeping its lines and totals |
| LambdaOrders.Checkout | backend/functions/orders/create.js:125-155 | the write half of checkout, with the order's lines worth the cart's |
| LambdaOrders.CreateOrder | backend/functions/orders/create.js:62-159 | rejections write nothing; otherwise a pending order with billing defaulting to shipping, one line per cart line, the cart converted, 201 with the order and its lines; with consistent totals the order's total is its lines' value plus tax and shipping |
| LambdaOrders.NoSecondCheckout | backend/functions/orders/create.js:87-89 | a converted cart cannot be checked out again |
| LambdaOrders.UpdateStatus | backend/functions/orders/update.js:71-114 | 404 for an unknown order before status checks, 400 for a missing or invalid status, with no write; otherwise only status and updatedAt change and the answer is 200 |
| LambdaOrders.StatusAccepted | backend/functions/orders/update.js:89-92 | `IsValidStatus` accepts exactly the five lower-case names, as strings; "PENDING" is not one |
| CartContext.FindIndex | frontend/src/context/CartContext.js:98 | the first line of the product, or -1 when there is none |
| CartContext.WithItems | frontend/src/context/CartContext.js:121-130 | the new cart has the given lines, totals reduced from them, and the old cart's other fields |
| CartContext.AddedItems | frontend/src/context/CartContext.js:98-118 | a new product is appended with productId, name, price, quantity and imageUrl |
| CartContext.AddToExisting | frontend/src/context/CartContext.js:101-107 | re-adding keeps length and order and raises only that line's quantity |
| CartContext.AddKeepsDistinct | frontend/src/context/CartContext.js:98-118 | adding keeps one line per product |
| CartContext.AddTotals | frontend/src/context/CartContext.js:121-122 | an add raises the totals by q and by the line's unit price × q |
| CartContext.Without | frontend/src/context/CartContext.js:160 | the filter keeps exactly the lines of other products |
| CartContext.WithoutAbsent | frontend/src/context/CartContext.js:160 | filtering an absent product returns the list itself |
| CartContext.WithoutSums | frontend/src/context/CartContext.js:160-172 | filtering out a product's line takes exactly its share off both totals |
| CartContext.WithoutKeepsDistinct | frontend/src/context/CartContext.js:160 | filtering keeps one line per product |
| CartContext.UpdatedItems | frontend/src/context/CartContext.js:151-168 | throws exactly when no line has the product; a quantity ≤ 0 leaves no line of it |
| CartContext.SetQuantityEffect | frontend/src/context/CartContext.js:162-172 | a positive quantity sets exactly that line's quantity and the totals move by its change |
| CartContext.RemoveEffect | frontend/src/context/CartContext.js:158-172 | a quantity ≤ 0 removes that line only and the totals lose its share |
| CartContext.CartProvider.constructor | frontend/src/context/CartContext.js:14-17 | no cart, no lines, no error |
| CartContext.CartProvider.AddToCart | frontend/src/context/CartContext.js:92-142 | the lines become the add's result, with quantity 1 by default, and the cart mirrors them |
| CartContext.CartProvider.UpdateCartItem | frontend/src/context/CartContext.js:145-192 | an unknown product throws "Item not found in cart", sets the error and leaves cart and lines unchanged; otherwise the lines and cart are replaced |
| CartContext.CartProvider.RemoveFromCart | frontend/src/context/CartContext.js:195-197 | is `updateCartItem(p, 0)` |
| CartContext.CartProvider.ClearCart | frontend/src/context/CartContext.js:200-223 | no lines, totals 0/0, the cart's other fields kept |

## Left out

- The read-only handlers and the plain delete-by-key handlers of both backends: one lookup or delete each, with nothing to state beyond 404 when the row is absent.
- JSON parsing and serialization, `convertToApiGatewayResponse` and the API Gateway event plumbing: request fields are already-parsed optional values, and a serialized body is the value it encodes.
- The `catch (Exception e)` → 500 paths: store calls succeed. The exceptions are the failures the code handles itself: the email lookups of the Java customer handlers, modelled by a `lookupFails` parameter.
- Concurrent requests: each handler runs alone on the tables.
- Floating-point money: Java and front-end prices and totals are integer cents. Node.js prices and totals are whole currency units, so a fractional price such as 19.99 cannot be represented there.
- JsValues.ParseFloat: reads only integer numerals (the decimal digits after an optional sign); fractions, exponents and `Infinity` are not modelled, so "1.5" reads as 1.
- JsValues.ParseInt: numerals are read at their exact value; the rounding of numerals above 2^53 to doubles, and the exponent form of numbers from 1e21 up, are not modelled.
- JsValues.WholeNumeral: fractional, exponent and `Infinity` literals are NaN in the model, whereas `Number("1.5")` is 1.5 and `Number("1e3")` is 1000.
- JsValues.JsNumber: every object converts to NaN; an object that carries a `valueOf` or `toString` field, which makes the JavaScript conversion throw a TypeError, is not told apart.
- JsValues.LessThan: only comparisons with a number on the right are modelled; string-to-string comparison is not, because the handlers make none.
- LambdaOrders.CreateOrder: the tax is a parameter, and the `toFixed` rounding of the tax and the total is not modelled.
- CustomerHandlers.Login: compares against some customer holding the email rather than the first one the index returns, because the index order is not modelled.
- The `loading` flag of the cart provider, and its loading from and saving to `localStorage` (`CartContext.js:22-89`): the provider starts from its initial state.
- CartContext.CartProvider.AddToCart: the `catch` path is not modelled, because nothing in the pure list computation can throw.
- DynamoDB itself: getItem is a map lookup, put and update are map updates, deleteItem and batch deletes are key removals, and every request is assumed to succeed in full.
- CartHandlers.ClearCart, CartHandlers.ResetCart, CartHandlers.ClearLines: `DynamoDBUtil.batchDeleteItems` (`DynamoDBUtil.java:264-286`, called at `ClearCartHandler.java:193`) sends every line's key in one `batchWriteItem`. It does not split at DynamoDB's 25-request limit and ignores unprocessed items. The promise of 200 with no lines left holds only for carts of at most 25 lines whose batch is processed in full. With 26 lines the call fails, the handler answers 500, nothing is deleted, and the totals are not reset, because the cart update at `ClearCartHandler.java:196-202` is never reached.
- OrderHandlers.DeleteOrder, OrderHandlers.DropOrderValid: the order's lines go through the same single `batchDeleteItems` call (`DeleteOrderHandler.java:82`), with no 25-item split and no retry of unprocessed items. The promise of 204 with the order and all its lines gone holds only for orders of at most 25 lines whose batch is processed in full. With 26 lines the call fails before `DeleteOrderHandler.java:87`, so the order row stays too.
- LambdaOrders.CreateOrder: `batchWriteItems` (`utils/dynamodb.js:148-160`) sends every order line in one `batchWrite`. DynamoDB accepts at most 25 puts per call, and `UnprocessedItems` in the reply is ignored. The model's `PutAll` stores every line, so the `LinesCopied` promise holds only for carts of at most 25 lines whose batch is processed in full.
- LambdaCart.AddItem, LambdaCart.UpdateItem, LambdaCart.RemoveItem: the totals update passes an empty `ExpressionAttributeNames` object (`addItem.js:129`, `updateItem.js:105`, `removeItem.js:84`). DynamoDB may reject an empty map; the model assumes the update is accepted.
- CartHandlers.MergeLine: the Java `int` sum `quantity + quantity` is unbounded in the model; 32-bit wrap-around is not modelled.
- CartHandlers.SumLines: `totalItems +=` accumulates in a Java `int`; its 32-bit wrap-around is not modelled.
- OrderHandlers.Decrement: `stock - quantity` is a Java `int` subtraction; its 32-bit wrap-around is not modelled.

## Findings

| source | as written | input that shows it | evidently intended | confidence | as-written member | corrected member |
|---|---|---|---|---|---|---|
| backend/functions/cart/addItem.js:88-93 | re-adding refreshes the line's price to the product's current price but moves `totalPrice` only by price × q | a line of 1 at 100, the product re-priced to 150, add 1: the line holds 2 at 150 (300) while the cart total becomes 250 | the total moves by the new line's value less the old line's | not executed | LambdaCart.AddItemPriceDrift | LambdaCart.AddItemRepriced |
| backend/functions/customers/update.js:32-43 | an e-mail address is written without the uniqueness check the create handler makes | customers a at a@x and b at b@x; update b with email a@x: accepted, two customers at a@x | refuse an address another customer has, as the create handler does | not executed | LambdaCatalog.EmailUpdateDuplicates | LambdaCatalog.UpdateCustomerChecked |
| backend/functions/products/create.js:51 | the inventory is stored as sent, unparsed, while the update handler insists it parse | create with inventory "lots", then add 1000 to a cart: `"lots" < 1000` is false, so the stock check passes | parse the inventory and refuse one that is not a number, as the update handler does | not executed | LambdaCatalog.UnparsedStockPassesCheck | LambdaCatalog.CreateProductChecked |
