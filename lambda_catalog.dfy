/**
 * The Node.js product, customer and category handlers that write: create
 * stores a new item with defaults for the optional attributes, and update
 * applies the allow-list builder of `LambdaUpdate` to an existing item.
 */
module LambdaCatalog {
  import opened Wrappers
  import opened JsValues
  import opened LambdaStore
  import opened LambdaUpdate
  import Store
  import LambdaCart

  const ProductFields := ["name", "description", "price", "categoryId", "imageUrl", "inventory"]
  const CustomerFields := ["firstName", "lastName", "email", "address", "phoneNumber"]
  const CategoryFields := ["name", "description", "imageUrl"]

  const NoUpdates := "No valid fields to update"
  const ProductFieldsMissing := "Missing required fields: name, price, categoryId"
  const CustomerFieldsMissing := "Missing required fields: email, firstName, lastName"

  function CustomerNotFound(customerId: string): string { "Customer with ID " + customerId + " not found" }
  function CategoryNotFound(categoryId: string): string { "Category with ID " + categoryId + " not found" }
  function EmailTaken(email: string): string { "Customer with email " + email + " already exists" }

  /** `body[f]`, `None` when the body does not carry `f`. */
  function Get(body: Body, f: string): Option<Json> {
    Store.Lookup(body, f)
  }

  // --------------------------------------------------------------- update

  /** What an update handler does with a request: refuse it with a reply, or write the item back. */
  datatype Patch = Refuse(response: Response) | Apply(item: Item)

  /**
   * The verdict the three update handlers share: 404 when the item is
   * missing, the builder's refusal, 400 when no allowed attribute is given,
   * and otherwise the item with the given attributes written over it.
   */
  function PatchOf(table: map<string, Item>, id: string, allowed: seq<string>, body: Body, now: string, notFound: string): (p: Patch)
    requires "updatedAt" !in allowed
    ensures p.Apply? <==> id in table && FirstInvalid(allowed, body).None? && Given(allowed, body) != []
    ensures id !in table ==> p == Refuse(Missing(notFound))
  {
    if id !in table then Refuse(Missing(notFound))
    else if FirstInvalid(allowed, body).Some? then Refuse(Bad(FirstInvalid(allowed, body).value))
    else if Given(allowed, body) == [] then Refuse(Bad(NoUpdates))
    else Apply(Updated(table[id], allowed, body, now))
  }

  /**
   * Runs the update builder for an existing item and applies its SET
   * expression: the reply and the item to write are the verdict's.
   */
  method PlanPatch(table: map<string, Item>, id: string, allowed: seq<string>, body: Body, now: string, notFound: string)
    returns (r: Response, item: Option<Item>)
    requires "updatedAt" !in allowed
    ensures var p := PatchOf(table, id, allowed, body, now, notFound);
      && (item.Some? <==> p.Apply?)
      && (p.Refuse? ==> r == p.response)
      && (p.Apply? ==> item == Some(p.item) && r == Ok(JObj(p.item)))
  {
    if id !in table {
      return Missing(notFound), None;
    }
    var outcome := BuildUpdate(allowed, body, now);
    if outcome.Refused? {
      return Bad(outcome.message), None;
    }
    if !outcome.hasUpdates {
      return Bad(NoUpdates), None;
    }
    PlanApplies(table[id], allowed, body, now);
    var updated := ApplySet(table[id], outcome.names, outcome.values);
    item := Some(updated);
    r := Ok(JObj(updated));
  }

  /** The key attribute of every item survives an update whose allow-list leaves it out. */
  lemma PatchKeepsKey(table: map<string, Item>, id: string, allowed: seq<string>, body: Body, now: string, notFound: string, keyName: string)
    requires "updatedAt" !in allowed && keyName !in allowed && keyName != "updatedAt"
    requires ItemsKeyed(table, keyName)
    ensures var p := PatchOf(table, id, allowed, body, now, notFound);
      p.Apply? ==> keyName in p.item && p.item[keyName] == JStr(id)
  {
    if id in table {
      UpdateEffect(table[id], allowed, body, now);
    }
  }

  /** Every product has a numeric inventory. */
  ghost predicate StockNumeric(products: map<string, Item>) {
    forall id :: id in products ==> "inventory" in products[id] && products[id]["inventory"].JNum?
  }

  /** A product update keeps prices numeric, and inventories too. */
  lemma PatchKeepsNumbers(products: map<string, Item>, id: string, body: Body, now: string)
    requires PricesNumeric(products)
    ensures var p := PatchOf(products, id, ProductFields, body, now, ProductNotFound(id));
      p.Apply? ==> "price" in p.item && p.item["price"].JNum? && (StockNumeric(products) ==> StockNumeric(products[id := p.item]))
  {
    if id in products && FirstInvalid(ProductFields, body).None? {
      var before := products[id];
      NumbersStayNumbers(before, ProductFields, body, now, "price");
      if "inventory" in before && before["inventory"].JNum? {
        NumbersStayNumbers(before, ProductFields, body, now, "inventory");
      }
    }
  }

  /**
   * PUT /products/{productId}: update the allowed attributes the body
   * carries; "price" and "inventory" must parse as numbers and are stored
   * parsed.  Prices stay numeric and so do inventories.
   */
  method UpdateProduct(db: Tables, productId: string, body: Body, now: string) returns (r: Response)
    requires db.Valid()
    modifies db`products
    ensures db.Valid()
    ensures var p := PatchOf(old(db.products), productId, ProductFields, body, now, ProductNotFound(productId));
      if p.Refuse? then r == p.response && unchanged(db)
      else db.products == old(db.products)[productId := p.item] && r == Ok(JObj(p.item))
    ensures old(StockNumeric(db.products)) ==> StockNumeric(db.products)
  {
    var item;
    r, item := PlanPatch(db.products, productId, ProductFields, body, now, ProductNotFound(productId));
    if item.Some? {
      PatchKeepsKey(db.products, productId, ProductFields, body, now, ProductNotFound(productId), "productId");
      PatchKeepsNumbers(db.products, productId, body, now);
      db.PutProduct(productId, item.value);
    }
  }

  /** The category allow-list holds no number, so a category update is never refused for one. */
  lemma CategoryNeverInvalid(body: Body)
    ensures FirstInvalid(CategoryFields, body).None?
  {
    NoNumbersNoRefusal(CategoryFields, body);
  }

  /** PUT /categories/{categoryId}: update the allowed attributes the body carries. */
  method UpdateCategory(db: Tables, categoryId: string, body: Body, now: string) returns (r: Response)
    requires db.Valid()
    modifies db`categories
    ensures db.Valid()
    ensures var p := PatchOf(old(db.categories), categoryId, CategoryFields, body, now, CategoryNotFound(categoryId));
      if p.Refuse? then r == p.response && unchanged(db)
      else db.categories == old(db.categories)[categoryId := p.item] && r == Ok(JObj(p.item))
  {
    var item;
    r, item := PlanPatch(db.categories, categoryId, CategoryFields, body, now, CategoryNotFound(categoryId));
    if item.Some? {
      PatchKeepsKey(db.categories, categoryId, CategoryFields, body, now, CategoryNotFound(categoryId), "categoryId");
      db.PutCategory(categoryId, item.value);
    }
  }

  /** The e-mail address a customer item carries, when it is a string. */
  function EmailOf(item: Item): Option<string> {
    if "email" in item && item["email"].JStr? then Some(item["email"].s) else None
  }

  /** No two customers share an e-mail address: the EmailIndex finds at most one. */
  ghost predicate UniqueEmails(customers: map<string, Item>) {
    forall a, b ::
      a in customers && b in customers && EmailOf(customers[a]).Some? && EmailOf(customers[a]) == EmailOf(customers[b])
      ==> a == b
  }

  /** Some customer other than `id` has the e-mail address `email`. */
  ghost predicate HeldElsewhere(customers: map<string, Item>, id: string, email: string) {
    exists other :: other in customers && other != id && EmailOf(customers[other]) == Some(email)
  }

  /** The body gives customer `id` an e-mail address another customer already has. */
  ghost predicate EmailClash(customers: map<string, Item>, id: string, body: Body) {
    "email" in body && body["email"].JStr? && HeldElsewhere(customers, id, body["email"].s)
  }

  /** Some customer other than `id` holds `email` exactly when the e-mail index finds one. */
  lemma HeldElsewhereIff(customers: map<string, Item>, id: string, email: string)
    ensures HeldElsewhere(customers, id, email) <==> EmailHolders(customers, email) - {id} != {}
  {
    if HeldElsewhere(customers, id, email) {
      var other :| other in customers && other != id && EmailOf(customers[other]) == Some(email);
      assert other in EmailHolders(customers, email) - {id};
    }
    if EmailHolders(customers, email) - {id} != {} {
      var other :| other in EmailHolders(customers, email) - {id};
      assert EmailOf(customers[other]) == Some(email);
    }
  }

  /** Writing an item under `id` keeps e-mail addresses unique when its address is no other customer's. */
  lemma PutKeepsEmailsUnique(customers: map<string, Item>, id: string, u: Item)
    requires UniqueEmails(customers)
    requires EmailOf(u).Some? ==> !HeldElsewhere(customers, id, EmailOf(u).value)
    ensures UniqueEmails(customers[id := u])
  {
    var m := customers[id := u];
    forall a, b | a in m && b in m && EmailOf(m[a]).Some? && EmailOf(m[a]) == EmailOf(m[b])
      ensures a == b
    {
      if a != id && b != id {
        assert m[a] == customers[a] && m[b] == customers[b];
      }
    }
  }

  /** Updating a customer keeps e-mail addresses unique when it takes no other customer's address. */
  lemma PatchKeepsEmailsUnique(customers: map<string, Item>, id: string, body: Body, now: string)
    requires UniqueEmails(customers) && !EmailClash(customers, id, body)
    ensures var p := PatchOf(customers, id, CustomerFields, body, now, CustomerNotFound(id));
      p.Apply? ==> UniqueEmails(customers[id := p.item])
  {
    if id in customers {
      var u := Updated(customers[id], CustomerFields, body, now);
      UpdateEffect(customers[id], CustomerFields, body, now);
      assert "email" in CustomerFields;
      if "email" in body {
        assert u["email"] == body["email"];
      } else {
        assert EmailOf(u) == EmailOf(customers[id]);
        forall other | other in customers && other != id
          ensures EmailOf(customers[other]) != EmailOf(u) || EmailOf(u).None?
        {
          assert EmailOf(u) == EmailOf(customers[id]);
        }
      }
      PutKeepsEmailsUnique(customers, id, u);
    }
  }

  /**
   * PUT /customers/{customerId} as written: update the allowed attributes
   * the body carries.  The e-mail address is not checked against the other
   * customers, so uniqueness survives only when the body takes no address
   * another customer has.
   */
  method UpdateCustomer(db: Tables, customerId: string, body: Body, now: string) returns (r: Response)
    requires db.Valid()
    modifies db`customers
    ensures db.Valid()
    ensures var p := PatchOf(old(db.customers), customerId, CustomerFields, body, now, CustomerNotFound(customerId));
      if p.Refuse? then r == p.response && unchanged(db)
      else db.customers == old(db.customers)[customerId := p.item] && r == Ok(JObj(p.item))
    ensures old(UniqueEmails(db.customers)) && !EmailClash(old(db.customers), customerId, body) ==> UniqueEmails(db.customers)
  {
    var item;
    r, item := PlanPatch(db.customers, customerId, CustomerFields, body, now, CustomerNotFound(customerId));
    if item.Some? {
      PatchKeepsKey(db.customers, customerId, CustomerFields, body, now, CustomerNotFound(customerId), "customerId");
      if UniqueEmails(db.customers) && !EmailClash(db.customers, customerId, body) {
        PatchKeepsEmailsUnique(db.customers, customerId, body, now);
      }
      db.PutCustomer(customerId, item.value);
    }
  }

  /**
   * The as-written update lets a customer take another customer's address:
   * with "a" at a@x and "b" at b@x, setting b's email to a@x is accepted and
   * leaves two customers at a@x.
   */
  lemma EmailUpdateDuplicates()
    ensures var customers := TwoCustomers();
            var p := PatchOf(customers, "b", CustomerFields, map["email" := JStr("a@x")], "t", CustomerNotFound("b"));
            && UniqueEmails(customers) && p.Apply? && !UniqueEmails(customers["b" := p.item])
  {
    var customers := TwoCustomers();
    var body := map["email" := JStr("a@x")];
    NoNumbersNoRefusal(CustomerFields, body);
    UpdateEffect(customers["b"], CustomerFields, body, "t");
    GivenMembers(CustomerFields, body);
    assert "email" in Given(CustomerFields, body);
    var u := Updated(customers["b"], CustomerFields, body, "t");
    assert u["email"] == JStr("a@x");
    var m := customers["b" := u];
    assert EmailOf(m["a"]) == EmailOf(m["b"]) == Some("a@x");
  }

  /** Customers "a" at a@x and "b" at b@x. */
  function TwoCustomers(): (customers: map<string, Item>)
    ensures customers.Keys == {"a", "b"}
    ensures UniqueEmails(customers)
  {
    var customers := map[
      "a" := map["customerId" := JStr("a"), "email" := JStr("a@x")],
      "b" := map["customerId" := JStr("b"), "email" := JStr("b@x")]];
    assert EmailOf(customers["a"]) == Some("a@x") && EmailOf(customers["b"]) == Some("b@x");
    customers
  }

  /**
   * The customer update with the create handler's e-mail check added: an
   * address another customer already has is refused with the same message,
   * and e-mail addresses then stay unique.
   */
  method UpdateCustomerChecked(db: Tables, customerId: string, body: Body, now: string) returns (r: Response)
    requires db.Valid()
    modifies db`customers
    ensures db.Valid()
    ensures var p := PatchOf(old(db.customers), customerId, CustomerFields, body, now, CustomerNotFound(customerId));
      if p.Refuse? then r == p.response && unchanged(db)
      else if EmailClash(old(db.customers), customerId, body) then r == Bad(EmailTaken(body["email"].s)) && unchanged(db)
      else db.customers == old(db.customers)[customerId := p.item] && r == Ok(JObj(p.item))
    ensures old(UniqueEmails(db.customers)) ==> UniqueEmails(db.customers)
  {
    var item;
    r, item := PlanPatch(db.customers, customerId, CustomerFields, body, now, CustomerNotFound(customerId));
    if item.Some? {
      if "email" in body && body["email"].JStr? {
        var email := body["email"].s;
        var others := db.EmailOwners(email) - {customerId};
        HeldElsewhereIff(db.customers, customerId, email);
        if others != {} {
          return Bad(EmailTaken(email));
        }
      }
      PatchKeepsKey(db.customers, customerId, CustomerFields, body, now, CustomerNotFound(customerId), "customerId");
      if UniqueEmails(db.customers) {
        PatchKeepsEmailsUnique(db.customers, customerId, body, now);
      }
      db.PutCustomer(customerId, item.value);
    }
  }

  // --------------------------------------------------------------- create

  /** The product create stores, as written: the inventory is whatever the body sent, or 0. */
  function NewProduct(id: string, body: Body, price: int, now: string): (it: Item)
    requires "name" in body && "categoryId" in body
    ensures it.Keys == {"productId", "name", "description", "price", "categoryId", "imageUrl", "inventory", "createdAt", "updatedAt"}
    ensures it["productId"] == JStr(id) && it["price"] == JNum(price) && it["createdAt"] == it["updatedAt"] == JStr(now)
    ensures it["name"] == body["name"] && it["categoryId"] == body["categoryId"]
    ensures !Present(Get(body, "inventory")) ==> it["inventory"] == JNum(0)
    ensures !Present(Get(body, "description")) ==> it["description"] == JStr("")
    ensures !Present(Get(body, "imageUrl")) ==> it["imageUrl"] == JStr("")
  {
    map["productId" := JStr(id), "name" := body["name"],
        "description" := Or(Get(body, "description"), JStr("")), "price" := JNum(price),
        "categoryId" := body["categoryId"], "imageUrl" := Or(Get(body, "imageUrl"), JStr("")),
        "inventory" := Or(Get(body, "inventory"), JNum(0)),
        "createdAt" := JStr(now), "updatedAt" := JStr(now)]
  }

  /**
   * POST /products as written: name, price and categoryId must be truthy and
   * the price must parse; the stored price is the parsed number, the
   * inventory is stored as sent.
   */
  method CreateProduct(db: Tables, body: Body, freshId: string, now: string) returns (r: Response)
    requires db.Valid() && freshId !in db.products
    modifies db`products
    ensures db.Valid()
    ensures
      if !Present(Get(body, "name")) || !Present(Get(body, "price")) || !Present(Get(body, "categoryId")) then
        r == Bad(ProductFieldsMissing) && unchanged(db)
      else if ParseFloat(body["price"]).None? then r == Bad("Price must be a number") && unchanged(db)
      else
        var product := NewProduct(freshId, body, ParseFloat(body["price"]).value, now);
        && db.products == old(db.products)[freshId := product]
        && r == Made(JObj(product))
  {
    if !Present(Get(body, "name")) || !Present(Get(body, "price")) || !Present(Get(body, "categoryId")) {
      return Bad(ProductFieldsMissing);
    }
    var price := ParseFloat(body["price"]);
    if price.None? {
      return Bad("Price must be a number");
    }
    var product := NewProduct(freshId, body, price.value, now);
    db.PutProduct(freshId, product);
    r := Made(JObj(product));
  }

  /**
   * With inventories numeric, the add-to-cart stock check does its job: an
   * accepted quantity never exceeds the product's inventory.
   */
  lemma StockGuarded(carts: map<string, Cart>, products: map<string, Item>, cartId: string, body: LambdaCart.AddItemBody)
    requires PricesNumeric(products) && StockNumeric(products)
    ensures var v := LambdaCart.CheckAdd(carts, products, cartId, body);
      v.Accept? ==> v.quantity <= products[v.productId]["inventory"].n
  {
    var v := LambdaCart.CheckAdd(carts, products, cartId, body);
    if v.Accept? {
      assert !LessThan(Store.Lookup(products[v.productId], "inventory"), v.quantity);
    }
  }

  /**
   * A product created with a non-numeric inventory slips past that check:
   * "lots" is not a number, so `inventory < quantity` is false for every
   * quantity and an order of 1000 is accepted.
   */
  lemma UnparsedStockPassesCheck()
    ensures var products := map["p" := NewProduct("p", LotsBody, 10, "t")];
            var carts := map["c" := Cart("c", "u", "active", 0, 0, "t", "t")];
            && PricesNumeric(products) && !StockNumeric(products)
            && LambdaCart.CheckAdd(carts, products, "c", LambdaCart.AddItemBody(Some("p"), Some(JNum(1000)))) == LambdaCart.Accept("p", 1000, 10)
  {
    var product := NewProduct("p", LotsBody, 10, "t");
    LotsProduct();
    var products := map["p" := product];
    assert !StockNumeric(products) by {
      assert !products["p"]["inventory"].JNum?;
    }
    WordIsNaN();
    LambdaCart.NaNStockAccepted(map["c" := Cart("c", "u", "active", 0, 0, "t", "t")], products, "c", "p", 1000);
  }

  /** A create body whose inventory is the word "lots". */
  const LotsBody: Body := map["name" := JStr("n"), "price" := JNum(10), "categoryId" := JStr("k"), "inventory" := JStr("lots")]

  /** The product created from `LotsBody` stores the word as its inventory. */
  lemma LotsProduct()
    ensures var p := NewProduct("p", LotsBody, 10, "t");
      p["price"] == JNum(10) && p["inventory"] == JStr("lots") && Store.Lookup(p, "inventory") == Some(JStr("lots"))
  {
    assert Get(LotsBody, "inventory") == Some(JStr("lots"));
  }

  /** "lots" is no numeral: `"lots" < n` is false for every number `n`. */
  lemma WordIsNaN()
    ensures ToNumber(Some(JStr("lots"))).None?
  {
    assert TrimStart("lots") == "lots";
    assert TrimEnd("lots") == "lots";
    assert DigitRun("lots", 10) == 0;
  }

  /**
   * The product create with its inventory checked the way the update checks
   * it: a given inventory must parse as a number and is stored parsed, an
   * absent one is 0.  Inventories then stay numeric.
   */
  method CreateProductChecked(db: Tables, body: Body, freshId: string, now: string) returns (r: Response)
    requires db.Valid() && freshId !in db.products
    modifies db`products
    ensures db.Valid()
    ensures
      if !Present(Get(body, "name")) || !Present(Get(body, "price")) || !Present(Get(body, "categoryId")) then
        r == Bad(ProductFieldsMissing) && unchanged(db)
      else if ParseFloat(body["price"]).None? then r == Bad("Price must be a number") && unchanged(db)
      else if "inventory" in body && ParseInt(body["inventory"]).None? then
        r == Bad("Inventory must be a number") && unchanged(db)
      else
        var stock := if "inventory" in body then ParseInt(body["inventory"]).value else 0;
        var product := NewProduct(freshId, body, ParseFloat(body["price"]).value, now)["inventory" := JNum(stock)];
        && db.products == old(db.products)[freshId := product]
        && r == Made(JObj(product))
    ensures old(StockNumeric(db.products)) ==> StockNumeric(db.products)
  {
    if !Present(Get(body, "name")) || !Present(Get(body, "price")) || !Present(Get(body, "categoryId")) {
      return Bad(ProductFieldsMissing);
    }
    var price := ParseFloat(body["price"]);
    if price.None? {
      return Bad("Price must be a number");
    }
    var stock := 0;
    if "inventory" in body {
      var n := ParseInt(body["inventory"]);
      if n.None? {
        return Bad("Inventory must be a number");
      }
      stock := n.value;
    }
    var product := NewProduct(freshId, body, price.value, now)["inventory" := JNum(stock)];
    db.PutProduct(freshId, product);
    r := Made(JObj(product));
  }

  /** The parsed create-customer body; `email` is the string the EmailIndex is queried with. */
  datatype CustomerBody = CustomerBody(
    email: Option<string>, firstName: Option<Json>, lastName: Option<Json>,
    address: Option<Json>, phoneNumber: Option<Json>)

  /** The customer create stores: address defaults to `{}` and phoneNumber to "". */
  function NewCustomer(id: string, b: CustomerBody, now: string): (it: Item)
    requires b.email.Some? && b.firstName.Some? && b.lastName.Some?
    ensures it.Keys == {"customerId", "email", "firstName", "lastName", "address", "phoneNumber", "createdAt", "updatedAt"}
    ensures it["customerId"] == JStr(id) && EmailOf(it) == b.email && it["createdAt"] == it["updatedAt"] == JStr(now)
    ensures it["firstName"] == b.firstName.value && it["lastName"] == b.lastName.value
    ensures !Present(b.address) ==> it["address"] == JObj(map[])
    ensures !Present(b.phoneNumber) ==> it["phoneNumber"] == JStr("")
  {
    map["customerId" := JStr(id), "email" := JStr(b.email.value),
        "firstName" := b.firstName.value, "lastName" := b.lastName.value,
        "address" := Or(b.address, JObj(map[])), "phoneNumber" := Or(b.phoneNumber, JStr("")),
        "createdAt" := JStr(now), "updatedAt" := JStr(now)]
  }

  /**
   * POST /customers: email, firstName and lastName must be truthy and no
   * customer may have the email already; the new customer is then the only
   * one with it.
   */
  method CreateCustomer(db: Tables, body: CustomerBody, freshId: string, now: string) returns (r: Response)
    requires db.Valid() && freshId !in db.customers
    modifies db`customers
    ensures db.Valid()
    ensures
      if !Filled(body.email) || !Present(body.firstName) || !Present(body.lastName) then
        r == Bad(CustomerFieldsMissing) && unchanged(db)
      else if old(db.EmailOwners(body.email.value)) != {} then r == Bad(EmailTaken(body.email.value)) && unchanged(db)
      else
        var customer := NewCustomer(freshId, body, now);
        && db.customers == old(db.customers)[freshId := customer]
        && db.EmailOwners(body.email.value) == {freshId}
        && r == Made(JObj(customer))
    ensures old(UniqueEmails(db.customers)) ==> UniqueEmails(db.customers)
  {
    if !Filled(body.email) || !Present(body.firstName) || !Present(body.lastName) {
      return Bad(CustomerFieldsMissing);
    }
    var email := body.email.value;
    var existing := db.QueryCustomersByEmail(email);
    if |existing| > 0 {
      return Bad(EmailTaken(email));
    }
    var customer := NewCustomer(freshId, body, now);
    NewCustomerOwnsEmail(db.customers, freshId, customer, email);
    db.PutCustomer(freshId, customer);
    r := Made(JObj(customer));
  }

  /**
   * A new customer whose address nobody has is the only one holding it, and
   * keeps e-mail addresses unique.
   */
  lemma NewCustomerOwnsEmail(customers: map<string, Item>, freshId: string, customer: Item, email: string)
    requires EmailHolders(customers, email) == {} && EmailOf(customer) == Some(email)
    ensures EmailHolders(customers[freshId := customer], email) == {freshId}
    ensures UniqueEmails(customers) ==> UniqueEmails(customers[freshId := customer])
  {
    var m := customers[freshId := customer];
    forall id | id in EmailHolders(m, email) ensures id == freshId {
      assert id !in EmailHolders(customers, email);
    }
    assert !HeldElsewhere(customers, freshId, email) by {
      forall id | id in customers ensures EmailOf(customers[id]) != Some(email) {
        assert id !in EmailHolders(customers, email);
      }
    }
    if UniqueEmails(customers) {
      PutKeepsEmailsUnique(customers, freshId, customer);
    }
  }

  /** The category create stores: description and imageUrl default to "". */
  function NewCategory(id: string, body: Body, now: string): (it: Item)
    requires "name" in body
    ensures it.Keys == {"categoryId", "name", "description", "imageUrl", "createdAt", "updatedAt"}
    ensures it["categoryId"] == JStr(id) && it["name"] == body["name"] && it["createdAt"] == it["updatedAt"] == JStr(now)
    ensures !Present(Get(body, "description")) ==> it["description"] == JStr("")
    ensures !Present(Get(body, "imageUrl")) ==> it["imageUrl"] == JStr("")
  {
    map["categoryId" := JStr(id), "name" := body["name"],
        "description" := Or(Get(body, "description"), JStr("")),
        "imageUrl" := Or(Get(body, "imageUrl"), JStr("")),
        "createdAt" := JStr(now), "updatedAt" := JStr(now)]
  }

  /** POST /categories: the name must be truthy. */
  method CreateCategory(db: Tables, body: Body, freshId: string, now: string) returns (r: Response)
    requires db.Valid() && freshId !in db.categories
    modifies db`categories
    ensures db.Valid()
    ensures
      if !Present(Get(body, "name")) then r == Bad("Missing required field: name") && unchanged(db)
      else
        && db.categories == old(db.categories)[freshId := NewCategory(freshId, body, now)]
        && r == Made(JObj(NewCategory(freshId, body, now)))
  {
    if !Present(Get(body, "name")) {
      return Bad("Missing required field: name");
    }
    var category := NewCategory(freshId, body, now);
    db.PutCategory(freshId, category);
    r := Made(JObj(category));
  }
}
