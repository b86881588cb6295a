/**
 * The Java product and category handlers: create with required fields and
 * defaults, and update by a null-skipping merge of the request into the
 * stored record.
 */
module CatalogHandlers {
  import opened Wrappers
  import opened Entities
  import opened Store

  /** The fields of a product request body; `None` is a field left out (JSON null). */
  datatype ProductBody = ProductBody(
    name: Option<string>, description: Option<string>,
    price: Option<int>, stock: Option<int>,
    imageUrl: Option<string>, categoryId: Option<string>)

  /** The fields of a category request body. */
  datatype CategoryBody = CategoryBody(
    name: Option<string>, description: Option<string>, imageUrl: Option<string>)

  // ---------------------------------------------------------------- products

  /** The product a create request stores: the supplied fields, defaults for the others. */
  function NewProduct(b: ProductBody, id: string, now: string): (p: Product)
    requires b.name.Some? && b.price.Some? && b.categoryId.Some?
    ensures p.productId == id && p.createdAt == now && p.updatedAt == now
    ensures p.name == b.name.value && p.price == b.price.value && p.categoryId == b.categoryId.value
    ensures b.stock.None? ==> p.stock == 0
    ensures b.stock.Some? ==> p.stock == b.stock.value
    ensures b.description.None? ==> p.description == ""
    ensures b.description.Some? ==> p.description == b.description.value
    ensures b.imageUrl.None? ==> p.imageUrl == ""
    ensures b.imageUrl.Some? ==> p.imageUrl == b.imageUrl.value
  {
    Product(id, b.name.value, b.description.GetOr(""), b.price.value, b.stock.GetOr(0),
            b.imageUrl.GetOr(""), b.categoryId.value, now, now)
  }

  /** The stored product after an update: each field the request supplies replaces the stored one. */
  function MergeProduct(p: Product, b: ProductBody, now: string): (q: Product)
    ensures q.productId == p.productId && q.createdAt == p.createdAt && q.updatedAt == now
    ensures b.name.Some? ==> q.name == b.name.value
    ensures b.name.None? ==> q.name == p.name
    ensures b.description.Some? ==> q.description == b.description.value
    ensures b.description.None? ==> q.description == p.description
    ensures b.price.Some? ==> q.price == b.price.value
    ensures b.price.None? ==> q.price == p.price
    ensures b.stock.Some? ==> q.stock == b.stock.value
    ensures b.stock.None? ==> q.stock == p.stock
    ensures b.imageUrl.Some? ==> q.imageUrl == b.imageUrl.value
    ensures b.imageUrl.None? ==> q.imageUrl == p.imageUrl
    ensures b.categoryId.Some? ==> q.categoryId == b.categoryId.value
    ensures b.categoryId.None? ==> q.categoryId == p.categoryId
  {
    p.(name := b.name.GetOr(p.name), description := b.description.GetOr(p.description),
       price := b.price.GetOr(p.price), stock := b.stock.GetOr(p.stock),
       imageUrl := b.imageUrl.GetOr(p.imageUrl), categoryId := b.categoryId.GetOr(p.categoryId),
       updatedAt := now)
  }

  /** Sending the same update twice leaves the product as sending it once, apart from updatedAt. */
  lemma MergeProductIdempotent(p: Product, b: ProductBody, t1: string, t2: string)
    ensures MergeProduct(MergeProduct(p, b, t1), b, t2) == MergeProduct(p, b, t2)
  {
  }

  /** An update that supplies no field changes only updatedAt. */
  lemma EmptyProductUpdate(p: Product, now: string)
    ensures MergeProduct(p, ProductBody(None, None, None, None, None, None), now) == p.(updatedAt := now)
  {
  }

  /** Updating a new product with the body it was created from changes nothing but updatedAt. */
  lemma RecreateIsUpdateNoop(b: ProductBody, id: string, t1: string, t2: string)
    requires b.name.Some? && b.price.Some? && b.categoryId.Some?
    ensures MergeProduct(NewProduct(b, id, t1), b, t2) == NewProduct(b, id, t1).(updatedAt := t2)
  {
  }

  /** POST /products: store a new product under `freshId`. */
  method CreateProduct(db: Tables, body: Option<ProductBody>, freshId: string, now: string) returns (r: Response)
    requires db.Valid() && freshId !in db.products
    modifies db`products
    ensures db.Valid()
    ensures
      if body.None? then r == Bad("Request body is required") && unchanged(db)
      else if Blank(body.value.name) then r == Bad("Product name is required") && unchanged(db)
      else if body.value.price.None? then r == Bad("Product price is required") && unchanged(db)
      else if Blank(body.value.categoryId) then r == Bad("Category ID is required") && unchanged(db)
      else
        && db.products == old(db.products)[freshId := NewProduct(body.value, freshId, now)]
        && r == Made(ProductRecord(db.products[freshId]))
  {
    if body.None? {
      return Bad("Request body is required");
    }
    var b := body.value;
    if Blank(b.name) {
      return Bad("Product name is required");
    }
    if b.price.None? {
      return Bad("Product price is required");
    }
    if Blank(b.categoryId) {
      return Bad("Category ID is required");
    }
    var product := Product(freshId, b.name.value, "", b.price.value, 0, "", b.categoryId.value, now, now);
    if b.stock.Some? {
      product := product.(stock := b.stock.value);
    }
    if b.description.Some? {
      product := product.(description := b.description.value);
    }
    if b.imageUrl.Some? {
      product := product.(imageUrl := b.imageUrl.value);
    }
    db.products := db.products[freshId := product];
    r := Made(ProductRecord(product));
  }

  /** The handler's chain of null-checked setters on the stored product. */
  method PatchProduct(p: Product, b: ProductBody, now: string) returns (q: Product)
    ensures q == MergeProduct(p, b, now)
  {
    q := p;
    if b.name.Some? {
      q := q.(name := b.name.value);
    }
    if b.description.Some? {
      q := q.(description := b.description.value);
    }
    if b.price.Some? {
      q := q.(price := b.price.value);
    }
    if b.stock.Some? {
      q := q.(stock := b.stock.value);
    }
    if b.imageUrl.Some? {
      q := q.(imageUrl := b.imageUrl.value);
    }
    if b.categoryId.Some? {
      q := q.(categoryId := b.categoryId.value);
    }
    q := q.(updatedAt := now);
  }

  /** PUT /products/{productId}: merge the request into the stored product. */
  method UpdateProduct(db: Tables, productId: Option<string>, body: Option<ProductBody>, now: string) returns (r: Response)
    requires db.Valid()
    modifies db`products
    ensures db.Valid()
    ensures
      if productId.None? then r == Bad("Product ID is required") && unchanged(db)
      else if body.None? then r == Bad("Request body is required") && unchanged(db)
      else if productId.value !in old(db.products) then r == NotFound("Product", productId.value) && unchanged(db)
      else
        var id := productId.value;
        && db.products == old(db.products)[id := MergeProduct(old(db.products)[id], body.value, now)]
        && r == Ok(ProductRecord(db.products[id]))
  {
    if productId.None? {
      return Bad("Product ID is required");
    }
    var id := productId.value;
    if body.None? {
      return Bad("Request body is required");
    }
    var b := body.value;
    if id !in db.products {
      return NotFound("Product", id);
    }
    var product := PatchProduct(db.products[id], b, now);
    db.products := db.products[id := product];
    r := Ok(ProductRecord(product));
  }

  // -------------------------------------------------------------- categories

  /** The category a create request stores: the supplied fields, "" for the others. */
  function NewCategory(b: CategoryBody, id: string, now: string): (c: Category)
    requires b.name.Some?
    ensures c.categoryId == id && c.createdAt == now && c.updatedAt == now && c.name == b.name.value
    ensures b.description.None? ==> c.description == ""
    ensures b.description.Some? ==> c.description == b.description.value
    ensures b.imageUrl.None? ==> c.imageUrl == ""
    ensures b.imageUrl.Some? ==> c.imageUrl == b.imageUrl.value
  {
    Category(id, b.name.value, b.description.GetOr(""), b.imageUrl.GetOr(""), now, now)
  }

  /** The stored category after an update: each supplied field replaces the stored one. */
  function MergeCategory(c: Category, b: CategoryBody, now: string): (d: Category)
    ensures d.categoryId == c.categoryId && d.createdAt == c.createdAt && d.updatedAt == now
    ensures b.name.Some? ==> d.name == b.name.value
    ensures b.name.None? ==> d.name == c.name
    ensures b.description.Some? ==> d.description == b.description.value
    ensures b.description.None? ==> d.description == c.description
    ensures b.imageUrl.Some? ==> d.imageUrl == b.imageUrl.value
    ensures b.imageUrl.None? ==> d.imageUrl == c.imageUrl
  {
    c.(name := b.name.GetOr(c.name), description := b.description.GetOr(c.description),
       imageUrl := b.imageUrl.GetOr(c.imageUrl), updatedAt := now)
  }

  /** Sending the same category update twice is sending it once, apart from updatedAt. */
  lemma MergeCategoryIdempotent(c: Category, b: CategoryBody, t1: string, t2: string)
    ensures MergeCategory(MergeCategory(c, b, t1), b, t2) == MergeCategory(c, b, t2)
  {
  }

  /** An all-null category update changes only updatedAt. */
  lemma EmptyCategoryUpdate(c: Category, now: string)
    ensures MergeCategory(c, CategoryBody(None, None, None), now) == c.(updatedAt := now)
  {
  }

  /** POST /categories: store a new category under `freshId`. */
  method CreateCategory(db: Tables, body: Option<CategoryBody>, freshId: string, now: string) returns (r: Response)
    requires db.Valid() && freshId !in db.categories
    modifies db`categories
    ensures db.Valid()
    ensures
      if body.None? then r == Bad("Request body is required") && unchanged(db)
      else if Blank(body.value.name) then r == Bad("Category name is required") && unchanged(db)
      else
        && db.categories == old(db.categories)[freshId := NewCategory(body.value, freshId, now)]
        && r == Made(CategoryRecord(db.categories[freshId]))
  {
    if body.None? {
      return Bad("Request body is required");
    }
    var b := body.value;
    if Blank(b.name) {
      return Bad("Category name is required");
    }
    var category := Category(freshId, b.name.value, "", "", now, now);
    if b.description.Some? {
      category := category.(description := b.description.value);
    }
    if b.imageUrl.Some? {
      category := category.(imageUrl := b.imageUrl.value);
    }
    db.categories := db.categories[freshId := category];
    r := Made(CategoryRecord(category));
  }

  /** The handler's chain of null-checked setters on the stored category. */
  method PatchCategory(c: Category, b: CategoryBody, now: string) returns (d: Category)
    ensures d == MergeCategory(c, b, now)
  {
    d := c;
    if b.name.Some? {
      d := d.(name := b.name.value);
    }
    if b.description.Some? {
      d := d.(description := b.description.value);
    }
    if b.imageUrl.Some? {
      d := d.(imageUrl := b.imageUrl.value);
    }
    d := d.(updatedAt := now);
  }

  /** PUT /categories/{categoryId}: merge the request into the stored category. */
  method UpdateCategory(db: Tables, categoryId: Option<string>, body: Option<CategoryBody>, now: string) returns (r: Response)
    requires db.Valid()
    modifies db`categories
    ensures db.Valid()
    ensures
      if categoryId.None? then r == Bad("Category ID is required") && unchanged(db)
      else if body.None? then r == Bad("Request body is required") && unchanged(db)
      else if categoryId.value !in old(db.categories) then r == NotFound("Category", categoryId.value) && unchanged(db)
      else
        var id := categoryId.value;
        && db.categories == old(db.categories)[id := MergeCategory(old(db.categories)[id], body.value, now)]
        && r == Ok(CategoryRecord(db.categories[id]))
  {
    if categoryId.None? {
      return Bad("Category ID is required");
    }
    var id := categoryId.value;
    if body.None? {
      return Bad("Request body is required");
    }
    var b := body.value;
    if id !in db.categories {
      return NotFound("Category", id);
    }
    var category := PatchCategory(db.categories[id], b, now);
    db.categories := db.categories[id := category];
    r := Ok(CategoryRecord(category));
  }
}
