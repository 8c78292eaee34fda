/** The product actions of the newer action layer: adding a validated product,
    merging an update into one product, and deleting by id (strict `===`).
    `parseFloat` is abstracted: a price argument arrives as the finite number it
    parses to, or `None` when it parses to NaN or an infinity. */
module ProductActions {
  import opened Wrappers
  import opened Text
  import opened Domain
  import opened ReactiveStore
  import opened Validators

  // ---------------------------------------------------------------------------
  // addProduct
  // ---------------------------------------------------------------------------

  /** The up-front check of `addProduct`: trimmed name and category present, and a
      finite, non-negative price. */
  predicate Acceptable(name: string, price: Option<real>, category: string) {
    Trim(name) != "" && Trim(category) != "" && price.Some? && price.value >= 0.0
  }

  /** `image || DEFAULT_PRODUCT_IMAGE` (an absent image is the empty string here). */
  function ImageOrDefault(image: string): (r: string)
    ensures r != ""
    ensures image != "" ==> r == image
  {
    if image == "" then DEFAULT_PRODUCT_IMAGE else image
  }

  /** The result of `addProduct(store, name, price, category, image)`. */
  function NewProduct(name: string, price: Option<real>, category: string, image: string,
                      freshId: string): (r: Result<Product>)
    ensures !Acceptable(name, price, category) ==> r == Err("Invalid product data")
    ensures r.Ok? <==> Acceptable(name, price, category) && |Trim(name)| >= PRODUCT_NAME_MIN_LENGTH
    ensures r.Err? && Acceptable(name, price, category) ==> r.error == "Name must be at least 3 characters"
    ensures r.Ok? ==>
              && r.value.id == Str(freshId) && r.value.name == Trim(name)
              && r.value.category == Trim(category) && r.value.price == price.value
              && r.value.image == ImageOrDefault(image)
              && r.value.price >= PRICE_MIN && r.value.image != ""
  {
    if !Acceptable(name, price, category) then Err("Invalid product data")
    else
      var product := Product(Str(freshId), Trim(name), price.value, Trim(category), ImageOrDefault(image));
      TrimIdempotent(name);
      TrimIdempotent(category);
      var v := ValidateProduct(product.name, Some(product.price), product.category);
      if !v.isValid then Err(FirstMessage(v, "Invalid product data")) else Ok(product)
  }

  /** `addProduct(...)`: on success the product is appended (one `setState`). */
  method AddProduct(store: Store<Field, Slot>, name: string, price: Option<real>, category: string,
                    image: string, freshId: string) returns (result: Result<Product>)
    requires Shaped(store.state)
    modifies store`state, store`trace
    ensures result == NewProduct(name, price, category, image, freshId)
    ensures result.Err? ==> store.state == old(store.state) && store.trace == old(store.trace)
    ensures result.Ok? ==>
              && store.state == old(store.state)[Products := ProductList(ProductsOf(old(store.state)) + [result.value])]
              && store.trace == old(store.trace) + store.Notifications(store.state)
  {
    var trimmedName := Trim(name);
    var trimmedCategory := Trim(category);
    if trimmedName == "" || trimmedCategory == "" || price.None? || price.value < 0.0 {
      return Err("Invalid product data");
    }
    var product := Product(Str(freshId), trimmedName, price.value, trimmedCategory, ImageOrDefault(image));
    var validation := ValidateProduct(product.name, Some(product.price), product.category);
    if !validation.isValid {
      return Err(FirstMessage(validation, "Invalid product data"));
    }
    var state := store.GetState();
    store.SetState(Patch(Some(map[Products := ProductList(ProductsOf(state) + [product])])));
    MergeOne(state, Products, ProductList(ProductsOf(state) + [product]));
    result := Ok(product);
  }

  // ---------------------------------------------------------------------------
  // updateProduct
  // ---------------------------------------------------------------------------

  /** An `updates` object: `None` is an absent (or null) key; `price` is the
      finite number `parseFloat(updates.price)` gives, if any. */
  datatype ProductUpdate = ProductUpdate(name: Option<string>, price: Option<real>,
                                         category: Option<string>, image: Option<string>)

  /** `...(updates.x?.trim() && { x: updates.x.trim() })`. */
  function NonBlank(given: Option<string>, current: string): string {
    if given.Some? && Trim(given.value) != "" then Trim(given.value) else current
  }

  /** The product once an update is spread over it. */
  function Revised(p: Product, u: ProductUpdate): (r: Product)
    ensures r.id == p.id
    ensures p.price >= 0.0 ==> r.price >= 0.0
    ensures r.price == p.price || (u.price.Some? && u.price.value >= 0.0 && r.price == u.price.value)
    ensures Trim(p.name) != "" ==> Trim(r.name) != ""
    ensures Trim(p.category) != "" ==> Trim(r.category) != ""
    ensures u == ProductUpdate(None, None, None, None) ==> r == p
    // field by field: a non-blank string replaces the field, trimmed; an
    // absent or blank one leaves it; a price is taken only when non-negative
    ensures u.name.Some? && Trim(u.name.value) != "" ==> r.name == Trim(u.name.value)
    ensures !(u.name.Some? && Trim(u.name.value) != "") ==> r.name == p.name
    ensures u.category.Some? && Trim(u.category.value) != "" ==> r.category == Trim(u.category.value)
    ensures !(u.category.Some? && Trim(u.category.value) != "") ==> r.category == p.category
    ensures u.image.Some? && Trim(u.image.value) != "" ==> r.image == Trim(u.image.value)
    ensures !(u.image.Some? && Trim(u.image.value) != "") ==> r.image == p.image
    ensures u.price.Some? && u.price.value >= 0.0 ==> r.price == u.price.value
    ensures !(u.price.Some? && u.price.value >= 0.0) ==> r.price == p.price
  {
    TrimIdempotent(if u.name.Some? then u.name.value else "");
    TrimIdempotent(if u.category.Some? then u.category.value else "");
    Product(p.id, NonBlank(u.name, p.name),
            if u.price.Some? && u.price.value >= 0.0 then u.price.value else p.price,
            NonBlank(u.category, p.category), NonBlank(u.image, p.image))
  }

  /** Applying the same update twice is applying it once. */
  lemma RevisedIdempotent(p: Product, u: ProductUpdate)
    ensures Revised(Revised(p, u), u) == Revised(p, u)
  {
    NonBlankIdempotent(u.name, p.name);
    NonBlankIdempotent(u.category, p.category);
    NonBlankIdempotent(u.image, p.image);
  }

  lemma NonBlankIdempotent(given: Option<string>, current: string)
    ensures NonBlank(given, NonBlank(given, current)) == NonBlank(given, current)
  {
    if given.Some? {
      TrimIdempotent(given.value);
    }
  }

  /** The state with the product at index `i` replaced. */
  function ProductReplaced(s: AppState, i: nat, p: Product): (r: AppState)
    requires Shaped(s) && i < |ProductsOf(s)|
    ensures Shaped(r)
    ensures |ProductsOf(r)| == |ProductsOf(s)| && ProductsOf(r)[i] == p
    ensures forall j :: 0 <= j < |ProductsOf(s)| && j != i ==> ProductsOf(r)[j] == ProductsOf(s)[j]
    ensures forall f :: f in s && f != Products ==> f in r && r[f] == s[f]
  {
    s[Products := ProductList(ProductsOf(s)[i := p])]
  }

  /** `updateProduct(store, id, updates)`. */
  method UpdateProduct(store: Store<Field, Slot>, id: Id, updates: ProductUpdate)
    returns (result: Result<Product>)
    requires Shaped(store.state)
    modifies store`state, store`trace
    ensures var i := IndexOf(ProductsOf(old(store.state)), ProductId, id, Strict);
            && (i.None? ==> result == Err("Product not found") && store.state == old(store.state)
                            && store.trace == old(store.trace))
            && (i.Some? ==>
                  && result == Ok(Revised(ProductsOf(old(store.state))[i.value], updates))
                  && store.state == ProductReplaced(old(store.state), i.value, result.value)
                  && store.trace == old(store.trace) + store.Notifications(store.state))
  {
    var state := store.GetState();
    var productIndex := IndexOf(ProductsOf(state), ProductId, id, Strict);
    if productIndex.None? {
      return Err("Product not found");
    }
    var i := productIndex.value;
    var product := Revised(ProductsOf(state)[i], updates);
    var products := ProductsOf(state);
    products := products[i := product];
    store.SetState(Patch(Some(map[Products := ProductList(products)])));
    MergeOne(state, Products, ProductList(products));
    result := Ok(product);
  }

  /** Prices stay non-negative under every update: a catalogue whose prices are
      all at least 0 keeps that property. */
  lemma UpdateKeepsPricesNonNegative(s: AppState, i: nat, u: ProductUpdate)
    requires Shaped(s) && i < |ProductsOf(s)|
    requires forall p :: p in ProductsOf(s) ==> p.price >= 0.0
    ensures forall p :: p in ProductsOf(ProductReplaced(s, i, Revised(ProductsOf(s)[i], u))) ==> p.price >= 0.0
  {
    var r := ProductReplaced(s, i, Revised(ProductsOf(s)[i], u));
    forall p | p in ProductsOf(r) ensures p.price >= 0.0 {
      var j :| 0 <= j < |ProductsOf(r)| && ProductsOf(r)[j] == p;
      if j != i {
        assert ProductsOf(s)[j] in ProductsOf(s);
      }
    }
  }

  // ---------------------------------------------------------------------------
  // deleteProduct
  // ---------------------------------------------------------------------------

  /** `deleteProduct(store, productId)`: always succeeds; every product with the
      id goes, and an unknown id leaves the list as it was. */
  method DeleteProduct(store: Store<Field, Slot>, productId: Id) returns (result: Result<()>)
    requires Shaped(store.state)
    modifies store`state, store`trace
    ensures result == Ok(())
    ensures store.state == old(store.state)[Products := ProductList(Without(ProductsOf(old(store.state)), ProductId, productId, Strict))]
    ensures forall p :: p in ProductsOf(store.state) ==> p.id != productId
    ensures (forall p :: p in ProductsOf(old(store.state)) ==> p.id != productId) ==>
              ProductsOf(store.state) == ProductsOf(old(store.state))
    ensures store.trace == old(store.trace) + store.Notifications(store.state)
  {
    var state := store.GetState();
    var remaining := Without(ProductsOf(state), ProductId, productId, Strict);
    store.SetState(Patch(Some(map[Products := ProductList(remaining)])));
    MergeOne(state, Products, ProductList(remaining));
    result := Ok(());
  }
}
