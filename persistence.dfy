/** The bridge between the application state and the browser's key-value
    storage: `saveState` writes six entries, `loadState` reads them back with
    the demo data as fallback, and `resetToDemo` builds the factory state.
    The storage holds each entry as the JSON value it parses to. */
module Persistence {
  import opened Wrappers
  import opened Domain
  import opened JsonCodec
  import opened DemoData

  const PRODUCTS_KEY := "grillmaster_products"
  const ORDERS_KEY := "grillmaster_orders"
  const CUSTOMERS_KEY := "grillmaster_customers"
  const CART_KEY := "grillmaster_cart"
  const CURRENT_CUSTOMER_KEY := "grillmaster_current_customer"
  const ORDER_TYPE_KEY := "grillmaster_order_type"

  const DINE_IN := "dine-in"

  /** The six storage keys the application uses. */
  function StorageKeys(): set<string> {
    {PRODUCTS_KEY, ORDERS_KEY, CUSTOMERS_KEY, CART_KEY, CURRENT_CUSTOMER_KEY, ORDER_TYPE_KEY}
  }

  /** The browser's `localStorage`, holding parsed JSON values. */
  class LocalStorage {
    var items: map<string, Json>

    constructor(initial: map<string, Json>)
      ensures items == initial
    {
      items := initial;
    }

    /** `saveToStorage(key, data)`: the entry under `key` becomes `data`. */
    method SaveToStorage(key: string, data: Json) returns (saved: bool)
      modifies this
      ensures items == old(items)[key := data]
      ensures saved
    {
      items := items[key := data];
      saved := true;
    }
  }

  /** `loadFromStorage(key, defaultValue)` over the storage contents. */
  function LoadFromStorage(items: map<string, Json>, key: string, defaultValue: Json): (r: Json)
    ensures key !in items ==> r == defaultValue
    ensures key in items ==> r == items[key]
  {
    if key in items then items[key] else defaultValue
  }

  // ---------------------------------------------------------------------------
  // saveState
  // ---------------------------------------------------------------------------

  /** The entries `saveState(state)` writes. */
  function Persisted(s: AppState): (m: map<string, Json>)
    requires HasCore(s)
    ensures m.Keys == StorageKeys()
  {
    map[PRODUCTS_KEY := JArray(EncodeAll(ProductsOf(s), EncodeProduct)),
        ORDERS_KEY := JArray(EncodeAll(OrdersOf(s), EncodeOrder)),
        CUSTOMERS_KEY := JArray(EncodeAll(CustomersOf(s), EncodeCustomer)),
        CART_KEY := JArray(EncodeAll(CartOf(s), EncodeLine)),
        CURRENT_CUSTOMER_KEY := EncodeSelected(CurrentOf(s)),
        ORDER_TYPE_KEY := JString(OrderTypeOf(s))]
  }

  /** What each of the six keys holds after a save. */
  lemma PersistedEntries(s: AppState)
    requires HasCore(s)
    ensures Persisted(s)[PRODUCTS_KEY] == JArray(EncodeAll(ProductsOf(s), EncodeProduct))
    ensures Persisted(s)[ORDERS_KEY] == JArray(EncodeAll(OrdersOf(s), EncodeOrder))
    ensures Persisted(s)[CUSTOMERS_KEY] == JArray(EncodeAll(CustomersOf(s), EncodeCustomer))
    ensures Persisted(s)[CART_KEY] == JArray(EncodeAll(CartOf(s), EncodeLine))
    ensures Persisted(s)[CURRENT_CUSTOMER_KEY] == EncodeSelected(CurrentOf(s))
    ensures Persisted(s)[ORDER_TYPE_KEY] == JString(OrderTypeOf(s))
  {
  }

  /** `saveState(state)`: six writes, one per persisted field. */
  method SaveState(storage: LocalStorage, s: AppState)
    requires HasCore(s)
    modifies storage
    ensures storage.items == old(storage.items) + Persisted(s)
  {
    ghost var before := storage.items;
    var products := JArray(EncodeAll(ProductsOf(s), EncodeProduct));
    var orders := JArray(EncodeAll(OrdersOf(s), EncodeOrder));
    var customers := JArray(EncodeAll(CustomersOf(s), EncodeCustomer));
    var cart := JArray(EncodeAll(CartOf(s), EncodeLine));
    var current := EncodeSelected(CurrentOf(s));
    var kind := JString(OrderTypeOf(s));
    var _ := storage.SaveToStorage(PRODUCTS_KEY, products);
    var _ := storage.SaveToStorage(ORDERS_KEY, orders);
    var _ := storage.SaveToStorage(CUSTOMERS_KEY, customers);
    var _ := storage.SaveToStorage(CART_KEY, cart);
    var _ := storage.SaveToStorage(CURRENT_CUSTOMER_KEY, current);
    var _ := storage.SaveToStorage(ORDER_TYPE_KEY, kind);
    WritesAreUnion(before, products, orders, customers, cart, current, kind);
  }

  /** Six writes to the six keys, one after the other, are one union. */
  lemma WritesAreUnion(m: map<string, Json>, v1: Json, v2: Json, v3: Json, v4: Json, v5: Json, v6: Json)
    ensures m[PRODUCTS_KEY := v1][ORDERS_KEY := v2][CUSTOMERS_KEY := v3][CART_KEY := v4]
             [CURRENT_CUSTOMER_KEY := v5][ORDER_TYPE_KEY := v6]
         == m + map[PRODUCTS_KEY := v1, ORDERS_KEY := v2, CUSTOMERS_KEY := v3, CART_KEY := v4,
                    CURRENT_CUSTOMER_KEY := v5, ORDER_TYPE_KEY := v6]
  {
    var d1 := map[PRODUCTS_KEY := v1];
    var d2 := d1[ORDERS_KEY := v2];
    var d3 := d2[CUSTOMERS_KEY := v3];
    var d4 := d3[CART_KEY := v4];
    var d5 := d4[CURRENT_CUSTOMER_KEY := v5];
    assert m + d1 == m[PRODUCTS_KEY := v1];
    UnionUpdate(m, d1, ORDERS_KEY, v2);
    UnionUpdate(m, d2, CUSTOMERS_KEY, v3);
    UnionUpdate(m, d3, CART_KEY, v4);
    UnionUpdate(m, d4, CURRENT_CUSTOMER_KEY, v5);
    UnionUpdate(m, d5, ORDER_TYPE_KEY, v6);
  }

  /** Writing a key after a union is the union with the key written. */
  lemma UnionUpdate(m: map<string, Json>, d: map<string, Json>, k: string, v: Json)
    ensures m + d[k := v] == (m + d)[k := v]
  {
  }

  /** The undo history is never written: two states that differ only outside
      the six persisted fields save the same entries. */
  lemma SaveIgnoresHistory(s: AppState, t: AppState)
    requires HasCore(s) && HasCore(t)
    requires forall f :: f in {Products, Orders, Customers, Cart, CurrentCustomer, CurrentOrderType} ==> s[f] == t[f]
    ensures Persisted(s) == Persisted(t)
  {
    assert s[Products] == t[Products] && s[Orders] == t[Orders] && s[Customers] == t[Customers];
    assert s[Cart] == t[Cart] && s[CurrentCustomer] == t[CurrentCustomer];
    assert s[CurrentOrderType] == t[CurrentOrderType];
  }

  // ---------------------------------------------------------------------------
  // loadState and resetToDemo
  // ---------------------------------------------------------------------------

  /** The clock reading the demo orders were built with when the module loaded. */
  datatype DemoClock = DemoClock(now: int, firstStamp: string, secondStamp: string)

  function Demo(clock: DemoClock): seq<Order> {
    DemoOrders(clock.now, clock.firstStamp, clock.secondStamp)
  }

  /** A stored array decoded element by element; anything else reads as `[]`. */
  function ListOf<T>(j: Json, dec: Json -> Option<T>): seq<T> {
    if j.JArray? && DecodeAll(j.items, dec).Some? then DecodeAll(j.items, dec).value else []
  }

  /** `xs.length ? xs : fallback`. */
  function OrDemo<T>(xs: seq<T>, fallback: seq<T>): (r: seq<T>)
    ensures |xs| > 0 ==> r == xs
    ensures xs == [] ==> r == fallback
  {
    if |xs| > 0 then xs else fallback
  }

  /** `loadState()` over the storage contents. */
  function LoadState(items: map<string, Json>, clock: DemoClock): (s: AppState)
    ensures Shaped(s)
    ensures HistoryOf(s) == [] && LastOf(s) == None
    ensures ProductsOf(s) == OrDemo(ListOf(LoadFromStorage(items, PRODUCTS_KEY, JArray([])), DecodeProduct), DemoProducts)
    ensures OrdersOf(s) == OrDemo(ListOf(LoadFromStorage(items, ORDERS_KEY, JArray([])), DecodeOrder), Demo(clock))
    ensures CustomersOf(s) == OrDemo(ListOf(LoadFromStorage(items, CUSTOMERS_KEY, JArray([])), DecodeCustomer), DemoCustomers)
    ensures CartOf(s) == ListOf(LoadFromStorage(items, CART_KEY, JArray([])), DecodeLine)
    ensures CURRENT_CUSTOMER_KEY !in items ==> CurrentOf(s) == None
    ensures ORDER_TYPE_KEY !in items ==> OrderTypeOf(s) == DINE_IN
  {
    var products := ListOf(LoadFromStorage(items, PRODUCTS_KEY, JArray([])), DecodeProduct);
    var orders := ListOf(LoadFromStorage(items, ORDERS_KEY, JArray([])), DecodeOrder);
    var customers := ListOf(LoadFromStorage(items, CUSTOMERS_KEY, JArray([])), DecodeCustomer);
    var cart := ListOf(LoadFromStorage(items, CART_KEY, JArray([])), DecodeLine);
    var selected := DecodeSelected(LoadFromStorage(items, CURRENT_CUSTOMER_KEY, JNull));
    var kind := LoadFromStorage(items, ORDER_TYPE_KEY, JString(DINE_IN));
    StateOf(OrDemo(products, DemoProducts), OrDemo(orders, Demo(clock)), OrDemo(customers, DemoCustomers), cart,
            selected.GetOr(None), if kind.JString? then kind.s else DINE_IN, [], None)
  }

  /** `resetToDemo()`: the demo collections, an empty cart, no customer,
      dine-in, and an empty history. */
  function ResetToDemo(clock: DemoClock): (s: AppState)
    ensures Shaped(s)
    ensures ProductsOf(s) == DemoProducts && OrdersOf(s) == Demo(clock) && CustomersOf(s) == DemoCustomers
    ensures CartOf(s) == [] && CurrentOf(s) == None && OrderTypeOf(s) == DINE_IN
    ensures HistoryOf(s) == [] && LastOf(s) == None
  {
    StateOf(DemoProducts, Demo(clock), DemoCustomers, [], None, DINE_IN, [], None)
  }

  /** With nothing stored, loading gives the factory state. */
  lemma EmptyStorageLoadsDemo(clock: DemoClock)
    ensures LoadState(map[], clock) == ResetToDemo(clock)
  {
  }

  /** A stored empty array is not kept: the demo list replaces it. */
  lemma EmptyListLoadsDemo(items: map<string, Json>, clock: DemoClock)
    requires PRODUCTS_KEY in items && items[PRODUCTS_KEY] == JArray([])
    ensures ProductsOf(LoadState(items, clock)) == DemoProducts
  {
  }

  /** The fresh state made of `s`'s six persisted fields. */
  function Restored(s: AppState): (r: AppState)
    requires HasCore(s)
    ensures Shaped(r)
  {
    map[Products := s[Products], Orders := s[Orders], Customers := s[Customers], Cart := s[Cart],
        CurrentCustomer := s[CurrentCustomer], CurrentOrderType := s[CurrentOrderType],
        ActionHistory := History([]), LastAction := LastType(None)]
  }

  /** Each stored list decodes to the list it was encoded from. */
  lemma ProductsRoundTrip(xs: seq<Product>)
    ensures ListOf(JArray(EncodeAll(xs, EncodeProduct)), DecodeProduct) == xs
  {
    forall p | p in xs ensures DecodeProduct(EncodeProduct(p)) == Some(p) { ProductRoundTrip(p); }
    AllRoundTrip(xs, EncodeProduct, DecodeProduct);
  }

  lemma OrdersRoundTrip(xs: seq<Order>)
    ensures ListOf(JArray(EncodeAll(xs, EncodeOrder)), DecodeOrder) == xs
  {
    forall o | o in xs ensures DecodeOrder(EncodeOrder(o)) == Some(o) { OrderRoundTrip(o); }
    AllRoundTrip(xs, EncodeOrder, DecodeOrder);
  }

  lemma CustomersRoundTrip(xs: seq<Customer>)
    ensures ListOf(JArray(EncodeAll(xs, EncodeCustomer)), DecodeCustomer) == xs
  {
    forall c | c in xs ensures DecodeCustomer(EncodeCustomer(c)) == Some(c) { CustomerRoundTrip(c); }
    AllRoundTrip(xs, EncodeCustomer, DecodeCustomer);
  }

  lemma LinesRoundTrip(xs: seq<CartItem>)
    ensures ListOf(JArray(EncodeAll(xs, EncodeLine)), DecodeLine) == xs
  {
    forall c | c in xs ensures DecodeLine(EncodeLine(c)) == Some(c) { LineRoundTrip(c); }
    AllRoundTrip(xs, EncodeLine, DecodeLine);
  }

  /** Two states of the newer store with equal fields are equal. */
  lemma ShapedEqual(a: AppState, b: AppState)
    requires Shaped(a) && Shaped(b)
    requires ProductsOf(a) == ProductsOf(b) && OrdersOf(a) == OrdersOf(b) && CustomersOf(a) == CustomersOf(b)
    requires CartOf(a) == CartOf(b) && CurrentOf(a) == CurrentOf(b) && OrderTypeOf(a) == OrderTypeOf(b)
    requires HistoryOf(a) == HistoryOf(b) && LastOf(a) == LastOf(b)
    ensures a == b
  {
    forall f | true ensures f in a && f in b && a[f] == b[f] {
      match f
      case Products =>
      case Orders =>
      case Customers =>
      case Cart =>
      case CurrentCustomer =>
      case CurrentOrderType =>
      case ActionHistory =>
      case LastAction =>
    }
  }

  /** The collections come back as saved unless they were empty. */
  lemma LoadedCollections(items: map<string, Json>, s: AppState, clock: DemoClock)
    requires HasCore(s)
    ensures var r := LoadState(items + Persisted(s), clock);
            && (|ProductsOf(s)| > 0 ==> ProductsOf(r) == ProductsOf(s))
            && (|OrdersOf(s)| > 0 ==> OrdersOf(r) == OrdersOf(s))
            && (|CustomersOf(s)| > 0 ==> CustomersOf(r) == CustomersOf(s))
  {
    LoadedProducts(items, s, clock);
    LoadedOrders(items, s, clock);
    LoadedCustomers(items, s, clock);
  }

  lemma LoadedProducts(items: map<string, Json>, s: AppState, clock: DemoClock)
    requires HasCore(s)
    ensures |ProductsOf(s)| > 0 ==> ProductsOf(LoadState(items + Persisted(s), clock)) == ProductsOf(s)
  {
    PersistedEntries(s);
    ProductsRoundTrip(ProductsOf(s));
    assert LoadFromStorage(items + Persisted(s), PRODUCTS_KEY, JArray([]))
           == JArray(EncodeAll(ProductsOf(s), EncodeProduct));
  }

  lemma LoadedOrders(items: map<string, Json>, s: AppState, clock: DemoClock)
    requires HasCore(s)
    ensures |OrdersOf(s)| > 0 ==> OrdersOf(LoadState(items + Persisted(s), clock)) == OrdersOf(s)
  {
    PersistedEntries(s);
    OrdersRoundTrip(OrdersOf(s));
    assert LoadFromStorage(items + Persisted(s), ORDERS_KEY, JArray([]))
           == JArray(EncodeAll(OrdersOf(s), EncodeOrder));
  }

  lemma LoadedCustomers(items: map<string, Json>, s: AppState, clock: DemoClock)
    requires HasCore(s)
    ensures |CustomersOf(s)| > 0 ==> CustomersOf(LoadState(items + Persisted(s), clock)) == CustomersOf(s)
  {
    PersistedEntries(s);
    CustomersRoundTrip(CustomersOf(s));
    assert LoadFromStorage(items + Persisted(s), CUSTOMERS_KEY, JArray([]))
           == JArray(EncodeAll(CustomersOf(s), EncodeCustomer));
  }

  /** The cart, the selected customer and the order type always come back. */
  lemma LoadedSelection(items: map<string, Json>, s: AppState, clock: DemoClock)
    requires HasCore(s)
    ensures var r := LoadState(items + Persisted(s), clock);
            CartOf(r) == CartOf(s) && CurrentOf(r) == CurrentOf(s) && OrderTypeOf(r) == OrderTypeOf(s)
  {
    var stored := items + Persisted(s);
    PersistedEntries(s);
    LinesRoundTrip(CartOf(s));
    assert LoadFromStorage(stored, CART_KEY, JArray([])) == JArray(EncodeAll(CartOf(s), EncodeLine));
    SelectedRoundTrip(CurrentOf(s));
    assert LoadFromStorage(stored, CURRENT_CUSTOMER_KEY, JNull) == EncodeSelected(CurrentOf(s));
    assert LoadFromStorage(stored, ORDER_TYPE_KEY, JString(DINE_IN)) == JString(OrderTypeOf(s));
  }

  lemma RestoredFields(s: AppState)
    requires HasCore(s)
    ensures var t := Restored(s);
            && ProductsOf(t) == ProductsOf(s) && OrdersOf(t) == OrdersOf(s) && CustomersOf(t) == CustomersOf(s)
            && CartOf(t) == CartOf(s) && CurrentOf(t) == CurrentOf(s) && OrderTypeOf(t) == OrderTypeOf(s)
            && HistoryOf(t) == [] && LastOf(t) == None
  {
  }

  /** Saving and then loading gives back the six persisted fields, with a fresh
      history, provided no collection was empty (an empty one comes back as the
      demo list). */
  lemma SaveThenLoad(items: map<string, Json>, s: AppState, clock: DemoClock)
    requires HasCore(s)
    requires |ProductsOf(s)| > 0 && |OrdersOf(s)| > 0 && |CustomersOf(s)| > 0
    ensures LoadState(items + Persisted(s), clock) == Restored(s)
  {
    var r, t := LoadState(items + Persisted(s), clock), Restored(s);
    LoadedCollections(items, s, clock);
    LoadedSelection(items, s, clock);
    RestoredFields(s);
    ShapedEqual(r, t);
  }
}
