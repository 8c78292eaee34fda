/** The entities of the point-of-sale state and the list operations both action
    layers share: identifiers with JavaScript's strict (`===`) and loose (`==`)
    equality, products, cart lines, customers, orders, the undo history, the
    layout of the application state, and the cart arithmetic. */
module Domain {
  import opened Wrappers
  import opened Text

  // ---------------------------------------------------------------------------
  // Identifiers
  // ---------------------------------------------------------------------------

  /** An `id` value: a number (demo data), a string (`generateId`), or absent. */
  datatype Id = Num(n: int) | Str(s: string) | Undefined

  /** `!id`: 0, '' and undefined are falsy. */
  predicate Falsy(id: Id) {
    id == Num(0) || id == Str("") || id == Undefined
  }

  /** Loose equality `a == b` between two ids: numbers and strings compare by
      value, a number and a string compare after converting the string to a
      number, and `undefined` equals only `undefined`. */
  predicate LooseEq(a: Id, b: Id)
    // two values of one type, or `undefined` on either side, compare strictly
    ensures (a.Num? && b.Num?) || (a.Str? && b.Str?) || a.Undefined? || b.Undefined? ==>
              (LooseEq(a, b) <==> a == b)
    // a number and a string compare through the string's numeric value
    ensures a.Num? && b.Str? ==> (LooseEq(a, b) <==> StringToInteger(b.s) == Some(a.n))
  {
    match (a, b)
    case (Num(x), Num(y)) => x == y
    case (Str(x), Str(y)) => x == y
    case (Num(x), Str(y)) => StringToInteger(y) == Some(x)
    case (Str(x), Num(y)) => StringToInteger(x) == Some(y)
    case (Undefined, Undefined) => true
    case _ => false
  }

  /** Which equality an operation uses to match ids. */
  datatype Match = Strict | Loose

  predicate Same(m: Match, a: Id, b: Id) {
    if m == Strict then a == b else LooseEq(a, b)
  }

  /** Loose equality is symmetric and weaker than strict equality. */
  lemma LooseEqProperties(a: Id, b: Id)
    ensures LooseEq(a, b) <==> LooseEq(b, a)
    ensures a == b ==> LooseEq(a, b)
    ensures Same(Strict, a, b) ==> Same(Loose, a, b)
  {
  }

  /** A number and its decimal spelling are loosely equal (so `1 == '1'`), and
      strictly different. */
  lemma LooseEqNumberAndString(n: int)
    ensures LooseEq(Num(n), Str(IntToString(n)))
    ensures !Same(Strict, Num(n), Str(IntToString(n)))
  {
    IntToStringRoundTrip(n);
  }

  /** The property key an id becomes when it indexes a plain object: `String(id)`. */
  function PropertyKey(id: Id): string {
    match id
    case Num(n) => IntToString(n)
    case Str(s) => s
    case Undefined => "undefined"
  }

  // ---------------------------------------------------------------------------
  // Entities
  // ---------------------------------------------------------------------------

  /** The image a product gets when none is given: the plate emoji. */
  const DEFAULT_PRODUCT_IMAGE: string := "\U{1F37D}\U{FE0F}"

  datatype Product = Product(id: Id, name: string, price: real, category: string, image: string)

  /** A cart line: the product's fields spread into the line, plus a quantity. */
  datatype CartItem = CartItem(id: Id, name: string, price: real, category: string, image: string,
                               quantity: int)

  datatype Customer = Customer(id: Id, name: string, phone: string, email: string)

  /** An order record.  `subtotal` may be absent when the newer action layer is
      given no subtotal. */
  datatype Order = Order(
    id: Id,
    items: seq<CartItem>,
    customer: Option<Customer>,
    orderType: string,
    subtotal: Option<real>,
    discountValue: real,
    discountType: string,
    taxRate: real,
    taxAmount: real,
    total: real,
    amountReceived: real,
    changeDue: real,
    paymentMethod: string,
    paymentStatus: string,
    status: string,
    timestamp: string)

  /** `{ ...product, quantity }`. */
  function LineOf(p: Product, quantity: int): CartItem {
    CartItem(p.id, p.name, p.price, p.category, p.image, quantity)
  }

  /** The kinds of recorded cart action: 'ADD_TO_CART', 'REMOVE_FROM_CART',
      'UPDATE_QUANTITY' and 'CLEAR_CART'. */
  datatype ActionType = AddToCart | RemoveFromCart | UpdateQuantity | ClearCart

  /** The `data` of a recorded action. */
  datatype ActionData =
    | ProductRef(productId: Id, productName: string)
    | QuantityChange(productId: Id, productName: string, from: int, to: int)
    | ItemCount(itemCount: nat)

  /** One undo-history entry: what happened and the cart to restore. */
  datatype HistoryEntry = Entry(kind: ActionType, data: ActionData, previousCart: seq<CartItem>)

  // ---------------------------------------------------------------------------
  // Application state
  // ---------------------------------------------------------------------------

  datatype Field =
    | Products | Orders | Customers | Cart | CurrentCustomer | CurrentOrderType
    | ActionHistory | LastAction

  /** The value stored under one field of the state record. */
  datatype Slot =
    | ProductList(products: seq<Product>)
    | OrderList(orders: seq<Order>)
    | CustomerList(customers: seq<Customer>)
    | CartLines(lines: seq<CartItem>)
    | Selected(customer: Option<Customer>)
    | OrderKind(kind: string)
    | History(entries: seq<HistoryEntry>)
    | LastType(last: Option<ActionType>)

  type AppState = map<Field, Slot>

  /** The six fields every state of the application has (the older store's whole
      state, and the persisted part of the newer one). */
  predicate HasCore(s: AppState) {
    && Products in s && s[Products].ProductList?
    && Orders in s && s[Orders].OrderList?
    && Customers in s && s[Customers].CustomerList?
    && Cart in s && s[Cart].CartLines?
    && CurrentCustomer in s && s[CurrentCustomer].Selected?
    && CurrentOrderType in s && s[CurrentOrderType].OrderKind?
  }

  /** The newer store's state: the six fields plus the undo history. */
  predicate Shaped(s: AppState) {
    && HasCore(s)
    && ActionHistory in s && s[ActionHistory].History?
    && LastAction in s && s[LastAction].LastType?
  }

  /** The slot kind each field holds. */
  predicate Fits(f: Field, v: Slot) {
    match f
    case Products => v.ProductList?
    case Orders => v.OrderList?
    case Customers => v.CustomerList?
    case Cart => v.CartLines?
    case CurrentCustomer => v.Selected?
    case CurrentOrderType => v.OrderKind?
    case ActionHistory => v.History?
    case LastAction => v.LastType?
  }

  /** Writing a field a slot of its own kind keeps the state's shape, and leaves
      every other field as it was. */
  lemma UpdateKeepsShape(s: AppState, f: Field, v: Slot)
    requires Fits(f, v)
    ensures HasCore(s) ==> HasCore(s[f := v])
    ensures Shaped(s) ==> Shaped(s[f := v])
  {
  }

  function ProductsOf(s: AppState): seq<Product>
    requires HasCore(s)
  {
    s[Products].products
  }

  function OrdersOf(s: AppState): seq<Order>
    requires HasCore(s)
  {
    s[Orders].orders
  }

  function CustomersOf(s: AppState): seq<Customer>
    requires HasCore(s)
  {
    s[Customers].customers
  }

  function CartOf(s: AppState): seq<CartItem>
    requires HasCore(s)
  {
    s[Cart].lines
  }

  function CurrentOf(s: AppState): Option<Customer>
    requires HasCore(s)
  {
    s[CurrentCustomer].customer
  }

  function OrderTypeOf(s: AppState): string
    requires HasCore(s)
  {
    s[CurrentOrderType].kind
  }

  function HistoryOf(s: AppState): seq<HistoryEntry>
    requires Shaped(s)
  {
    s[ActionHistory].entries
  }

  function LastOf(s: AppState): Option<ActionType>
    requires Shaped(s)
  {
    s[LastAction].last
  }

  /** The state record of the newer store with the given fields. */
  function StateOf(products: seq<Product>, orders: seq<Order>, customers: seq<Customer>, cart: seq<CartItem>,
                   current: Option<Customer>, orderType: string, history: seq<HistoryEntry>,
                   last: Option<ActionType>): (s: AppState)
    ensures Shaped(s)
    ensures ProductsOf(s) == products && OrdersOf(s) == orders && CustomersOf(s) == customers
    ensures CartOf(s) == cart && CurrentOf(s) == current && OrderTypeOf(s) == orderType
    ensures HistoryOf(s) == history && LastOf(s) == last
  {
    map[Products := ProductList(products), Orders := OrderList(orders), Customers := CustomerList(customers),
        Cart := CartLines(cart), CurrentCustomer := Selected(current), CurrentOrderType := OrderKind(orderType),
        ActionHistory := History(history), LastAction := LastType(last)]
  }

  /** `state.currentCustomer?.id`. */
  function CurrentId(s: AppState): Id
    requires HasCore(s)
  {
    if CurrentOf(s).Some? then CurrentOf(s).value.id else Undefined
  }

  // ---------------------------------------------------------------------------
  // Lists keyed by id
  // ---------------------------------------------------------------------------

  function ProductId(p: Product): Id { p.id }
  function LineId(c: CartItem): Id { c.id }
  function CustomerId(c: Customer): Id { c.id }
  function OrderId(o: Order): Id { o.id }

  /** `xs.findIndex(x => key(x) ⋈ id)`, as an index or `None` for -1. */
  function IndexOf<T>(xs: seq<T>, key: T -> Id, id: Id, m: Match): (r: Option<nat>)
    ensures r.Some? ==> r.value < |xs| && Same(m, key(xs[r.value]), id)
    ensures forall j :: 0 <= j < |xs| && (r.None? || j < r.value) ==> !Same(m, key(xs[j]), id)
  {
    if xs == [] then None
    else if Same(m, key(xs[0]), id) then Some(0)
    else
      var rest := IndexOf(xs[1..], key, id, m);
      if rest.None? then None
      else
        assert forall j :: 1 <= j < |xs| ==> xs[j] == xs[1..][j - 1];
        Some(rest.value + 1)
  }

  /** `xs.filter(x => !(key(x) ⋈ id))`: every match goes, the rest keep their order. */
  function Without<T(!new)>(xs: seq<T>, key: T -> Id, id: Id, m: Match): (r: seq<T>)
    ensures |r| <= |xs|
    ensures forall x :: x in r <==> x in xs && !Same(m, key(x), id)
    ensures |r| == |xs| <==> forall x :: x in xs ==> !Same(m, key(x), id)
    ensures (forall x :: x in xs ==> !Same(m, key(x), id)) ==> r == xs
  {
    if xs == [] then []
    else
      var rest := Without(xs[1..], key, id, m);
      assert xs == [xs[0]] + xs[1..];
      if Same(m, key(xs[0]), id) then rest else [xs[0]] + rest
  }

  /** Filtering a concatenation filters each part in place: the survivors keep
      their order and their multiplicity. */
  lemma {:induction false} WithoutConcat<T(!new)>(a: seq<T>, b: seq<T>, key: T -> Id, id: Id, m: Match)
    ensures Without(a + b, key, id, m) == Without(a, key, id, m) + Without(b, key, id, m)
    decreases |a|
  {
    if a == [] {
      assert a + b == b;
    } else {
      assert (a + b)[1..] == a[1..] + b;
      WithoutConcat(a[1..], b, key, id, m);
    }
  }

  /** One more element at the end survives exactly when it does not match. */
  lemma WithoutSnoc<T(!new)>(xs: seq<T>, x: T, key: T -> Id, id: Id, m: Match)
    ensures Without(xs + [x], key, id, m)
         == Without(xs, key, id, m) + (if Same(m, key(x), id) then [] else [x])
  {
    WithoutConcat(xs, [x], key, id, m);
    assert [x][1..] == [];
  }

  // ---------------------------------------------------------------------------
  // Cart arithmetic
  // ---------------------------------------------------------------------------

  /** No two lines of the cart have matching ids. */
  predicate UniqueIds(cart: seq<CartItem>, m: Match) {
    forall i, j :: 0 <= i < j < |cart| ==> !Same(m, cart[i].id, cart[j].id)
  }

  /** `cart.map(item => item.id ⋈ id ? {...item, quantity: q(item)} : item)` where
      the new quantity is the old one plus one. */
  function Bump(cart: seq<CartItem>, id: Id, m: Match): (r: seq<CartItem>)
    ensures |r| == |cart|
    ensures forall i :: 0 <= i < |cart| ==>
              r[i] == if Same(m, cart[i].id, id) then cart[i].(quantity := cart[i].quantity + 1)
                      else cart[i]
  {
    if cart == [] then []
    else
      var head := if Same(m, cart[0].id, id) then cart[0].(quantity := cart[0].quantity + 1)
                  else cart[0];
      [head] + Bump(cart[1..], id, m)
  }

  /** The matching lines get quantity `q`; the others are kept. */
  function Requantify(cart: seq<CartItem>, id: Id, q: int, m: Match): (r: seq<CartItem>)
    ensures |r| == |cart|
    ensures forall i :: 0 <= i < |cart| ==>
              r[i] == if Same(m, cart[i].id, id) then cart[i].(quantity := q) else cart[i]
  {
    if cart == [] then []
    else
      var head := if Same(m, cart[0].id, id) then cart[0].(quantity := q) else cart[0];
      [head] + Requantify(cart[1..], id, q, m)
  }

  /** The cart after adding one unit of `p`: the matching line is bumped when
      there is one, otherwise a line of quantity 1 goes at the end. */
  function AddLine(cart: seq<CartItem>, p: Product, m: Match): (r: seq<CartItem>)
    ensures |r| == |cart| || r == cart + [LineOf(p, 1)]
    ensures |r| >= |cart|
    ensures forall i :: 0 <= i < |cart| ==>
              r[i].id == cart[i].id && (r[i].quantity == cart[i].quantity || r[i].quantity == cart[i].quantity + 1)
  {
    if IndexOf(cart, LineId, p.id, m).Some? then Bump(cart, p.id, m)
    else cart + [LineOf(p, 1)]
  }

  /** Adding raises the matching line's quantity by one and changes nothing else,
      or appends a new line with quantity 1. */
  lemma AddLineEffect(cart: seq<CartItem>, p: Product, m: Match)
    ensures (exists i :: 0 <= i < |cart| && Same(m, cart[i].id, p.id)) ==>
              |AddLine(cart, p, m)| == |cart|
              && forall i :: 0 <= i < |cart| ==>
                   AddLine(cart, p, m)[i]
                   == if Same(m, cart[i].id, p.id) then cart[i].(quantity := cart[i].quantity + 1)
                      else cart[i]
    ensures (forall i :: 0 <= i < |cart| ==> !Same(m, cart[i].id, p.id)) ==>
              AddLine(cart, p, m) == cart + [LineOf(p, 1)]
  {
    var r := IndexOf(cart, LineId, p.id, m);
    if exists i :: 0 <= i < |cart| && Same(m, cart[i].id, p.id) {
      var i :| 0 <= i < |cart| && Same(m, cart[i].id, p.id);
      assert LineId(cart[i]) == cart[i].id;
      assert r.Some?;
    }
  }

  /** Adding keeps at most one line per id. */
  lemma AddLineKeepsIdsUnique(cart: seq<CartItem>, p: Product, m: Match)
    requires UniqueIds(cart, m)
    ensures UniqueIds(AddLine(cart, p, m), m)
  {
    AddLineEffect(cart, p, m);
    var r := AddLine(cart, p, m);
    if forall i :: 0 <= i < |cart| ==> !Same(m, cart[i].id, p.id) {
      forall i, j | 0 <= i < j < |r|
        ensures !Same(m, r[i].id, r[j].id)
      {
        if j == |cart| {
          LooseEqProperties(cart[i].id, p.id);
        }
      }
    }
  }

  /** Under strict matching a product added to a cart with unique ids has exactly
      one line afterwards. */
  lemma AddLineSingleLine(cart: seq<CartItem>, p: Product)
    requires UniqueIds(cart, Strict)
    ensures exists i :: 0 <= i < |AddLine(cart, p, Strict)| && AddLine(cart, p, Strict)[i].id == p.id
    ensures forall i, j :: 0 <= i < j < |AddLine(cart, p, Strict)| ==>
              AddLine(cart, p, Strict)[i].id != AddLine(cart, p, Strict)[j].id
  {
    AddLineEffect(cart, p, Strict);
    AddLineKeepsIdsUnique(cart, p, Strict);
    var r := AddLine(cart, p, Strict);
    if exists i :: 0 <= i < |cart| && cart[i].id == p.id {
      var i :| 0 <= i < |cart| && cart[i].id == p.id;
      assert r[i].id == p.id;
    } else {
      assert r[|cart|].id == p.id;
    }
  }

  /** `cart.reduce((sum, item) => sum + item.price * item.quantity, 0)`. */
  function CartTotal(cart: seq<CartItem>): real {
    if cart == [] then 0.0
    else CartTotal(cart[..|cart| - 1]) + cart[|cart| - 1].price * cart[|cart| - 1].quantity as real
  }

  /** `cart.reduce((sum, item) => sum + item.quantity, 0)`. */
  function CartCount(cart: seq<CartItem>): int {
    if cart == [] then 0 else CartCount(cart[..|cart| - 1]) + cart[|cart| - 1].quantity
  }

  /** With non-negative quantities the count is non-negative; with positive
      ones it is at least the number of lines. */
  lemma {:induction false} CartCountBounds(cart: seq<CartItem>)
    ensures (forall i :: 0 <= i < |cart| ==> cart[i].quantity >= 0) ==> CartCount(cart) >= 0
    ensures (forall i :: 0 <= i < |cart| ==> cart[i].quantity >= 1) ==> CartCount(cart) >= |cart|
  {
    if cart != [] {
      var front := cart[..|cart| - 1];
      assert forall i :: 0 <= i < |front| ==> front[i] == cart[i];
      CartCountBounds(front);
    }
  }

  /** The total and the count of a cart split in two are the sums of the parts' totals and counts. */
  lemma {:induction false} CartSumsSplit(a: seq<CartItem>, b: seq<CartItem>)
    ensures CartTotal(a + b) == CartTotal(a) + CartTotal(b)
    ensures CartCount(a + b) == CartCount(a) + CartCount(b)
  {
    if b != [] {
      assert (a + b)[..|a + b| - 1] == a + b[..|b| - 1];
      CartSumsSplit(a, b[..|b| - 1]);
    } else {
      assert a + b == a;
    }
  }

  /** Adding `p` to the cart `k` times. */
  function AddTimes(cart: seq<CartItem>, p: Product, k: nat, m: Match): seq<CartItem> {
    if k == 0 then cart else AddLine(AddTimes(cart, p, k - 1, m), p, m)
  }

  /** `k` adds of one product to an empty cart leave one line of quantity `k`, so
      the cart count is `k` and the total `k` times the price. */
  lemma RepeatedAdds(p: Product, k: nat, m: Match)
    ensures AddTimes([], p, k, m) == if k == 0 then [] else [LineOf(p, k)]
    ensures CartCount(AddTimes([], p, k, m)) == k
    ensures CartTotal(AddTimes([], p, k, m)) == k as real * p.price
  {
    RepeatedAddsLine(p, k, m);
    OneLineSums(AddTimes([], p, k, m), p, k);
  }

  /** The cart holding just `k` units of `p` (or nothing when `k` is 0) counts
      `k` and totals `k` times the price. */
  lemma OneLineSums(cart: seq<CartItem>, p: Product, k: nat)
    requires cart == if k == 0 then [] else [LineOf(p, k)]
    ensures CartCount(cart) == k
    ensures CartTotal(cart) == k as real * p.price
  {
    if k > 0 {
      SingleLineSums(LineOf(p, k));
    }
  }

  lemma {:induction false} RepeatedAddsLine(p: Product, k: nat, m: Match)
    ensures AddTimes([], p, k, m) == if k == 0 then [] else [LineOf(p, k)]
  {
    if k > 0 {
      RepeatedAddsLine(p, k - 1, m);
      var before := AddTimes([], p, k - 1, m);
      LooseEqProperties(p.id, p.id);
      AddLineEffect(before, p, m);
      if k > 1 {
        assert before == [LineOf(p, k - 1)] && Same(m, before[0].id, p.id);
        assert AddLine(before, p, m)[0] == LineOf(p, k);
      }
    }
  }

  /** A one-line cart totals its line's price times quantity and counts its quantity. */
  lemma SingleLineSums(line: CartItem)
    ensures CartTotal([line]) == line.quantity as real * line.price
    ensures CartCount([line]) == line.quantity
  {
    assert [line][..0] == [];
  }

  // ---------------------------------------------------------------------------
  // Customer lists
  // ---------------------------------------------------------------------------

  /** `customers.some(c => c.phone === phone)`. */
  predicate PhoneTaken(customers: seq<Customer>, phone: string) {
    exists i :: 0 <= i < |customers| && customers[i].phone == phone
  }

  /** No two customers share a non-empty phone number. */
  predicate PhonesUnique(customers: seq<Customer>) {
    forall i, j :: 0 <= i < j < |customers| && customers[i].phone != "" ==> customers[i].phone != customers[j].phone
  }

  /** `c.name.toLowerCase() === 'guest'`. */
  predicate IsGuestName(c: Customer) {
    Lower(c.name) == "guest"
  }

  /** `customers.find(c => c.name.toLowerCase() === 'guest') || null`. */
  function FirstGuest(customers: seq<Customer>): (r: Option<Customer>)
    ensures r.Some? ==> r.value in customers && IsGuestName(r.value)
    ensures r.None? <==> forall c :: c in customers ==> !IsGuestName(c)
    ensures r.Some? ==> exists i :: 0 <= i < |customers| && customers[i] == r.value
                                    && forall j :: 0 <= j < i ==> !IsGuestName(customers[j])
  {
    if customers == [] then None
    else if IsGuestName(customers[0]) then Some(customers[0])
    else
      var rest := FirstGuest(customers[1..]);
      assert forall c :: c in customers[1..] ==> c in customers;
      assert forall c :: c in customers ==> c == customers[0] || c in customers[1..];
      if rest.Some? then
        ghost var i :| 0 <= i < |customers[1..]| && customers[1..][i] == rest.value
                       && forall j :: 0 <= j < i ==> !IsGuestName(customers[1..][j]);
        assert customers[i + 1] == rest.value;
        assert forall j :: 0 <= j < i + 1 ==> !IsGuestName(customers[j]) by {
          forall j | 0 <= j < i + 1 ensures !IsGuestName(customers[j]) {
            if j > 0 { assert customers[j] == customers[1..][j - 1]; }
          }
        }
        rest
      else rest
  }
}
