/** The older action set (src/data/store.js) that the point-of-sale screen calls:
    the same cart, customer, order and product actions over one store built by
    src/core/state.js, with three differences from the newer action layer that
    the lemmas below make explicit: ids are matched with loose equality (`==`,
    so `1` and `'1'` are the same id), no undo history is kept, and nothing is
    validated beyond a few up-front checks (in particular `placeOrder` accepts
    any cart and computes a missing total without clamping).  Every action that
    changes the state ends with `saveState()`, which writes the six persisted
    entries; failures are reported by returning `false` or `null` (`None` here)
    instead of a result record. */
module LegacyStore {
  import opened Wrappers
  import opened Text
  import opened Domain
  import opened ReactiveStore
  import opened JsonCodec
  import opened DemoData
  import P = Persistence
  import Newer = CartActions
  import Cust = CustomerActions
  import Ord = OrderActions
  import Prod = ProductActions
  import Sel = Selectors
  import opened Validators

  /** The fields of the older store's state. */
  const CoreFields: set<Field> := {Products, Orders, Customers, Cart, CurrentCustomer, CurrentOrderType}

  /** `initialState`: empty collections, no customer, dine-in. */
  const InitialState: AppState := map[Products := ProductList([]), Orders := OrderList([]),
                                      Customers := CustomerList([]), Cart := CartLines([]),
                                      CurrentCustomer := Selected(None),
                                      CurrentOrderType := OrderKind(P.DINE_IN)]

  /** The six fields of a state, and nothing else. */
  function CoreOf(s: AppState): (r: AppState)
    requires HasCore(s)
    ensures HasCore(r) && r.Keys == CoreFields
    ensures forall f :: f in CoreFields ==> r[f] == s[f]
  {
    map f | f in CoreFields :: s[f]
  }

  /** Two states with the same six fields and no other field are equal. */
  lemma CoreEqual(a: AppState, b: AppState)
    requires HasCore(a) && HasCore(b) && a.Keys == CoreFields && b.Keys == CoreFields
    requires ProductsOf(a) == ProductsOf(b) && OrdersOf(a) == OrdersOf(b) && CustomersOf(a) == CustomersOf(b)
    requires CartOf(a) == CartOf(b) && CurrentOf(a) == CurrentOf(b) && OrderTypeOf(a) == OrderTypeOf(b)
    ensures a == b
  {
    forall f | f in CoreFields ensures a[f] == b[f] {
      match f
      case Products =>
      case Orders =>
      case Customers =>
      case Cart =>
      case CurrentCustomer =>
      case CurrentOrderType =>
    }
  }

  // ---------------------------------------------------------------------------
  // loadState, the store instance, resetData
  // ---------------------------------------------------------------------------

  /** The patch `loadState()` merges: the six fields as the newer layer's
      `loadState` reads them (demo lists for missing or empty collections). */
  function Loaded(items: map<string, Json>, clock: P.DemoClock): (r: AppState)
    ensures HasCore(r) && r.Keys == CoreFields
    ensures ProductsOf(r) == ProductsOf(P.LoadState(items, clock))
    ensures OrdersOf(r) == OrdersOf(P.LoadState(items, clock))
    ensures CustomersOf(r) == CustomersOf(P.LoadState(items, clock))
    ensures CartOf(r) == CartOf(P.LoadState(items, clock))
    ensures CurrentOf(r) == CurrentOf(P.LoadState(items, clock))
    ensures OrderTypeOf(r) == OrderTypeOf(P.LoadState(items, clock))
  {
    CoreOf(P.LoadState(items, clock))
  }

  /** `loadState()`: one `setState` of the six loaded fields. */
  method LoadState(store: Store<Field, Slot>, storage: P.LocalStorage, clock: P.DemoClock)
    modifies store`state, store`trace
    ensures store.state == old(store.state) + Loaded(storage.items, clock)
    ensures HasCore(store.state)
    ensures store.trace == old(store.trace) + store.Notifications(store.state)
  {
    var loaded := Loaded(storage.items, clock);
    store.SetState(Patch(Some(loaded)));
  }

  /** The module's initialisation: `createStore(initialState)` followed by
      `loadState()`.  The loaded fields replace every initial one. */
  method CreateLegacyStore(storage: P.LocalStorage, clock: P.DemoClock, react: (nat, AppState) -> Outcome)
    returns (store: Store<Field, Slot>)
    ensures fresh(store)
    ensures store.state == Loaded(storage.items, clock)
    ensures store.listeners == [] && store.trace == [] && store.react == react
  {
    store := new Store(InitialState, react);
    LoadState(store, storage, clock);
    assert InitialState.Keys == CoreFields;
    CoreOverwrites(InitialState, Loaded(storage.items, clock));
  }

  /** A patch holding the six fields replaces a state that has no others. */
  lemma CoreOverwrites(s: AppState, t: AppState)
    requires s.Keys <= CoreFields && t.Keys == CoreFields
    ensures s + t == t
  {
  }

  /** The patch `resetData()` merges: the demo collections, an empty cart, no
      customer and dine-in. */
  function ResetFields(clock: P.DemoClock): (r: AppState)
    ensures HasCore(r) && r.Keys == CoreFields
    ensures ProductsOf(r) == DemoProducts && OrdersOf(r) == P.Demo(clock) && CustomersOf(r) == DemoCustomers
    ensures CartOf(r) == [] && CurrentOf(r) == None && OrderTypeOf(r) == P.DINE_IN
  {
    CoreOf(P.ResetToDemo(clock))
  }

  /** `resetData()`. */
  method ResetData(store: Store<Field, Slot>, storage: P.LocalStorage, clock: P.DemoClock)
    requires HasCore(store.state)
    modifies store`state, store`trace, storage
    ensures store.state == old(store.state) + ResetFields(clock)
    ensures HasCore(store.state)
    ensures store.trace == old(store.trace) + store.Notifications(store.state)
    ensures storage.items == old(storage.items) + P.Persisted(store.state)
  {
    WriteAndSave(store, storage, ResetFields(clock));
  }

  /** `setState(fields)` followed by `saveState`, for a patch holding the six
      fields. */
  method WriteAndSave(store: Store<Field, Slot>, storage: P.LocalStorage, fields: AppState)
    requires HasCore(fields)
    modifies store`state, store`trace, storage
    ensures store.state == old(store.state) + fields
    ensures HasCore(store.state)
    ensures store.trace == old(store.trace) + store.Notifications(store.state)
    ensures storage.items == old(storage.items) + P.Persisted(store.state)
  {
    store.SetState(Patch(Some(fields)));
    P.SaveState(storage, store.state);
  }

  /** Saving and loading again gives back the six fields, provided no
      collection was empty. */
  lemma LegacySaveThenLoad(items: map<string, Json>, s: AppState, clock: P.DemoClock)
    requires HasCore(s)
    requires |ProductsOf(s)| > 0 && |OrdersOf(s)| > 0 && |CustomersOf(s)| > 0
    ensures Loaded(items + P.Persisted(s), clock) == CoreOf(s)
  {
    P.SaveThenLoad(items, s, clock);
    P.RestoredFields(s);
    CoreEqual(Loaded(items + P.Persisted(s), clock), CoreOf(s));
  }

  /** What `resetData()` saves is what the next start loads. */
  lemma ResetSurvivesReload(items: map<string, Json>, s: AppState, clock: P.DemoClock)
    requires HasCore(s)
    ensures Loaded(items + P.Persisted(s + ResetFields(clock)), clock) == ResetFields(clock)
  {
    var t := s + ResetFields(clock);
    assert HasCore(t);
    assert |P.Demo(clock)| == 2;
    assert |DemoProducts| == 20 && |DemoCustomers| == 11;
    LegacySaveThenLoad(items, t, clock);
    CoreEqual(CoreOf(t), ResetFields(clock));
  }

  // ---------------------------------------------------------------------------
  // Cart actions
  // ---------------------------------------------------------------------------

  /** The state after `addToCart(product)`: nothing for a missing product or a
      falsy id, otherwise one more unit on the loosely matching line, or a new
      line of quantity 1 at the end. */
  function CartAdded(s: AppState, product: Option<Product>): (r: AppState)
    requires HasCore(s)
    ensures HasCore(r)
  {
    if product.None? || Falsy(product.value.id) then s
    else s[Cart := CartLines(AddLine(CartOf(s), product.value, Loose))]
  }

  /** `addToCart(product)`. */
  method AddToCart(store: Store<Field, Slot>, storage: P.LocalStorage, product: Option<Product>)
    requires HasCore(store.state)
    modifies store`state, store`trace, storage
    ensures store.state == CartAdded(old(store.state), product)
    ensures product.None? || Falsy(product.value.id) ==>
              store.trace == old(store.trace) && storage.items == old(storage.items)
    ensures product.Some? && !Falsy(product.value.id) ==>
              && store.trace == old(store.trace) + store.Notifications(store.state)
              && storage.items == old(storage.items) + P.Persisted(store.state)
  {
    if product.None? || Falsy(product.value.id) {
      return;
    }
    var p := product.value;
    var state := store.GetState();
    if IndexOf(CartOf(state), LineId, p.id, Loose).Some? {
      store.SetState(Patch(Some(map[Cart := CartLines(Bump(CartOf(state), p.id, Loose))])));
    } else {
      store.SetState(Patch(Some(map[Cart := CartLines(CartOf(state) + [LineOf(p, 1)])])));
    }
    MergeOne(state, Cart, CartLines(AddLine(CartOf(state), p, Loose)));
    P.SaveState(storage, store.state);
  }

  /** The state after `removeFromCart(productId)`. */
  function CartRemoved(s: AppState, id: Id): (r: AppState)
    requires HasCore(s)
    ensures HasCore(r)
    ensures forall line :: line in CartOf(r) <==> line in CartOf(s) && !LooseEq(line.id, id)
    ensures forall f :: f in s && f != Cart ==> f in r && r[f] == s[f]
  {
    assert forall line :: LineId(line) == line.id;
    s[Cart := CartLines(Without(CartOf(s), LineId, id, Loose))]
  }

  /** `removeFromCart(productId)`: always one `setState` and a save, even when
      no line matches. */
  method RemoveFromCart(store: Store<Field, Slot>, storage: P.LocalStorage, productId: Id)
    requires HasCore(store.state)
    modifies store`state, store`trace, storage
    ensures store.state == CartRemoved(old(store.state), productId)
    ensures store.trace == old(store.trace) + store.Notifications(store.state)
    ensures storage.items == old(storage.items) + P.Persisted(store.state)
  {
    var state := store.GetState();
    var cart := Without(CartOf(state), LineId, productId, Loose);
    store.SetState(Patch(Some(map[Cart := CartLines(cart)])));
    MergeOne(state, Cart, CartLines(cart));
    P.SaveState(storage, store.state);
  }

  /** The state after `updateCartQuantity(productId, quantity)`. */
  function CartRequantified(s: AppState, id: Id, q: int): (r: AppState)
    requires HasCore(s)
    ensures HasCore(r)
    ensures q <= 0 ==> r == CartRemoved(s, id)
    ensures q > 0 ==>
              && |CartOf(r)| == |CartOf(s)|
              && (forall i :: 0 <= i < |CartOf(s)| ==>
                    CartOf(r)[i] == if LooseEq(CartOf(s)[i].id, id) then CartOf(s)[i].(quantity := q)
                                    else CartOf(s)[i])
              && forall f :: f in s && f != Cart ==> f in r && r[f] == s[f]
  {
    if q <= 0 then CartRemoved(s, id)
    else s[Cart := CartLines(Requantify(CartOf(s), id, q, Loose))]
  }

  /** `updateCartQuantity(productId, quantity)`: a quantity of 0 or less is
      `removeFromCart`. */
  method UpdateCartQuantity(store: Store<Field, Slot>, storage: P.LocalStorage, productId: Id, quantity: int)
    requires HasCore(store.state)
    modifies store`state, store`trace, storage
    ensures store.state == CartRequantified(old(store.state), productId, quantity)
    ensures store.trace == old(store.trace) + store.Notifications(store.state)
    ensures storage.items == old(storage.items) + P.Persisted(store.state)
  {
    if quantity <= 0 {
      RemoveFromCart(store, storage, productId);
      return;
    }
    var state := store.GetState();
    var cart := Requantify(CartOf(state), productId, quantity, Loose);
    store.SetState(Patch(Some(map[Cart := CartLines(cart)])));
    MergeOne(state, Cart, CartLines(cart));
    P.SaveState(storage, store.state);
  }

  /** `clearCart()`. */
  method ClearCart(store: Store<Field, Slot>, storage: P.LocalStorage)
    requires HasCore(store.state)
    modifies store`state, store`trace, storage
    ensures store.state == old(store.state)[Cart := CartLines([])]
    ensures HasCore(store.state) && CartOf(store.state) == []
    ensures store.trace == old(store.trace) + store.Notifications(store.state)
    ensures storage.items == old(storage.items) + P.Persisted(store.state)
  {
    MergeOne(store.state, Cart, CartLines([]));
    store.SetState(Patch(Some(map[Cart := CartLines([])])));
    P.SaveState(storage, store.state);
  }

  // ---------------------------------------------------------------------------
  // Properties of the cart actions
  // ---------------------------------------------------------------------------

  /** A spelled-out number is the same id under loose matching: a list whose
      first element has the id `n` is found at 0 by the string `String(n)`,
      which strict matching does not find in a list of numeric ids. */
  lemma LooseFindsSpelledId<T>(xs: seq<T>, key: T -> Id, n: int)
    requires |xs| > 0 && key(xs[0]) == Num(n)
    ensures IndexOf(xs, key, Str(IntToString(n)), Loose) == Some(0)
    ensures (forall x :: x in xs ==> key(x).Num?) ==> IndexOf(xs, key, Str(IntToString(n)), Strict) == None
  {
    LooseEqNumberAndString(n);
    var r := IndexOf(xs, key, Str(IntToString(n)), Strict);
    if r.Some? {
      assert xs[r.value] in xs;
    }
  }

  /** Adding the product with id `'7'` to a cart holding the line of product 7
      bumps that line in the older store; the newer layer appends a second line. */
  lemma LooseAddMergesSpelledId(line: CartItem, p: Product, n: int)
    requires line.id == Num(n) && p.id == Str(IntToString(n))
    ensures AddLine([line], p, Loose) == [line.(quantity := line.quantity + 1)]
    ensures AddLine([line], p, Strict) == [line, LineOf(p, 1)]
  {
    LooseEqNumberAndString(n);
    OneLineAdd(line, p, Loose);
    OneLineAdd(line, p, Strict);
  }

  /** A one-line cart is bumped when the line matches the product, and grows by
      a new line when it does not. */
  lemma OneLineAdd(line: CartItem, p: Product, m: Match)
    ensures Same(m, line.id, p.id) ==> AddLine([line], p, m) == [line.(quantity := line.quantity + 1)]
    ensures !Same(m, line.id, p.id) ==> AddLine([line], p, m) == [line, LineOf(p, 1)]
  {
    assert LineId([line][0]) == line.id;
    if Same(m, line.id, p.id) {
      assert IndexOf([line], LineId, p.id, m) == Some(0);
    } else {
      assert IndexOf([line], LineId, p.id, m) == None;
    }
  }

  /** When every id involved is a number, loose and strict matching agree. */
  lemma NumbersMatchAlike(a: Id, b: Id)
    requires a.Num? && b.Num?
    ensures Same(Loose, a, b) == Same(Strict, a, b)
  {
  }

  predicate NumericIds(cart: seq<CartItem>) {
    forall i :: 0 <= i < |cart| ==> cart[i].id.Num?
  }

  lemma BumpAlike(cart: seq<CartItem>, id: Id)
    requires NumericIds(cart) && id.Num?
    ensures Bump(cart, id, Loose) == Bump(cart, id, Strict)
    ensures IndexOf(cart, LineId, id, Loose) == IndexOf(cart, LineId, id, Strict)
  {
    forall i | 0 <= i < |cart| ensures Bump(cart, id, Loose)[i] == Bump(cart, id, Strict)[i] {
      NumbersMatchAlike(cart[i].id, id);
    }
    IndexAlike(cart, id);
  }

  lemma {:induction false} IndexAlike(cart: seq<CartItem>, id: Id)
    requires NumericIds(cart) && id.Num?
    ensures IndexOf(cart, LineId, id, Loose) == IndexOf(cart, LineId, id, Strict)
  {
    if cart != [] {
      NumbersMatchAlike(cart[0].id, id);
      IndexAlike(cart[1..], id);
    }
  }

  /** With numeric ids the older `addToCart` builds the same cart as the newer
      one, but records nothing: the history stays as it was, where the newer
      layer pushes an 'ADD_TO_CART' entry. */
  lemma AddToCartAgreesWithNewer(s: AppState, p: Product)
    requires Shaped(s) && NumericIds(CartOf(s)) && p.id.Num? && !Falsy(p.id)
    ensures CartOf(CartAdded(s, Some(p))) == CartOf(Newer.Added(s, Some(p)))
    ensures Shaped(CartAdded(s, Some(p))) && HistoryOf(CartAdded(s, Some(p))) == HistoryOf(s)
    ensures HistoryOf(Newer.Added(s, Some(p)))[0] == Entry(ActionType.AddToCart, ProductRef(p.id, p.name), CartOf(s))
  {
    BumpAlike(CartOf(s), p.id);
  }

  /** How many lines match `id`. */
  function MatchCount(cart: seq<CartItem>, id: Id, m: Match): (n: nat)
    ensures n <= |cart|
    ensures n == 0 <==> forall i :: 0 <= i < |cart| ==> !Same(m, cart[i].id, id)
  {
    if cart == [] then 0
    else
      var rest := MatchCount(cart[1..], id, m);
      assert forall i :: 1 <= i < |cart| ==> cart[i] == cart[1..][i - 1];
      (if Same(m, cart[0].id, id) then 1 else 0) + rest
  }

  /** Bumping adds one unit per matching line to the cart count. */
  lemma {:induction false} BumpCount(cart: seq<CartItem>, id: Id, m: Match)
    ensures CartCount(Bump(cart, id, m)) == CartCount(cart) + MatchCount(cart, id, m)
  {
    if cart != [] {
      BumpCount(cart[1..], id, m);
      var b := Bump(cart, id, m);
      assert b == [b[0]] + Bump(cart[1..], id, m);
      assert cart == [cart[0]] + cart[1..];
      ConsCount(b[0], Bump(cart[1..], id, m));
      ConsCount(cart[0], cart[1..]);
    }
  }

  lemma ConsCount(x: CartItem, rest: seq<CartItem>)
    ensures CartCount([x] + rest) == x.quantity + CartCount(rest)
  {
    CartSumsSplit([x], rest);
    SingleLineSums(x);
  }

  /** `getCartCount()` after `addToCart(p)`: one more unit when no line or one
      line matches; under loose matching one add can bump several lines (ids
      `'1'` and `'01'` both equal `1`), each by one. */
  lemma AddToCartCount(cart: seq<CartItem>, p: Product, m: Match)
    ensures CartCount(AddLine(cart, p, m)) == CartCount(cart) + (if MatchCount(cart, p.id, m) == 0 then 1 else MatchCount(cart, p.id, m))
  {
    AddLineEffect(cart, p, m);
    if MatchCount(cart, p.id, m) == 0 {
      CartSumsSplit(cart, [LineOf(p, 1)]);
      assert [LineOf(p, 1)][..0] == [];
    } else {
      BumpCount(cart, p.id, m);
      assert IndexOf(cart, LineId, p.id, m).Some?;
    }
  }

  /** Under strict matching and unique ids an add is always exactly one unit. */
  lemma StrictAddCountsOne(cart: seq<CartItem>, p: Product)
    requires UniqueIds(cart, Strict)
    ensures CartCount(AddLine(cart, p, Strict)) == CartCount(cart) + 1
  {
    AddToCartCount(cart, p, Strict);
    if MatchCount(cart, p.id, Strict) > 1 {
      OneStrictMatch(cart, p.id);
    }
  }

  lemma {:induction false} OneStrictMatch(cart: seq<CartItem>, id: Id)
    requires UniqueIds(cart, Strict)
    ensures MatchCount(cart, id, Strict) <= 1
  {
    if cart != [] {
      assert UniqueIds(cart[1..], Strict) by {
        forall i, j | 0 <= i < j < |cart[1..]| ensures cart[1..][i].id != cart[1..][j].id {
          assert cart[1..][i] == cart[i + 1] && cart[1..][j] == cart[j + 1];
        }
      }
      OneStrictMatch(cart[1..], id);
    }
  }

  /** `'1' == 1` and `'01' == 1`, while `'1' != '01'`. */
  lemma OneSpelledTwoWays()
    ensures LooseEq(Str("1"), Num(1)) && LooseEq(Str("01"), Num(1)) && !LooseEq(Str("1"), Str("01"))
  {
    SpelledOne();
    SpelledZeroOne();
  }

  lemma SpelledOne()
    ensures StringToInteger("1") == Some(1)
  {
    TrimNoOuterSpace("1");
    assert DigitsValue("1") == 1 by { assert "1"[..0] == ""; }
  }

  lemma SpelledZeroOne()
    ensures StringToInteger("01") == Some(1)
  {
    TrimNoOuterSpace("01");
    assert "01"[..1] == "0";
    assert DigitsValue("0") == 0 by { assert "0"[..0] == ""; }
    assert DigitsValue("01") == 1;
  }

  /** The loose quirk: with lines `'1'` and `'01'`, adding product `1` bumps both. */
  lemma LooseAddBumpsTwoLines(a: CartItem, b: CartItem, p: Product)
    requires a.id == Str("1") && b.id == Str("01") && p.id == Num(1)
    ensures UniqueIds([a, b], Loose)
    ensures AddLine([a, b], p, Loose) == [a.(quantity := a.quantity + 1), b.(quantity := b.quantity + 1)]
    ensures CartCount(AddLine([a, b], p, Loose)) == CartCount([a, b]) + 2
  {
    OneSpelledTwoWays();
    BothLinesBumped(a, b, p, Loose);
  }

  /** Two lines that both match the product and not each other are both bumped. */
  lemma BothLinesBumped(a: CartItem, b: CartItem, p: Product, m: Match)
    requires Same(m, a.id, p.id) && Same(m, b.id, p.id) && !Same(m, a.id, b.id)
    ensures UniqueIds([a, b], m)
    ensures AddLine([a, b], p, m) == [a.(quantity := a.quantity + 1), b.(quantity := b.quantity + 1)]
    ensures CartCount(AddLine([a, b], p, m)) == CartCount([a, b]) + 2
  {
    var cart := [a, b];
    assert LineId(cart[0]) == cart[0].id;
    assert IndexOf(cart, LineId, p.id, m) == Some(0);
    var r := Bump(cart, p.id, m);
    assert |r| == 2 && r[0] == a.(quantity := a.quantity + 1) && r[1] == b.(quantity := b.quantity + 1);
    assert MatchCount(cart, p.id, m) == 2 by {
      assert cart[1..] == [b];
    }
    AddToCartCount(cart, p, m);
  }

  /** Removing keeps the ids of the remaining lines pairwise unmatched. */
  lemma {:induction false} WithoutKeepsIdsUnique(cart: seq<CartItem>, id: Id, m: Match)
    requires UniqueIds(cart, m)
    ensures UniqueIds(Without(cart, LineId, id, m), m)
  {
    if cart != [] {
      var tail := cart[1..];
      TailIdsUnique(cart, m);
      WithoutKeepsIdsUnique(tail, id, m);
      var rest := Without(tail, LineId, id, m);
      if !Same(m, LineId(cart[0]), id) {
        HeadIdApart(cart, m);
        ConsIdsUnique(cart[0], rest, m);
      }
    }
  }

  lemma TailIdsUnique(cart: seq<CartItem>, m: Match)
    requires cart != [] && UniqueIds(cart, m)
    ensures UniqueIds(cart[1..], m)
  {
    var tail := cart[1..];
    forall i, j | 0 <= i < j < |tail| ensures !Same(m, tail[i].id, tail[j].id) {
      assert tail[i] == cart[i + 1] && tail[j] == cart[j + 1];
    }
  }

  lemma HeadIdApart(cart: seq<CartItem>, m: Match)
    requires cart != [] && UniqueIds(cart, m)
    ensures forall x :: x in cart[1..] ==> !Same(m, cart[0].id, x.id)
  {
    forall x | x in cart[1..] ensures !Same(m, cart[0].id, x.id) {
      var k :| 0 <= k < |cart[1..]| && cart[1..][k] == x;
      assert cart[k + 1] == x;
    }
  }

  lemma ConsIdsUnique(head: CartItem, rest: seq<CartItem>, m: Match)
    requires UniqueIds(rest, m) && forall x :: x in rest ==> !Same(m, head.id, x.id)
    ensures UniqueIds([head] + rest, m)
  {
    var r := [head] + rest;
    forall i, j | 0 <= i < j < |r| ensures !Same(m, r[i].id, r[j].id) {
      assert r[j] == rest[j - 1];
      if i > 0 {
        assert r[i] == rest[i - 1];
      } else {
        assert r[j] in rest;
      }
    }
  }

  /** The older store's cart actions. */
  datatype LegacyCartAction = Add(product: Option<Product>) | Remove(id: Id) | SetQuantity(id: Id, quantity: int) | Clear

  function ApplyCart(s: AppState, a: LegacyCartAction): (r: AppState)
    requires HasCore(s)
    ensures HasCore(r)
  {
    match a
    case Add(p) => CartAdded(s, p)
    case Remove(id) => CartRemoved(s, id)
    case SetQuantity(id, q) => CartRequantified(s, id, q)
    case Clear => s[Cart := CartLines([])]
  }

  /** Every cart action keeps at most one line per (loosely matched) id and
      touches no field but the cart, so no history is ever written. */
  lemma CartActionsKeepIdsUnique(s: AppState, a: LegacyCartAction)
    requires HasCore(s) && UniqueIds(CartOf(s), Loose)
    ensures UniqueIds(CartOf(ApplyCart(s, a)), Loose)
    ensures forall f :: f != Cart ==> (f in ApplyCart(s, a) <==> f in s) && (f in s ==> ApplyCart(s, a)[f] == s[f])
  {
    match a
    case Add(p) =>
      if p.Some? && !Falsy(p.value.id) {
        AddLineKeepsIdsUnique(CartOf(s), p.value, Loose);
      }
    case Remove(id) =>
      WithoutKeepsIdsUnique(CartOf(s), id, Loose);
    case SetQuantity(id, q) =>
      if q <= 0 {
        WithoutKeepsIdsUnique(CartOf(s), id, Loose);
      } else {
        var r := CartOf(ApplyCart(s, a));
        assert forall i :: 0 <= i < |r| ==> r[i].id == CartOf(s)[i].id;
      }
    case Clear =>
  }

  // ---------------------------------------------------------------------------
  // Loose and strict lookups
  // ---------------------------------------------------------------------------

  /** When the id and every key are numbers, loose and strict lookups and
      filters agree. */
  lemma {:induction false} LookupsAlike<T(!new)>(xs: seq<T>, key: T -> Id, id: Id)
    requires id.Num? && forall i :: 0 <= i < |xs| ==> key(xs[i]).Num?
    ensures IndexOf(xs, key, id, Loose) == IndexOf(xs, key, id, Strict)
    ensures Without(xs, key, id, Loose) == Without(xs, key, id, Strict)
  {
    if xs != [] {
      NumbersMatchAlike(key(xs[0]), id);
      LookupsAlike(xs[1..], key, id);
    }
  }

  // ---------------------------------------------------------------------------
  // Customer actions
  // ---------------------------------------------------------------------------

  /** `setCurrentCustomer(customer)`: only `currentCustomer` changes. */
  method SetCurrentCustomer(store: Store<Field, Slot>, storage: P.LocalStorage, customer: Option<Customer>)
    requires HasCore(store.state)
    modifies store`state, store`trace, storage
    ensures store.state == old(store.state)[CurrentCustomer := Selected(customer)]
    ensures HasCore(store.state) && CurrentOf(store.state) == customer
    ensures store.trace == old(store.trace) + store.Notifications(store.state)
    ensures storage.items == old(storage.items) + P.Persisted(store.state)
  {
    MergeOne(store.state, CurrentCustomer, Selected(customer));
    store.SetState(Patch(Some(map[CurrentCustomer := Selected(customer)])));
    P.SaveState(storage, store.state);
  }

  /** The result of `addCustomer(name, phone, email)`: `false` (`None`) for a
      blank name or a non-empty phone already in use, otherwise the trimmed
      record.  No validator is consulted. */
  function NewCustomer(customers: seq<Customer>, name: string, phone: string, email: string,
                       freshId: string): (r: Option<Customer>)
    ensures r.Some? <==> Trim(name) != "" && (Trim(phone) == "" || !PhoneTaken(customers, Trim(phone)))
    ensures r.Some? ==>
              && r.value.id == Str(freshId) && r.value.name == Trim(name)
              && r.value.phone == Trim(phone) && r.value.email == Trim(email)
              && r.value.name != "" && (r.value.phone == "" || !PhoneTaken(customers, r.value.phone))
  {
    if Trim(name) == "" then None
    else if Trim(phone) != "" && PhoneTaken(customers, Trim(phone)) then None
    else Some(Customer(Str(freshId), Trim(name), Trim(phone), Trim(email)))
  }

  /** `addCustomer(name, phone, email)`: on success one `setState` appends the
      customer and the state is saved; on failure nothing happens. */
  method AddCustomer(store: Store<Field, Slot>, storage: P.LocalStorage, name: string, phone: string,
                     email: string, freshId: string) returns (result: Option<Customer>)
    requires HasCore(store.state)
    modifies store`state, store`trace, storage
    ensures result == NewCustomer(CustomersOf(old(store.state)), name, phone, email, freshId)
    ensures result.None? ==>
              store.state == old(store.state) && store.trace == old(store.trace) && storage.items == old(storage.items)
    ensures result.Some? ==>
              && store.state == old(store.state)[Customers := CustomerList(CustomersOf(old(store.state)) + [result.value])]
              && store.trace == old(store.trace) + store.Notifications(store.state)
              && storage.items == old(storage.items) + P.Persisted(store.state)
  {
    var trimmedName := Trim(name);
    var trimmedPhone := Trim(phone);
    if trimmedName == "" {
      return None;
    }
    var state := store.GetState();
    if trimmedPhone != "" && PhoneTaken(CustomersOf(state), trimmedPhone) {
      return None;
    }
    var customer := Customer(Str(freshId), trimmedName, trimmedPhone, Trim(email));
    store.SetState(Patch(Some(map[Customers := CustomerList(CustomersOf(state) + [customer])])));
    MergeOne(state, Customers, CustomerList(CustomersOf(state) + [customer]));
    P.SaveState(storage, store.state);
    result := Some(customer);
  }

  /** The older `addCustomer` accepts exactly what the newer one accepts plus
      the records its validator would refuse (a one-letter name, a malformed
      phone or email), and builds the same record. */
  lemma AddCustomerAgreesWithNewer(customers: seq<Customer>, name: string, phone: string, email: string,
                                   freshId: string)
    ensures Cust.NewCustomer(customers, name, phone, email, freshId).Ok? <==>
              && NewCustomer(customers, name, phone, email, freshId).Some?
              && ValidateCustomer(Cust.Candidate(name, phone, email, freshId)).isValid
    ensures Cust.NewCustomer(customers, name, phone, email, freshId).Ok? ==>
              NewCustomer(customers, name, phone, email, freshId)
              == Some(Cust.NewCustomer(customers, name, phone, email, freshId).value)
  {
  }

  /** A one-letter name is accepted here and refused by the newer layer. */
  lemma OneLetterNameAccepted(customers: seq<Customer>, freshId: string)
    ensures NewCustomer(customers, "A", "", "", freshId) == Some(Customer(Str(freshId), "A", "", ""))
    ensures Cust.NewCustomer(customers, "A", "", "", freshId) == Err("Name must be at least 2 characters")
  {
    TrimNoOuterSpace("A");
    assert Trim("") == "";
    var v := ValidateCustomer(Cust.Candidate("A", "", "", freshId));
    assert Has(v.errors, NameField);
  }

  /** A successful `addCustomer` keeps non-empty phone numbers unique. */
  lemma AddCustomerKeepsPhonesUnique(customers: seq<Customer>, name: string, phone: string,
                                     email: string, freshId: string)
    requires PhonesUnique(customers)
    ensures var r := NewCustomer(customers, name, phone, email, freshId);
            r.Some? ==> PhonesUnique(customers + [r.value])
  {
    var r := NewCustomer(customers, name, phone, email, freshId);
    if r.Some? {
      var cs := customers + [r.value];
      forall i, j | 0 <= i < j < |cs| && cs[i].phone != "" ensures cs[i].phone != cs[j].phone {
        if j == |customers| {
          assert cs[i] == customers[i];
          if r.value.phone == cs[i].phone {
            assert PhoneTaken(customers, r.value.phone);
          }
        }
      }
    }
  }

  /** The state after updating the customer at index `i` to `c`: the selection
      is refreshed when its id loosely equals `id`. */
  function CustomerReplaced(s: AppState, i: nat, id: Id, c: Customer): (r: AppState)
    requires HasCore(s) && i < |CustomersOf(s)|
    ensures HasCore(r)
    ensures |CustomersOf(r)| == |CustomersOf(s)| && CustomersOf(r)[i] == c
    ensures forall j :: 0 <= j < |CustomersOf(s)| && j != i ==> CustomersOf(r)[j] == CustomersOf(s)[j]
    ensures CurrentOf(r) == if LooseEq(CurrentId(s), id) then Some(c) else CurrentOf(s)
    ensures forall f :: f in s && f != Customers && f != CurrentCustomer ==> f in r && r[f] == s[f]
  {
    var s1 := s[Customers := CustomerList(CustomersOf(s)[i := c])];
    UpdateKeepsShape(s, Customers, CustomerList(CustomersOf(s)[i := c]));
    UpdateKeepsShape(s1, CurrentCustomer, Selected(Some(c)));
    if LooseEq(CurrentId(s), id) then s1[CurrentCustomer := Selected(Some(c))] else s1
  }

  /** `updateCustomer(id, updates)`: the first loosely matching customer gets
      the update (the same field rules as the newer layer); `false` when none
      matches. */
  method UpdateCustomer(store: Store<Field, Slot>, storage: P.LocalStorage, id: Id, updates: Cust.CustomerUpdate)
    returns (result: Option<Customer>)
    requires HasCore(store.state)
    modifies store`state, store`trace, storage
    ensures var i := IndexOf(CustomersOf(old(store.state)), CustomerId, id, Loose);
            && (i.None? ==> result.None? && store.state == old(store.state) && store.trace == old(store.trace)
                            && storage.items == old(storage.items))
            && (i.Some? ==>
                  && result == Some(Cust.Revised(CustomersOf(old(store.state))[i.value], updates))
                  && store.state == CustomerReplaced(old(store.state), i.value, id, result.value)
                  && storage.items == old(storage.items) + P.Persisted(store.state)
                  // one round after the list write, a second after a refreshed selection
                  && store.trace == old(store.trace)
                       + store.Notifications(old(store.state)[Customers := CustomerList(
                           CustomersOf(old(store.state))[i.value := result.value])])
                       + (if LooseEq(CurrentId(old(store.state)), id) then store.Notifications(store.state) else []))
  {
    var state := store.GetState();
    var customerIndex := IndexOf(CustomersOf(state), CustomerId, id, Loose);
    if customerIndex.None? {
      return None;
    }
    var i := customerIndex.value;
    var customer := Cust.Revised(CustomersOf(state)[i], updates);
    ReplaceCustomer(store, i, id, customer);
    P.SaveState(storage, store.state);
    result := Some(customer);
  }

  /** The two writes of `updateCustomer`: the list, then the selection when it
      matches. */
  method ReplaceCustomer(store: Store<Field, Slot>, i: nat, id: Id, customer: Customer)
    requires HasCore(store.state) && i < |CustomersOf(store.state)|
    modifies store`state, store`trace
    ensures store.state == CustomerReplaced(old(store.state), i, id, customer)
    ensures store.trace == old(store.trace)
                           + store.Notifications(old(store.state)[Customers := CustomerList(CustomersOf(old(store.state))[i := customer])])
                           + (if LooseEq(CurrentId(old(store.state)), id) then store.Notifications(store.state) else [])
  {
    var state := store.GetState();
    var customers := CustomersOf(state)[i := customer];
    store.SetState(Patch(Some(map[Customers := CustomerList(customers)])));
    MergeOne(state, Customers, CustomerList(customers));
    UpdateKeepsShape(state, Customers, CustomerList(customers));
    ghost var mid := store.state;
    assert mid == state[Customers := CustomerList(customers)];
    assert CurrentId(mid) == CurrentId(state);
    if LooseEq(CurrentId(store.state), id) {
      store.SetState(Patch(Some(map[CurrentCustomer := Selected(Some(customer))])));
      MergeOne(mid, CurrentCustomer, Selected(Some(customer)));
      assert store.state == mid[CurrentCustomer := Selected(Some(customer))];
    }
  }

  /** With numeric ids the older `updateCustomer` finds the same customer and
      leaves the same state as the newer one. */
  lemma UpdateCustomerAgreesWithNewer(s: AppState, id: Id, c: Customer)
    requires Shaped(s) && id.Num? && (forall k :: 0 <= k < |CustomersOf(s)| ==> CustomersOf(s)[k].id.Num?)
    requires CurrentOf(s).Some? ==> CurrentOf(s).value.id.Num?
    ensures IndexOf(CustomersOf(s), CustomerId, id, Loose) == IndexOf(CustomersOf(s), CustomerId, id, Strict)
    ensures var i := IndexOf(CustomersOf(s), CustomerId, id, Loose);
            i.Some? ==> CustomerReplaced(s, i.value, id, c) == Cust.CustomerReplaced(s, i.value, id, c)
  {
    LookupsAlike(CustomersOf(s), CustomerId, id);
  }

  /** The Guest ids `deleteCustomer` refuses, compared with `==`: so `'0'`,
      `'1'`, `''` and `' 1 '` are refused as well. */
  predicate GuestId(id: Id)
    ensures id.Num? ==> (GuestId(id) <==> id.n == 0 || id.n == 1)
    ensures id.Str? ==> (GuestId(id) <==> StringToInteger(id.s) == Some(0) || StringToInteger(id.s) == Some(1))
    ensures id.Undefined? ==> !GuestId(id)
  {
    LooseEq(id, Num(0)) || LooseEq(id, Num(1))
  }

  /** The state after `deleteCustomer(customerId)`: every loosely matching
      customer goes, and if the selection matched, it becomes the first
      'guest' of the list AFTER the deletion (or null). */
  function CustomerDeleted(s: AppState, id: Id): (r: AppState)
    requires HasCore(s)
    ensures HasCore(r)
    ensures GuestId(id) ==> r == s
    ensures !GuestId(id) ==> CustomersOf(r) == Without(CustomersOf(s), CustomerId, id, Loose)
    ensures !GuestId(id) ==> forall c :: c in CustomersOf(r) ==> !LooseEq(c.id, id)
    ensures !GuestId(id) ==>
              CurrentOf(r) == if LooseEq(CurrentId(s), id) then FirstGuest(CustomersOf(r)) else CurrentOf(s)
    ensures !GuestId(id) && LooseEq(CurrentId(s), id) ==> CurrentOf(r).None? || CurrentOf(r).value in CustomersOf(r)
    ensures forall f :: f in s && f != Customers && f != CurrentCustomer ==> f in r && r[f] == s[f]
  {
    if GuestId(id) then s
    else
      var rest := Without(CustomersOf(s), CustomerId, id, Loose);
      assert forall c :: c in rest ==> !LooseEq(c.id, id);
      var s1 := s[Customers := CustomerList(rest)];
      UpdateKeepsShape(s, Customers, CustomerList(rest));
      UpdateKeepsShape(s1, CurrentCustomer, Selected(FirstGuest(rest)));
      if LooseEq(CurrentId(s), id) then s1[CurrentCustomer := Selected(FirstGuest(rest))] else s1
  }

  /** The state after the first `setState` of `deleteCustomer`: the loosely
      matching customers filtered out, nothing else changed. */
  function CustomersFiltered(s: AppState, id: Id): (r: AppState)
    requires HasCore(s)
    ensures HasCore(r)
    ensures CustomersOf(r) == Without(CustomersOf(s), CustomerId, id, Loose)
    ensures r == s[Customers := r[Customers]]
  {
    UpdateKeepsShape(s, Customers, CustomerList(Without(CustomersOf(s), CustomerId, id, Loose)));
    s[Customers := CustomerList(Without(CustomersOf(s), CustomerId, id, Loose))]
  }

  /** The two `setState` calls of `deleteCustomer` for an id that is not a
      Guest id: one round after the filter, and a second one after the
      selection is refreshed when it matched. */
  method DropCustomer(store: Store<Field, Slot>, customerId: Id)
    requires HasCore(store.state) && !GuestId(customerId)
    modifies store`state, store`trace
    ensures store.state == CustomerDeleted(old(store.state), customerId)
    ensures store.trace == old(store.trace) + store.Notifications(CustomersFiltered(old(store.state), customerId))
                           + (if LooseEq(CurrentId(old(store.state)), customerId)
                              then store.Notifications(store.state) else [])
  {
    var state := store.GetState();
    var wasSelected := LooseEq(CurrentId(state), customerId);
    var remaining := Without(CustomersOf(state), CustomerId, customerId, Loose);
    store.SetState(Patch(Some(map[Customers := CustomerList(remaining)])));
    MergeOne(state, Customers, CustomerList(remaining));
    assert store.state == CustomersFiltered(state, customerId);
    if wasSelected {
      var guest := FirstGuest(CustomersOf(store.state));
      ghost var mid := store.state;
      store.SetState(Patch(Some(map[CurrentCustomer := Selected(guest)])));
      MergeOne(mid, CurrentCustomer, Selected(guest));
    }
    assert store.state == CustomerDeleted(state, customerId);
  }

  /** `deleteCustomer(customerId)`: `false` for a Guest id, otherwise `true`
      (even for an unknown id) after the deletion, its one or two
      notification rounds, and a save. */
  method DeleteCustomer(store: Store<Field, Slot>, storage: P.LocalStorage, customerId: Id) returns (deleted: bool)
    requires HasCore(store.state)
    modifies store`state, store`trace, storage
    ensures deleted <==> !GuestId(customerId)
    ensures store.state == CustomerDeleted(old(store.state), customerId)
    ensures !deleted ==> store.trace == old(store.trace) && storage.items == old(storage.items)
    ensures deleted ==> storage.items == old(storage.items) + P.Persisted(store.state)
    ensures deleted ==>
              store.trace == old(store.trace) + store.Notifications(CustomersFiltered(old(store.state), customerId))
                             + (if LooseEq(CurrentId(old(store.state)), customerId)
                                then store.Notifications(store.state) else [])
  {
    if LooseEq(customerId, Num(0)) || LooseEq(customerId, Num(1)) {
      return false;
    }
    DropCustomer(store, customerId);
    P.SaveState(storage, store.state);
    deleted := true;
  }

  /** `'0 == 0'`, `'1' == 1` and `'' == 0` under loose equality. */
  lemma SpelledGuestIds()
    ensures GuestId(Str("0")) && GuestId(Str("1")) && GuestId(Str(""))
  {
    TrimNoOuterSpace("0");
    TrimNoOuterSpace("1");
    assert DigitsValue("0") == 0 by { assert "0"[..0] == ""; }
    assert DigitsValue("1") == 1 by { assert "1"[..0] == ""; }
    assert Trim("") == "";
  }

  /** The string `'0'` is protected here (nothing changes), where the newer
      layer's strict guard lets it through. */
  lemma SpelledGuestIdProtected(s: AppState)
    requires HasCore(s)
    ensures CustomerDeleted(s, Str("0")) == s
    ensures !Cust.GuestId(Str("0"))
  {
    SpelledGuestIds();
  }

  /** Because the guest is looked up after the deletion, a deleted customer
      never stays selected: the case the newer layer gets wrong (a selected
      'guest' namesake under another id) ends with another guest or null. */
  lemma DeletedCustomerNotSelected(s: AppState, c: Customer)
    requires HasCore(s) && !GuestId(c.id) && CurrentOf(s) == Some(c)
    ensures CurrentOf(CustomerDeleted(s, c.id)) != Some(c)
    ensures c !in CustomersOf(CustomerDeleted(s, c.id))
  {
    LooseEqProperties(c.id, c.id);
  }

  // ---------------------------------------------------------------------------
  // Order actions
  // ---------------------------------------------------------------------------

  /** `setOrderType(type)`: only `currentOrderType` changes. */
  method SetOrderType(store: Store<Field, Slot>, storage: P.LocalStorage, orderType: string)
    requires HasCore(store.state)
    modifies store`state, store`trace, storage
    ensures store.state == old(store.state)[CurrentOrderType := OrderKind(orderType)]
    ensures HasCore(store.state) && OrderTypeOf(store.state) == orderType
    ensures store.trace == old(store.trace) + store.Notifications(store.state)
    ensures storage.items == old(storage.items) + P.Persisted(store.state)
  {
    MergeOne(store.state, CurrentOrderType, OrderKind(orderType));
    store.SetState(Patch(Some(map[CurrentOrderType := OrderKind(orderType)])));
    P.SaveState(storage, store.state);
  }

  /** The result of `placeOrder(paymentMethod, opts)` in state `s`: `null` on
      an empty cart; otherwise a record of the whole cart, the selection and the
      order type, where the subtotal defaults to the cart total and the total
      to `subtotal - discountValue + taxAmount`.  Nothing is validated. */
  function NewOrder(s: AppState, paymentMethod: Option<string>, o: Ord.OrderOptions, freshId: string, now: string)
    : (r: Option<Order>)
    requires HasCore(s)
    ensures r.None? <==> CartOf(s) == []
    ensures r.Some? ==>
              && r.value.items == CartOf(s) && r.value.customer == CurrentOf(s)
              && r.value.orderType == OrderTypeOf(s)
              && r.value.id == Str(freshId) && r.value.timestamp == now
              && r.value.paymentMethod == paymentMethod.GetOr("cash")
    ensures r.Some? ==> r.value.subtotal == Some(o.subtotal.GetOr(CartTotal(CartOf(s))))
    ensures r.Some? && o.total.Some? ==> r.value.total == o.total.value
    ensures r.Some? && o.total.None? ==>
              r.value.total == r.value.subtotal.value - r.value.discountValue + r.value.taxAmount
  {
    if CartOf(s) == [] then None
    else
      var subtotal := o.subtotal.GetOr(CartTotal(CartOf(s)));
      var discountValue := o.discountValue.GetOr(0.0);
      var taxAmount := o.taxAmount.GetOr(0.0);
      var total := o.total.GetOr(subtotal - discountValue + taxAmount);
      Some(Order(Str(freshId), CartOf(s), CurrentOf(s), OrderTypeOf(s), Some(subtotal),
                 discountValue, o.discountType.GetOr("none"), o.taxRate.GetOr(0.0), taxAmount, total,
                 o.amountReceived.GetOr(0.0), o.changeDue.GetOr(0.0), paymentMethod.GetOr("cash"),
                 o.paymentStatus.GetOr("unpaid"), o.status.GetOr("preparing"), now))
  }

  /** The state after a successful `placeOrder`: the order appended and the cart
      emptied. */
  function OrderPlaced(s: AppState, order: Order): (r: AppState)
    requires HasCore(s)
    ensures HasCore(r)
    ensures OrdersOf(r) == OrdersOf(s) + [order] && CartOf(r) == []
    ensures forall f :: f in s && f != Orders && f != Cart ==> f in r && r[f] == s[f]
  {
    s[Orders := OrderList(OrdersOf(s) + [order])][Cart := CartLines([])]
  }

  /** `placeOrder(paymentMethod, opts)`: one `setState` writes the orders and
      the emptied cart. */
  method PlaceOrder(store: Store<Field, Slot>, storage: P.LocalStorage, paymentMethod: Option<string>,
                    options: Ord.OrderOptions, freshId: string, now: string) returns (result: Option<Order>)
    requires HasCore(store.state)
    modifies store`state, store`trace, storage
    ensures result == NewOrder(old(store.state), paymentMethod, options, freshId, now)
    ensures result.None? ==>
              store.state == old(store.state) && store.trace == old(store.trace) && storage.items == old(storage.items)
    ensures result.Some? ==>
              && store.state == OrderPlaced(old(store.state), result.value)
              && store.trace == old(store.trace) + store.Notifications(store.state)
              && storage.items == old(storage.items) + P.Persisted(store.state)
  {
    var state := store.GetState();
    if |CartOf(state)| == 0 {
      return None;
    }
    var order := NewOrder(state, paymentMethod, options, freshId, now).value;
    store.SetState(Patch(Some(map[Orders := OrderList(OrdersOf(state) + [order]), Cart := CartLines([])])));
    MergeTwo(state, Orders, OrderList(OrdersOf(state) + [order]), Cart, CartLines([]));
    assert store.state == OrderPlaced(state, order);
    P.SaveState(storage, store.state);
    result := Some(order);
  }

  /** Whenever the newer `placeOrder` succeeds, the older one builds the same
      order, except that a missing subtotal becomes the cart total. */
  lemma PlaceOrderAgreesWithNewer(s: AppState, paymentMethod: Option<string>, o: Ord.OrderOptions,
                                  freshId: string, now: string)
    requires HasCore(s)
    ensures var newer := Ord.NewOrder(s, paymentMethod, o, freshId, now);
            newer.Ok? ==>
              NewOrder(s, paymentMethod, o, freshId, now)
              == Some(newer.value.(subtotal := Some(o.subtotal.GetOr(CartTotal(CartOf(s))))))
  {
  }

  /** Without a total, a discount larger than the subtotal gives a NEGATIVE
      total: the fallback is neither clamped at 0 nor capped like the checkout's
      flat discount.  The newer layer refuses a missing total outright. */
  lemma FallbackTotalUnclamped(s: AppState, d: real, freshId: string, now: string)
    requires HasCore(s) && CartOf(s) != [] && d > CartTotal(CartOf(s))
    ensures var o := Ord.NoOptions.(discountValue := Some(d));
            && NewOrder(s, None, o, freshId, now).Some?
            && NewOrder(s, None, o, freshId, now).value.total < 0.0
            && Ord.NewOrder(s, None, o, freshId, now).Err?
  {
  }

  /** An order for the Guest (customer id 0) is placed here; the newer layer
      refuses it. */
  lemma GuestOrderAccepted(s: AppState, paymentMethod: Option<string>, o: Ord.OrderOptions,
                           freshId: string, now: string)
    requires HasCore(s) && CartOf(s) != [] && |CartOf(s)| <= ORDER_MAX_ITEMS
    requires CurrentOf(s).Some? && CurrentOf(s).value.id == Num(0)
    ensures NewOrder(s, paymentMethod, o, freshId, now).Some?
    ensures Ord.NewOrder(s, paymentMethod, o, freshId, now) == Err("Customer is required")
  {
    Ord.GuestCannotPlaceOrder(s, paymentMethod, o, freshId, now);
  }

  /** `getOrderStats()` after a placed order: one more order and its total
      added to the revenue. */
  lemma StatsAfterPlaceOrder(s: AppState, order: Order)
    requires HasCore(s)
    ensures Sel.GetOrderStats(OrdersOf(OrderPlaced(s, order))).total == Sel.GetOrderStats(OrdersOf(s)).total + 1
    ensures Sel.GetOrderStats(OrdersOf(OrderPlaced(s, order))).revenue
            == Sel.GetOrderStats(OrdersOf(s)).revenue + order.total
  {
    Sel.OrderStatsAppend(OrdersOf(s), order);
  }

  /** The state with the order at index `i` replaced. */
  function OrderReplaced(s: AppState, i: nat, order: Order): (r: AppState)
    requires HasCore(s) && i < |OrdersOf(s)|
    ensures HasCore(r)
    ensures |OrdersOf(r)| == |OrdersOf(s)| && OrdersOf(r)[i] == order
    ensures forall j :: 0 <= j < |OrdersOf(s)| && j != i ==> OrdersOf(r)[j] == OrdersOf(s)[j]
    ensures forall f :: f in s && f != Orders ==> f in r && r[f] == s[f]
  {
    s[Orders := OrderList(OrdersOf(s)[i := order])]
  }

  /** `updateOrder(orderId, updates)`: the first loosely matching order gets
      `{ ...order, ...updates }`; `false` when none matches. */
  method UpdateOrder(store: Store<Field, Slot>, storage: P.LocalStorage, orderId: Id, updates: Ord.OrderPatch)
    returns (result: Option<Order>)
    requires HasCore(store.state)
    modifies store`state, store`trace, storage
    ensures var i := IndexOf(OrdersOf(old(store.state)), OrderId, orderId, Loose);
            && (i.None? ==> result.None? && store.state == old(store.state) && store.trace == old(store.trace)
                            && storage.items == old(storage.items))
            && (i.Some? ==>
                  && result == Some(Ord.Patched(OrdersOf(old(store.state))[i.value], updates))
                  && store.state == OrderReplaced(old(store.state), i.value, result.value)
                  && store.trace == old(store.trace) + store.Notifications(store.state)
                  && storage.items == old(storage.items) + P.Persisted(store.state))
  {
    var state := store.GetState();
    var orderIndex := IndexOf(OrdersOf(state), OrderId, orderId, Loose);
    if orderIndex.None? {
      return None;
    }
    var i := orderIndex.value;
    var orders := OrdersOf(state);
    orders := orders[i := Ord.Patched(orders[i], updates)];
    store.SetState(Patch(Some(map[Orders := OrderList(orders)])));
    MergeOne(state, Orders, OrderList(orders));
    P.SaveState(storage, store.state);
    result := Some(orders[i]);
  }

  /** `deleteOrder(orderId)`: `false` with nothing changed when no order
      loosely matches; otherwise every match goes. */
  method DeleteOrder(store: Store<Field, Slot>, storage: P.LocalStorage, orderId: Id) returns (deleted: bool)
    requires HasCore(store.state)
    modifies store`state, store`trace, storage
    ensures var orders := OrdersOf(old(store.state));
            && (deleted <==> exists o :: o in orders && LooseEq(o.id, orderId))
            && (!deleted ==> store.state == old(store.state) && store.trace == old(store.trace)
                             && storage.items == old(storage.items))
            && (deleted ==>
                  && store.state == old(store.state)[Orders := OrderList(Without(orders, OrderId, orderId, Loose))]
                  && |OrdersOf(store.state)| < |orders|
                  && store.trace == old(store.trace) + store.Notifications(store.state)
                  && storage.items == old(storage.items) + P.Persisted(store.state))
  {
    var state := store.GetState();
    var filtered := Without(OrdersOf(state), OrderId, orderId, Loose);
    assert forall o :: OrderId(o) == o.id;
    if |filtered| == |OrdersOf(state)| {
      return false;
    }
    store.SetState(Patch(Some(map[Orders := OrderList(filtered)])));
    MergeOne(state, Orders, OrderList(filtered));
    P.SaveState(storage, store.state);
    deleted := true;
  }

  /** `markOrderPaid(orderId, amount)`: `updateOrder` with the newer layer's
      payment patch (received defaults to the total, change never negative,
      'paid' exactly when enough was received). */
  method MarkOrderPaid(store: Store<Field, Slot>, storage: P.LocalStorage, orderId: Id, amount: Option<real>)
    returns (result: Option<Order>)
    requires HasCore(store.state)
    modifies store`state, store`trace, storage
    ensures var i := IndexOf(OrdersOf(old(store.state)), OrderId, orderId, Loose);
            && (i.None? ==> result.None? && store.state == old(store.state) && store.trace == old(store.trace)
                            && storage.items == old(storage.items))
            && (i.Some? ==>
                  var o := OrdersOf(old(store.state))[i.value];
                  && result == Some(Ord.Patched(o, Ord.PaymentPatch(o.total, amount)))
                  && store.state == OrderReplaced(old(store.state), i.value, result.value)
                  && store.trace == old(store.trace) + store.Notifications(store.state)
                  && storage.items == old(storage.items) + P.Persisted(store.state))
  {
    var state := store.GetState();
    var index := IndexOf(OrdersOf(state), OrderId, orderId, Loose);
    if index.None? {
      return None;
    }
    var order := OrdersOf(state)[index.value];
    result := UpdateOrder(store, storage, orderId, Ord.PaymentPatch(order.total, amount));
  }

  // ---------------------------------------------------------------------------
  // Product actions
  // ---------------------------------------------------------------------------

  /** The result of `addProduct(name, price, category, image)`: `false` unless
      the trimmed name and category are present and the price is a finite
      number at least 0; the image is `(image || DEFAULT_PRODUCT_IMAGE).trim()`.
      No name-length check. */
  function NewProduct(name: string, price: Option<real>, category: string, image: string,
                      freshId: string): (r: Option<Product>)
    ensures r.Some? <==> Prod.Acceptable(name, price, category)
    ensures r.Some? ==>
              && r.value.id == Str(freshId) && r.value.name == Trim(name) && r.value.name != ""
              && r.value.category == Trim(category) && r.value.category != ""
              && r.value.price == price.value && r.value.price >= 0.0
              && r.value.image == Trim(Prod.ImageOrDefault(image))
  {
    if !Prod.Acceptable(name, price, category) then None
    else Some(Product(Str(freshId), Trim(name), price.value, Trim(category), Trim(Prod.ImageOrDefault(image))))
  }

  /** `addProduct(...)`: on success the product is appended and saved. */
  method AddProduct(store: Store<Field, Slot>, storage: P.LocalStorage, name: string, price: Option<real>,
                    category: string, image: string, freshId: string) returns (result: Option<Product>)
    requires HasCore(store.state)
    modifies store`state, store`trace, storage
    ensures result == NewProduct(name, price, category, image, freshId)
    ensures result.None? ==>
              store.state == old(store.state) && store.trace == old(store.trace) && storage.items == old(storage.items)
    ensures result.Some? ==>
              && store.state == old(store.state)[Products := ProductList(ProductsOf(old(store.state)) + [result.value])]
              && store.trace == old(store.trace) + store.Notifications(store.state)
              && storage.items == old(storage.items) + P.Persisted(store.state)
  {
    var trimmedName := Trim(name);
    var trimmedCategory := Trim(category);
    if trimmedName == "" || trimmedCategory == "" || price.None? || price.value < 0.0 {
      return None;
    }
    var product := Product(Str(freshId), trimmedName, price.value, trimmedCategory, Trim(Prod.ImageOrDefault(image)));
    var state := store.GetState();
    store.SetState(Patch(Some(map[Products := ProductList(ProductsOf(state) + [product])])));
    MergeOne(state, Products, ProductList(ProductsOf(state) + [product]));
    P.SaveState(storage, store.state);
    result := Some(product);
  }

  /** The older `addProduct` accepts what the newer one accepts plus names of
      one or two characters, and stores the trimmed image. */
  lemma AddProductAgreesWithNewer(name: string, price: Option<real>, category: string, image: string,
                                  freshId: string)
    ensures Prod.NewProduct(name, price, category, image, freshId).Ok? <==>
              NewProduct(name, price, category, image, freshId).Some? && |Trim(name)| >= PRODUCT_NAME_MIN_LENGTH
    ensures var newer := Prod.NewProduct(name, price, category, image, freshId);
            newer.Ok? ==>
              NewProduct(name, price, category, image, freshId) == Some(newer.value.(image := Trim(newer.value.image)))
  {
  }

  /** An image of spaces only is kept (it is truthy) and then trimmed away: the
      product is stored with an empty image, where the newer layer keeps the
      spaces. */
  lemma BlankImageStoredEmpty(name: string, price: Option<real>, category: string, image: string, freshId: string)
    requires Prod.Acceptable(name, price, category) && image != "" && AllSpace(image)
    ensures NewProduct(name, price, category, image, freshId).value.image == ""
  {
  }

  /** The state with the product at index `i` replaced. */
  function ProductReplaced(s: AppState, i: nat, p: Product): (r: AppState)
    requires HasCore(s) && i < |ProductsOf(s)|
    ensures HasCore(r)
    ensures |ProductsOf(r)| == |ProductsOf(s)| && ProductsOf(r)[i] == p
    ensures forall j :: 0 <= j < |ProductsOf(s)| && j != i ==> ProductsOf(r)[j] == ProductsOf(s)[j]
    ensures forall f :: f in s && f != Products ==> f in r && r[f] == s[f]
  {
    s[Products := ProductList(ProductsOf(s)[i := p])]
  }

  /** `updateProduct(id, updates)`: the first loosely matching product gets the
      update (the same field rules as the newer layer); `false` when none
      matches. */
  method UpdateProduct(store: Store<Field, Slot>, storage: P.LocalStorage, id: Id, updates: Prod.ProductUpdate)
    returns (result: Option<Product>)
    requires HasCore(store.state)
    modifies store`state, store`trace, storage
    ensures var i := IndexOf(ProductsOf(old(store.state)), ProductId, id, Loose);
            && (i.None? ==> result.None? && store.state == old(store.state) && store.trace == old(store.trace)
                            && storage.items == old(storage.items))
            && (i.Some? ==>
                  && result == Some(Prod.Revised(ProductsOf(old(store.state))[i.value], updates))
                  && store.state == ProductReplaced(old(store.state), i.value, result.value)
                  && store.trace == old(store.trace) + store.Notifications(store.state)
                  && storage.items == old(storage.items) + P.Persisted(store.state))
  {
    var state := store.GetState();
    var productIndex := IndexOf(ProductsOf(state), ProductId, id, Loose);
    if productIndex.None? {
      return None;
    }
    var i := productIndex.value;
    var product := Prod.Revised(ProductsOf(state)[i], updates);
    var products := ProductsOf(state)[i := product];
    store.SetState(Patch(Some(map[Products := ProductList(products)])));
    MergeOne(state, Products, ProductList(products));
    P.SaveState(storage, store.state);
    result := Some(product);
  }

  /** Prices stay non-negative under every update. */
  lemma UpdateKeepsPricesNonNegative(s: AppState, i: nat, u: Prod.ProductUpdate)
    requires HasCore(s) && i < |ProductsOf(s)|
    requires forall p :: p in ProductsOf(s) ==> p.price >= 0.0
    ensures forall p :: p in ProductsOf(ProductReplaced(s, i, Prod.Revised(ProductsOf(s)[i], u))) ==> p.price >= 0.0
  {
    var r := ProductReplaced(s, i, Prod.Revised(ProductsOf(s)[i], u));
    forall p | p in ProductsOf(r) ensures p.price >= 0.0 {
      var j :| 0 <= j < |ProductsOf(r)| && ProductsOf(r)[j] == p;
      if j != i {
        assert ProductsOf(s)[j] in ProductsOf(s);
      }
    }
  }

  /** `deleteProduct(productId)`: always `true`; every loosely matching product
      goes and an unknown id leaves the list as it was. */
  method DeleteProduct(store: Store<Field, Slot>, storage: P.LocalStorage, productId: Id) returns (deleted: bool)
    requires HasCore(store.state)
    modifies store`state, store`trace, storage
    ensures deleted
    ensures store.state == old(store.state)[Products := ProductList(Without(ProductsOf(old(store.state)), ProductId, productId, Loose))]
    ensures forall p :: p in ProductsOf(store.state) ==> !LooseEq(p.id, productId)
    ensures (forall p :: p in ProductsOf(old(store.state)) ==> !LooseEq(p.id, productId)) ==>
              ProductsOf(store.state) == ProductsOf(old(store.state))
    ensures store.trace == old(store.trace) + store.Notifications(store.state)
    ensures storage.items == old(storage.items) + P.Persisted(store.state)
  {
    var state := store.GetState();
    var remaining := Without(ProductsOf(state), ProductId, productId, Loose);
    assert forall p :: ProductId(p) == p.id;
    store.SetState(Patch(Some(map[Products := ProductList(remaining)])));
    MergeOne(state, Products, ProductList(remaining));
    P.SaveState(storage, store.state);
    deleted := true;
  }

  /** With numeric ids, deleting a product leaves the same list as the newer
      layer's `deleteProduct`. */
  lemma DeleteProductAgreesWithNewer(products: seq<Product>, id: Id)
    requires id.Num? && forall k :: 0 <= k < |products| ==> products[k].id.Num?
    ensures Without(products, ProductId, id, Loose) == Without(products, ProductId, id, Strict)
  {
    LookupsAlike(products, ProductId, id);
  }
}
