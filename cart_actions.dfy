/** The cart actions of the newer action layer: adding, removing, re-quantifying
    and clearing cart lines over the reactive store, each recorded in a bounded
    undo history (newest first, at most five entries) that `UndoLastAction`
    pops.  Ids are matched strictly (`===`).

    Each action is a method over the store whose effect is stated by a function
    on the application state; the properties of those functions are the lemmas
    below them. */
module CartActions {
  import opened Wrappers
  import opened Domain
  import opened ReactiveStore

  /** How many undo entries are kept. */
  const MAX_HISTORY: nat := 5

  function Min(a: int, b: int): int {
    if a < b then a else b
  }

  /** `[entry, ...history].slice(0, MAX_HISTORY)`: the new entry first, then the
      most recent older entries, five entries at most. */
  function Push(history: seq<HistoryEntry>, e: HistoryEntry): (r: seq<HistoryEntry>)
    ensures |r| == Min(|history| + 1, MAX_HISTORY)
    ensures r[0] == e && r[1..] == history[..|r| - 1]
  {
    ([e] + history)[..Min(|history| + 1, MAX_HISTORY)]
  }

  // ---------------------------------------------------------------------------
  // The effect of each action on the state
  // ---------------------------------------------------------------------------

  /** `setState({ cart })`. */
  function WithCart(s: AppState, cart: seq<CartItem>): (r: AppState)
    requires Shaped(s)
    ensures Shaped(r)
    ensures CartOf(r) == cart && HistoryOf(r) == HistoryOf(s) && LastOf(r) == LastOf(s)
    // only the cart changes: every other key keeps its value
    ensures r == s[Cart := r[Cart]]
  {
    s[Cart := CartLines(cart)]
  }

  /** `recordAction`: `setState({ actionHistory: push(entry), lastAction: type })`. */
  function Record(s: AppState, kind: ActionType, data: ActionData, previousCart: seq<CartItem>)
    : (r: AppState)
    requires Shaped(s)
    ensures Shaped(r)
  {
    s[ActionHistory := History(Push(HistoryOf(s), Entry(kind, data, previousCart)))]
     [LastAction := LastType(Some(kind))]
  }

  /** The line a strict `cart.find(i => i.id === id)` finds. */
  function Found(cart: seq<CartItem>, id: Id): Option<CartItem> {
    var i := IndexOf(cart, LineId, id, Strict);
    if i.Some? then Some(cart[i.value]) else None
  }

  function Added(s: AppState, product: Option<Product>): (r: AppState)
    requires Shaped(s)
    ensures Shaped(r)
  {
    if product.None? || Falsy(product.value.id) then s
    else
      var p := product.value;
      Record(WithCart(s, AddLine(CartOf(s), p, Strict)), AddToCart, ProductRef(p.id, p.name), CartOf(s))
  }

  function Removed(s: AppState, id: Id): (r: AppState)
    requires Shaped(s)
    ensures Shaped(r)
  {
    var after := WithCart(s, Without(CartOf(s), LineId, id, Strict));
    match Found(CartOf(s), id)
    case None => after
    case Some(item) => Record(after, RemoveFromCart, ProductRef(id, item.name), CartOf(s))
  }

  function Requantified(s: AppState, id: Id, q: int): (r: AppState)
    requires Shaped(s)
    ensures Shaped(r)
  {
    if q <= 0 then Removed(s, id)
    else
      var after := WithCart(s, Requantify(CartOf(s), id, q, Strict));
      match Found(CartOf(s), id)
      case None => after
      case Some(item) =>
        Record(after, UpdateQuantity, QuantityChange(id, item.name, item.quantity, q), CartOf(s))
  }

  function Cleared(s: AppState): (r: AppState)
    requires Shaped(s)
    ensures Shaped(r)
  {
    Record(WithCart(s, []), ClearCart, ItemCount(|CartOf(s)|), CartOf(s))
  }

  /** `undoLastAction`: restore the head entry's cart, pop it, and set
      `lastAction` to the new head's type or null; nothing on an empty history. */
  function Undone(s: AppState): (r: AppState)
    requires Shaped(s)
    ensures Shaped(r)
  {
    var h := HistoryOf(s);
    if h == [] then s
    else
      var remaining := h[1..];
      s[Cart := CartLines(h[0].previousCart)]
       [ActionHistory := History(remaining)]
       [LastAction := LastType(if remaining == [] then None else Some(remaining[0].kind))]
  }

  // ---------------------------------------------------------------------------
  // The actions over the store
  // ---------------------------------------------------------------------------

  method RecordAction(store: Store<Field, Slot>, kind: ActionType, data: ActionData,
                      previousCart: seq<CartItem>)
    requires Shaped(store.state)
    modifies store`state, store`trace
    ensures store.state == Record(old(store.state), kind, data, previousCart)
    ensures store.trace == old(store.trace) + store.Notifications(store.state)
  {
    var state := store.GetState();
    var newHistory := Push(HistoryOf(state), Entry(kind, data, previousCart));
    store.SetState(Patch(Some(map[ActionHistory := History(newHistory),
                                  LastAction := LastType(Some(kind))])));
    assert store.state == Record(state, kind, data, previousCart);
  }

  /** `addToCart(store, product)`. */
  method AddToCartAction(store: Store<Field, Slot>, product: Option<Product>)
    requires Shaped(store.state)
    modifies store`state, store`trace
    ensures store.state == Added(old(store.state), product)
    ensures product.None? || Falsy(product.value.id) ==> store.trace == old(store.trace)
    ensures product.Some? && !Falsy(product.value.id) ==>
              store.trace == old(store.trace)
                             + store.Notifications(WithCart(old(store.state),
                                                            AddLine(CartOf(old(store.state)), product.value, Strict)))
                             + store.Notifications(store.state)
  {
    if product.None? || Falsy(product.value.id) {
      return;
    }
    var p := product.value;
    var state := store.GetState();
    var previousCart := CartOf(state);
    if IndexOf(CartOf(state), LineId, p.id, Strict).Some? {
      store.SetState(Patch(Some(map[Cart := CartLines(Bump(CartOf(state), p.id, Strict))])));
    } else {
      store.SetState(Patch(Some(map[Cart := CartLines(CartOf(state) + [LineOf(p, 1)])])));
    }
    MergeOne(state, Cart, CartLines(AddLine(previousCart, p, Strict)));
    RecordAction(store, AddToCart, ProductRef(p.id, p.name), previousCart);
  }

  /** `removeFromCart(store, productId)`. */
  method RemoveFromCartAction(store: Store<Field, Slot>, productId: Id)
    requires Shaped(store.state)
    modifies store`state, store`trace
    ensures store.state == Removed(old(store.state), productId)
    ensures var mid := WithCart(old(store.state), Without(CartOf(old(store.state)), LineId, productId, Strict));
            store.trace == old(store.trace) + store.Notifications(mid)
                           + (if Found(CartOf(old(store.state)), productId).Some?
                              then store.Notifications(store.state) else [])
  {
    var state := store.GetState();
    var previousCart := CartOf(state);
    var item := Found(CartOf(state), productId);
    var updatedCart := Without(CartOf(state), LineId, productId, Strict);
    store.SetState(Patch(Some(map[Cart := CartLines(updatedCart)])));
    MergeOne(state, Cart, CartLines(updatedCart));
    if item.Some? {
      RecordAction(store, RemoveFromCart, ProductRef(productId, item.value.name), previousCart);
    }
  }

  /** `updateCartQuantity(store, productId, quantity)`. */
  method UpdateCartQuantityAction(store: Store<Field, Slot>, productId: Id, quantity: int)
    requires Shaped(store.state)
    modifies store`state, store`trace
    ensures store.state == Requantified(old(store.state), productId, quantity)
    ensures quantity > 0 ==>
              var mid := WithCart(old(store.state), Requantify(CartOf(old(store.state)), productId, quantity, Strict));
              store.trace == old(store.trace) + store.Notifications(mid)
                             + (if Found(CartOf(old(store.state)), productId).Some?
                                then store.Notifications(store.state) else [])
  {
    if quantity <= 0 {
      RemoveFromCartAction(store, productId);
      return;
    }
    var state := store.GetState();
    var previousCart := CartOf(state);
    var item := Found(CartOf(state), productId);
    var updatedCart := Requantify(CartOf(state), productId, quantity, Strict);
    store.SetState(Patch(Some(map[Cart := CartLines(updatedCart)])));
    MergeOne(state, Cart, CartLines(updatedCart));
    if item.Some? {
      RecordAction(store, UpdateQuantity,
                   QuantityChange(productId, item.value.name, item.value.quantity, quantity), previousCart);
    }
  }

  /** `clearCart(store)`. */
  method ClearCartAction(store: Store<Field, Slot>)
    requires Shaped(store.state)
    modifies store`state, store`trace
    ensures store.state == Cleared(old(store.state))
    ensures store.trace == old(store.trace) + store.Notifications(WithCart(old(store.state), []))
                           + store.Notifications(store.state)
  {
    var state := store.GetState();
    var previousCart := CartOf(state);
    store.SetState(Patch(Some(map[Cart := CartLines([])])));
    MergeOne(state, Cart, CartLines([]));
    RecordAction(store, ClearCart, ItemCount(|previousCart|), previousCart);
  }

  /** `undoLastAction(store)`: false (and no notification) on an empty history. */
  method UndoLastAction(store: Store<Field, Slot>) returns (undone: bool)
    requires Shaped(store.state)
    modifies store`state, store`trace
    ensures undone <==> HistoryOf(old(store.state)) != []
    ensures store.state == Undone(old(store.state))
    ensures store.trace == old(store.trace) + (if undone then store.Notifications(store.state) else [])
  {
    var state := store.GetState();
    var history := HistoryOf(state);
    if |history| == 0 {
      return false;
    }
    var lastAction := history[0];
    var remainingHistory := history[1..];
    store.SetState(Patch(Some(map[Cart := CartLines(lastAction.previousCart),
                                  ActionHistory := History(remainingHistory),
                                  LastAction := LastType(if remainingHistory == [] then None
                                                         else Some(remainingHistory[0].kind))])));
    assert store.state == Undone(state);
    return true;
  }

  // ---------------------------------------------------------------------------
  // Properties of the actions
  // ---------------------------------------------------------------------------

  /** The undo history is at most five entries long and `lastAction` names its
      head (null when it is empty). */
  predicate HistoryInvariant(s: AppState)
    requires Shaped(s)
  {
    && |HistoryOf(s)| <= MAX_HISTORY
    && LastOf(s) == if HistoryOf(s) == [] then None else Some(HistoryOf(s)[0].kind)
  }

  /** Recording puts the entry first, keeps at most five, and names its type as
      `lastAction`; nothing but the history and `lastAction` changes. */
  lemma RecordEffect(s: AppState, kind: ActionType, data: ActionData, previousCart: seq<CartItem>)
    requires Shaped(s)
    ensures var r := Record(s, kind, data, previousCart);
            && HistoryOf(r)[0] == Entry(kind, data, previousCart)
            && HistoryOf(r)[1..] == HistoryOf(s)[..|HistoryOf(r)| - 1]
            && HistoryInvariant(r)
            && LastOf(r) == Some(kind)
            && forall f :: f != ActionHistory && f != LastAction ==> (f in r <==> f in s) && (f in s ==> r[f] == s[f])
  {
  }

  /** `addToCart`: a missing or falsy id changes nothing; otherwise the cart is
      `AddLine` of the old cart and an 'ADD_TO_CART' entry holding the old cart
      is recorded. */
  lemma AddToCartEffect(s: AppState, product: Option<Product>)
    requires Shaped(s)
    ensures product.None? || Falsy(product.value.id) ==> Added(s, product) == s
    ensures product.Some? && !Falsy(product.value.id) ==>
              var r := Added(s, product);
              && CartOf(r) == AddLine(CartOf(s), product.value, Strict)
              && HistoryOf(r)[0] == Entry(AddToCart, ProductRef(product.value.id, product.value.name), CartOf(s))
              && LastOf(r) == Some(AddToCart)
              && ProductsOf(r) == ProductsOf(s) && OrdersOf(r) == OrdersOf(s)
              && CustomersOf(r) == CustomersOf(s) && CurrentOf(r) == CurrentOf(s)
    ensures product.Some? && !Falsy(product.value.id) && UniqueIds(CartOf(s), Strict) ==>
              UniqueIds(CartOf(Added(s, product)), Strict)
  {
    if product.Some? && !Falsy(product.value.id) && UniqueIds(CartOf(s), Strict) {
      AddLineKeepsIdsUnique(CartOf(s), product.value, Strict);
    }
  }

  /** A strict `find` succeeds exactly when some line has the id. */
  lemma FoundIffPresent(cart: seq<CartItem>, id: Id)
    ensures Found(cart, id).Some? <==> exists line :: line in cart && line.id == id
    ensures Found(cart, id).Some? ==> Found(cart, id).value in cart && Found(cart, id).value.id == id
  {
    var found := IndexOf(cart, LineId, id, Strict);
    if exists line :: line in cart && line.id == id {
      var line :| line in cart && line.id == id;
      var i :| 0 <= i < |cart| && cart[i] == line;
      assert LineId(cart[i]) == id;
    }
  }

  /** `removeFromCart`: every line with the id goes and the others stay; when
      no line has the id nothing changes, otherwise a 'REMOVE_FROM_CART' entry
      holding the pre-removal cart is recorded. */
  lemma RemoveFromCartEffect(s: AppState, id: Id)
    requires Shaped(s)
    ensures forall line :: line in CartOf(Removed(s, id)) <==> line in CartOf(s) && line.id != id
    ensures (forall line :: line in CartOf(s) ==> line.id != id) ==> Removed(s, id) == s
    ensures (exists line :: line in CartOf(s) && line.id == id) ==>
              && HistoryOf(Removed(s, id))[0].kind == RemoveFromCart
              && HistoryOf(Removed(s, id))[0].previousCart == CartOf(s)
              && LastOf(Removed(s, id)) == Some(RemoveFromCart)
  {
    FoundIffPresent(CartOf(s), id);
    assert forall line :: LineId(line) == line.id;
  }

  /** `updateCartQuantity`: a quantity of 0 or less is exactly `removeFromCart`;
      otherwise the lines with the id get that quantity and the others stay, and
      an 'UPDATE_QUANTITY' entry with the line's old and new quantity is recorded
      only when such a line existed (else nothing changes). */
  lemma UpdateCartQuantityEffect(s: AppState, id: Id, q: int)
    requires Shaped(s)
    ensures q <= 0 ==> Requantified(s, id, q) == Removed(s, id)
    ensures q > 0 ==>
              && |CartOf(Requantified(s, id, q))| == |CartOf(s)|
              && forall i :: 0 <= i < |CartOf(s)| ==>
                   CartOf(Requantified(s, id, q))[i]
                   == if CartOf(s)[i].id == id then CartOf(s)[i].(quantity := q) else CartOf(s)[i]
    ensures q > 0 && (forall line :: line in CartOf(s) ==> line.id != id) ==> Requantified(s, id, q) == s
    ensures q > 0 && (exists line :: line in CartOf(s) && line.id == id) ==>
              exists line :: line in CartOf(s) && line.id == id
                             && HistoryOf(Requantified(s, id, q))[0]
                                == Entry(UpdateQuantity, QuantityChange(id, line.name, line.quantity, q), CartOf(s))
  {
    FoundIffPresent(CartOf(s), id);
    if q > 0 && (forall line :: line in CartOf(s) ==> line.id != id) {
      assert Requantify(CartOf(s), id, q, Strict) == CartOf(s);
    }
  }

  /** `clearCart`: the cart is emptied and a 'CLEAR_CART' entry with the old line
      count and cart is recorded, even when the cart was already empty. */
  lemma ClearCartEffect(s: AppState)
    requires Shaped(s)
    ensures CartOf(Cleared(s)) == []
    ensures HistoryOf(Cleared(s))[0] == Entry(ClearCart, ItemCount(|CartOf(s)|), CartOf(s))
    ensures LastOf(Cleared(s)) == Some(ClearCart)
  {
  }

  /** `undoLastAction`: on an empty history nothing changes; otherwise only the
      cart (from the head entry), the history (popped) and `lastAction` change. */
  lemma UndoEffect(s: AppState)
    requires Shaped(s)
    ensures HistoryOf(s) == [] ==> Undone(s) == s
    ensures HistoryOf(s) != [] ==>
              var r := Undone(s);
              && CartOf(r) == HistoryOf(s)[0].previousCart
              && HistoryOf(r) == HistoryOf(s)[1..]
              && LastOf(r) == (if |HistoryOf(s)| == 1 then None else Some(HistoryOf(s)[1].kind))
              && ProductsOf(r) == ProductsOf(s) && OrdersOf(r) == OrdersOf(s)
              && CustomersOf(r) == CustomersOf(s) && CurrentOf(r) == CurrentOf(s)
              && OrderTypeOf(r) == OrderTypeOf(s)
  {
  }

  // ---------------------------------------------------------------------------
  // Sequences of cart actions and their undo
  // ---------------------------------------------------------------------------

  datatype CartAction =
    | Add(product: Option<Product>)
    | Remove(id: Id)
    | SetQuantity(id: Id, quantity: int)
    | Clear

  function Apply(s: AppState, a: CartAction): (r: AppState)
    requires Shaped(s)
    ensures Shaped(r)
  {
    match a
    case Add(p) => Added(s, p)
    case Remove(id) => Removed(s, id)
    case SetQuantity(id, q) => Requantified(s, id, q)
    case Clear => Cleared(s)
  }

  /** Whether the action records an undo entry when applied to `s`. */
  predicate Records(s: AppState, a: CartAction)
    requires Shaped(s)
  {
    match a
    case Add(p) => p.Some? && !Falsy(p.value.id)
    case Remove(id) => Found(CartOf(s), id).Some?
    case SetQuantity(id, _) => Found(CartOf(s), id).Some?
    case Clear => true
  }

  /** Every cart action keeps the history invariant. */
  lemma CartActionsKeepHistoryInvariant(s: AppState, a: CartAction)
    requires Shaped(s) && HistoryInvariant(s)
    ensures HistoryInvariant(Apply(s, a))
    ensures HistoryInvariant(Undone(s))
  {
    match a
    case Add(p) => AddedKeepsHistoryInvariant(s, p);
    case Remove(id) => RemovedKeepsHistoryInvariant(s, id);
    case SetQuantity(id, q) => RequantifiedKeepsHistoryInvariant(s, id, q);
    case Clear => RecordEffect(WithCart(s, []), ClearCart, ItemCount(|CartOf(s)|), CartOf(s));
    UndoKeepsHistoryInvariant(s);
  }

  lemma AddedKeepsHistoryInvariant(s: AppState, p: Option<Product>)
    requires Shaped(s) && HistoryInvariant(s)
    ensures HistoryInvariant(Added(s, p))
  {
    if p.Some? && !Falsy(p.value.id) {
      var q := p.value;
      RecordEffect(WithCart(s, AddLine(CartOf(s), q, Strict)), AddToCart, ProductRef(q.id, q.name), CartOf(s));
    }
  }

  lemma RequantifiedKeepsHistoryInvariant(s: AppState, id: Id, q: int)
    requires Shaped(s) && HistoryInvariant(s)
    ensures HistoryInvariant(Requantified(s, id, q))
  {
    if q <= 0 {
      RemovedKeepsHistoryInvariant(s, id);
    } else if Found(CartOf(s), id).Some? {
      var item := Found(CartOf(s), id).value;
      RecordEffect(WithCart(s, Requantify(CartOf(s), id, q, Strict)), UpdateQuantity,
                   QuantityChange(id, item.name, item.quantity, q), CartOf(s));
    }
  }

  lemma RemovedKeepsHistoryInvariant(s: AppState, id: Id)
    requires Shaped(s) && HistoryInvariant(s)
    ensures HistoryInvariant(Removed(s, id))
  {
    if Found(CartOf(s), id).Some? {
      var item := Found(CartOf(s), id).value;
      RecordEffect(WithCart(s, Without(CartOf(s), LineId, id, Strict)), RemoveFromCart, ProductRef(id, item.name), CartOf(s));
    }
  }

  /** Undoing pops the head entry, and `lastAction` names the new head. */
  lemma UndoKeepsHistoryInvariant(s: AppState)
    requires Shaped(s) && HistoryInvariant(s)
    ensures HistoryInvariant(Undone(s))
  {
    var h := HistoryOf(s);
    if h != [] {
      assert HistoryOf(Undone(s)) == h[1..];
    }
  }

  /** A recording action pushes an entry holding the cart it replaced. */
  lemma RecordingStep(s: AppState, a: CartAction)
    requires Shaped(s) && Records(s, a)
    ensures var h := HistoryOf(Apply(s, a));
            && |h| == Min(|HistoryOf(s)| + 1, MAX_HISTORY)
            && h[0].previousCart == CartOf(s)
            && h[1..] == HistoryOf(s)[..|h| - 1]
  {
  }

  /** An action that records nothing changes nothing (so no cart write escapes
      the history). */
  lemma UnrecordedActionIsNoOp(s: AppState, a: CartAction)
    requires Shaped(s) && !Records(s, a)
    ensures Apply(s, a) == s
  {
    match a
    case Add(p) =>
    case Remove(id) =>
      FoundIffPresent(CartOf(s), id);
      assert Without(CartOf(s), LineId, id, Strict) == CartOf(s);
    case SetQuantity(id, q) =>
      FoundIffPresent(CartOf(s), id);
      if q <= 0 {
        assert Without(CartOf(s), LineId, id, Strict) == CartOf(s);
      } else {
        assert Requantify(CartOf(s), id, q, Strict) == CartOf(s);
      }
    case Clear =>
  }

  function Run(s: AppState, acts: seq<CartAction>): (r: AppState)
    requires Shaped(s)
    ensures Shaped(r)
    decreases |acts|
  {
    if acts == [] then s else Run(Apply(s, acts[0]), acts[1..])
  }

  predicate AllRecord(s: AppState, acts: seq<CartAction>)
    requires Shaped(s)
    decreases |acts|
  {
    acts == [] || (Records(s, acts[0]) && AllRecord(Apply(s, acts[0]), acts[1..]))
  }

  function UndoTimes(s: AppState, n: nat): (r: AppState)
    requires Shaped(s)
    ensures Shaped(r)
  {
    if n == 0 then s else Undone(UndoTimes(s, n - 1))
  }

  /** N recorded actions (N at most five) are reversed by N undos: the cart is
      the one before the first action and the history is the one before it, less
      the entries that the new ones pushed out. */
  lemma {:induction false} UndoReversesRecordedActions(s: AppState, acts: seq<CartAction>)
    requires Shaped(s) && HistoryInvariant(s)
    requires |acts| <= MAX_HISTORY && AllRecord(s, acts)
    ensures var u := UndoTimes(Run(s, acts), |acts|);
            && CartOf(u) == CartOf(s)
            && HistoryOf(u) == HistoryOf(s)[..Min(|HistoryOf(s)|, MAX_HISTORY - |acts|)]
            && HistoryInvariant(u)
    decreases |acts|
  {
    var n := |acts|;
    if n > 0 {
      var s1 := Apply(s, acts[0]);
      var tail := acts[1..];
      assert |tail| == n - 1;
      RecordingStep(s, acts[0]);
      CartActionsKeepHistoryInvariant(s, acts[0]);
      UndoReversesRecordedActions(s1, tail);
      var r := Run(s1, tail);
      assert Run(s, acts) == r;
      var u1 := UndoTimes(r, n - 1);
      assert HistoryOf(u1) == HistoryOf(s1)[..Min(|HistoryOf(s1)|, MAX_HISTORY - (n - 1))];
      assert UndoTimes(r, n) == Undone(u1);
      UndoAfterPush(s, s1, u1, n);
    }
  }

  /** The inductive step: undoing once more after the entry pushed by the first
      action brings back the cart that action replaced. */
  lemma UndoAfterPush(s: AppState, s1: AppState, u1: AppState, n: nat)
    requires Shaped(s) && Shaped(s1) && Shaped(u1) && HistoryInvariant(s)
    requires 1 <= n <= MAX_HISTORY
    requires |HistoryOf(s1)| == Min(|HistoryOf(s)| + 1, MAX_HISTORY)
    requires HistoryOf(s1)[0].previousCart == CartOf(s)
    requires HistoryOf(s1)[1..] == HistoryOf(s)[..|HistoryOf(s1)| - 1]
    requires HistoryOf(u1) == HistoryOf(s1)[..Min(|HistoryOf(s1)|, MAX_HISTORY - (n - 1))]
    ensures CartOf(Undone(u1)) == CartOf(s)
    ensures HistoryOf(Undone(u1)) == HistoryOf(s)[..Min(|HistoryOf(s)|, MAX_HISTORY - n)]
    ensures HistoryInvariant(Undone(u1))
  {
    var k := Min(|HistoryOf(s1)|, MAX_HISTORY - (n - 1));
    PoppedPrefix(HistoryOf(s1), HistoryOf(s), k);
    UndoEffect(u1);
  }

  /** Popping a prefix of a pushed history leaves a prefix of the old one. */
  lemma PoppedPrefix<T>(pushed: seq<T>, before: seq<T>, k: nat)
    requires 1 <= k <= |pushed| <= |before| + 1 && pushed[1..] == before[..|pushed| - 1]
    ensures pushed[..k][0] == pushed[0]
    ensures pushed[..k][1..] == before[..k - 1]
  {
    assert pushed[..k][1..] == pushed[1..][..k - 1];
    assert before[..|pushed| - 1][..k - 1] == before[..k - 1];
  }

  /** Starting from an empty history, N recorded actions (N at most five) and N
      undos give back the original cart with an empty history and no last action. */
  lemma UndoRoundTrip(s: AppState, acts: seq<CartAction>)
    requires Shaped(s) && HistoryOf(s) == [] && LastOf(s) == None
    requires |acts| <= MAX_HISTORY && AllRecord(s, acts)
    ensures CartOf(UndoTimes(Run(s, acts), |acts|)) == CartOf(s)
    ensures HistoryOf(UndoTimes(Run(s, acts), |acts|)) == []
    ensures LastOf(UndoTimes(Run(s, acts), |acts|)) == None
  {
    UndoReversesRecordedActions(s, acts);
  }

  /** After six recorded actions only five entries are kept: five undos give the
      cart as it was after the first action, the history is then empty, and a
      further undo changes nothing, so the original cart is out of reach. */
  lemma SixthActionEvictsOldest(s: AppState, acts: seq<CartAction>)
    requires Shaped(s) && HistoryOf(s) == [] && LastOf(s) == None
    requires |acts| == MAX_HISTORY + 1 && AllRecord(s, acts)
    ensures |HistoryOf(Run(s, acts))| == MAX_HISTORY
    ensures CartOf(UndoTimes(Run(s, acts), MAX_HISTORY)) == CartOf(Apply(s, acts[0]))
    ensures HistoryOf(UndoTimes(Run(s, acts), MAX_HISTORY)) == []
    ensures Undone(UndoTimes(Run(s, acts), MAX_HISTORY)) == UndoTimes(Run(s, acts), MAX_HISTORY)
  {
    var s1 := Apply(s, acts[0]);
    CartActionsKeepHistoryInvariant(s, acts[0]);
    RecordingStep(s, acts[0]);
    assert Run(s, acts) == Run(s1, acts[1..]);
    UndoReversesRecordedActions(s1, acts[1..]);
    RunGrowsHistory(s1, acts[1..]);
  }

  /** Each recorded action adds one entry, up to five. */
  lemma {:induction false} RunGrowsHistory(s: AppState, acts: seq<CartAction>)
    requires Shaped(s) && AllRecord(s, acts)
    ensures |HistoryOf(Run(s, acts))| == Min(|HistoryOf(s)| + |acts|, MAX_HISTORY)
              || (|acts| == 0 && |HistoryOf(s)| > MAX_HISTORY)
    decreases |acts|
  {
    if acts != [] {
      RecordingStep(s, acts[0]);
      RunGrowsHistory(Apply(s, acts[0]), acts[1..]);
    }
  }
}
