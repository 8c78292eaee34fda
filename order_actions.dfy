/** The order actions of the newer action layer: choosing the order type,
    placing an order from the cart (validated, with the option defaults of
    `placeOrder`), updating, deleting, and marking an order paid.  Ids are
    matched strictly (`===`); the new order's id and ISO timestamp are
    parameters. */
module OrderActions {
  import opened Wrappers
  import opened Domain
  import opened ReactiveStore
  import opened Validators

  /** `setOrderType(store, type)`: only `currentOrderType` changes. */
  method SetOrderType(store: Store<Field, Slot>, orderType: string)
    requires Shaped(store.state)
    modifies store`state, store`trace
    ensures store.state == old(store.state)[CurrentOrderType := OrderKind(orderType)]
    ensures Shaped(store.state) && OrderTypeOf(store.state) == orderType
    ensures store.trace == old(store.trace) + store.Notifications(store.state)
  {
    MergeOne(store.state, CurrentOrderType, OrderKind(orderType));
    store.SetState(Patch(Some(map[CurrentOrderType := OrderKind(orderType)])));
  }

  // ---------------------------------------------------------------------------
  // placeOrder
  // ---------------------------------------------------------------------------

  /** The `options` object of `placeOrder`; `None` is a key left `undefined`. */
  datatype OrderOptions = OrderOptions(
    subtotal: Option<real>,
    discountValue: Option<real>,
    discountType: Option<string>,
    taxRate: Option<real>,
    taxAmount: Option<real>,
    total: Option<real>,
    amountReceived: Option<real>,
    changeDue: Option<real>,
    paymentStatus: Option<string>,
    status: Option<string>)

  const NoOptions := OrderOptions(None, None, None, None, None, None, None, None, None, None)

  /** The order record `placeOrder` builds once the total is known. */
  function Draft(s: AppState, paymentMethod: Option<string>, o: OrderOptions, total: real,
                 freshId: string, now: string): Order
    requires HasCore(s)
  {
    Order(Str(freshId), CartOf(s), CurrentOf(s), OrderTypeOf(s), o.subtotal,
          o.discountValue.GetOr(0.0), o.discountType.GetOr("none"), o.taxRate.GetOr(0.0),
          o.taxAmount.GetOr(0.0), total, o.amountReceived.GetOr(0.0), o.changeDue.GetOr(0.0),
          paymentMethod.GetOr("cash"), o.paymentStatus.GetOr("unpaid"), o.status.GetOr("preparing"), now)
  }

  /** The result of `placeOrder(store, paymentMethod, options)` in state `s`. */
  function NewOrder(s: AppState, paymentMethod: Option<string>, o: OrderOptions, freshId: string, now: string)
    : (r: Result<Order>)
    requires HasCore(s)
    ensures CartOf(s) == [] ==> r == Err("Cart is empty")
    ensures r.Ok? <==> CartOf(s) != [] && ValidateOrder(CartOf(s), CurrentOf(s), o.total).isValid
    ensures r.Err? && CartOf(s) != [] ==>
              r.error == ValidateOrder(CartOf(s), CurrentOf(s), o.total).errors[0].message
    ensures r.Ok? ==>
              && r.value.items == CartOf(s) && r.value.customer == CurrentOf(s)
              && r.value.orderType == OrderTypeOf(s)
              && o.total == Some(r.value.total) && r.value.subtotal == o.subtotal
              && r.value.id == Str(freshId) && r.value.timestamp == now
              && r.value.paymentMethod == paymentMethod.GetOr("cash")
    ensures r.Ok? ==>
              && 1 <= |r.value.items| <= ORDER_MAX_ITEMS
              && r.value.customer.Some? && !Falsy(r.value.customer.value.id)
              && r.value.total > 0.0
    ensures o.total.None? ==> r.Err?
  {
    if CartOf(s) == [] then Err("Cart is empty")
    else
      var v := ValidateOrder(CartOf(s), CurrentOf(s), o.total);
      if !v.isValid then Err(FirstMessage(v, "Invalid order data"))
      else Ok(Draft(s, paymentMethod, o, o.total.value, freshId, now))
  }

  /** The defaults of the options that have one. */
  lemma PlaceOrderDefaults(s: AppState, total: real, freshId: string, now: string)
    requires HasCore(s)
    requires NewOrder(s, None, NoOptions.(total := Some(total)), freshId, now).Ok?
    ensures var o := NewOrder(s, None, NoOptions.(total := Some(total)), freshId, now).value;
            && o.discountValue == 0.0 && o.discountType == "none" && o.taxRate == 0.0
            && o.taxAmount == 0.0 && o.amountReceived == 0.0 && o.changeDue == 0.0
            && o.paymentStatus == "unpaid" && o.status == "preparing" && o.subtotal.None?
            && o.total == total && o.paymentMethod == "cash"
  {
  }

  /** The Guest record (id 0) is refused as an order's customer, because a
      falsy customer id fails validation. */
  lemma GuestCannotPlaceOrder(s: AppState, paymentMethod: Option<string>, o: OrderOptions,
                              freshId: string, now: string)
    requires HasCore(s) && CartOf(s) != [] && |CartOf(s)| <= ORDER_MAX_ITEMS
    requires CurrentOf(s).Some? && CurrentOf(s).value.id == Num(0)
    ensures NewOrder(s, paymentMethod, o, freshId, now) == Err("Customer is required")
  {
    var v := ValidateOrder(CartOf(s), CurrentOf(s), o.total);
    assert !v.isValid && v.errors[0].field == CustomerField;
  }

  /** The state after a successful `placeOrder`: the order appended and the cart
      emptied (one `setState`). */
  function OrderPlaced(s: AppState, order: Order): (r: AppState)
    requires Shaped(s)
    ensures Shaped(r)
    ensures OrdersOf(r) == OrdersOf(s) + [order] && CartOf(r) == []
    ensures forall f :: f in s && f != Orders && f != Cart ==> f in r && r[f] == s[f]
  {
    s[Orders := OrderList(OrdersOf(s) + [order])][Cart := CartLines([])]
  }

  /** `placeOrder(store, paymentMethod, options)`. */
  method PlaceOrder(store: Store<Field, Slot>, paymentMethod: Option<string>, options: OrderOptions,
                    freshId: string, now: string) returns (result: Result<Order>)
    requires Shaped(store.state)
    modifies store`state, store`trace
    ensures result == NewOrder(old(store.state), paymentMethod, options, freshId, now)
    ensures result.Err? ==> store.state == old(store.state) && store.trace == old(store.trace)
    ensures result.Ok? ==>
              && store.state == OrderPlaced(old(store.state), result.value)
              && store.trace == old(store.trace) + store.Notifications(store.state)
  {
    var state := store.GetState();
    ghost var expected := NewOrder(state, paymentMethod, options, freshId, now);
    if |CartOf(state)| == 0 {
      return Err("Cart is empty");
    }
    var validation := ValidateOrder(CartOf(state), CurrentOf(state), options.total);
    if !validation.isValid {
      assert expected == Err(FirstMessage(validation, "Invalid order data"));
      return Err(FirstMessage(validation, "Invalid order data"));
    }
    var order := Draft(state, paymentMethod, options, options.total.value, freshId, now);
    assert expected == Ok(order);
    store.SetState(Patch(Some(map[Orders := OrderList(OrdersOf(state) + [order]), Cart := CartLines([])])));
    MergeTwo(state, Orders, OrderList(OrdersOf(state) + [order]), Cart, CartLines([]));
    assert store.state == OrderPlaced(state, order);
    result := Ok(order);
  }

  // ---------------------------------------------------------------------------
  // updateOrder
  // ---------------------------------------------------------------------------

  /** An `updates` object for `{ ...order, ...updates }`: `None` is an absent key. */
  datatype OrderPatch = OrderPatch(
    id: Option<Id>,
    items: Option<seq<CartItem>>,
    customer: Option<Option<Customer>>,
    orderType: Option<string>,
    subtotal: Option<Option<real>>,
    discountValue: Option<real>,
    discountType: Option<string>,
    taxRate: Option<real>,
    taxAmount: Option<real>,
    total: Option<real>,
    amountReceived: Option<real>,
    changeDue: Option<real>,
    paymentMethod: Option<string>,
    paymentStatus: Option<string>,
    status: Option<string>,
    timestamp: Option<string>)

  const EmptyPatch := OrderPatch(None, None, None, None, None, None, None, None, None, None, None,
                                 None, None, None, None, None)

  /** `{ ...o, ...p }`. */
  function Patched(o: Order, p: OrderPatch): Order {
    Order(p.id.GetOr(o.id), p.items.GetOr(o.items), p.customer.GetOr(o.customer),
          p.orderType.GetOr(o.orderType), p.subtotal.GetOr(o.subtotal),
          p.discountValue.GetOr(o.discountValue), p.discountType.GetOr(o.discountType),
          p.taxRate.GetOr(o.taxRate), p.taxAmount.GetOr(o.taxAmount), p.total.GetOr(o.total),
          p.amountReceived.GetOr(o.amountReceived), p.changeDue.GetOr(o.changeDue),
          p.paymentMethod.GetOr(o.paymentMethod), p.paymentStatus.GetOr(o.paymentStatus),
          p.status.GetOr(o.status), p.timestamp.GetOr(o.timestamp))
  }

  /** A shallow merge is idempotent, the empty patch changes nothing, and the
      patch's keys win over the order's. */
  lemma PatchedProperties(o: Order, p: OrderPatch, q: OrderPatch)
    ensures Patched(Patched(o, p), p) == Patched(o, p)
    ensures Patched(o, EmptyPatch) == o
    ensures p.total.Some? ==> Patched(o, p).total == p.total.value
    ensures p.total.None? ==> Patched(o, p).total == o.total
    ensures q == p.(total := None) ==> Patched(Patched(o, q), p) == Patched(o, p)
  {
  }

  /** The state with the order at index `i` replaced. */
  function OrderReplaced(s: AppState, i: nat, order: Order): (r: AppState)
    requires Shaped(s) && i < |OrdersOf(s)|
    ensures Shaped(r)
    ensures |OrdersOf(r)| == |OrdersOf(s)| && OrdersOf(r)[i] == order
    ensures forall j :: 0 <= j < |OrdersOf(s)| && j != i ==> OrdersOf(r)[j] == OrdersOf(s)[j]
    ensures forall f :: f in s && f != Orders ==> f in r && r[f] == s[f]
  {
    s[Orders := OrderList(OrdersOf(s)[i := order])]
  }

  /** `updateOrder(store, orderId, updates)`. */
  method UpdateOrder(store: Store<Field, Slot>, orderId: Id, updates: OrderPatch)
    returns (result: Result<Order>)
    requires Shaped(store.state)
    modifies store`state, store`trace
    ensures var i := IndexOf(OrdersOf(old(store.state)), OrderId, orderId, Strict);
            && (i.None? ==> result == Err("Order not found") && store.state == old(store.state)
                            && store.trace == old(store.trace))
            && (i.Some? ==>
                  && result == Ok(Patched(OrdersOf(old(store.state))[i.value], updates))
                  && store.state == OrderReplaced(old(store.state), i.value, result.value)
                  && store.trace == old(store.trace) + store.Notifications(store.state))
  {
    var state := store.GetState();
    var orderIndex := IndexOf(OrdersOf(state), OrderId, orderId, Strict);
    if orderIndex.None? {
      return Err("Order not found");
    }
    var i := orderIndex.value;
    var orders := OrdersOf(state);
    orders := orders[i := Patched(orders[i], updates)];
    store.SetState(Patch(Some(map[Orders := OrderList(orders)])));
    MergeOne(state, Orders, OrderList(orders));
    result := Ok(orders[i]);
  }

  // ---------------------------------------------------------------------------
  // deleteOrder
  // ---------------------------------------------------------------------------

  /** `deleteOrder(store, orderId)`: fails, writing nothing, when no order has the
      id; otherwise every matching order goes. */
  method DeleteOrder(store: Store<Field, Slot>, orderId: Id) returns (result: Result<()>)
    requires Shaped(store.state)
    modifies store`state, store`trace
    ensures var orders := OrdersOf(old(store.state));
            && (result.Err? <==> forall o :: o in orders ==> o.id != orderId)
            && (result.Err? ==> result.error == "Order not found" && store.state == old(store.state)
                                && store.trace == old(store.trace))
            && (result.Ok? ==>
                  && store.state == old(store.state)[Orders := OrderList(Without(orders, OrderId, orderId, Strict))]
                  && |OrdersOf(store.state)| < |orders|
                  && store.trace == old(store.trace) + store.Notifications(store.state))
  {
    var state := store.GetState();
    var filteredOrders := Without(OrdersOf(state), OrderId, orderId, Strict);
    if |filteredOrders| == |OrdersOf(state)| {
      return Err("Order not found");
    }
    store.SetState(Patch(Some(map[Orders := OrderList(filteredOrders)])));
    MergeOne(state, Orders, OrderList(filteredOrders));
    result := Ok(());
  }

  // ---------------------------------------------------------------------------
  // markOrderPaid
  // ---------------------------------------------------------------------------

  function Max(a: real, b: real): real {
    if a < b then b else a
  }

  /** `Number.isFinite(amount) ? amount : order.total`; `None` is any value that
      is not a finite number. */
  function Received(total: real, amount: Option<real>): real {
    amount.GetOr(total)
  }

  /** The patch `markOrderPaid` hands to `updateOrder`. */
  function PaymentPatch(total: real, amount: Option<real>): (p: OrderPatch)
    ensures p.amountReceived == Some(Received(total, amount))
    ensures p.changeDue.Some? && p.changeDue.value >= 0.0
    ensures p.changeDue.value == (if Received(total, amount) >= total then Received(total, amount) - total else 0.0)
    ensures p.paymentStatus == Some(if Received(total, amount) >= total then "paid" else "unpaid")
    ensures p == EmptyPatch.(amountReceived := p.amountReceived, changeDue := p.changeDue,
                             paymentStatus := p.paymentStatus)
  {
    var received := Received(total, amount);
    EmptyPatch.(amountReceived := Some(received), changeDue := Some(Max(0.0, received - total)),
                paymentStatus := Some(if received >= total then "paid" else "unpaid"))
  }

  /** Paying with no finite amount pays exactly the total with no change; the
      change and the paid status never disagree. */
  lemma PaymentProperties(o: Order, amount: Option<real>)
    ensures var p := Patched(o, PaymentPatch(o.total, amount));
            && (amount.None? ==> p.amountReceived == o.total && p.changeDue == 0.0 && p.paymentStatus == "paid")
            && (p.changeDue > 0.0 ==> p.paymentStatus == "paid")
            && (p.paymentStatus == "paid" <==> p.amountReceived >= o.total)
            && p.amountReceived - p.changeDue <= o.total
            && p.total == o.total && p.items == o.items && p.id == o.id
  {
  }

  /** `markOrderPaid(store, orderId, amount)`. */
  method MarkOrderPaid(store: Store<Field, Slot>, orderId: Id, amount: Option<real>)
    returns (result: Result<Order>)
    requires Shaped(store.state)
    modifies store`state, store`trace
    ensures var i := IndexOf(OrdersOf(old(store.state)), OrderId, orderId, Strict);
            && (i.None? ==> result == Err("Order not found") && store.state == old(store.state)
                            && store.trace == old(store.trace))
            && (i.Some? ==>
                  var o := OrdersOf(old(store.state))[i.value];
                  && result == Ok(Patched(o, PaymentPatch(o.total, amount)))
                  && store.state == OrderReplaced(old(store.state), i.value, result.value)
                  && store.trace == old(store.trace) + store.Notifications(store.state))
  {
    var state := store.GetState();
    var index := IndexOf(OrdersOf(state), OrderId, orderId, Strict);
    if index.None? {
      return Err("Order not found");
    }
    var order := OrdersOf(state)[index.value];
    result := UpdateOrder(store, orderId, PaymentPatch(order.total, amount));
  }
}
