/** The checkout of the point-of-sale screen: the discount, tax and payment
    fields the cashier edits, the pricing computed from them and the cart
    total, the gate that lets a cash payment through only when enough was
    received, and the order it then places through the legacy store.  Money is
    `real`; an input that `Number(...)` cannot read is `None`. */
module Checkout {
  import opened Wrappers
  import opened Text
  import opened Domain
  import opened ReactiveStore
  import P = Persistence
  import Ord = OrderActions
  import L = LegacyStore

  const DEFAULT_TAX_RATE := 15.0
  const QUICK_CASH_VALUES: seq<real> := [1000.0, 2000.0, 5000.0, 10000.0]
  const PERCENT_VALUES: seq<real> := [5.0, 10.0, 15.0, 20.0]
  const FLAT_VALUES: seq<real> := [100.0, 200.0, 500.0, 1000.0]

  function Max(a: real, b: real): real { if a >= b then a else b }
  function Min(a: real, b: real): real { if a <= b then a else b }

  /** `Number(x) || 0`: what cannot be read as a number becomes 0. */
  function NumberOrZero(x: Option<real>): real { x.GetOr(0.0) }

  // ---------------------------------------------------------------------------
  // Pricing
  // ---------------------------------------------------------------------------

  /** `calculateDiscount(subtotal)`: a percentage of the subtotal, a flat
      amount capped at the subtotal, or nothing. */
  function Discount(discountType: string, discountValue: real, subtotal: real): (r: real)
    ensures discountType == "percent" ==> r * 100.0 == subtotal * discountValue
    ensures discountType == "flat" ==> r <= subtotal && r <= discountValue && (r == subtotal || r == discountValue)
    ensures discountType != "percent" && discountType != "flat" ==> r == 0.0
  {
    if discountType == "percent" then subtotal * discountValue / 100.0
    else if discountType == "flat" then Min(discountValue, subtotal)
    else 0.0
  }

  /** The figures shown in the checkout and sent with the order. */
  datatype Totals = Totals(subtotal: real, discount: real, afterDiscount: real, tax: real, grandTotal: real)

  /** The pricing block: the discount taken off the subtotal but never below
      0, the tax rate applied to what remains, and the grand total again
      clamped at 0 (a negative tax rate could otherwise push it below). */
  function Price(subtotal: real, discountType: string, discountValue: real, taxRate: real): (t: Totals)
    ensures t.subtotal == subtotal && t.discount == Discount(discountType, discountValue, subtotal)
    ensures t.afterDiscount >= 0.0 && t.afterDiscount >= subtotal - t.discount
    ensures t.afterDiscount == 0.0 || t.afterDiscount == subtotal - t.discount
    ensures t.tax * 100.0 == t.afterDiscount * taxRate
    ensures t.grandTotal >= 0.0 && t.grandTotal >= t.afterDiscount + t.tax
    ensures t.grandTotal == 0.0 || t.grandTotal == t.afterDiscount + t.tax
  {
    var discount := Discount(discountType, discountValue, subtotal);
    var afterDiscount := Max(0.0, subtotal - discount);
    var tax := afterDiscount * taxRate / 100.0;
    Totals(subtotal, discount, afterDiscount, tax, Max(0.0, afterDiscount + tax))
  }

  /** `changeDue`: what is handed back. */
  function ChangeDue(received: real, grandTotal: real): real { Max(0.0, received - grandTotal) }

  /** `amountDue`: what is still missing. */
  function AmountDue(received: real, grandTotal: real): real { Max(0.0, grandTotal - received) }

  /** `canConfirm`: anything but cash goes through; cash needs the whole total. */
  predicate CanConfirm(paymentMethod: string, received: real, grandTotal: real) {
    paymentMethod != "cash" || received >= grandTotal
  }

  /** Change and amount due are never negative, at most one is positive, both
      are 0 exactly when the amount received is the total, and they measure the
      difference between the two. */
  lemma ChangeAndDue(received: real, grandTotal: real)
    ensures ChangeDue(received, grandTotal) >= 0.0 && AmountDue(received, grandTotal) >= 0.0
    ensures ChangeDue(received, grandTotal) == 0.0 || AmountDue(received, grandTotal) == 0.0
    ensures ChangeDue(received, grandTotal) == 0.0 && AmountDue(received, grandTotal) == 0.0 <==> received == grandTotal
    ensures ChangeDue(received, grandTotal) - AmountDue(received, grandTotal) == received - grandTotal
  {
  }

  /** A cash payment can be confirmed exactly when nothing is still due, for
      any other method the gate never blocks. */
  lemma GateMeansNothingDue(paymentMethod: string, received: real, grandTotal: real)
    ensures paymentMethod == "cash" ==>
              (CanConfirm(paymentMethod, received, grandTotal) <==> AmountDue(received, grandTotal) == 0.0)
    ensures paymentMethod != "cash" ==> CanConfirm(paymentMethod, received, grandTotal)
  {
  }

  /** A percentage between 0 and 100 of a non-negative subtotal, or any flat
      discount that is not negative, never takes more than the subtotal, so
      the line "subtotal - discount" is what remains. */
  lemma DiscountWithinSubtotal(discountType: string, discountValue: real, subtotal: real)
    requires subtotal >= 0.0 && discountValue >= 0.0
    requires discountType == "percent" ==> discountValue <= 100.0
    ensures 0.0 <= Discount(discountType, discountValue, subtotal) <= subtotal
    ensures Price(subtotal, discountType, discountValue, 0.0).afterDiscount
            == subtotal - Discount(discountType, discountValue, subtotal)
  {
    if discountType == "percent" {
      assert subtotal * discountValue <= subtotal * 100.0;
    }
  }

  /** When the discount and the tax rate are in range, the grand total is the
      subtotal less the discount plus the tax, with no clamp taking effect. */
  lemma GrandTotalUnclamped(discountType: string, discountValue: real, subtotal: real, taxRate: real)
    requires subtotal >= 0.0 && discountValue >= 0.0 && taxRate >= 0.0
    requires discountType == "percent" ==> discountValue <= 100.0
    ensures var t := Price(subtotal, discountType, discountValue, taxRate);
            t.grandTotal == t.subtotal - t.discount + t.tax && t.tax >= 0.0
  {
    DiscountWithinSubtotal(discountType, discountValue, subtotal);
    var t := Price(subtotal, discountType, discountValue, taxRate);
    assert t.afterDiscount * taxRate >= 0.0;
  }

  /** 1000 with 10% off and 15% tax comes to 1035. */
  lemma TenOffFifteenTax()
    ensures Price(1000.0, "percent", 10.0, DEFAULT_TAX_RATE) == Totals(1000.0, 100.0, 900.0, 135.0, 1035.0)
  {
  }

  /** A flat discount of 1000 on a subtotal of 500 takes only 500, leaving
      nothing to pay whatever the tax rate. */
  lemma FlatDiscountCapped(taxRate: real)
    ensures Discount("flat", 1000.0, 500.0) == 500.0
    ensures Price(500.0, "flat", 1000.0, taxRate).grandTotal == 0.0
  {
  }

  /** For a cash total of 1035: 1000 leaves 35 due and is refused, 1035 is
      accepted with no change, and 1100 is accepted with 65 change. */
  lemma CashGateExamples()
    ensures AmountDue(1000.0, 1035.0) == 35.0 && !CanConfirm("cash", 1000.0, 1035.0)
    ensures CanConfirm("cash", 1035.0, 1035.0) && ChangeDue(1035.0, 1035.0) == 0.0
    ensures CanConfirm("cash", 1100.0, 1035.0) && ChangeDue(1100.0, 1035.0) == 65.0
  {
  }

  /** The options `confirmPayment` hands to `placeOrder`: the computed figures,
      'unpaid' only for the unpaid method, and a received amount and change
      only for cash. */
  function ConfirmOptions(paymentMethod: string, discountType: string, taxRate: real, amountReceived: real,
                          t: Totals): (o: Ord.OrderOptions)
    ensures o.subtotal == Some(t.subtotal) && o.discountValue == Some(t.discount)
    ensures o.discountType == Some(discountType) && o.taxRate == Some(taxRate)
    ensures o.taxAmount == Some(t.tax) && o.total == Some(t.grandTotal) && o.status.None?
    ensures o.paymentStatus == Some(if paymentMethod == "unpaid" then "unpaid" else "paid")
    ensures o.amountReceived == Some(if paymentMethod == "cash" then amountReceived else 0.0)
    ensures o.changeDue == Some(if paymentMethod == "cash" then ChangeDue(amountReceived, t.grandTotal) else 0.0)
  {
    Ord.OrderOptions(
      Some(t.subtotal), Some(t.discount), Some(discountType), Some(taxRate), Some(t.tax), Some(t.grandTotal),
      Some(if paymentMethod == "cash" then amountReceived else 0.0),
      Some(if paymentMethod == "cash" then ChangeDue(amountReceived, t.grandTotal) else 0.0),
      Some(if paymentMethod == "unpaid" then "unpaid" else "paid"),
      None)
  }

  /** The order a confirmed checkout places, in state `s`. */
  function CheckoutOrder(s: AppState, paymentMethod: string, discountType: string, discountValue: real,
                         taxRate: real, amountReceived: real, freshId: string, now: string): (r: Option<Order>)
    requires HasCore(s)
    ensures r.None? <==> CartOf(s) == []
  {
    var t := Price(CartTotal(CartOf(s)), discountType, discountValue, taxRate);
    L.NewOrder(s, Some(paymentMethod), ConfirmOptions(paymentMethod, discountType, taxRate, amountReceived, t),
               freshId, now)
  }

  /** The outcome of `confirmPayment` in state `s`: nothing when a cash
      payment falls short of the grand total, otherwise the order placed. */
  function ConfirmedOrder(s: AppState, paymentMethod: string, discountType: string, discountValue: real,
                          taxRate: real, amountReceived: real, freshId: string, now: string): (r: Option<Order>)
    requires HasCore(s)
    ensures var t := Price(CartTotal(CartOf(s)), discountType, discountValue, taxRate);
            && (paymentMethod == "cash" && amountReceived < t.grandTotal ==> r.None?)
            && (CanConfirm(paymentMethod, amountReceived, t.grandTotal) ==>
                  r == CheckoutOrder(s, paymentMethod, discountType, discountValue, taxRate, amountReceived, freshId, now))
    ensures r.Some? <==> CartOf(s) != [] && CanConfirm(paymentMethod, amountReceived,
                                                       Price(CartTotal(CartOf(s)), discountType, discountValue, taxRate).grandTotal)
  {
    var t := Price(CartTotal(CartOf(s)), discountType, discountValue, taxRate);
    if paymentMethod == "cash" && amountReceived < t.grandTotal then None
    else CheckoutOrder(s, paymentMethod, discountType, discountValue, taxRate, amountReceived, freshId, now)
  }

  /** What a checkout order records: the cart total as subtotal, the grand
      total (never negative) as total, the status 'preparing', 'unpaid' only for
      the unpaid method; a cash order that passed the gate balances, the
      amount received being the total plus the change. */
  lemma CheckoutOrderProperties(s: AppState, paymentMethod: string, discountType: string, discountValue: real,
                                taxRate: real, amountReceived: real, freshId: string, now: string)
    requires HasCore(s) && CartOf(s) != []
    ensures var t := Price(CartTotal(CartOf(s)), discountType, discountValue, taxRate);
            var o := CheckoutOrder(s, paymentMethod, discountType, discountValue, taxRate, amountReceived, freshId, now).value;
            && o.items == CartOf(s) && o.subtotal == Some(CartTotal(CartOf(s)))
            && o.total == t.grandTotal && o.total >= 0.0 && o.discountValue == t.discount && o.taxAmount == t.tax
            && o.paymentMethod == paymentMethod && o.status == "preparing"
            && (o.paymentStatus == "unpaid" <==> paymentMethod == "unpaid")
            && (paymentMethod != "cash" ==> o.amountReceived == 0.0 && o.changeDue == 0.0)
            && (paymentMethod == "cash" && CanConfirm(paymentMethod, amountReceived, t.grandTotal) ==>
                  o.amountReceived == o.total + o.changeDue)
  {
  }

  /** With the discount and tax rate in range, a checkout order is
      arithmetically consistent: its total is its subtotal less its discount
      plus its tax, the same rule the store applies when no total is given. */
  lemma CheckoutOrderConsistent(s: AppState, paymentMethod: string, discountType: string, discountValue: real,
                                taxRate: real, amountReceived: real, freshId: string, now: string)
    requires HasCore(s) && CartOf(s) != [] && (forall line :: line in CartOf(s) ==> line.price >= 0.0 && line.quantity >= 0)
    requires discountValue >= 0.0 && taxRate >= 0.0 && (discountType == "percent" ==> discountValue <= 100.0)
    ensures var o := CheckoutOrder(s, paymentMethod, discountType, discountValue, taxRate, amountReceived, freshId, now).value;
            o.total == o.subtotal.value - o.discountValue + o.taxAmount
  {
    CartTotalNonNegative(CartOf(s));
    GrandTotalUnclamped(discountType, discountValue, CartTotal(CartOf(s)), taxRate);
  }

  /** A cart of non-negative prices and quantities has a non-negative total. */
  lemma {:induction false} CartTotalNonNegative(cart: seq<CartItem>)
    requires forall line :: line in cart ==> line.price >= 0.0 && line.quantity >= 0
    ensures CartTotal(cart) >= 0.0
  {
    if cart != [] {
      var last := cart[|cart| - 1];
      assert last in cart;
      assert forall line :: line in cart[..|cart| - 1] ==> line in cart;
      CartTotalNonNegative(cart[..|cart| - 1]);
      assert last.price * last.quantity as real >= 0.0;
    }
  }

  // ---------------------------------------------------------------------------
  // The screen
  // ---------------------------------------------------------------------------

  /** The checkout fields of `POSScreen`. */
  class PosScreen {
    var discountType: string
    var discountValue: real
    var taxRate: real
    var amountReceived: real
    var paymentMethod: string
    var showCheckout: bool
    var showSuccess: bool
    var lastOrderId: Option<Id>

    /** A new screen: no discount, the default tax rate, cash and nothing
        received, no modal open, no order placed. */
    constructor ()
      ensures discountType == "none" && discountValue == 0.0 && taxRate == DEFAULT_TAX_RATE
      ensures amountReceived == 0.0 && paymentMethod == "cash"
      ensures !showCheckout && !showSuccess && lastOrderId.None?
    {
      discountType := "none";
      discountValue := 0.0;
      taxRate := DEFAULT_TAX_RATE;
      amountReceived := 0.0;
      paymentMethod := "cash";
      showCheckout := false;
      showSuccess := false;
      lastOrderId := None;
    }

    /** The figures for a cart total, from the current fields. */
    function Pricing(subtotal: real): (t: Totals)
      reads this
      ensures t.grandTotal >= 0.0 && t.subtotal == subtotal
      ensures t.discount == Discount(discountType, discountValue, subtotal)
    {
      Price(subtotal, discountType, discountValue, taxRate)
    }

    /** `setDiscountType(type)`: choosing 'none' also zeroes the value. */
    method SetDiscountType(t: string)
      modifies this`discountType, this`discountValue
      ensures discountType == t
      ensures discountValue == if t == "none" then 0.0 else old(discountValue)
    {
      discountType := t;
      if t == "none" {
        discountValue := 0.0;
      }
    }

    /** `setDiscountValue(value)`: `Number(value) || 0`. */
    method SetDiscountValue(value: Option<real>)
      modifies this`discountValue
      ensures discountValue == NumberOrZero(value)
    {
      discountValue := NumberOrZero(value);
    }

    /** `setTaxRate(rate)`: `Number(rate) || 0`, a negative rate included. */
    method SetTaxRate(rate: Option<real>)
      modifies this`taxRate
      ensures taxRate == NumberOrZero(rate)
    {
      taxRate := NumberOrZero(rate);
    }

    /** `setPaymentMethod(method)`: any method other than cash or unpaid drops
        the amount received; cash and unpaid keep it. */
    method SetPaymentMethod(m: string)
      modifies this`paymentMethod, this`amountReceived
      ensures paymentMethod == m
      ensures m != "cash" && m != "unpaid" ==> amountReceived == 0.0
      ensures m == "cash" || m == "unpaid" ==> amountReceived == old(amountReceived)
    {
      paymentMethod := m;
      if m != "cash" && m != "unpaid" {
        amountReceived := 0.0;
      }
    }

    /** `setAmountReceived(amount)`: `Number(amount) || 0`. */
    method SetAmountReceived(amount: Option<real>)
      modifies this`amountReceived
      ensures amountReceived == NumberOrZero(amount)
    {
      amountReceived := NumberOrZero(amount);
    }

    /** `applyQuickPercent(value)`: a percent discount of `value`. */
    method ApplyQuickPercent(value: real)
      modifies this`discountType, this`discountValue
      ensures discountType == "percent" && discountValue == value
    {
      discountType := "percent";
      discountValue := value;
    }

    /** `applyQuickFlat(value)`: a flat discount of `value`. */
    method ApplyQuickFlat(value: real)
      modifies this`discountType, this`discountValue
      ensures discountType == "flat" && discountValue == value
    {
      discountType := "flat";
      discountValue := value;
    }

    /** `applyExact(amount)`: the amount received, never below 0. */
    method ApplyExact(amount: Option<real>)
      modifies this`amountReceived
      ensures amountReceived == Max(0.0, NumberOrZero(amount)) && amountReceived >= 0.0
    {
      amountReceived := Max(0.0, NumberOrZero(amount));
    }

    /** `applyQuickCash(value)`: the amount received is `value`. */
    method ApplyQuickCash(value: real)
      modifies this`amountReceived
      ensures amountReceived == value
    {
      amountReceived := value;
    }

    /** `checkout()`: opens the checkout. */
    method Checkout()
      modifies this`showCheckout
      ensures showCheckout
    {
      showCheckout := true;
    }

    /** `cancelCheckout()`: closes it. */
    method CancelCheckout()
      modifies this`showCheckout
      ensures !showCheckout
    {
      showCheckout := false;
    }

    /** `confirmPayment()`: a cash payment short of the grand total places
        nothing; otherwise the order is placed with the checkout figures, and
        when one was placed the checkout closes on the success view. */
    method ConfirmPayment(store: Store<Field, Slot>, storage: P.LocalStorage, freshId: string, now: string)
      returns (order: Option<Order>)
      requires HasCore(store.state)
      modifies this`showCheckout, this`showSuccess, this`lastOrderId, store`state, store`trace, storage
      ensures order == ConfirmedOrder(old(store.state), paymentMethod, discountType, discountValue, taxRate,
                                      amountReceived, freshId, now)
      ensures order.None? ==>
                store.state == old(store.state) && store.trace == old(store.trace) && storage.items == old(storage.items)
                && showCheckout == old(showCheckout) && showSuccess == old(showSuccess) && lastOrderId == old(lastOrderId)
      ensures order.Some? ==>
                && store.state == L.OrderPlaced(old(store.state), order.value)
                && store.trace == old(store.trace) + store.Notifications(store.state)
                && storage.items == old(storage.items) + P.Persisted(store.state)
                && lastOrderId == Some(order.value.id) && !showCheckout && showSuccess
    {
      var state := store.GetState();
      var t := Price(CartTotal(CartOf(state)), discountType, discountValue, taxRate);
      if paymentMethod == "cash" && amountReceived < t.grandTotal {
        return None;
      }
      order := PlaceCheckoutOrder(store, storage, freshId, now);
      ShowPlaced(order);
    }

    /** The end of `confirmPayment` once an order was placed: its id is kept
        and the checkout gives way to the success view. */
    method ShowPlaced(order: Option<Order>)
      modifies this`showCheckout, this`showSuccess, this`lastOrderId
      ensures order.None? ==>
                showCheckout == old(showCheckout) && showSuccess == old(showSuccess) && lastOrderId == old(lastOrderId)
      ensures order.Some? ==> lastOrderId == Some(order.value.id) && !showCheckout && showSuccess
    {
      if order.Some? {
        lastOrderId := Some(order.value.id);
        showCheckout := false;
        showSuccess := true;
      }
    }

    /** The `placeOrder` call of `confirmPayment`, past the gate. */
    method PlaceCheckoutOrder(store: Store<Field, Slot>, storage: P.LocalStorage, freshId: string, now: string)
      returns (order: Option<Order>)
      requires HasCore(store.state)
      modifies store`state, store`trace, storage
      ensures order == CheckoutOrder(old(store.state), paymentMethod, discountType, discountValue, taxRate,
                                     amountReceived, freshId, now)
      ensures order.None? ==>
                store.state == old(store.state) && store.trace == old(store.trace) && storage.items == old(storage.items)
      ensures order.Some? ==>
                && store.state == L.OrderPlaced(old(store.state), order.value)
                && store.trace == old(store.trace) + store.Notifications(store.state)
                && storage.items == old(storage.items) + P.Persisted(store.state)
    {
      var state := store.GetState();
      var t := Price(CartTotal(CartOf(state)), discountType, discountValue, taxRate);
      var options := ConfirmOptions(paymentMethod, discountType, taxRate, amountReceived, t);
      order := L.PlaceOrder(store, storage, Some(paymentMethod), options, freshId, now);
    }

    /** `startNewOrder()`: the discount, payment and last order are reset and
        the cart cleared; the tax rate stays as the cashier left it. */
    method StartNewOrder(store: Store<Field, Slot>, storage: P.LocalStorage)
      requires HasCore(store.state)
      modifies this`showSuccess, this`discountType, this`discountValue, this`amountReceived,
               this`paymentMethod, this`lastOrderId, store`state, store`trace, storage
      ensures !showSuccess && discountType == "none" && discountValue == 0.0 && amountReceived == 0.0
      ensures paymentMethod == "cash" && lastOrderId.None? && taxRate == old(taxRate)
      ensures store.state == old(store.state)[Cart := CartLines([])] && CartOf(store.state) == []
      ensures store.trace == old(store.trace) + store.Notifications(store.state)
      ensures storage.items == old(storage.items) + P.Persisted(store.state)
    {
      ResetCheckout();
      L.ClearCart(store, storage);
    }

    /** The field resets of `startNewOrder`. */
    method ResetCheckout()
      modifies this`showSuccess, this`discountType, this`discountValue, this`amountReceived,
               this`paymentMethod, this`lastOrderId
      ensures !showSuccess && discountType == "none" && discountValue == 0.0 && amountReceived == 0.0
      ensures paymentMethod == "cash" && lastOrderId.None?
    {
      showSuccess := false;
      discountType := "none";
      discountValue := 0.0;
      amountReceived := 0.0;
      paymentMethod := "cash";
      lastOrderId := None;
    }

    /** `handleAddToCart(productId)`: the product is looked up with loose
        equality (the grid passes the id as text) and added when found. */
    method HandleAddToCart(store: Store<Field, Slot>, storage: P.LocalStorage, productId: Id)
      requires HasCore(store.state)
      modifies store`state, store`trace, storage
      ensures var i := IndexOf(ProductsOf(old(store.state)), ProductId, productId, Loose);
              && (i.None? ==> store.state == old(store.state) && store.trace == old(store.trace)
                              && storage.items == old(storage.items))
              && (i.Some? ==> store.state == L.CartAdded(old(store.state), Some(ProductsOf(old(store.state))[i.value])))
      ensures var i := IndexOf(ProductsOf(old(store.state)), ProductId, productId, Loose);
              i.Some? ==>
                var p := ProductsOf(old(store.state))[i.value];
                && (Falsy(p.id) ==> store.trace == old(store.trace) && storage.items == old(storage.items))
                && (!Falsy(p.id) ==>
                      && store.trace == old(store.trace) + store.Notifications(store.state)
                      && storage.items == old(storage.items) + P.Persisted(store.state))
    {
      var state := store.GetState();
      var index := IndexOf(ProductsOf(state), ProductId, productId, Loose);
      if index.Some? {
        L.AddToCart(store, storage, Some(ProductsOf(state)[index.value]));
      }
    }

    /** `handleRemoveFromCart(productId)`. */
    method HandleRemoveFromCart(store: Store<Field, Slot>, storage: P.LocalStorage, productId: Id)
      requires HasCore(store.state)
      modifies store`state, store`trace, storage
      ensures store.state == L.CartRemoved(old(store.state), productId)
      ensures store.trace == old(store.trace) + store.Notifications(store.state)
      ensures storage.items == old(storage.items) + P.Persisted(store.state)
    {
      L.RemoveFromCart(store, storage, productId);
    }

    /** `handleUpdateQuantity(productId, quantity)`: a quantity below 1 removes
        the line, any other sets it. */
    method HandleUpdateQuantity(store: Store<Field, Slot>, storage: P.LocalStorage, productId: Id, quantity: int)
      requires HasCore(store.state)
      modifies store`state, store`trace, storage
      ensures quantity < 1 ==> store.state == L.CartRemoved(old(store.state), productId)
      ensures store.state == L.CartRequantified(old(store.state), productId, quantity)
      ensures store.trace == old(store.trace) + store.Notifications(store.state)
      ensures storage.items == old(storage.items) + P.Persisted(store.state)
    {
      if quantity < 1 {
        HandleRemoveFromCart(store, storage, productId);
      } else {
        L.UpdateCartQuantity(store, storage, productId, quantity);
      }
    }
  }

  /** The grid renders each product id as text, so clicking a product with a
      numeric id finds that product. */
  lemma ClickedProductFound(products: seq<Product>, n: int)
    requires exists k :: 0 <= k < |products| && products[k].id == Num(n)
    ensures IndexOf(products, ProductId, Str(IntToString(n)), Loose).Some?
  {
    var k :| 0 <= k < |products| && products[k].id == Num(n);
    LooseEqNumberAndString(n);
    assert Same(Loose, ProductId(products[k]), Str(IntToString(n)));
  }
}
