# GrillMaster POS: a verified model of the state layer and checkout

GrillMaster POS is a browser point-of-sale app for a burger grill. Its logic lives in a small reactive store and in code that changes that store:

- an **action layer** (cart with undo, customers, orders, products);
- an **older action set** in `src/data/store.js`, which the POS screen actually calls;
- **selectors** and **validators**;
- **persistence** of six state keys in `localStorage`;
- the **checkout** fields of the POS screen (discount, tax, payment method, amount received);
- a few **pure helpers**: category extraction and image URL and format logic.

This project models that code in Dafny and proves what it promises.

## Modules

| module | what it models |
|---|---|
| `Wrappers` | `Option` and `Result`. |
| `Text` | The string primitives the code relies on: `trim`, ASCII `toLowerCase`, decimal rendering and parsing of integers, `split('.').pop()`, `join`, and a code-point (Unicode scalar value) string order. |
| `Domain` | Ids and the two equalities. Ids are numbers, strings or `undefined`, with strict `===` and loose `==` equality. Also: products, cart lines, customers, orders, undo history entries, the application state as a map from the eight state keys to values, the shared list operations (`findIndex`, `filter`, `map` on one id) and the cart sums. |
| `ReactiveStore` | `createStore` of `src/state/store.js` and of its compact twin `src/core/state.js`, as the class `Store`. It holds the current state, the listener set as a duplicate-free sequence in insertion order, and a trace of every notification made. A listener is an abstract identity. What it does with a snapshot is a fixed function that returns `Ok` or `Threw`. |
| `CartActions` | `src/actions/cart-actions.js`: the cart actions, the undo history bounded at five entries, and the undo round trip. |
| `CustomerActions`, `OrderActions`, `ProductActions` | The other three action files. Each action is a method on the store. Each is specified by a pure function that gives the new state and the `{success, ...}` result. |
| `Selectors` | `src/selectors/index.js`. `getTopProducts` is a method with the source's two nested loops over a mutable tally, proved against a reference definition. |
| `Validators` | `src/utils/validators.js`, with the phone and email patterns written as predicates. |
| `Helpers` | `getCategories` of `src/utils/helpers.js`. |
| `JsonCodec` | How products, cart lines, customers and orders are written into and read back from JSON values, with round-trip lemmas. |
| `Persistence` | `saveState`, `loadState` and `resetToDemo` of `src/state/persistence.js`, with `localStorage` as the class `LocalStorage` holding a map from keys to JSON values. |
| `DemoData` | The demo fixture of `src/data/demo-data.js`. |
| `LegacyStore` | `src/data/store.js`. Each of its actions changes the store and then saves the six keys. It uses loose `==` id matching, has no undo history, skips the validators, and falls back to an unclamped total. Each difference from the newer layer is stated as a lemma. |
| `Checkout` | The checkout engine of `POSScreen`: the pricing functions and the class `PosScreen` with its fields, setters, quick helpers, `confirmPayment` and `startNewOrder`. |
| `ImageService` | The pure URL, format, size and srcset logic of `src/services/image-service.js`, and its cache as the class `ImageCache`. |

## Notable behaviour

Each of the following is proved in the model.

- **A deleted namesake can stay selected.** In the newer action layer, `deleteCustomer` looks for the customer named "guest" in the list as it was BEFORE deletion. A selected customer who is deleted and is itself named "Guest" therefore stays selected (`CustomerActions.DeletedGuestNamesakeStaysSelected`). The older store searches the list after deletion, so there the deleted customer is never still selected (`LegacyStore.DeletedCustomerNotSelected`).
- **The Guest id check does not match a string "0".** The newer layer compares with `=== 0` / `=== 1`, so it does not protect the id `"0"` (`CustomerActions.StringGuestIdNotProtected`). The older store compares loosely, so it protects `"0"`, `"1"` and even `""` (`LegacyStore.SpelledGuestIds`).
- **Loose id matching can bump two lines.** With loose matching, a cart whose ids are `"1"` and `"01"`, given a product with id `1`, gets both lines raised (`LegacyStore.LooseAddBumpsTwoLines`). A string id matches a numeric one (`LegacyStore.LooseAddMergesSpelledId`).
- **The older store is more permissive.** It accepts a one-letter customer name (`LegacyStore.OneLetterNameAccepted`). It places an order for the Guest (`LegacyStore.GuestOrderAccepted`) and with a negative fallback total (`LegacyStore.FallbackTotalUnclamped`). The newer layer refuses all three.
- **A relative CDN base resolves twice.** When the CDN base is relative (the development default `/images`), `getImageUrl` is not idempotent (`ImageService.RelativeBaseResolvesTwice`).
- **Phones can become duplicated.** `updateCustomer` does not re-check phones, so an update can introduce a duplicate (`CustomerActions.UpdateMayDuplicatePhone`).

## Model

| member | source | states |
|---|---|---|
| ReactiveStore.Merge | src/state/store.js:89-98 | A merge result of `undefined` leaves the state unchanged. Otherwise the keys of the result are overwritten with its values, the keys of the old state not in it keep their values, and no other key appears. |
| ReactiveStore.MergeOne | src/state/store.js:89-98 | Merging a one-key object is a single map update. |
| ReactiveStore.MergeTwo | src/state/store.js:89-98 | Merging a two-key object is two map updates in one `setState`. |
| ReactiveStore.Round | src/state/store.js:120-136 | One notification round has one entry per listener, in insertion order. Each entry has that listener's outcome on the same post-merge snapshot. A listener that throws does not shorten the round. |
| ReactiveStore.SetAdd | src/state/store.js:166 | `Set.add` keeps the listeners free of duplicates and adds exactly the new one. |
| ReactiveStore.SetDelete | src/state/store.js:171 | `Set.delete` keeps the listeners free of duplicates, removes exactly that one, and never grows the set. |
| ReactiveStore.SubscribeTwiceIsOnce | src/state/store.js:166 | Subscribing the same listener twice has the effect of subscribing it once. The set grows by one only for a new listener. |
| ReactiveStore.UnsubscribedListenerNotCalled | src/state/store.js:171 | After its unsubscribe, a listener appears in no later notification round. |
| ReactiveStore.Store.constructor | src/state/store.js:37-44 | A new store holds the initial state, no listeners and an empty trace. `createStore` of src/core/state.js:11-13 is the same. |
| ReactiveStore.Store.GetState | src/state/store.js:60-64 | The snapshot equals the current state. This is also `getState` of src/core/state.js:15-17, which returns an equal copy. |
| ReactiveStore.Store.SetState | src/state/store.js:85-102 | The new state is the old state merged with the patch or with the updater's result, and unchanged when the updater returns `undefined`. Then every listener is notified once, in insertion order, with the new state, and a throwing listener is caught. `setState` of src/core/state.js:19-31 is the same. |
| ReactiveStore.Store.NotifyListeners | src/state/store.js:120-136 | The trace grows by exactly one round over the current listeners. |
| ReactiveStore.Store.Subscribe | src/state/store.js:157-172 | A function is added to the listener set and an unsubscriber for it returned. A non-function registers nothing and gets a no-op. `subscribe` of src/core/state.js:33-39 is the same. |
| ReactiveStore.Store.Unsubscribe | src/state/store.js:169-171 | Running the unsubscriber removes that listener. The no-op changes nothing. |
| Domain.LooseEqProperties | src/data/store.js:139 | Loose id equality is symmetric and reflexive, and it holds whenever strict equality holds. |
| Domain.LooseEq | src/data/store.js:139 | Two numbers, two strings, or `undefined` on either side compare strictly. A number and a string are equal exactly when the string decodes to that number. |
| Domain.LooseEqNumberAndString | src/data/store.js:139 | A number and its decimal spelling are loosely equal but not strictly equal. |
| Domain.UpdateKeepsShape | src/state/initial-state.js:6-28 | Updating one state key with a value of its own kind keeps the state's layout. |
| Domain.StateOf | src/state/initial-state.js:6-28 | A state built from the eight fields has exactly those fields. |
| Domain.IndexOf | src/actions/customer-actions.js:57 | `findIndex` returns the first matching position, or -1 (`None`) when nothing matches. |
| Domain.Without | src/actions/product-actions.js:86-88 | `filter(x => x.id !== id)` keeps exactly the non-matching elements, never grows the list, and shortens it exactly when something matches. Order and multiplicity are stated by `WithoutConcat`. |
| Domain.WithoutConcat | src/actions/product-actions.js:86-88 | Filtering a concatenation is filtering each part and concatenating: the survivors keep their order and their number of copies. |
| Domain.WithoutSnoc | src/actions/product-actions.js:86-88 | One more element at the end survives exactly when its id does not match. |
| Domain.Bump | src/actions/cart-actions.js:117-121 | Every matching line's quantity rises by one, and the other lines and the length are unchanged. |
| Domain.Requantify | src/actions/cart-actions.js:213-217 | Every matching line gets the new quantity, and the other lines and the length are unchanged. |
| Domain.AddLineEffect | src/actions/cart-actions.js:110-130 | Adding a product already in the cart bumps its line. Otherwise the product is appended with quantity 1. |
| Domain.AddLine | src/actions/cart-actions.js:113-130 | Adding keeps the cart's length or appends the new line of quantity 1. Every old line keeps its id and keeps its quantity or gains one. |
| Domain.AddLineKeepsIdsUnique | src/actions/cart-actions.js:110-130 | Adding to a cart whose ids are distinct keeps them distinct. |
| Domain.AddLineSingleLine | src/actions/cart-actions.js:110-130 | After a strict add, the product's id is on exactly one line, if the cart's ids were distinct before. |
| Domain.CartSumsSplit | src/selectors/index.js:6-13 | The cart total and count of a concatenation are the sums of the parts. |
| Domain.CartCountBounds | src/selectors/index.js:11-13 | With non-negative quantities the count is non-negative. With every quantity at least 1 it is at least the number of lines. |
| Domain.RepeatedAdds | src/selectors/index.js:11-13 | k adds of one product to an empty cart give one line of quantity k, so the count is k and the total is k times the price. |
| Domain.SingleLineSums | src/selectors/index.js:6-13 | A one-line cart totals price times quantity and counts its quantity. |
| Domain.FirstGuest | src/actions/customer-actions.js:98-100 | `find` of the first customer named "guest", ignoring ASCII case, or `None` when there is none. |
| CartActions.Push | src/actions/cart-actions.js:66 | The new entry goes first, and the older entries follow in order, truncated to at most five in all. |
| CartActions.WithCart | src/actions/cart-actions.js:126-129 | Setting the cart changes the cart only: the same keys, and every key but the cart, the history and last action among them, keeps its value. |
| CartActions.Record | src/actions/cart-actions.js:51-73 | `recordAction` keeps the app state layout. Its effect is stated by `RecordEffect`. |
| CartActions.Added | src/actions/cart-actions.js:96-139 | `addToCart` keeps the layout. Its effect is stated by `AddToCartEffect`. |
| CartActions.Removed | src/actions/cart-actions.js:152-176 | `removeFromCart` keeps the layout. Its effect is stated by `RemoveFromCartEffect`. |
| CartActions.Requantified | src/actions/cart-actions.js:191-231 | `updateCartQuantity` keeps the layout. Its effect is stated by `UpdateCartQuantityEffect`. |
| CartActions.Cleared | src/actions/cart-actions.js:234-246 | `clearCart` keeps the layout. Its effect is stated by `ClearCartEffect`. |
| CartActions.Undone | src/actions/cart-actions.js:249-268 | `undoLastAction` keeps the layout. Its effect is stated by `UndoEffect`. |
| CartActions.RecordAction | src/actions/cart-actions.js:51-73 | `recordAction` changes the state to `Record`, with one notification. |
| CartActions.RecordEffect | src/actions/cart-actions.js:51-73 | The entry is first with the pre-action cart. At most five entries are kept. `lastAction` names the new type. Nothing but the two history keys changes. |
| CartActions.AddToCartAction | src/actions/cart-actions.js:96-139 | A missing or falsy id changes nothing and notifies nobody. Otherwise the cart write and the history write each notify once. |
| CartActions.AddToCartEffect | src/actions/cart-actions.js:96-139 | A falsy id is a no-op. Otherwise the cart is the add result, an ADD_TO_CART entry holding the old cart goes first, `lastAction` is ADD_TO_CART, and products, orders, customers and the selection stay. Distinct cart ids stay distinct. |
| CartActions.FoundIffPresent | src/actions/cart-actions.js:110 | The strict `find` succeeds exactly when some line has the id, and returns such a line. |
| CartActions.RemoveFromCartAction | src/actions/cart-actions.js:152-176 | `removeFromCart` changes the state to `Removed`. It notifies for the cart write and, when the item existed, for the history write. |
| CartActions.RemoveFromCartEffect | src/actions/cart-actions.js:152-176 | Every line with the id goes and the others stay. An absent id changes nothing at all. A present one records REMOVE_FROM_CART with the pre-removal cart. |
| CartActions.UpdateCartQuantityAction | src/actions/cart-actions.js:191-231 | `updateCartQuantity` changes the state to `Requantified`, with the matching notifications. |
| CartActions.UpdateCartQuantityEffect | src/actions/cart-actions.js:191-231 | A quantity of 0 or less is exactly `removeFromCart`. Otherwise matching lines get the quantity and the others stay. UPDATE_QUANTITY with the old line is recorded only when the item existed. |
| CartActions.ClearCartAction | src/actions/cart-actions.js:234-246 | `clearCart` empties the cart and always records, with two notifications. |
| CartActions.ClearCartEffect | src/actions/cart-actions.js:234-246 | The cart becomes empty. CLEAR_CART with the prior line count and cart is recorded even for an empty cart. |
| CartActions.UndoLastAction | src/actions/cart-actions.js:249-268 | The result is true exactly when there was history. The state becomes `Undone`. Nothing is notified on an empty history. |
| CartActions.UndoEffect | src/actions/cart-actions.js:249-268 | An empty history changes nothing. Otherwise the cart is restored from the head entry, the head is popped, `lastAction` becomes the new head's type or null, and every other field stays. |
| CartActions.Apply | src/actions/cart-actions.js:96-246 | Each cart action keeps the state's layout. |
| CartActions.CartActionsKeepHistoryInvariant | src/actions/cart-actions.js:51-268 | Every cart action and undo keeps at most five entries, with `lastAction` naming the head. |
| CartActions.AddedKeepsHistoryInvariant | src/actions/cart-actions.js:96-139 | `addToCart` keeps the history invariant. |
| CartActions.RequantifiedKeepsHistoryInvariant | src/actions/cart-actions.js:191-231 | `updateCartQuantity` keeps the history invariant. |
| CartActions.RemovedKeepsHistoryInvariant | src/actions/cart-actions.js:152-176 | `removeFromCart` keeps the history invariant. |
| CartActions.UndoKeepsHistoryInvariant | src/actions/cart-actions.js:249-268 | `undoLastAction` keeps the history invariant. |
| CartActions.RecordingStep | src/actions/cart-actions.js:66-72 | A recorded action pushes one entry holding the cart it replaced. |
| CartActions.UnrecordedActionIsNoOp | src/actions/cart-actions.js:96-231 | An action that records nothing changes nothing, so no cart write escapes the history. |
| CartActions.Run | src/actions/cart-actions.js:96-246 | A sequence of cart actions keeps the state's layout. |
| CartActions.UndoTimes | src/actions/cart-actions.js:249-268 | Repeated undo keeps the state's layout. |
| CartActions.UndoReversesRecordedActions | src/actions/cart-actions.js:66-265 | After n ≤ 5 recorded actions, n undos restore the original cart, leave the original history truncated to 5 − n entries, and keep the history invariant. |
| CartActions.UndoAfterPush | src/actions/cart-actions.js:66-265 | Undoing the entry an action pushed restores that action's starting cart. |
| CartActions.UndoRoundTrip | src/actions/cart-actions.js:66-265 | From an empty history, n ≤ 5 recorded actions followed by n undos restore the cart and leave the history empty and `lastAction` null. |
| CartActions.SixthActionEvictsOldest | src/actions/cart-actions.js:33-66 | After six recorded actions the history holds five. Five undos reach only the cart after the first action: the original cart cannot be recovered, and a further undo changes nothing. |
| CartActions.RunGrowsHistory | src/actions/cart-actions.js:33-66 | n recorded actions grow the history to min(old length + n, 5). The one exception is n = 0 from a history already longer than 5, which is left as it is; no state the store reaches has such a history (`CartActionsKeepHistoryInvariant`). |
| CustomerActions.SetCurrentCustomer | src/actions/customer-actions.js:8-10 | Only `currentCustomer` changes, with one notification. |
| CustomerActions.NewCustomer | src/actions/customer-actions.js:13-52 | An empty trimmed name fails with 'Name is required'. A duplicate non-empty trimmed phone fails with 'Phone number already exists'. Otherwise a validator rejection fails with its first message. On success the customer has the trimmed fields, its name is long enough, and its phone and email are well formed. |
| CustomerActions.AddCustomer | src/actions/customer-actions.js:13-52 | On failure nothing changes. On success the customer is appended at the end, with one notification. |
| CustomerActions.AddCustomerKeepsPhonesUnique | src/actions/customer-actions.js:24-49 | Adding keeps non-empty phones distinct, and the list grows by exactly one. |
| CustomerActions.DuplicatePhoneRefused | src/actions/customer-actions.js:24-29 | An existing customer's phone is refused with 'Phone number already exists', for any non-blank name and any email. |
| CustomerActions.Revised | src/actions/customer-actions.js:63-68 | The id is kept. The name is replaced by the given name, trimmed, exactly when that is non-blank, and otherwise kept. A missing phone or email is kept; a given one replaces the field trimmed; a null one becomes ''. An empty update changes nothing. |
| CustomerActions.RevisedIdempotent | src/actions/customer-actions.js:63-68 | Applying the same update twice is applying it once. |
| CustomerActions.CustomerReplaced | src/actions/customer-actions.js:70-77 | Only position i of the list changes. `currentCustomer` is refreshed exactly when it had this id. Every other field stays. |
| CustomerActions.UpdateCustomer | src/actions/customer-actions.js:55-80 | An unknown id fails with 'Customer not found' and changes nothing. Otherwise the customer at the first matching index becomes `Revised(customer, updates)` (the field-by-field merge above), the selection is refreshed when its id matches, and that customer is returned. The list write notifies every listener once, and the refreshed selection a second time. |
| CustomerActions.ReplaceCustomer | src/actions/customer-actions.js:70-77 | The two `setState` calls replace the customer and refresh the selection when its id is strictly the updated one. One notification round follows the list write, and a second the refreshed selection. |
| CustomerActions.UpdateMayDuplicatePhone | src/actions/customer-actions.js:63-72 | The update does not check phones: an update can make two customers share one. |
| CustomerActions.TrimNoOuterSpaceOrEmpty | src/actions/customer-actions.js:66-67 | A given phone with no outer spaces is stored as written. |
| CustomerActions.CustomerDeleted | src/actions/customer-actions.js:83-105 | Ids 0 and 1 change nothing. Otherwise every customer with the id goes. If it was selected, the selection becomes the first 'guest' of the pre-deletion list, or null. |
| CustomerActions.DeleteCustomer | src/actions/customer-actions.js:83-105 | Guest ids fail with 'Cannot delete Guest customer' and notify nobody. Every other id succeeds, even when absent, with the state `CustomerDeleted`: one notification round on the filtered list, and a second one on the final state when the deleted customer was selected. |
| CustomerActions.DropCustomer | src/actions/customer-actions.js:89-102 | The state becomes `CustomerDeleted`. One notification round follows the filter, and a second follows the selection reset to the guest found before the deletion. |
| CustomerActions.StringGuestIdNotProtected | src/actions/customer-actions.js:85 | The strict check does not protect the string id "0", which is deleted. |
| CustomerActions.GuestId | src/actions/customer-actions.js:85 | The guard `=== 0 \|\| === 1` refuses no string and not `undefined`. |
| CustomerActions.DeletedGuestNamesakeStaysSelected | src/actions/customer-actions.js:97-101 | A deleted selected customer named Guest stays selected, though no longer in the list. |
| OrderActions.SetOrderType | src/actions/order-actions.js:9-11 | Only `currentOrderType` changes. |
| OrderActions.NewOrder | src/actions/order-actions.js:14-70 | An empty cart fails with 'Cart is empty'. Otherwise a validator rejection fails with its first message. The order snapshots the cart, `currentCustomer` and `currentOrderType`. It has 1 to 50 items, a customer with a truthy id, and a positive total. A missing total always fails. |
| OrderActions.PlaceOrderDefaults | src/actions/order-actions.js:22-52 | The defaults: discount 0 and 'none', tax 0, received and change 0, 'unpaid', 'preparing', no subtotal, method 'cash'. |
| OrderActions.GuestCannotPlaceOrder | src/actions/order-actions.js:55-61 | A customer with id 0 fails with 'Customer is required'. |
| OrderActions.OrderPlaced | src/actions/order-actions.js:64-67 | The orders gain the new order at the end and the cart becomes empty. Nothing else changes. |
| OrderActions.PlaceOrder | src/actions/order-actions.js:14-70 | Failure changes nothing. Success applies `OrderPlaced` in one notification. |
| OrderActions.PatchedProperties | src/actions/order-actions.js:81 | The object-spread merge is idempotent and the empty patch is the identity. A given total overrides and a missing one keeps the old total. Merging a patch after the same patch without its total equals merging the patch alone. |
| OrderActions.OrderReplaced | src/actions/order-actions.js:80-83 | Only position i of the orders changes and the count is unchanged. |
| OrderActions.UpdateOrder | src/actions/order-actions.js:73-86 | An unknown id fails with 'Order not found' and changes nothing. Otherwise only that order is merged with the updates. |
| OrderActions.DeleteOrder | src/actions/order-actions.js:89-99 | It fails, with no change, exactly when no order has the id. Otherwise every match goes and the list shrinks. |
| OrderActions.PaymentPatch | src/actions/order-actions.js:110-118 | It sets only the received amount, the change (never negative, received − total when paid) and the status ('paid' iff received ≥ total). |
| OrderActions.PaymentProperties | src/actions/order-actions.js:102-119 | With no finite amount, the order's total is received, with no change, and it is paid. It is 'paid' iff received ≥ total. Positive change implies paid. Received less change never exceeds the total. Items, total and id are untouched. |
| OrderActions.MarkOrderPaid | src/actions/order-actions.js:102-119 | An unknown id fails. Otherwise the order is patched with the payment fields through `updateOrder`. |
| ProductActions.ImageOrDefault | src/actions/product-actions.js:37 | `image \|\| DEFAULT_PRODUCT_IMAGE` is never empty, and a given image is kept. |
| ProductActions.NewProduct | src/actions/product-actions.js:10-55 | A blank name or category, or a missing or negative price, fails with 'Invalid product data'. Then a name shorter than 3 fails with the validator's message. Success gives the fresh id, trimmed fields, the parsed price (≥ 0) and a non-empty image. |
| ProductActions.AddProduct | src/actions/product-actions.js:10-55 | Failure changes nothing. Success appends the product, with one notification. |
| ProductActions.Revised | src/actions/product-actions.js:66-74 | The id is kept. Each of name, category and image is replaced by the given text, trimmed, exactly when that text is non-blank once trimmed, and otherwise kept. The price is replaced exactly when a finite price ≥ 0 is given, and otherwise kept; so a non-negative price stays non-negative and a non-blank name or category never becomes blank. An empty update changes nothing. |
| ProductActions.RevisedIdempotent | src/actions/product-actions.js:66-74 | Applying the same update twice is applying it once. |
| ProductActions.NonBlankIdempotent | src/actions/product-actions.js:69-73 | The non-blank override is idempotent. |
| ProductActions.ProductReplaced | src/actions/product-actions.js:76-78 | Only position i of the products changes and the length is unchanged. |
| ProductActions.UpdateProduct | src/actions/product-actions.js:58-81 | An unknown id fails with 'Product not found' and changes nothing. Otherwise the product at the first matching index becomes `Revised(product, updates)` (the field-by-field merge above), the other products stay, and that product is returned. |
| ProductActions.UpdateKeepsPricesNonNegative | src/actions/product-actions.js:70-71 | If every price was ≥ 0 before an update, every price is ≥ 0 after it. |
| ProductActions.DeleteProduct | src/actions/product-actions.js:84-91 | It always succeeds and leaves no product with the id. An unknown id leaves the list unchanged. |
| Selectors.CartSums | src/selectors/index.js:6-13 | An empty cart totals and counts 0. One line gives price × quantity and its quantity. Both sums split over concatenation. The older store's `getCartTotal` and `getCartCount` (src/data/store.js:183-193) are the same sums. |
| Selectors.GetOrderStats | src/selectors/index.js:16-40 | `total` is the number of orders. |
| Selectors.OrderStatsAppend | src/selectors/index.js:24-39 | Appending an order adds one to `total` and its total to `revenue`. |
| Selectors.RevenueNonNegative | src/selectors/index.js:24-27 | Revenue over non-negative totals is non-negative. |
| Selectors.InCategory | src/selectors/index.js:48 | The filter keeps exactly the products of that category and never grows the list. |
| Selectors.InCategoryConcat | src/selectors/index.js:48 | The filter keeps order: it distributes over concatenation. |
| Selectors.GetProductsByCategory | src/selectors/index.js:43-49 | '' or 'All' gives every product. Any other category gives exactly its products. |
| Selectors.InsertSorted | src/selectors/index.js:53-54 | Insertion into a strictly sorted list stays strictly sorted with the same elements plus the new one. |
| Selectors.SortedCategories | src/selectors/index.js:52-55 | The result is strictly sorted, and a category is in it iff some product has it. |
| Selectors.SortedCategoriesDistinct | src/selectors/index.js:53 | The categories are distinct. |
| Selectors.KeysOfLines | src/selectors/index.js:62-76 | A key is in the tally iff some line has that id. |
| Selectors.Tally | src/selectors/index.js:62-76 | The tally has exactly the ids seen, each under its own property key. |
| Selectors.TallyIsSums | src/selectors/index.js:73-74 | Each entry's `sales` is the summed quantity and `revenue` the summed price × quantity over all lines with that id. |
| Selectors.AbsentKeySumsZero | src/selectors/index.js:73-74 | An id never seen has no sales and no revenue. |
| Selectors.FirstSeen | src/selectors/index.js:79 | The key order of `Object.values` lists each seen key once. |
| Selectors.InsertBySales | src/selectors/index.js:80 | Insertion into a list in non-increasing sales order keeps that order and is a permutation plus the new element. |
| Selectors.HeadBoundsInsertion | src/selectors/index.js:80 | Inserting below the head of a sorted list leaves every later element at most the head. |
| Selectors.ConsBySales | src/selectors/index.js:80 | Prefixing an element at least every later one keeps the order. |
| Selectors.InsertKeepsKeysDistinct | src/selectors/index.js:79-80 | Insertion of a new id keeps the ids distinct. |
| Selectors.SortBySales | src/selectors/index.js:80 | The sort is in non-increasing sales order and is a permutation. |
| Selectors.SortKeepsKeysDistinct | src/selectors/index.js:79-80 | Sorting keeps the ids distinct. |
| Selectors.SliceEnd | src/selectors/index.js:81 | `slice(0, limit)` keeps min(limit, length) elements, and counts a negative limit from the end. |
| Selectors.TallyStep | src/selectors/index.js:64-74 | One line updates the tally and first-seen order as the loop body does. |
| Selectors.AggregateSales | src/selectors/index.js:60-76 | The nested loops build exactly the reference tally and key order. |
| Selectors.CountLine | src/selectors/index.js:64-74 | The inner body creates an entry on first sight and adds the line's quantity and amount. |
| Selectors.AddOrderLines | src/selectors/index.js:63-75 | The inner loop over one order's items extends the tally by those lines. |
| Selectors.ValuesOf | src/selectors/index.js:79 | `Object.values` in key order: one entry per key, each the tally entry of that key. |
| Selectors.PrefixKeepsOrder | src/selectors/index.js:80-81 | A prefix of a sorted list with distinct ids is sorted, with distinct ids. |
| Selectors.ValuesHaveDistinctKeys | src/selectors/index.js:79 | The values of distinct keys have distinct ids. |
| Selectors.TopEntriesAreTotals | src/selectors/index.js:79-81 | Each entry kept after sorting and slicing is the tally entry of its own id. |
| Selectors.TopEntriesOutsell | src/selectors/index.js:80-81 | Every entry kept by the slice sold at least as much as every entry left out. |
| Selectors.GetTopProducts | src/selectors/index.js:58-82 | The result is in non-increasing sales order, and each id appears once. Its length is that of `slice(0, limit)` on the list of distinct ids (limit 5 by default): up to `limit` entries, and a negative limit counts back from the end. Each entry is the full total for its id. Every product left out sold no more than every product kept. |
| Selectors.TopProductsAreTotals | src/selectors/index.js:73-74 | Every tallied product's sales and revenue are the sums over all orders' lines. |
| Selectors.CanUndoIffUndoChanges | src/selectors/index.js:85-87 | `canUndo` is true iff undoing would change the state. |
| Validators.Verdict | src/utils/validators.js:30-82 | `isValid` is true iff the error list is empty. |
| Validators.FirstIndex | src/core/config.js:79 | The first position of a character, or its absence. |
| Validators.EmailPatternByParts | src/core/config.js:79 | The email predicate holds iff the text splits as a run with no space or '@', then '@', then a run with no space or '@', then '.', then another such run. |
| Validators.PatternHasShape | src/core/config.js:79 | A matching email splits at its only '@' and at a later dot. |
| Validators.ShapeHasPattern | src/core/config.js:79 | Such a split is a match. |
| Validators.ThreeFields | src/utils/validators.js:14-28 | At most one error per field, in field order, so the first error is the first failing field's. |
| Validators.MinLengthMessages | src/utils/validators.js:17-42 | The minimum-length messages read 'Name must be at least 2 characters' and '... 3 characters'. |
| Validators.NameErrors | src/utils/validators.js:14-18 | An empty trimmed name gives 'Name is required'. A short one gives the minimum-length message. Otherwise there is no error. At most one error. |
| Validators.ValidateCustomer | src/utils/validators.js:9-31 | Valid iff there are no errors. Errors are in field order, at most 3. There is a name error iff the trimmed name is shorter than 2. A phone error iff it is non-empty and not '0' plus 9 digits. An email error iff it is non-empty and malformed. The exact first message is given. |
| Validators.ValidateProduct | src/utils/validators.js:34-58 | There is a name error iff the trimmed name is shorter than 3. A price error iff it is missing ('Price is required') or below 0 ('Price cannot be negative'). A category error iff it is blank. |
| Validators.ValidateOrder | src/utils/validators.js:61-83 | Valid iff there are 1 to 50 items, a customer with a truthy id (so id 0 fails), and a non-zero total ≥ 0. Each error appears iff its condition fails. |
| Helpers.DistinctCategories | src/utils/helpers.js:63-65 | There are no duplicates, and a category is listed iff it is non-empty and some product has it. |
| Helpers.GetCategories | src/utils/helpers.js:59-66 | A non-array gives []. An array gives its distinct truthy categories. |
| Helpers.FirstAt | src/utils/helpers.js:64 | The first product of a category. |
| Helpers.FirstAtPrefix | src/utils/helpers.js:64 | A category's first occurrence is the same in a prefix that contains it. |
| Helpers.CategoriesInFirstSeenOrder | src/utils/helpers.js:64 | Categories appear in the order they first occur. |
| JsonCodec.AllRoundTrip | src/utils/storage.js:54-109 | Decoding an encoded array gives back the array. |
| JsonCodec.EncodeAll | src/utils/storage.js:54 | An encoded array has one element per entry. |
| JsonCodec.DecodeAll | src/utils/storage.js:109 | A decoded array has one entry per element. |
| JsonCodec.IdRoundTrip | src/utils/storage.js:54-109 | An id (a number, a string or absent), written into an object without an `id` key, reads back unchanged. |
| JsonCodec.ProductRoundTrip | src/utils/storage.js:54-109 | A product survives the JSON round trip. |
| JsonCodec.EncodeProduct | src/utils/storage.js:54 | A stored product is an object with the keys name, price, category and image, plus id unless it is undefined. |
| JsonCodec.DecodeProduct | src/utils/storage.js:109 | Only an object holding name, price, category and image decodes to a product. |
| JsonCodec.LineRoundTrip | src/utils/storage.js:54-109 | A cart line survives the JSON round trip. |
| JsonCodec.EncodeLine | src/utils/storage.js:54 | A stored cart line is an object with the product's keys and quantity, plus id unless it is undefined. |
| JsonCodec.DecodeLine | src/utils/storage.js:109 | Only an object holding the product keys and an integral quantity decodes to a cart line, with that quantity. |
| JsonCodec.CustomerRoundTrip | src/utils/storage.js:54-109 | A customer survives the JSON round trip. |
| JsonCodec.EncodeCustomer | src/utils/storage.js:54 | A stored customer is an object with the keys name, phone and email, plus id unless it is undefined. |
| JsonCodec.DecodeCustomer | src/utils/storage.js:109 | Only an object holding name, phone and email decodes to a customer. |
| JsonCodec.SelectedRoundTrip | src/utils/storage.js:54-109 | A selected customer, or null, survives the JSON round trip. |
| JsonCodec.EncodeSelected | src/utils/storage.js:54 | No selection is stored as null, and only no selection is. |
| JsonCodec.DecodeSelected | src/utils/storage.js:109 | null reads back as no selection, and a selected customer comes from an object. |
| JsonCodec.ScalarsRoundTrip | src/utils/storage.js:54-109 | An order's scalar fields survive the round trip. |
| JsonCodec.ScalarTexts | src/utils/storage.js:54-109 | An order's text fields read back from its encoding. |
| JsonCodec.ScalarRates | src/utils/storage.js:54-109 | An order's discount value, tax rate and tax amount read back from its encoding. |
| JsonCodec.ScalarAmounts | src/utils/storage.js:54-109 | An order's total, received amount and change read back from its encoding. |
| JsonCodec.PartsRoundTrip | src/utils/storage.js:54-109 | An encoded order holds its items, its customer, its subtotal exactly when it has one, and its id. |
| JsonCodec.OrderKeysApart | src/utils/storage.js:54 | The scalar keys of an encoded order do not collide with `items`, `customer`, `subtotal` or `id`. |
| JsonCodec.OrderRoundTrip | src/utils/storage.js:54-109 | An order survives the JSON round trip. |
| JsonCodec.EncodeOrder | src/utils/storage.js:54 | A stored order holds items, customer, total, status and timestamp. It holds subtotal exactly when the order has one, and id exactly when the id is defined. |
| JsonCodec.DecodeOrder | src/utils/storage.js:109 | Only an object holding items, customer, total, status and timestamp decodes to an order. Its lines are as many as the stored array's, and it has a subtotal exactly when the object does. |
| Persistence.LocalStorage.SaveToStorage | src/utils/storage.js:49-72 | The key is set to the value, no other key changes, and the result is true. |
| Persistence.LocalStorage.constructor | src/utils/storage.js:58-103 | The storage starts out holding exactly the given entries (what the browser had under each key). |
| Persistence.LoadFromStorage | src/utils/storage.js:99-119 | An absent key gives the default. A present key gives its value. |
| Persistence.Persisted | src/state/persistence.js:55-79 | The save writes exactly the six keys of src/core/constants.js:34-41. |
| Persistence.PersistedEntries | src/state/persistence.js:60-75 | Each key holds the encoding of its own field. |
| Persistence.SaveState | src/state/persistence.js:55-79 | Storage becomes the old storage overwritten by the six keys and nothing else. |
| Persistence.WritesAreUnion | src/state/persistence.js:60-75 | Six successive `setItem` calls equal one union with the six entries. |
| Persistence.SaveIgnoresHistory | src/state/persistence.js:77-78 | What is saved does not depend on `actionHistory` or `lastAction`. |
| Persistence.OrDemo | src/state/persistence.js:121-129 | A non-empty array is kept, and an empty one is replaced by the demo data. |
| Persistence.LoadState | src/state/persistence.js:106-156 | Products, orders and customers come from storage, or from demo data when missing or empty. The cart comes from storage. `currentCustomer` defaults to null and the order type to 'dine-in'. The history is empty and `lastAction` null. |
| Persistence.ResetToDemo | src/state/persistence.js:177-199 | The demo collections, an empty cart, a null customer, 'dine-in', an empty history. |
| Persistence.EmptyStorageLoadsDemo | src/state/persistence.js:106-156 | Loading from empty storage is the factory reset. |
| Persistence.EmptyListLoadsDemo | src/state/persistence.js:121 | A stored empty products array loads the demo menu. |
| Persistence.Restored | src/state/persistence.js:106-156 | The state a load restores has the app state's layout. |
| Persistence.RestoredFields | src/state/persistence.js:106-156 | It has the six saved fields, an empty history and a null `lastAction`. |
| Persistence.ProductsRoundTrip | src/state/persistence.js:60-109 | Saved products load back unchanged. |
| Persistence.OrdersRoundTrip | src/state/persistence.js:63-110 | Saved orders load back unchanged. |
| Persistence.CustomersRoundTrip | src/state/persistence.js:66-111 | Saved customers load back unchanged. |
| Persistence.LinesRoundTrip | src/state/persistence.js:69-134 | A saved cart loads back unchanged. |
| Persistence.LoadedCollections | src/state/persistence.js:109-129 | After a save, each non-empty collection loads back as saved. |
| Persistence.LoadedProducts | src/state/persistence.js:109-121 | After a save, non-empty products load back as saved. |
| Persistence.LoadedOrders | src/state/persistence.js:110-125 | After a save, non-empty orders load back as saved. |
| Persistence.LoadedCustomers | src/state/persistence.js:111-129 | After a save, non-empty customers load back as saved. |
| Persistence.LoadedSelection | src/state/persistence.js:134-145 | After a save, the cart, customer and order type load back as saved. |
| Persistence.ShapedEqual | src/state/initial-state.js:6-28 | Two states of the app's layout with equal fields are equal. |
| Persistence.SaveThenLoad | src/state/persistence.js:55-156 | save then load, over any prior storage, gives the state's six fields back with a fresh history, provided products, orders and customers are non-empty. |
| DemoData.DemoOrders | src/data/demo-data.js:169-250 | The two demo orders have ids now − 100000 and now − 50000, with their timestamps. |
| DemoData.DemoProductsWellFormed | src/data/demo-data.js:21-167 | There are twenty products, product i has id i + 1, and no price is negative. |
| DemoData.DemoPhonesUnique | src/data/demo-data.js:7-19 | No two demo customers share a phone. |
| DemoData.DemoGuestFirst | src/data/demo-data.js:8 | The Guest, with id 0, is first, so it is the guest `find` returns. |
| DemoData.DemoOrdersConsistent | src/data/demo-data.js:169-250 | Each demo order's subtotal is its cart total, its total is the subtotal less the discount plus the tax, and its change is received less total. |
| LegacyStore.CoreOf | src/data/store.js:78-85 | The six legacy fields of a state. |
| LegacyStore.CoreEqual | src/data/store.js:78-85 | A legacy state is determined by its six fields. |
| LegacyStore.Loaded | src/data/store.js:111-127 | The legacy load sets the six fields exactly as the persistence layer's load does. |
| LegacyStore.LoadState | src/data/store.js:111-127 | One `setState` merges the loaded fields, with one notification. |
| LegacyStore.CreateLegacyStore | src/data/store.js:78-91 | The module store starts as the loaded state (the `loadState()` call at module load), with no listeners and an empty trace. |
| LegacyStore.CoreOverwrites | src/data/store.js:91-126 | Loading over the initial state replaces all six of its fields. |
| LegacyStore.ResetFields | src/data/store.js:456-464 | The demo collections, an empty cart, a null customer and 'dine-in'. |
| LegacyStore.ResetData | src/data/store.js:456-466 | One merge of the reset fields, then a save of the new state. |
| LegacyStore.WriteAndSave | src/data/store.js:100-108 | An action's merge followed by `saveState`: storage holds the six keys of the new state. |
| LegacyStore.LegacySaveThenLoad | src/data/store.js:100-127 | save then legacy load gives back the six fields, when products, orders and customers are non-empty. |
| LegacyStore.ResetSurvivesReload | src/data/store.js:456-466 | After `resetData` saves, a reload gives the reset state again. |
| LegacyStore.CartAdded | src/data/store.js:134-152 | Adding keeps the legacy layout. |
| LegacyStore.AddToCart | src/data/store.js:134-152 | A falsy id changes nothing and saves nothing. Otherwise the loose add is applied, notified and saved. |
| LegacyStore.CartRemoved | src/data/store.js:155-160 | Exactly the lines not loosely equal to the id stay. Nothing else changes. |
| LegacyStore.RemoveFromCart | src/data/store.js:155-160 | The removal is applied, notified and saved. |
| LegacyStore.CartRequantified | src/data/store.js:163-174 | q ≤ 0 is exactly removal. Otherwise every loosely matching line gets quantity q and the others stay. |
| LegacyStore.UpdateCartQuantity | src/data/store.js:163-174 | The requantification is applied, notified and saved. |
| LegacyStore.ClearCart | src/data/store.js:177-180 | The cart becomes empty and is saved. No history is recorded. |
| LegacyStore.LooseFindsSpelledId | src/data/store.js:139 | A loose `find` locates a numeric id from its spelling, where a strict one finds nothing. |
| LegacyStore.LooseAddMergesSpelledId | src/data/store.js:139-149 | A line with numeric id n is bumped by a product with id "n" under loose matching. A strict match appends a second line. |
| LegacyStore.OneLineAdd | src/data/store.js:139-149 | A matching one-line cart is bumped. Otherwise the product is appended. |
| LegacyStore.NumbersMatchAlike | src/data/store.js:139 | Between two numbers, loose and strict equality agree. |
| LegacyStore.BumpAlike | src/data/store.js:142-144 | On numeric ids the loose bump equals the strict bump. |
| LegacyStore.IndexAlike | src/data/store.js:139 | On numeric ids the loose and strict `find` agree. |
| LegacyStore.AddToCartAgreesWithNewer | src/data/store.js:134-152 | On numeric ids the legacy cart after an add equals the newer layer's. The legacy store records no history, and the newer one records ADD_TO_CART. |
| LegacyStore.MatchCount | src/data/store.js:142-144 | The number of matching lines. It is 0 iff none matches. |
| LegacyStore.BumpCount | src/data/store.js:142-144 | The bump raises the cart count by the number of matching lines. |
| LegacyStore.ConsCount | src/data/store.js:191-193 | The count of a line followed by a cart is its quantity plus the rest. |
| LegacyStore.AddToCartCount | src/data/store.js:139-149 | An add raises the count by 1 for a new product, or by the number of matching lines. |
| LegacyStore.StrictAddCountsOne | src/actions/cart-actions.js:110-130 | Under strict matching with distinct ids, an add raises the count by exactly 1. |
| LegacyStore.OneStrictMatch | src/actions/cart-actions.js:110-130 | With distinct ids, at most one line matches strictly. |
| LegacyStore.OneSpelledTwoWays | src/data/store.js:139 | "1" and "01" are both loosely equal to 1, but not to each other. |
| LegacyStore.LooseAddBumpsTwoLines | src/data/store.js:139-145 | Two lines, "1" and "01", are loosely distinct, yet a product with id 1 bumps both, raising the count by 2. |
| LegacyStore.BothLinesBumped | src/data/store.js:142-144 | Two distinct lines that both match grow by one each. |
| LegacyStore.WithoutKeepsIdsUnique | src/data/store.js:157 | Removal keeps ids distinct. |
| LegacyStore.ConsIdsUnique | src/data/store.js:134-160 | Prefixing a line whose id matches none of the rest keeps ids distinct. |
| LegacyStore.CartActionsKeepIdsUnique | src/data/store.js:134-180 | Every legacy cart action keeps loose ids distinct and changes nothing but the cart. |
| LegacyStore.ApplyCart | src/data/store.js:134-180 | Each legacy cart action keeps the legacy layout. |
| LegacyStore.LookupsAlike | src/data/store.js:232-265 | On numeric ids, the loose `findIndex` and `filter` agree with the strict ones. |
| LegacyStore.SetCurrentCustomer | src/data/store.js:200-203 | Only `currentCustomer` changes, then it is saved. |
| LegacyStore.NewCustomer | src/data/store.js:206-228 | `false` (None) for an empty trimmed name or a duplicate non-empty phone. Otherwise the trimmed customer, with no validator call. |
| LegacyStore.AddCustomer | src/data/store.js:206-228 | On refusal nothing changes and nothing is saved. On success the customer is appended and saved. |
| LegacyStore.AddCustomerAgreesWithNewer | src/data/store.js:206-228 | The newer layer accepts exactly what the legacy store accepts and the validator passes, and then yields the same customer. |
| LegacyStore.OneLetterNameAccepted | src/data/store.js:206-228 | The legacy store accepts the name "A". The newer layer says 'Name must be at least 2 characters'. |
| LegacyStore.AddCustomerKeepsPhonesUnique | src/data/store.js:212-217 | Adding keeps non-empty phones distinct. |
| LegacyStore.CustomerReplaced | src/data/store.js:246-252 | Only position i changes. The selection is refreshed when its id is loosely equal. |
| LegacyStore.UpdateCustomer | src/data/store.js:231-255 | An unknown id (loose match) gives `false` and no change. Otherwise the customer becomes the same field-by-field merge `CustomerActions.Revised`, the selection is refreshed when its id loosely matches, and the result is saved and returned. The list write notifies every listener once, and the refreshed selection a second time. |
| LegacyStore.ReplaceCustomer | src/data/store.js:246-252 | The two `setState` calls replace the customer and refresh the selection. One notification round on the state after the list write, then one on the final state when the selection matched. |
| LegacyStore.UpdateCustomerAgreesWithNewer | src/data/store.js:231-255 | On numeric ids the legacy update equals the newer one. |
| LegacyStore.CustomerDeleted | src/data/store.js:258-276 | Loose 0 or 1 changes nothing. Otherwise every loose match goes. A deleted selection becomes the first 'guest' of the post-deletion list, or null. |
| LegacyStore.CustomersFiltered | src/data/store.js:264-266 | The first `setState` of `deleteCustomer`: the list loses every loosely matching customer and nothing else changes. |
| LegacyStore.DropCustomer | src/data/store.js:263-273 | The state becomes `CustomerDeleted`, with one notification round after the filter and a second after a refreshed selection. |
| LegacyStore.DeleteCustomer | src/data/store.js:258-276 | `true` iff the id is not a guest id. A refusal changes nothing, notifies nobody and saves nothing. Otherwise the state becomes `CustomerDeleted`, every listener is notified once on the filtered list and a second time on the final state when the deleted customer was selected, and the six keys are saved. |
| LegacyStore.SpelledGuestIds | src/data/store.js:259 | "0", "1" and "" are loosely guest ids. |
| LegacyStore.GuestId | src/data/store.js:259 | The guard `== 0 \|\| == 1` refuses the numbers 0 and 1 and every string that decodes to 0 or 1, and not `undefined`. |
| LegacyStore.SpelledGuestIdProtected | src/data/store.js:259 | The legacy store protects "0", which the newer layer does not. |
| LegacyStore.DeletedCustomerNotSelected | src/data/store.js:263-273 | A deleted selected customer is never left selected. |
| LegacyStore.SetOrderType | src/data/store.js:283-286 | Only `currentOrderType` changes, then it is saved. |
| LegacyStore.NewOrder | src/data/store.js:289-322 | `null` iff the cart is empty. The order snapshots cart, customer and type. The subtotal defaults to the cart total. The total is the given one, or subtotal − discount + tax. |
| LegacyStore.OrderPlaced | src/data/store.js:319 | The orders gain the order and the cart empties, in one `setState`. |
| LegacyStore.PlaceOrder | src/data/store.js:289-322 | On null nothing changes. Otherwise `OrderPlaced`, one notification, and then a save. |
| LegacyStore.PlaceOrderAgreesWithNewer | src/data/store.js:289-322 | An order the newer layer accepts is placed the same by the legacy store, except for the subtotal default. |
| LegacyStore.FallbackTotalUnclamped | src/data/store.js:298 | A discount above the cart total gives a negative fallback total. The newer layer refuses such an order. |
| LegacyStore.GuestOrderAccepted | src/data/store.js:289-322 | The legacy store places an order for the Guest, with id 0. The newer layer refuses it. |
| LegacyStore.StatsAfterPlaceOrder | src/data/store.js:432-449 | Placing an order raises the order count by 1 and the revenue by its total. |
| LegacyStore.OrderReplaced | src/data/store.js:331-333 | Only position i of the orders changes. |
| LegacyStore.UpdateOrder | src/data/store.js:325-336 | An unknown id (loose) gives `false` and no change. Otherwise that order is merged with the updates and saved. |
| LegacyStore.DeleteOrder | src/data/store.js:339-347 | `false`, with no change, iff no order loosely matches. Otherwise the matches go and the result is saved. |
| LegacyStore.MarkOrderPaid | src/data/store.js:350-362 | The same payment rules as the newer layer, under loose matching. A found order gives one notification round and a save. |
| LegacyStore.NewProduct | src/data/store.js:369-392 | `false` for a blank name or category, or a missing or negative price. Otherwise the trimmed product, which has no length check. |
| LegacyStore.AddProduct | src/data/store.js:369-392 | On refusal nothing changes. Otherwise the product is appended and saved. |
| LegacyStore.AddProductAgreesWithNewer | src/data/store.js:369-392 | The newer layer accepts exactly what the legacy one does with a name of at least 3, and gives the same product, up to the image trim. |
| LegacyStore.BlankImageStoredEmpty | src/data/store.js:387 | A whitespace image is trimmed to '', so the default image is lost. |
| LegacyStore.ProductReplaced | src/data/store.js:411-413 | Only position i of the products changes. |
| LegacyStore.UpdateProduct | src/data/store.js:395-416 | An unknown id (loose match) gives `false` and no change. Otherwise the product at the first loosely matching index becomes the same field-by-field merge `ProductActions.Revised`, the result is saved and returned. |
| LegacyStore.UpdateKeepsPricesNonNegative | src/data/store.js:401-406 | Non-negative prices stay non-negative. |
| LegacyStore.DeleteProduct | src/data/store.js:419-425 | It always returns `true`, every loose match goes, and the result is saved. |
| LegacyStore.DeleteProductAgreesWithNewer | src/data/store.js:421 | On numeric ids the loose filter equals the strict one. |
| Checkout.Discount | src/features/pos/pos.screen.js:744-751 | percent gives subtotal × v / 100. flat gives min(v, subtotal), never above the subtotal. Anything else gives 0. |
| Checkout.Price | src/features/pos/pos.screen.js:363-367 | The after-discount amount is max(0, subtotal − discount). The tax is that amount times the rate over 100. The grand total is max(0, after + tax) and so ≥ 0. |
| Checkout.ChangeAndDue | src/features/pos/pos.screen.js:369-370 | Change and amount due are ≥ 0, at most one is positive, both are 0 iff received = total, and change − due = received − total. |
| Checkout.GateMeansNothingDue | src/features/pos/pos.screen.js:371 | Cash can be confirmed iff nothing is due. Any other method always can. |
| Checkout.DiscountWithinSubtotal | src/features/pos/pos.screen.js:744-751 | An in-range discount is between 0 and the subtotal. |
| Checkout.GrandTotalUnclamped | src/features/pos/pos.screen.js:363-367 | With in-range inputs, grand total = subtotal − discount + tax. |
| Checkout.TenOffFifteenTax | src/features/pos/pos.screen.js:363-367 | 1000 with 10% off and 15% tax gives 900 after discount, 135 tax and 1035 in all. |
| Checkout.FlatDiscountCapped | src/features/pos/pos.screen.js:748 | A flat 1000 on a subtotal of 500 takes 500, and the total is 0. |
| Checkout.CashGateExamples | src/features/pos/pos.screen.js:369-371 | For a cash total of 1035: 1000 leaves 35 due and is refused, 1035 passes, and 1100 gives 65 change. |
| Checkout.ConfirmOptions | src/features/pos/pos.screen.js:765-777 | The options passed to `placeOrder`. `paymentStatus` is 'unpaid' iff the method is unpaid. The received amount and the change are passed only for cash, and 0 otherwise. |
| Checkout.CheckoutOrder | src/features/pos/pos.screen.js:765-777 | An order is built iff the cart is non-empty. |
| Checkout.ConfirmedOrder | src/features/pos/pos.screen.js:753-790 | A short cash payment places nothing. Otherwise the checkout order is placed, so an order exists iff the cart is non-empty and the gate holds. |
| Checkout.CheckoutOrderProperties | src/features/pos/pos.screen.js:753-790 | The order holds the cart total as subtotal and the grand total (≥ 0) as total. Its status is 'preparing'. It is 'unpaid' iff the method is unpaid. A non-cash order has no received amount or change. For gated cash, received = total + change. |
| Checkout.CheckoutOrderConsistent | src/features/pos/pos.screen.js:753-790 | With in-range inputs, the order's total = subtotal − discount + tax. |
| Checkout.CartTotalNonNegative | src/features/pos/pos.screen.js:363 | Non-negative prices and quantities give a non-negative subtotal. |
| Checkout.PosScreen.constructor | src/features/pos/pos.screen.js:23-36 | No discount, tax at DEFAULT_TAX_RATE (15), cash with 0 received, no modal, no last order. |
| Checkout.PosScreen.Pricing | src/features/pos/pos.screen.js:363-371 | The pricing block over the screen's fields, repeated at lines 705-713 and 755-758: the discount as `calculateDiscount` computes it, and a grand total ≥ 0. |
| Checkout.PosScreen.SetDiscountType | src/features/pos/pos.screen.js:624-630 | The type is set. 'none' zeroes the value, and any other type keeps it. |
| Checkout.PosScreen.SetDiscountValue | src/features/pos/pos.screen.js:632-635 | A non-numeric value becomes 0. |
| Checkout.PosScreen.SetTaxRate | src/features/pos/pos.screen.js:637-640 | A non-numeric rate becomes 0. |
| Checkout.PosScreen.SetPaymentMethod | src/features/pos/pos.screen.js:642-648 | The received amount is reset to 0 unless the method is cash or unpaid, which keep it. |
| Checkout.PosScreen.SetAmountReceived | src/features/pos/pos.screen.js:650-653 | A non-numeric amount becomes 0. |
| Checkout.PosScreen.ApplyQuickPercent | src/features/pos/pos.screen.js:678-682 | Sets type 'percent' and the value. |
| Checkout.PosScreen.ApplyQuickFlat | src/features/pos/pos.screen.js:684-688 | Sets type 'flat' and the value. |
| Checkout.PosScreen.ApplyExact | src/features/pos/pos.screen.js:690-693 | Sets max(0, amount), which is never negative. |
| Checkout.PosScreen.ApplyQuickCash | src/features/pos/pos.screen.js:695-698 | Sets the amount. |
| Checkout.PosScreen.Checkout | src/features/pos/pos.screen.js:336-339 | Opens the checkout. |
| Checkout.PosScreen.CancelCheckout | src/features/pos/pos.screen.js:341-344 | Closes the checkout. |
| Checkout.PosScreen.ConfirmPayment | src/features/pos/pos.screen.js:753-790 | The order is the confirmed order of the screen fields. When none is confirmed (a short cash payment or an empty cart), the store, storage and screen are unchanged. Otherwise the order is placed through the older store and saved, its id is kept, the checkout closes and the success view opens. |
| Checkout.PosScreen.ShowPlaced | src/features/pos/pos.screen.js:779-786 | After a placed order: the last id is kept, the checkout closes and success shows. |
| Checkout.PosScreen.PlaceCheckoutOrder | src/features/pos/pos.screen.js:765-778 | The `placeOrder` call with the computed options. |
| Checkout.PosScreen.StartNewOrder | src/features/pos/pos.screen.js:793-802 | Resets the discount type to 'none' and its value to 0, received to 0, the method to 'cash', and the last order. Clears the cart. The tax rate is not reset. |
| Checkout.PosScreen.ResetCheckout | src/features/pos/pos.screen.js:794-799 | The field resets of `startNewOrder`. |
| Checkout.PosScreen.HandleAddToCart | src/features/pos/pos.screen.js:300-306 | The product is found by loose id. An unknown id changes nothing. A known one goes to the older store's `addToCart`: a falsy product id changes nothing, and otherwise the cart is updated, every listener is notified once and the six keys are saved. |
| Checkout.PosScreen.HandleRemoveFromCart | src/features/pos/pos.screen.js:308-311 | Delegates to the older store's `removeFromCart`. |
| Checkout.PosScreen.HandleUpdateQuantity | src/features/pos/pos.screen.js:313-320 | A quantity below 1 removes the line. Otherwise the quantity is set, the same as the older store's `updateCartQuantity`. |
| Checkout.ClickedProductFound | src/features/pos/pos.screen.js:301 | An id clicked in the grid arrives as its decimal spelling, and the loose `find` still locates the product. |
| ImageService.CategoryColor | src/services/image-service.js:48-59 | A known category has a seven-character '#…' colour different from the default. Any other gets the default. |
| ImageService.CategoryLabel | src/services/image-service.js:61-72 | A known category has its own upper-case label. Any other gets 'PRODUCT'. |
| ImageService.KnownCategoriesDistinguished | src/services/image-service.js:48-72 | Two known categories have different colours and labels. |
| ImageService.PlaceholderFor | src/services/image-service.js:36-46 | The placeholder of a category carries its colour and label, and the default when none is given. |
| ImageService.AbsoluteUrlIgnoresCase | src/services/image-service.js:75-77 | The http(s):// test ignores case. |
| ImageService.LowerIdempotent | src/services/image-service.js:83 | Lower-casing twice is lower-casing once. |
| ImageService.ImageUrl | src/services/image-service.js:21-33 | An empty path gives the placeholder. An absolute URL is returned unchanged. Any other path becomes CDN + '/' + path. |
| ImageService.ImageUrlIdempotent | src/services/image-service.js:21-33 | With an absolute CDN base, resolving a resolved URL gives the same URL. |
| ImageService.NotAbsolute | src/services/image-service.js:75-77 | A path whose first letter is not h is not absolute. |
| ImageService.RelativeBaseResolvesTwice | src/services/image-service.js:27-32 | With a relative CDN base, a resolved URL is prefixed again. |
| ImageService.ValidFormatIgnoresCase | src/services/image-service.js:80-85 | The format check ignores case. |
| ImageService.LastSegmentOfLower | src/services/image-service.js:83 | The extension of the lower-cased name is the lower-cased extension. |
| ImageService.ExtensionDecides | src/services/image-service.js:80-85 | name.ext is valid for each of jpg, jpeg, png and webp (src/core/config.js:27). |
| ImageService.SuffixSegment | src/services/image-service.js:83 | The text after the last dot is the extension. |
| ImageService.FileSizeLimit | src/services/image-service.js:121-124 | The size check is monotone. 5 MiB (5242880 bytes) passes and one more byte fails (src/core/config.js:28). |
| ImageService.SrcSetEntries | src/services/image-service.js:162 | One entry per size, in order. |
| ImageService.GenerateSrcSet | src/services/image-service.js:157-163 | null unless the path is absolute. Otherwise the entries joined by ', ', with the sizes 320, 640, 1024, 1920 by default. |
| ImageService.SrcSetShape | src/services/image-service.js:162 | The first entry, ', ', then the srcset of the remaining sizes. |
| ImageService.SrcSetSingle | src/services/image-service.js:162 | One size gives `path?w=N Nw`. |
| ImageService.DefaultSrcSet | src/services/image-service.js:157-163 | Without sizes, the srcset lists the four default widths 320, 640, 1024 and 1920 in order. |
| ImageService.ImageCache.constructor | src/services/image-service.js:15-18 | An empty cache and an empty failed set. |
| ImageService.ImageCache.PreloadImage | src/services/image-service.js:88-112 | A cached URL returns its image. A failed URL returns null. Otherwise a load caches the image, and a failure records the URL. |
| ImageService.ImageCache.ClearCache | src/services/image-service.js:137-140 | Both the cache and the failed set are empty. |
| Text.Trim | src/actions/customer-actions.js:14-15 | `trim` gives a contiguous piece of the input with no outer whitespace. It is empty iff the input is all whitespace. |
| Text.TrimIdempotent | src/actions/customer-actions.js:14-15 | Trimming twice is trimming once. |
| Text.Lower | src/services/image-service.js:83 | `toLowerCase` keeps the length and maps each character. |
| Text.NatToString | src/utils/validators.js:17 | The decimal spelling of a number reads back as that number. |
| Text.IntToStringRoundTrip | src/data/store.js:139 | Parsing an integer's spelling gives the integer back. |
| Text.StringToInteger | src/data/store.js:139 | Blank text decodes to 0. A decoded non-blank text ends in a digit, a negative value starts with '-', and text holding any character other than a digit or a sign (a '.', an exponent, a hex 'x') gives no integer. |
| Text.LastSegment | src/services/image-service.js:83 | `split('.').pop()` is the suffix after the last dot, which contains no dot. |
| Text.LessTransitive | src/selectors/index.js:54 | The sort order is transitive. |
| Text.LessTotal | src/selectors/index.js:54 | The sort order is total on distinct strings. |
| Text.TrimNoOuterSpace | src/actions/customer-actions.js:14-15 | A non-empty string with no outer whitespace trims to itself. |
| Text.LessIrreflexive | src/selectors/index.js:54 | No string sorts before itself. |

## Left out

- I/O, the DOM and rendering. These are covered by the parameters and notes below:
  - the `render*`/`update*` methods, toasts, `window.app.render`/`navigate`, receipt printing (src/features/pos/pos.screen.js:804-857), and `mount`/`unmount`;
  - the `confirm` dialog before `handleClearCart` and the `closeCheckoutModal` DOM removal;
  - those effects are not modelled.
- Clocks and randomness. `generateId` and `new Date().toISOString()` are parameters (`freshId`, `now`). The demo orders' load time and its two ISO spellings are parameters too. The "today" parts of `getOrderStats` use `toLocaleDateString` and are left out.
- `formatCurrency`, `formatDate` and the logger are left out as locale and console output.
- Floating point. Money is `real`. `parseFloat`/`Number(x)` are taken as an `Option<real>` input, with `None` for a non-finite result. `Number(x) || 0` is `NumberOrZero`.
- `localeCompare`. The category sort in `getCategories` of src/selectors/index.js:54 uses a code-point order on Unicode scalar values (`Text.Less`) instead of locale collation.
- Strings use ASCII lower-casing only. Characters are Unicode scalar values, not UTF-16 code units.
- Ties in `getTopProducts`. The model's insertion sort is stable for equal sales. `Array.prototype.sort` is stable as well, but the order of `Object.values` for integer-like keys (ascending numeric before insertion order) is modelled as first-seen order.
- The SVG placeholder. `getPlaceholder` returns a base64 `data:` URL through `btoa`. The model returns a `Placeholder(color, label)` value instead of encoding the SVG.
- The async image helpers `preloadImages`, `toBase64` and `getImageWithFallback` are left out. The outcome of loading an image (load or error) is a parameter of `PreloadImage`.
- Storage failures. `localStorage` quota or disabled storage (the `catch` branches of src/utils/storage.js) are not modelled: `SaveToStorage` always succeeds. Stored values are JSON values, not JSON text, so `JSON.stringify`/`parse` are the `JsonCodec` encoders. A stored value that is not an array of well-formed records loads as if absent (empty), where the source would use it as it is.
- Prototype keys (`__proto__` as an id) and non-array stored values are not modelled.
- The debounced auto-save of src/state/index.js is not part of this model. Concurrency and timers are not modelled.
- `String(paymentMethod)` in the older `placeOrder` is the method string itself, since every caller passes a string.
- The undo history entries keep the cart they replaced and the action data. Their `timestamp` is not modelled.
- The `state` getter of src/state/store.js:195-199 is the `state` field of `Store`, read directly by callers.
- Text.StringToInteger: only blank text and optionally signed decimal integers are decoded. JavaScript's `Number(text)` also reads "1.0", "1.", "1e0", "0x1" and "Infinity"; the model gives no integer for those.
- Domain.LooseEq: a number loosely equals a string only when the string is blank or an optionally signed decimal integer of that value, so `1 == '1.0'` and `1 == '0x1'` hold in JavaScript but not in the model. The legacy store's loose id matches (`deleteCustomer('1.0')`, for example) differ on such spellings.
- Persistence.LoadState: a stored `currentCustomer` or order type that does not decode is treated like an absent key, which gives null and 'dine-in'.
- The listeners' own effects are not modelled. A listener is an identity whose reaction to a snapshot is a fixed function, so a listener that changes the store from inside a notification is out of scope.
