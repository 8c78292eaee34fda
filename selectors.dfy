/** Derived values of the application state: cart sums, order statistics,
    category filters, the best-selling products and whether undo is possible. */
module Selectors {
  import opened Wrappers
  import opened Text
  import opened Domain
  import opened CartActions

  // ---------------------------------------------------------------------------
  // getCartTotal, getCartCount
  // ---------------------------------------------------------------------------

  /** `getCartTotal` and `getCartCount` are the sums `CartTotal` and `CartCount`:
      0 on an empty cart, one line's price times quantity (and quantity), and
      additive over concatenation. */
  lemma CartSums(a: seq<CartItem>, b: seq<CartItem>, line: CartItem)
    ensures CartTotal([]) == 0.0 && CartCount([]) == 0
    ensures CartTotal([line]) == line.price * line.quantity as real && CartCount([line]) == line.quantity
    ensures CartTotal(a + b) == CartTotal(a) + CartTotal(b)
    ensures CartCount(a + b) == CartCount(a) + CartCount(b)
  {
    CartSumsSplit(a, b);
    assert [line][..0] == [];
  }

  // ---------------------------------------------------------------------------
  // getOrderStats (count and revenue)
  // ---------------------------------------------------------------------------

  /** `orders.reduce((sum, o) => sum + (o.total || 0), 0)`. */
  function Revenue(orders: seq<Order>): real {
    if orders == [] then 0.0 else Revenue(orders[..|orders| - 1]) + orders[|orders| - 1].total
  }

  datatype OrderStats = OrderStats(total: nat, revenue: real)

  /** The count and revenue part of `getOrderStats`. */
  function GetOrderStats(orders: seq<Order>): (r: OrderStats)
    ensures r.total == |orders|
  {
    OrderStats(|orders|, Revenue(orders))
  }

  /** Placing one more order adds one to the count and its total to the revenue;
      with non-negative totals the revenue is non-negative. */
  lemma OrderStatsAppend(orders: seq<Order>, o: Order)
    ensures GetOrderStats(orders + [o]).total == GetOrderStats(orders).total + 1
    ensures GetOrderStats(orders + [o]).revenue == GetOrderStats(orders).revenue + o.total
  {
    assert (orders + [o])[..|orders|] == orders;
  }

  lemma {:induction false} RevenueNonNegative(orders: seq<Order>)
    requires forall o :: o in orders ==> o.total >= 0.0
    ensures Revenue(orders) >= 0.0
  {
    if orders != [] {
      assert forall o :: o in orders[..|orders| - 1] ==> o in orders;
      RevenueNonNegative(orders[..|orders| - 1]);
    }
  }

  // ---------------------------------------------------------------------------
  // getProductsByCategory
  // ---------------------------------------------------------------------------

  /** `products.filter(p => p.category === category)`. */
  function InCategory(products: seq<Product>, category: string): (r: seq<Product>)
    ensures |r| <= |products|
    ensures forall p :: p in r <==> p in products && p.category == category
  {
    if products == [] then []
    else
      var rest := InCategory(products[..|products| - 1], category);
      var last := products[|products| - 1];
      assert forall p :: p in products <==> p in products[..|products| - 1] || p == last;
      if last.category == category then rest + [last] else rest
  }

  /** The filter keeps the products' order: it distributes over concatenation. */
  lemma {:induction false} InCategoryConcat(a: seq<Product>, b: seq<Product>, category: string)
    ensures InCategory(a + b, category) == InCategory(a, category) + InCategory(b, category)
    decreases |b|
  {
    if b == [] {
      assert a + b == a;
    } else {
      var b' := b[..|b| - 1];
      assert (a + b)[..|a + b| - 1] == a + b';
      assert (a + b)[|a + b| - 1] == b[|b| - 1];
      InCategoryConcat(a, b', category);
    }
  }

  /** `getProductsByCategory(state, category)`: all products for a falsy category
      (the empty string here) or 'All', else exactly those of that category. */
  function GetProductsByCategory(products: seq<Product>, category: string): (r: seq<Product>)
    ensures category == "" || category == "All" ==> r == products
    ensures category != "" && category != "All" ==>
              forall p :: p in r <==> p in products && p.category == category
  {
    if category == "" || category == "All" then products else InCategory(products, category)
  }

  // ---------------------------------------------------------------------------
  // getCategories (sorted)
  // ---------------------------------------------------------------------------

  predicate StrictlySorted(xs: seq<string>) {
    forall i, j :: 0 <= i < j < |xs| ==> Less(xs[i], xs[j])
  }

  /** Inserting into a strictly sorted list of distinct strings. */
  function InsertSorted(xs: seq<string>, x: string): (r: seq<string>)
    requires StrictlySorted(xs)
    ensures StrictlySorted(r)
    ensures forall y :: y in r <==> y in xs || y == x
  {
    if xs == [] then [x]
    else if x == xs[0] then xs
    else if Less(x, xs[0]) then
      assert forall j :: 0 <= j < |xs| ==> Less(x, xs[j]) by {
        forall j | 0 <= j < |xs| ensures Less(x, xs[j]) {
          if j > 0 { LessTransitive(x, xs[0], xs[j]); }
        }
      }
      [x] + xs
    else
      LessTotal(x, xs[0]);
      var rest := InsertSorted(xs[1..], x);
      assert forall y :: y in xs[1..] ==> Less(xs[0], y);
      assert forall j :: 0 <= j < |rest| ==> Less(xs[0], rest[j]);
      [xs[0]] + rest
  }

  /** `Array.from(new Set(products.map(p => p.category))).sort(...)`: the distinct
      categories, in ascending order (code-point order standing for
      `localeCompare`). */
  function SortedCategories(products: seq<Product>): (r: seq<string>)
    ensures StrictlySorted(r)
    ensures forall c :: c in r <==> exists p :: p in products && p.category == c
  {
    if products == [] then []
    else
      var prefix := products[..|products| - 1];
      var last := products[|products| - 1];
      assert forall p :: p in products <==> p in prefix || p == last;
      InsertSorted(SortedCategories(prefix), last.category)
  }

  /** Strictly sorted means no category is listed twice. */
  lemma SortedCategoriesDistinct(products: seq<Product>)
    ensures forall i, j :: 0 <= i < j < |SortedCategories(products)| ==>
              SortedCategories(products)[i] != SortedCategories(products)[j]
  {
    var r := SortedCategories(products);
    forall i, j | 0 <= i < j < |r| ensures r[i] != r[j] {
      LessIrreflexive(r[i]);
    }
  }

  // ---------------------------------------------------------------------------
  // getTopProducts
  // ---------------------------------------------------------------------------

  /** One entry of `productSales`. */
  datatype Sales = Sales(id: Id, name: string, image: string, sales: int, revenue: real)

  /** All order lines, order by order. */
  function Flatten(orders: seq<Order>): seq<CartItem> {
    if orders == [] then [] else Flatten(orders[..|orders| - 1]) + orders[|orders| - 1].items
  }

  /** The quantity sold under property key `k`. */
  function SalesOf(items: seq<CartItem>, k: string): int {
    if items == [] then 0
    else
      var last := items[|items| - 1];
      SalesOf(items[..|items| - 1], k) + (if PropertyKey(last.id) == k then last.quantity else 0)
  }

  /** The revenue under property key `k`. */
  function RevenueOf(items: seq<CartItem>, k: string): real {
    if items == [] then 0.0
    else
      var last := items[|items| - 1];
      RevenueOf(items[..|items| - 1], k)
      + (if PropertyKey(last.id) == k then LineAmount(last) else 0.0)
  }

  /** `item.price * item.quantity`. */
  function LineAmount(item: CartItem): real {
    item.price * item.quantity as real
  }

  /** One step of the aggregation loop: create the entry from the first line
      with this key, then add the line's quantity and amount. */
  function AddSale(m: map<string, Sales>, item: CartItem): map<string, Sales> {
    var k := PropertyKey(item.id);
    var base := if k in m then m[k] else Sales(item.id, item.name, item.image, 0, 0.0);
    m[k := base.(sales := base.sales + item.quantity,
                 revenue := base.revenue + LineAmount(item))]
  }

  /** The property keys of the lines. */
  function KeysOf(items: seq<CartItem>): set<string> {
    if items == [] then {} else KeysOf(items[..|items| - 1]) + {PropertyKey(items[|items| - 1].id)}
  }

  /** A key is in `KeysOf` exactly when some line carries it. */
  lemma {:induction false} KeysOfLines(items: seq<CartItem>, k: string)
    ensures k in KeysOf(items) <==> exists i :: 0 <= i < |items| && PropertyKey(items[i].id) == k
  {
    if items != [] {
      var prefix := items[..|items| - 1];
      KeysOfLines(prefix, k);
      if exists i :: 0 <= i < |items| && PropertyKey(items[i].id) == k {
        var i :| 0 <= i < |items| && PropertyKey(items[i].id) == k;
        if i < |prefix| { assert prefix[i] == items[i]; }
      }
      if exists i :: 0 <= i < |prefix| && PropertyKey(prefix[i].id) == k {
        var i :| 0 <= i < |prefix| && PropertyKey(prefix[i].id) == k;
        assert items[i] == prefix[i];
      }
    }
  }

  /** `productSales` after the lines `items`: one entry per property key seen,
      each created from the first line with that key. */
  function Tally(items: seq<CartItem>): (m: map<string, Sales>)
    ensures m.Keys == KeysOf(items)
    ensures forall k :: k in m ==> PropertyKey(m[k].id) == k
  {
    if items == [] then map[] else AddSale(Tally(items[..|items| - 1]), items[|items| - 1])
  }

  /** Each entry holds its key's summed quantity and revenue. */
  lemma {:induction false} TallyIsSums(items: seq<CartItem>, k: string)
    requires k in Tally(items)
    ensures Tally(items)[k].sales == SalesOf(items, k)
    ensures Tally(items)[k].revenue == RevenueOf(items, k)
  {
    var prefix := items[..|items| - 1];
    var last := items[|items| - 1];
    if k in Tally(prefix) {
      TallyIsSums(prefix, k);
    } else if k == PropertyKey(last.id) {
      AbsentKeySumsZero(prefix, k);
    }
  }

  /** A key no line carries has no sales and no revenue. */
  lemma {:induction false} AbsentKeySumsZero(items: seq<CartItem>, k: string)
    requires k !in KeysOf(items)
    ensures SalesOf(items, k) == 0 && RevenueOf(items, k) == 0.0
  {
    if items != [] {
      AbsentKeySumsZero(items[..|items| - 1], k);
    }
  }

  predicate DistinctStrings(xs: seq<string>) {
    forall i, j :: 0 <= i < j < |xs| ==> xs[i] != xs[j]
  }

  /** The keys of `productSales` in the order they were first created. */
  function FirstSeen(items: seq<CartItem>): (ks: seq<string>)
    ensures DistinctStrings(ks)
    ensures forall k :: k in ks <==> k in KeysOf(items)
  {
    if items == [] then []
    else
      var before := FirstSeen(items[..|items| - 1]);
      var k := PropertyKey(items[|items| - 1].id);
      if k in before then before else before + [k]
  }

  /** Sales never increase along the list. */
  predicate BySalesDescending(xs: seq<Sales>) {
    forall i, j :: 0 <= i < j < |xs| ==> xs[i].sales >= xs[j].sales
  }

  /** No two entries share a property key. */
  predicate DistinctKeys(xs: seq<Sales>) {
    forall i, j :: 0 <= i < j < |xs| ==> PropertyKey(xs[i].id) != PropertyKey(xs[j].id)
  }

  function InsertBySales(xs: seq<Sales>, x: Sales): (r: seq<Sales>)
    requires BySalesDescending(xs)
    ensures BySalesDescending(r)
    ensures multiset(r) == multiset(xs) + multiset{x}
  {
    if xs == [] then [x]
    else if x.sales >= xs[0].sales then
      ConsBySales(x, xs);
      [x] + xs
    else
      var rest := InsertBySales(xs[1..], x);
      assert xs == [xs[0]] + xs[1..];
      HeadBoundsInsertion(xs, x, rest);
      ConsBySales(xs[0], rest);
      [xs[0]] + rest
  }

  /** After inserting an entry with fewer sales than the head into the tail,
      the head still has at least the sales of every entry. */
  lemma HeadBoundsInsertion(xs: seq<Sales>, x: Sales, rest: seq<Sales>)
    requires BySalesDescending(xs) && xs != [] && x.sales < xs[0].sales
    requires multiset(rest) == multiset(xs[1..]) + multiset{x}
    ensures forall j :: 0 <= j < |rest| ==> rest[j].sales <= xs[0].sales
  {
    forall j | 0 <= j < |rest| ensures rest[j].sales <= xs[0].sales {
      assert rest[j] in multiset(rest);
      if rest[j] != x {
        assert rest[j] in multiset(xs[1..]);
        var t :| 0 <= t < |xs[1..]| && xs[1..][t] == rest[j];
        assert xs[t + 1] == rest[j];
      }
    }
  }

  /** An entry with at least the sales of every entry of a sorted list can go
      in front of it. */
  lemma ConsBySales(x: Sales, xs: seq<Sales>)
    requires BySalesDescending(xs)
    requires forall j :: 0 <= j < |xs| ==> xs[j].sales <= x.sales
    ensures BySalesDescending([x] + xs)
  {
    var r := [x] + xs;
    forall i, j | 0 <= i < j < |r| ensures r[i].sales >= r[j].sales {
      assert r[j] == xs[j - 1];
      if i > 0 {
        assert r[i] == xs[i - 1];
      }
    }
  }

  /** Inserting an entry whose key is new keeps the keys distinct. */
  lemma {:induction false} InsertKeepsKeysDistinct(xs: seq<Sales>, x: Sales)
    requires BySalesDescending(xs) && DistinctKeys(xs)
    requires forall y :: y in xs ==> PropertyKey(y.id) != PropertyKey(x.id)
    ensures DistinctKeys(InsertBySales(xs, x))
  {
    if xs != [] && x.sales < xs[0].sales {
      var rest := InsertBySales(xs[1..], x);
      InsertKeepsKeysDistinct(xs[1..], x);
      assert forall y :: y in rest ==> y == x || y in xs[1..] by {
        assert forall y :: y in rest <==> y in multiset(rest);
      }
      var r := [xs[0]] + rest;
      forall i, j | 0 <= i < j < |r| ensures PropertyKey(r[i].id) != PropertyKey(r[j].id) {
        if i == 0 {
          assert r[j] in rest;
          if r[j] != x {
            var t :| 0 <= t < |xs[1..]| && xs[1..][t] == r[j];
            assert xs[t + 1] == r[j];
          }
        }
      }
    } else if xs != [] {
      var r := [x] + xs;
      forall i, j | 0 <= i < j < |r| ensures PropertyKey(r[i].id) != PropertyKey(r[j].id) {
        if i == 0 { assert r[j] in xs; }
      }
    }
  }

  /** `.sort((a, b) => b.sales - a.sales)`: a permutation ordered by sales,
      highest first (the order among equal sales is not fixed here). */
  function SortBySales(xs: seq<Sales>): (r: seq<Sales>)
    ensures BySalesDescending(r)
    ensures multiset(r) == multiset(xs)
  {
    if xs == [] then []
    else
      var prefix := xs[..|xs| - 1];
      assert xs == prefix + [xs[|xs| - 1]];
      InsertBySales(SortBySales(prefix), xs[|xs| - 1])
  }

  /** Sorting keeps the keys distinct. */
  lemma {:induction false} SortKeepsKeysDistinct(xs: seq<Sales>)
    requires DistinctKeys(xs)
    ensures DistinctKeys(SortBySales(xs))
  {
    if xs != [] {
      var prefix := xs[..|xs| - 1];
      var x := xs[|xs| - 1];
      assert xs == prefix + [x];
      SortKeepsKeysDistinct(prefix);
      var sorted := SortBySales(prefix);
      forall y | y in sorted ensures PropertyKey(y.id) != PropertyKey(x.id) {
        assert y in multiset(sorted);
        assert y in prefix;
        var t :| 0 <= t < |prefix| && prefix[t] == y;
        assert xs[t] == y;
      }
      InsertKeepsKeysDistinct(sorted, x);
    }
  }

  /** The end index of `.slice(0, limit)` on a list of length `len`. */
  function SliceEnd(len: nat, limit: int): (n: nat)
    ensures n <= len
    ensures 0 <= limit ==> n == if limit < len then limit else len
    ensures limit < 0 ==> n == if len + limit < 0 then 0 else len + limit
  {
    if limit < 0 then (if len + limit < 0 then 0 else len + limit)
    else if limit < len then limit else len
  }

  const DEFAULT_TOP_LIMIT := 5

  /** One more line: one more aggregation step. */
  lemma TallyStep(seen: seq<CartItem>, item: CartItem)
    ensures Tally(seen + [item]) == AddSale(Tally(seen), item)
    ensures FirstSeen(seen + [item]) == if PropertyKey(item.id) in Tally(seen) then FirstSeen(seen)
                                        else FirstSeen(seen) + [PropertyKey(item.id)]
  {
    assert (seen + [item])[..|seen|] == seen;
  }

  /** The loop body's writes are one aggregation step. */
  lemma NextLine(prefix: seq<CartItem>, item: CartItem, before: map<string, Sales>, keysBefore: seq<string>,
                 after: map<string, Sales>, keysAfter: seq<string>)
    requires before == Tally(prefix) && keysBefore == FirstSeen(prefix)
    requires after == AddSale(before, item)
    requires keysAfter == if PropertyKey(item.id) in before then keysBefore else keysBefore + [PropertyKey(item.id)]
    ensures after == Tally(prefix + [item]) && keysAfter == FirstSeen(prefix + [item])
  {
    TallyStep(prefix, item);
  }

  /** One more line of an order: the prefix grows by that line. */
  lemma PrefixStep(seen: seq<CartItem>, items: seq<CartItem>, j: nat)
    requires j < |items|
    ensures seen + items[..j + 1] == (seen + items[..j]) + [items[j]]
  {
    assert items[..j + 1] == items[..j] + [items[j]];
  }

  /** One more order: its lines follow the earlier ones. */
  lemma FlattenStep(orders: seq<Order>, i: nat)
    requires i < |orders|
    ensures Flatten(orders[..i + 1]) == Flatten(orders[..i]) + orders[i].items
  {
    assert orders[..i + 1][..i] == orders[..i];
  }

  /** The two nested `forEach` loops of `getTopProducts`: `productSales` and its
      keys in creation order. */
  method AggregateSales(orders: seq<Order>) returns (productSales: map<string, Sales>, keys: seq<string>)
    ensures productSales == Tally(Flatten(orders))
    ensures keys == FirstSeen(Flatten(orders))
  {
    productSales := map[];
    keys := [];
    var i := 0;
    while i < |orders|
      invariant 0 <= i <= |orders|
      invariant productSales == Tally(Flatten(orders[..i]))
      invariant keys == FirstSeen(Flatten(orders[..i]))
    {
      productSales, keys := AddOrderLines(productSales, keys, Flatten(orders[..i]), orders[i].items);
      FlattenStep(orders, i);
      i := i + 1;
    }
    assert orders[..|orders|] == orders;
  }

  /** The body of the inner loop for one line: create the entry if the key is
      new, then add the line's quantity and amount to it. */
  method CountLine(productSales0: map<string, Sales>, keys0: seq<string>, item: CartItem)
    returns (productSales: map<string, Sales>, keys: seq<string>)
    ensures productSales == AddSale(productSales0, item)
    ensures keys == if PropertyKey(item.id) in productSales0 then keys0 else keys0 + [PropertyKey(item.id)]
  {
    productSales, keys := productSales0, keys0;
    var k := PropertyKey(item.id);
    if k !in productSales {
      productSales := productSales[k := Sales(item.id, item.name, item.image, 0, 0.0)];
      keys := keys + [k];
    }
    var base := productSales[k];
    productSales := productSales[k := base.(sales := base.sales + item.quantity,
                                     revenue := base.revenue + LineAmount(item))];
  }

  /** The inner loop: `order.items.forEach(...)` after the lines `seen`. */
  method AddOrderLines(productSales0: map<string, Sales>, keys0: seq<string>, ghost seen: seq<CartItem>,
                       items: seq<CartItem>) returns (productSales: map<string, Sales>, keys: seq<string>)
    requires productSales0 == Tally(seen) && keys0 == FirstSeen(seen)
    ensures productSales == Tally(seen + items) && keys == FirstSeen(seen + items)
  {
    productSales, keys := productSales0, keys0;
    var j := 0;
    ghost var prefix := seen;
    assert seen + items[..0] == seen;
    while j < |items|
      invariant 0 <= j <= |items|
      invariant prefix == seen + items[..j]
      invariant productSales == Tally(prefix)
      invariant keys == FirstSeen(prefix)
    {
      var item := items[j];
      ghost var before, keysBefore := productSales, keys;
      productSales, keys := CountLine(productSales, keys, item);
      NextLine(prefix, item, before, keysBefore, productSales, keys);
      PrefixStep(seen, items, j);
      prefix := prefix + [item];
      j := j + 1;
    }
    assert items[..|items|] == items;
  }

  /** `Object.values(productSales)` in key order. */
  function ValuesOf(m: map<string, Sales>, keys: seq<string>): (vs: seq<Sales>)
    requires forall k :: k in keys ==> k in m
    ensures |vs| == |keys|
    ensures forall n :: 0 <= n < |keys| ==> vs[n] == m[keys[n]]
  {
    seq(|keys|, n requires 0 <= n < |keys| => m[keys[n]])
  }

  /** `getTopProducts(state, limit = 5)`: aggregate every order line by id, sort
      by quantity sold (highest first) and keep the first `limit` entries. */
  method GetTopProducts(orders: seq<Order>, limit: Option<int>) returns (top: seq<Sales>)
    ensures var totals := Tally(Flatten(orders));
            && BySalesDescending(top)
            && DistinctKeys(top)
            && |top| == SliceEnd(|FirstSeen(Flatten(orders))|, limit.GetOr(DEFAULT_TOP_LIMIT))
            && (forall e :: e in top ==> PropertyKey(e.id) in totals && totals[PropertyKey(e.id)] == e)
            && (forall k, e :: k in totals && totals[k] !in top && e in top ==> e.sales >= totals[k].sales)
  {
    var productSales, keys := AggregateSales(orders);
    var values := ValuesOf(productSales, keys);
    var sorted := SortBySales(values);
    ValuesHaveDistinctKeys(productSales, keys);
    SortKeepsKeysDistinct(values);
    assert |sorted| == |multiset(sorted)| == |multiset(values)| == |values|;
    var end := SliceEnd(|sorted|, limit.GetOr(DEFAULT_TOP_LIMIT));
    top := sorted[..end];
    PrefixKeepsOrder(sorted, end);
    TopEntriesAreTotals(productSales, keys, sorted, end);
    TopEntriesOutsell(productSales, keys, sorted, end);
  }

  /** A prefix of a sorted list with distinct keys is one too. */
  lemma PrefixKeepsOrder(xs: seq<Sales>, end: nat)
    requires BySalesDescending(xs) && DistinctKeys(xs) && end <= |xs|
    ensures BySalesDescending(xs[..end]) && DistinctKeys(xs[..end])
  {
    assert forall i :: 0 <= i < end ==> xs[..end][i] == xs[i];
  }

  /** The values of distinct keys have distinct keys. */
  lemma ValuesHaveDistinctKeys(m: map<string, Sales>, keys: seq<string>)
    requires DistinctStrings(keys) && (forall k :: k in keys ==> k in m)
    requires forall k :: k in m ==> PropertyKey(m[k].id) == k
    ensures DistinctKeys(ValuesOf(m, keys))
  {
    var values := ValuesOf(m, keys);
    forall a, b | 0 <= a < b < |values| ensures PropertyKey(values[a].id) != PropertyKey(values[b].id) {
      assert PropertyKey(values[a].id) == keys[a] && PropertyKey(values[b].id) == keys[b];
    }
  }

  /** Every kept entry is the aggregate of its own key. */
  lemma TopEntriesAreTotals(m: map<string, Sales>, keys: seq<string>, sorted: seq<Sales>, end: nat)
    requires forall k :: k in keys ==> k in m
    requires forall k :: k in m ==> PropertyKey(m[k].id) == k
    requires sorted == SortBySales(ValuesOf(m, keys)) && end <= |sorted|
    ensures forall e :: e in sorted[..end] ==> PropertyKey(e.id) in m && m[PropertyKey(e.id)] == e
  {
    var values := ValuesOf(m, keys);
    forall e | e in sorted[..end] ensures PropertyKey(e.id) in m && m[PropertyKey(e.id)] == e {
      assert e in multiset(sorted);
      assert e in multiset(values);
      var a :| 0 <= a < |values| && values[a] == e;
    }
  }

  /** Every kept entry has sold at least as much as every entry left out. */
  lemma TopEntriesOutsell(m: map<string, Sales>, keys: seq<string>, sorted: seq<Sales>, end: nat)
    requires forall k :: k in keys <==> k in m
    requires sorted == SortBySales(ValuesOf(m, keys)) && end <= |sorted|
    ensures forall k, e :: k in m && m[k] !in sorted[..end] && e in sorted[..end] ==> e.sales >= m[k].sales
  {
    var values := ValuesOf(m, keys);
    var top := sorted[..end];
    forall k, e | k in m && m[k] !in top && e in top ensures e.sales >= m[k].sales {
      var a :| 0 <= a < |keys| && keys[a] == k;
      assert values[a] == m[k];
      assert m[k] in multiset(values);
      assert m[k] in multiset(sorted);
      var p :| 0 <= p < |sorted| && sorted[p] == m[k];
      var q :| 0 <= q < |top| && top[q] == e;
      assert p >= end;
    }
  }

  /** The entry for a key holds that key's whole quantity and revenue over
      every order. */
  lemma TopProductsAreTotals(orders: seq<Order>, k: string)
    requires k in Tally(Flatten(orders))
    ensures Tally(Flatten(orders))[k].sales == SalesOf(Flatten(orders), k)
    ensures Tally(Flatten(orders))[k].revenue == RevenueOf(Flatten(orders), k)
  {
    TallyIsSums(Flatten(orders), k);
  }

  // ---------------------------------------------------------------------------
  // canUndo
  // ---------------------------------------------------------------------------

  /** `canUndo(state)`. */
  predicate CanUndo(s: AppState)
    requires Shaped(s)
  {
    |HistoryOf(s)| > 0
  }

  /** Undo is available exactly when undoing would change the state. */
  lemma CanUndoIffUndoChanges(s: AppState)
    requires Shaped(s)
    ensures CanUndo(s) <==> Undone(s) != s
  {
    if CanUndo(s) {
      assert |HistoryOf(Undone(s))| < |HistoryOf(s)|;
    }
  }
}
