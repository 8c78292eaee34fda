/** The shared data helper `getCategories`: the distinct truthy categories of a
    product list, in the order they first occur. A value that is not an array
    arrives as `None`. */
module Helpers {
  import opened Wrappers
  import opened Domain

  /** Some product of the list carries the category. */
  predicate Occurs(products: seq<Product>, category: string) {
    exists p :: p in products && p.category == category
  }

  /** `[...new Set(products.map(p => p.category).filter(Boolean))]` on an array:
      an empty category is falsy and dropped; a `Set` keeps insertion order. */
  function DistinctCategories(products: seq<Product>): (r: seq<string>)
    ensures forall i, j :: 0 <= i < j < |r| ==> r[i] != r[j]
    ensures forall c :: c in r <==> c != "" && Occurs(products, c)
  {
    if products == [] then []
    else
      var prefix := products[..|products| - 1];
      var last := products[|products| - 1];
      var before := DistinctCategories(prefix);
      assert products == prefix + [last];
      if last.category == "" || last.category in before then before else before + [last.category]
  }

  /** `getCategories(products)`. */
  function GetCategories(products: Option<seq<Product>>): (r: seq<string>)
    ensures products.None? ==> r == []
    ensures products.Some? ==> r == DistinctCategories(products.value)
  {
    if products.None? then [] else DistinctCategories(products.value)
  }

  /** The index of the first product with the category. */
  function FirstAt(products: seq<Product>, category: string): (n: nat)
    requires Occurs(products, category)
    ensures n < |products| && products[n].category == category
    ensures forall k :: 0 <= k < n ==> products[k].category != category
  {
    if products[0].category == category then 0
    else
      var p :| p in products && p.category == category;
      assert p in products[1..];
      1 + FirstAt(products[1..], category)
  }

  /** A category already present in a prefix is first found there. */
  lemma FirstAtPrefix(products: seq<Product>, n: nat, category: string)
    requires n <= |products| && Occurs(products[..n], category)
    ensures Occurs(products, category)
    ensures FirstAt(products, category) == FirstAt(products[..n], category)
  {
    var p :| p in products[..n] && p.category == category;
    assert p in products;
    var a, b := FirstAt(products, category), FirstAt(products[..n], category);
    assert products[b] == products[..n][b];
  }

  /** The categories come out in the order of their first occurrence. */
  lemma {:induction false} CategoriesInFirstSeenOrder(products: seq<Product>, i: nat, j: nat)
    requires i < j < |DistinctCategories(products)|
    ensures Occurs(products, DistinctCategories(products)[i]) && Occurs(products, DistinctCategories(products)[j])
    ensures FirstAt(products, DistinctCategories(products)[i]) < FirstAt(products, DistinctCategories(products)[j])
  {
    var r := DistinctCategories(products);
    var prefix := products[..|products| - 1];
    var last := products[|products| - 1];
    var before := DistinctCategories(prefix);
    assert r[i] in r && r[j] in r;
    FirstAtPrefix(products, |products| - 1, r[i]);
    if j < |before| {
      CategoriesInFirstSeenOrder(prefix, i, j);
      FirstAtPrefix(products, |products| - 1, r[j]);
    } else {
      // r[j] is the last product's category, seen for the first time.
      assert r[j] == last.category && r[j] !in before;
      assert !Occurs(prefix, r[j]);
      forall k | 0 <= k < |prefix| ensures products[k].category != r[j] {
        assert products[k] == prefix[k] && prefix[k] in prefix;
      }
    }
  }
}
