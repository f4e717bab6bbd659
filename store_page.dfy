/** The storefront's catalog view (pages/StorePage.tsx): the category buttons
    derived from the catalog, and the displayed products, filtered by the
    selected category and then optionally sorted by price on a copy. */
module StorePage {
  import opened Types

  const AllCategory: string := "All"
  const SortDefault: string := "default"
  const SortPriceAsc: string := "price-asc"
  const SortPriceDesc: string := "price-desc"

  // ---------------------------------------------------------------------------
  // Category buttons
  // ---------------------------------------------------------------------------

  predicate NoDuplicates(s: seq<string>) {
    forall i, j :: 0 <= i < j < |s| ==> s[i] != s[j]
  }

  /** Position of the first occurrence of `x` in `s`. */
  function FirstIndex(s: seq<string>, x: string): (r: nat)
    requires x in s
    ensures r < |s| && s[r] == x
    ensures forall j :: 0 <= j < r ==> s[j] != x
  {
    if s[0] == x then 0 else 1 + FirstIndex(s[1..], x)
  }

  /** An element of a prefix has the same first position in the whole sequence. */
  lemma {:induction false} FirstIndexPrefix(s: seq<string>, n: nat, x: string)
    requires n <= |s| && x in s[..n]
    ensures x in s && FirstIndex(s, x) == FirstIndex(s[..n], x)
    decreases n
  {
    if s[0] != x {
      assert s[1..][..n - 1] == s[..n][1..];
      FirstIndexPrefix(s[1..], n - 1, x);
    }
  }

  /** `Array.from(new Set(s))`: each distinct string once, kept in the order in
      which a set built by inserting `s` from left to right first receives it. */
  function Distinct(s: seq<string>): (r: seq<string>)
    ensures forall x :: x in r <==> x in s
    ensures NoDuplicates(r)
    ensures forall i, j :: 0 <= i < j < |r| ==> FirstIndex(s, r[i]) < FirstIndex(s, r[j])
    decreases |s|
  {
    if s == [] then []
    else
      var init, last := s[..|s| - 1], s[|s| - 1];
      assert s == init + [last];
      var r := Distinct(init);
      forall i | 0 <= i < |r| ensures FirstIndex(s, r[i]) == FirstIndex(init, r[i]) {
        FirstIndexPrefix(s, |s| - 1, r[i]);
      }
      if last in r then r
      else
        assert FirstIndex(s, last) == |s| - 1;
        r + [last]
  }

  /** The category of every product, in catalog order. */
  function CategoriesOf(products: seq<Product>): (r: seq<string>)
    ensures |r| == |products| && forall i :: 0 <= i < |products| ==> r[i] == products[i].category
  {
    seq(|products|, i requires 0 <= i < |products| => products[i].category)
  }

  /** `categories`: 'All', then each distinct product category once, in order of
      first appearance in the catalog. */
  function Categories(products: seq<Product>): (r: seq<string>)
    ensures |r| >= 1 && r[0] == AllCategory
    ensures forall c :: c in r[1..] <==> c in CategoriesOf(products)
    ensures forall c :: c in r[1..] <==> exists p :: p in products && p.category == c
    ensures NoDuplicates(r[1..])
    ensures forall i, j :: 1 <= i < j < |r| ==>
      FirstIndex(CategoriesOf(products), r[i]) < FirstIndex(CategoriesOf(products), r[j])
  {
    var cats := CategoriesOf(products);
    var r := [AllCategory] + Distinct(cats);
    assert r[1..] == Distinct(cats);
    forall c | c in cats ensures exists p :: p in products && p.category == c {
      var i :| 0 <= i < |cats| && cats[i] == c;
      assert products[i] in products;
    }
    forall p | p in products ensures p.category in cats {
      var i :| 0 <= i < |products| && products[i] == p;
      assert cats[i] == p.category;
    }
    r
  }

  // ---------------------------------------------------------------------------
  // Category filter
  // ---------------------------------------------------------------------------

  /** `products.filter(p => p.category === category)`. */
  function InCategory(products: seq<Product>, category: string): (r: seq<Product>)
    ensures |r| <= |products|
    ensures forall p :: p in r <==> p in products && p.category == category
  {
    if products == [] then []
    else (if products[0].category == category then [products[0]] else []) + InCategory(products[1..], category)
  }

  /** The filter keeps catalog order: it distributes over concatenation. */
  lemma {:induction false} InCategoryAppend(a: seq<Product>, b: seq<Product>, category: string)
    ensures InCategory(a + b, category) == InCategory(a, category) + InCategory(b, category)
    decreases |a|
  {
    if a == [] {
      assert a + b == b;
    } else {
      assert (a + b)[1..] == a[1..] + b;
      InCategoryAppend(a[1..], b, category);
    }
  }

  /** The list before sorting: the whole catalog for 'All', else one category. */
  function Filtered(products: seq<Product>, category: string): (r: seq<Product>)
    ensures category == AllCategory ==> r == products
    ensures category != AllCategory ==> forall p :: p in r <==> p in products && p.category == category
    ensures |r| <= |products|
  {
    if category != AllCategory then InCategory(products, category) else products
  }

  // ---------------------------------------------------------------------------
  // Price sort
  // ---------------------------------------------------------------------------

  /** The comparator's key: `a.price - b.price` orders by price, `b.price - a.price`
      by negated price. */
  function Key(p: Product, descending: bool): int {
    if descending then -p.price else p.price
  }

  predicate SortedBy(s: seq<Product>, descending: bool) {
    forall i, j :: 0 <= i < j < |s| ==> Key(s[i], descending) <= Key(s[j], descending)
  }

  /** Places `x` before the first element whose key is not smaller, so that `x`
      precedes every element of equal key. */
  function Insert(x: Product, s: seq<Product>, descending: bool): (r: seq<Product>)
    ensures multiset(r) == multiset(s) + multiset{x}
  {
    if s == [] then [x]
    else if Key(x, descending) <= Key(s[0], descending) then [x] + s
    else
      assert s == [s[0]] + s[1..];
      [s[0]] + Insert(x, s[1..], descending)
  }

  /** Inserting into a sorted list keeps it sorted. */
  lemma {:induction false} InsertSorted(x: Product, s: seq<Product>, descending: bool)
    requires SortedBy(s, descending)
    ensures SortedBy(Insert(x, s, descending), descending)
    decreases |s|
  {
    if s != [] && Key(x, descending) > Key(s[0], descending) {
      var tail := Insert(x, s[1..], descending);
      InsertSorted(x, s[1..], descending);
      forall y | y in tail ensures Key(s[0], descending) <= Key(y, descending) {
        assert y in multiset(tail);
        if y != x {
          assert y in s[1..];
          var j :| 0 <= j < |s[1..]| && s[1..][j] == y;
          assert y == s[j + 1];
        }
      }
      SortedCons(s[0], tail, descending);
    }
  }

  /** A sorted list stays sorted under a head whose key is at most every key in it. */
  lemma SortedCons(h: Product, t: seq<Product>, descending: bool)
    requires SortedBy(t, descending)
    requires forall y :: y in t ==> Key(h, descending) <= Key(y, descending)
    ensures SortedBy([h] + t, descending)
  {
    var r := [h] + t;
    forall i, j | 0 <= i < j < |r| ensures Key(r[i], descending) <= Key(r[j], descending) {
      assert r[j] == t[j - 1];
      if i == 0 {
        assert t[j - 1] in t;
      } else {
        assert r[i] == t[i - 1];
      }
    }
  }

  /** `Array.prototype.sort` with a key comparator: stable, so elements with equal
      keys keep their input order (`SortStable`). */
  function SortByKey(s: seq<Product>, descending: bool): (r: seq<Product>)
    ensures multiset(r) == multiset(s)
    ensures SortedBy(r, descending)
  {
    if s == [] then []
    else
      assert s == [s[0]] + s[1..];
      var rest := SortByKey(s[1..], descending);
      InsertSorted(s[0], rest, descending);
      Insert(s[0], rest, descending)
  }

  /** The elements of `s` whose key is `k`, in order. */
  function WithKey(s: seq<Product>, descending: bool, k: int): seq<Product> {
    if s == [] then []
    else (if Key(s[0], descending) == k then [s[0]] else []) + WithKey(s[1..], descending, k)
  }

  lemma WithKeyCons(x: Product, t: seq<Product>, descending: bool, k: int)
    ensures WithKey([x] + t, descending, k)
         == (if Key(x, descending) == k then [x] else []) + WithKey(t, descending, k)
  {
    assert ([x] + t)[1..] == t;
  }

  lemma {:induction false} InsertStable(x: Product, s: seq<Product>, descending: bool, k: int)
    ensures WithKey(Insert(x, s, descending), descending, k) == WithKey([x] + s, descending, k)
    decreases |s|
  {
    if s == [] || Key(x, descending) <= Key(s[0], descending) {
      assert Insert(x, s, descending) == [x] + s;
    } else {
      var y, rest := s[0], s[1..];
      var tail := Insert(x, rest, descending);
      var ky := if Key(y, descending) == k then [y] else [];
      var kx := if Key(x, descending) == k then [x] else [];
      assert Insert(x, s, descending) == [y] + tail;
      assert s == [y] + rest;
      calc {
        WithKey([y] + tail, descending, k);
        { WithKeyCons(y, tail, descending, k); }
        ky + WithKey(tail, descending, k);
        { InsertStable(x, rest, descending, k); }
        ky + WithKey([x] + rest, descending, k);
        { WithKeyCons(x, rest, descending, k); }
        ky + (kx + WithKey(rest, descending, k));
        { assert ky == [] || kx == []; }
        kx + (ky + WithKey(rest, descending, k));
        { WithKeyCons(y, rest, descending, k); }
        kx + WithKey(s, descending, k);
        { WithKeyCons(x, s, descending, k); }
        WithKey([x] + s, descending, k);
      }
    }
  }

  /** Stability: among products of one key the sorted list keeps input order. */
  lemma {:induction false} SortStable(s: seq<Product>, descending: bool, k: int)
    ensures WithKey(SortByKey(s, descending), descending, k) == WithKey(s, descending, k)
    decreases |s|
  {
    if s != [] {
      var rest := SortByKey(s[1..], descending);
      InsertStable(s[0], rest, descending, k);
      SortStable(s[1..], descending, k);
      WithKeyCons(s[0], rest, descending, k);
      WithKeyCons(s[0], s[1..], descending, k);
      assert [s[0]] + s[1..] == s;
    }
  }

  // ---------------------------------------------------------------------------
  // The displayed list
  // ---------------------------------------------------------------------------

  /** `displayedProducts`: filter by category unless 'All' is selected, copy, then
      sort the copy ascending or descending by price for the two price orders;
      any other sort value leaves catalog order. */
  function DisplayedProducts(products: seq<Product>, category: string, sortOrder: string): (r: seq<Product>)
    ensures multiset(r) == multiset(Filtered(products, category))
    ensures sortOrder == SortPriceAsc ==> forall i, j :: 0 <= i < j < |r| ==> r[i].price <= r[j].price
    ensures sortOrder == SortPriceDesc ==> forall i, j :: 0 <= i < j < |r| ==> r[i].price >= r[j].price
    ensures sortOrder != SortPriceAsc && sortOrder != SortPriceDesc ==> r == Filtered(products, category)
  {
    var filtered := Filtered(products, category);
    if sortOrder == SortPriceAsc then SortByKey(filtered, false)
    else if sortOrder == SortPriceDesc then SortByKey(filtered, true)
    else filtered
  }

  /** A product is displayed exactly when it is in the catalog and either 'All' or
      its own category is selected, whatever the sort order. */
  lemma DisplayedMembership(products: seq<Product>, category: string, sortOrder: string, p: Product)
    ensures p in DisplayedProducts(products, category, sortOrder)
        <==> p in products && (category == AllCategory || p.category == category)
  {
    var r := DisplayedProducts(products, category, sortOrder);
    assert p in r <==> p in multiset(r);
    assert p in Filtered(products, category) <==> p in multiset(Filtered(products, category));
  }

  lemma DescendingDisplayed(products: seq<Product>, category: string)
    ensures DisplayedProducts(products, category, SortPriceDesc) == SortByKey(Filtered(products, category), true)
  {
    assert SortPriceAsc[6] != SortPriceDesc[6];
  }

  /** Products of equal price are shown in catalog order under the ascending
      price sort: for every key `k` (here the price itself), the displayed
      products with that key are the filtered ones with that key, in order. */
  lemma AscendingStable(products: seq<Product>, category: string, k: int)
    ensures WithKey(DisplayedProducts(products, category, SortPriceAsc), false, k)
         == WithKey(Filtered(products, category), false, k)
  {
    SortStable(Filtered(products, category), false, k);
  }

  /** And under the descending one, whose key is the negated price. */
  lemma DescendingStable(products: seq<Product>, category: string, k: int)
    ensures WithKey(DisplayedProducts(products, category, SortPriceDesc), true, k)
         == WithKey(Filtered(products, category), true, k)
  {
    DescendingDisplayed(products, category);
    SortStable(Filtered(products, category), true, k);
  }

  /** The initial selection ('All', 'default') shows the whole catalog in order. */
  lemma DefaultsShowCatalog(products: seq<Product>)
    ensures DisplayedProducts(products, AllCategory, SortDefault) == products
  {
  }
}
