/**
 * The shop page's product list: the products fetched from the content store are
 * filtered by the search box (title or any tag, ignoring case) and the category
 * buttons, then a copy of the result is sorted by the chosen order.
 *
 * `Array.prototype.sort` is stable, so for a comparator of the form
 * `key(a) - key(b)` its result is the stable ascending sort by `key`; that is how
 * the four consistent orders are modelled. The `newest` comparator is not
 * consistent and the model gives it no order.
 */
module Shop {

  import opened Wrappers
  import Seqs
  import Text

  /** The fields of a product record that the shop page reads. */
  datatype Product = Product(
    id: string,
    title: string,
    category: string,
    tags: Option<seq<string>>,
    price: real,
    rating: real,
    isNew: bool)

  /** The search box matches the title, or some tag when the product has tags. */
  predicate MatchesSearch(p: Product, searchTerm: string)
  {
    || Text.ContainsIgnoringCase(p.title, searchTerm)
    || (p.tags.Some? && exists k :: 0 <= k < |p.tags.value| && Text.ContainsIgnoringCase(p.tags.value[k], searchTerm))
  }

  /** The category button `all` shows every category; any other shows only its own. */
  predicate MatchesCategory(p: Product, selectedCategory: string)
  {
    selectedCategory == "all" || p.category == selectedCategory
  }

  /** The `filter` callback of the shop page. */
  predicate Shown(p: Product, searchTerm: string, selectedCategory: string)
  {
    MatchesSearch(p, searchTerm) && MatchesCategory(p, selectedCategory)
  }

  /** `filteredProducts`. */
  function FilteredProducts(products: seq<Product>, searchTerm: string, selectedCategory: string): seq<Product>
  {
    Seqs.Filter(products, (p: Product) => Shown(p, searchTerm, selectedCategory))
  }

  /** What a search match means: the lowered term occurs in the lowered title or in a lowered tag. */
  lemma MatchesSearchMeaning(p: Product, searchTerm: string)
    ensures var term := Text.Lower(searchTerm);
      MatchesSearch(p, searchTerm) <==>
        || (exists i :: Text.OccursAt(Text.Lower(p.title), term, i))
        || (p.tags.Some? && exists k, i :: 0 <= k < |p.tags.value| && Text.OccursAt(Text.Lower(p.tags.value[k]), term, i))
  {
  }

  /** A product without tags, or with an empty tag list, can match only through its title. */
  lemma UntaggedMatchesByTitle(p: Product, searchTerm: string)
    requires p.tags.None? || p.tags.value == []
    ensures MatchesSearch(p, searchTerm) <==> Text.ContainsIgnoringCase(p.title, searchTerm)
  {
  }

  /** The filtered list keeps exactly the shown products, every occurrence of each, in order. */
  lemma FilteredProductsSpec(products: seq<Product>, searchTerm: string, selectedCategory: string)
    ensures var r := FilteredProducts(products, searchTerm, selectedCategory);
      && Seqs.IsSubsequence(r, products)
      && (forall p :: p in r ==> MatchesSearch(p, searchTerm) && MatchesCategory(p, selectedCategory))
      && (forall p :: multiset(r)[p] == if Shown(p, searchTerm, selectedCategory) then multiset(products)[p] else 0)
  {
    var keep := (p: Product) => Shown(p, searchTerm, selectedCategory);
    Seqs.FilterIsSubsequence(products, keep);
    forall p {
      Seqs.FilterCount(products, keep, p);
    }
  }

  /** With an empty search and category `all`, every product is shown, in its order. */
  lemma EmptySearchShowsAll(products: seq<Product>)
    ensures FilteredProducts(products, "", "all") == products
  {
    forall k | 0 <= k < |products|
      ensures Shown(products[k], "", "all")
    {
      Text.ContainsEmptyTerm(products[k].title);
    }
    Seqs.FilterKeepsAll(products, (p: Product) => Shown(p, "", "all"));
  }

  /** The values of the sort menu; any other value falls to the `default` branch. */
  datatype SortBy = Featured | Newest | PriceLow | PriceHigh | Rating

  /** The orders whose comparator is consistent. */
  type ConsistentSort = order: SortBy | order != Newest witness Featured

  /** `sortBy` as the `switch` reads it. */
  function ParseSortBy(s: string): (order: SortBy)
    ensures order == Featured <==> s !in {"newest", "price-low", "price-high", "rating"}
    ensures s == "price-low" ==> order == PriceLow
    ensures s == "price-high" ==> order == PriceHigh
    ensures s == "rating" ==> order == Rating
    ensures s == "newest" ==> order == Newest
  {
    if s == "price-low" then PriceLow
    else if s == "price-high" then PriceHigh
    else if s == "rating" then Rating
    else if s == "newest" then Newest
    else Featured
  }

  /** The comparator of each consistent order is `Key(order, a) - Key(order, b)`. */
  function Key(order: ConsistentSort, p: Product): real
  {
    match order
    case PriceLow => p.price
    case PriceHigh => -p.price
    case Rating => -p.rating
    case Featured => 0.0
  }

  /** Non-decreasing keys. */
  ghost predicate SortedByKey(s: seq<Product>, order: ConsistentSort)
  {
    forall i, j :: 0 <= i < j < |s| ==> Key(order, s[i]) <= Key(order, s[j])
  }

  /** The products of `s` whose key is `k`, in the order of `s`. */
  function WithKey(s: seq<Product>, order: ConsistentSort, k: real): seq<Product>
  {
    Seqs.Filter(s, (p: Product) => Key(order, p) == k)
  }

  /** Inserts `x` into a sorted list after every element whose key is not larger. */
  function Insert(sorted: seq<Product>, x: Product, order: ConsistentSort): seq<Product>
  {
    if sorted == [] then [x]
    else if Key(order, sorted[|sorted| - 1]) <= Key(order, x) then sorted + [x]
    else Insert(sorted[..|sorted| - 1], x, order) + [sorted[|sorted| - 1]]
  }

  /** Stable ascending sort by key: elements are inserted left to right. */
  function StableSort(s: seq<Product>, order: ConsistentSort): seq<Product>
  {
    if s == [] then [] else Insert(StableSort(s[..|s| - 1], order), s[|s| - 1], order)
  }

  /** `[...filteredProducts].sort(comparator)`; `None` for `newest`, whose order is not determined. */
  function SortedProducts(filtered: seq<Product>, order: SortBy): Option<seq<Product>>
  {
    if order == Newest then None else Some(StableSort(filtered, order))
  }

  lemma {:induction false} InsertPermutation(sorted: seq<Product>, x: Product, order: ConsistentSort)
    ensures multiset(Insert(sorted, x, order)) == multiset(sorted) + multiset{x}
  {
    if sorted != [] && Key(order, sorted[|sorted| - 1]) > Key(order, x) {
      var init, last := sorted[..|sorted| - 1], sorted[|sorted| - 1];
      assert Insert(sorted, x, order) == Insert(init, x, order) + [last];
      InsertPermutation(init, x, order);
      Seqs.MultisetSnoc(sorted);
    }
  }

  /** Sorting only rearranges. */
  lemma {:induction false} SortPermutation(s: seq<Product>, order: ConsistentSort)
    ensures multiset(StableSort(s, order)) == multiset(s)
  {
    if s != [] {
      var init, last := s[..|s| - 1], s[|s| - 1];
      var sortedInit := StableSort(init, order);
      assert StableSort(s, order) == Insert(sortedInit, last, order);
      SortPermutation(init, order);
      InsertPermutation(sortedInit, last, order);
      Seqs.MultisetSnoc(s);
    }
  }

  lemma {:induction false} InsertSorted(sorted: seq<Product>, x: Product, order: ConsistentSort)
    requires SortedByKey(sorted, order)
    ensures SortedByKey(Insert(sorted, x, order), order)
  {
    if sorted != [] && Key(order, sorted[|sorted| - 1]) > Key(order, x) {
      var init, last := sorted[..|sorted| - 1], sorted[|sorted| - 1];
      var r := Insert(init, x, order);
      InsertSorted(init, x, order);
      InsertPermutation(init, x, order);
      forall i | 0 <= i < |r|
        ensures Key(order, r[i]) <= Key(order, last)
      {
        assert r[i] in multiset(r);
        if r[i] != x {
          assert r[i] in init;
        }
      }
    }
  }

  /** Sorting orders by key. */
  lemma {:induction false} SortSorted(s: seq<Product>, order: ConsistentSort)
    ensures SortedByKey(StableSort(s, order), order)
  {
    if s != [] {
      SortSorted(s[..|s| - 1], order);
      InsertSorted(StableSort(s[..|s| - 1], order), s[|s| - 1], order);
    }
  }

  /** `WithKey` of a list extended by one product. */
  lemma WithKeySnoc(s: seq<Product>, e: Product, order: ConsistentSort, k: real)
    ensures WithKey(s + [e], order, k) == WithKey(s, order, k) + (if Key(order, e) == k then [e] else [])
  {
    assert (s + [e])[..|s|] == s;
  }

  /** The step of `InsertWithKey` where `x` moves in front of the last element. */
  lemma InsertWithKeyStep(r: seq<Product>, init: seq<Product>, last: Product, x: Product, order: ConsistentSort, k: real)
    requires Key(order, last) > Key(order, x)
    requires WithKey(r, order, k) == WithKey(init, order, k) + (if Key(order, x) == k then [x] else [])
    ensures WithKey(r + [last], order, k) == WithKey(init + [last], order, k) + (if Key(order, x) == k then [x] else [])
  {
    WithKeySnoc(r, last, order, k);
    WithKeySnoc(init, last, order, k);
    if Key(order, x) == k {
      assert WithKey(r + [last], order, k) == WithKey(init, order, k) + [x];
      assert WithKey(init + [last], order, k) == WithKey(init, order, k);
    } else if Key(order, last) == k {
      assert WithKey(r + [last], order, k) == WithKey(init, order, k) + [last];
    } else {
      assert WithKey(r + [last], order, k) == WithKey(init, order, k);
    }
  }

  /** `x` lands at the end when no element has a larger key than the last one. */
  lemma InsertWithKeyAppend(sorted: seq<Product>, x: Product, order: ConsistentSort, k: real)
    requires sorted == [] || Key(order, sorted[|sorted| - 1]) <= Key(order, x)
    ensures WithKey(Insert(sorted, x, order), order, k) == WithKey(sorted, order, k) + (if Key(order, x) == k then [x] else [])
  {
    assert Insert(sorted, x, order) == sorted + [x];
    WithKeySnoc(sorted, x, order, k);
  }

  /** Inserting `x` puts it after every element with its key and changes no other key's products. */
  lemma {:induction false} InsertWithKey(sorted: seq<Product>, x: Product, order: ConsistentSort, k: real)
    ensures WithKey(Insert(sorted, x, order), order, k) == WithKey(sorted, order, k) + (if Key(order, x) == k then [x] else [])
  {
    if sorted == [] || Key(order, sorted[|sorted| - 1]) <= Key(order, x) {
      InsertWithKeyAppend(sorted, x, order, k);
    } else {
      var init, last := sorted[..|sorted| - 1], sorted[|sorted| - 1];
      var r := Insert(init, x, order);
      InsertWithKey(init, x, order, k);
      assert Insert(sorted, x, order) == r + [last];
      InsertWithKeyStep(r, init, last, x, order, k);
      assert sorted == init + [last];
    }
  }

  /** Sorting is stable: products with equal keys keep their relative order. */
  lemma {:induction false} SortStable(s: seq<Product>, order: ConsistentSort, k: real)
    ensures WithKey(StableSort(s, order), order, k) == WithKey(s, order, k)
  {
    if s != [] {
      var init := s[..|s| - 1];
      SortStable(init, order, k);
      InsertWithKey(StableSort(init, order), s[|s| - 1], order, k);
    }
  }

  /** A comparator that always returns 0 leaves the list as it is. */
  lemma {:induction false} FeaturedKeepsOrder(s: seq<Product>)
    ensures StableSort(s, Featured) == s
  {
    if s != [] {
      FeaturedKeepsOrder(s[..|s| - 1]);
      assert s[..|s| - 1] + [s[|s| - 1]] == s;
    }
  }

  /**
   * The sorted list: nothing for `newest`; otherwise a rearrangement of the filtered
   * list, ascending by price for `price-low`, descending by price for `price-high`,
   * descending by rating for `rating`, stable on ties, and the filtered order itself
   * for the default.
   */
  lemma SortedProductsSpec(filtered: seq<Product>, order: SortBy)
    ensures SortedProducts(filtered, order).None? <==> order == Newest
    ensures order != Newest ==>
      var r := SortedProducts(filtered, order).value;
      && multiset(r) == multiset(filtered)
      && (forall k :: WithKey(r, order, k) == WithKey(filtered, order, k))
      && (order == PriceLow ==> forall i, j :: 0 <= i < j < |r| ==> r[i].price <= r[j].price)
      && (order == PriceHigh ==> forall i, j :: 0 <= i < j < |r| ==> r[i].price >= r[j].price)
      && (order == Rating ==> forall i, j :: 0 <= i < j < |r| ==> r[i].rating >= r[j].rating)
      && (order == Featured ==> r == filtered)
  {
    if order != Newest {
      SortPermutation(filtered, order);
      SortSorted(filtered, order);
      forall k {
        SortStable(filtered, order, k);
      }
      if order == Featured {
        FeaturedKeepsOrder(filtered);
      }
    }
  }

  /** What the shop page lists for the given products and controls. */
  function ShopView(products: seq<Product>, searchTerm: string, selectedCategory: string, sortBy: string): Option<seq<Product>>
  {
    SortedProducts(FilteredProducts(products, searchTerm, selectedCategory), ParseSortBy(sortBy))
  }

  /** On first render (empty search, category `all`, order `featured`) the page lists every product as fetched. */
  lemma InitialView(products: seq<Product>)
    ensures ShopView(products, "", "all", "featured") == Some(products)
  {
    EmptySearchShowsAll(products);
    FeaturedKeepsOrder(products);
  }
}
