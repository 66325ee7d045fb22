/**
 * The storefront product listing (app/products/page.tsx): a case-insensitive
 * name search, an inclusive price window, an optional stable sort, pages of
 * nine, clamped previous/next navigation and the top-five by price.
 */
module Catalog {
  import opened Wrappers
  import Strings
  import opened Seqs
  import opened Sorting

  const ItemsPerPage: int := 9
  const DefaultMaxPrice: int := 5000000
  const TopCount: int := 5
  const ProductsEndpoint: string := "/api/products"

  /** A product as the listing sees it; prices are whole đồng. */
  datatype Product = Product(id: string, name: string, slug: string, price: int, categoryId: string)

  function Price(p: Product): int { p.price }
  function Name(p: Product): string { p.name }

  // ---------------------------------------------------------------- filtering

  /** The lower-cased name contains the lower-cased query. */
  predicate MatchesSearch(p: Product, query: string) {
    Strings.Contains(Strings.Lower(p.name), Strings.Lower(query))
  }

  /** `result.filter(p => p.name.toLowerCase().includes(query.toLowerCase()))`. */
  function MatchingSearch(s: seq<Product>, query: string): (r: seq<Product>)
    ensures IsSubseq(r, s)
    ensures forall p :: multiset(r)[p] == if MatchesSearch(p, query) then multiset(s)[p] else 0
  {
    if s == [] then []
    else
      assert s == [s[0]] + s[1..];
      var rest := MatchingSearch(s[1..], query);
      if MatchesSearch(s[0], query) then [s[0]] + rest
      else SubseqCons(rest, s[1..], s[0]); rest
  }

  /** The window `[lo, hi]` is inclusive at both ends. */
  predicate InWindow(p: Product, lo: int, hi: int) {
    lo <= p.price <= hi
  }

  /** `result.filter(p => p.price >= lo && p.price <= hi)`. */
  function WithinPrice(s: seq<Product>, lo: int, hi: int): (r: seq<Product>)
    ensures IsSubseq(r, s)
    ensures forall p :: multiset(r)[p] == if InWindow(p, lo, hi) then multiset(s)[p] else 0
  {
    if s == [] then []
    else
      assert s == [s[0]] + s[1..];
      var rest := WithinPrice(s[1..], lo, hi);
      if InWindow(s[0], lo, hi) then [s[0]] + rest
      else SubseqCons(rest, s[1..], s[0]); rest
  }

  /** The `switch (sortBy)`: three stable sorts, anything else keeps the order. */
  function SortedProducts(s: seq<Product>, sortBy: string, collate: (string, string) -> bool): (r: seq<Product>)
    ensures multiset(r) == multiset(s)
  {
    if sortBy == "price-asc" then SortOn(s, Price, IntLe)
    else if sortBy == "price-desc" then SortOn(s, Price, IntGe)
    else if sortBy == "name-asc" then SortOn(s, Name, collate)
    else s
  }

  /** A product survives `filterProducts` when it passes the search and the window. */
  predicate Passes(p: Product, query: string, lo: int, hi: int) {
    (query == "" || MatchesSearch(p, query)) && InWindow(p, lo, hi)
  }

  /** What `filterProducts` stores in `filteredProducts`. */
  function FilterResult(all: seq<Product>, query: string, lo: int, hi: int, sortBy: string,
                        collate: (string, string) -> bool): seq<Product>
  {
    var searched := if query == "" then all else MatchingSearch(all, query);
    SortedProducts(WithinPrice(searched, lo, hi), sortBy, collate)
  }

  /**
   * Whatever the sort, the result is a permutation of the products of `all`
   * that pass the search and the window: each such product is kept as often
   * as it occurs, and no other product appears.
   */
  lemma FilterResultContents(all: seq<Product>, query: string, lo: int, hi: int, sortBy: string,
                             collate: (string, string) -> bool)
    ensures var r := FilterResult(all, query, lo, hi, sortBy, collate);
      && (forall p :: multiset(r)[p] == if Passes(p, query, lo, hi) then multiset(all)[p] else 0)
      && (forall p :: p in r ==> lo <= p.price <= hi)
      && (forall p :: p in all && Passes(p, query, lo, hi) ==> p in r)
  {
    var r := FilterResult(all, query, lo, hi, sortBy, collate);
    forall p ensures multiset(r)[p] == if Passes(p, query, lo, hi) then multiset(all)[p] else 0 {
    }
    forall p | p in r ensures lo <= p.price <= hi {
      assert multiset(r)[p] > 0;
    }
    forall p | p in all && Passes(p, query, lo, hi) ensures p in r {
      assert multiset(all)[p] > 0;
    }
  }

  /** Every name contains the empty query, so searching for "" keeps everything. */
  lemma {:induction false} EmptySearchKeepsAll(s: seq<Product>)
    ensures MatchingSearch(s, "") == s
  {
    if s != [] {
      Strings.ContainsEmpty(Strings.Lower(s[0].name));
      EmptySearchKeepsAll(s[1..]);
    }
  }

  /** A non-empty query keeps exactly the products whose lower-cased name contains it. */
  lemma SearchMembership(all: seq<Product>, query: string, p: Product)
    requires query != ""
    requires p in all
    ensures p in MatchingSearch(all, query) <==> MatchesSearch(p, query)
  {
    var r := MatchingSearch(all, query);
    assert multiset(all)[p] > 0;
    assert p in r <==> multiset(r)[p] > 0;
  }

  /** With `default` or any unknown key the filtered products keep their fetched order. */
  lemma DefaultKeepsOrder(all: seq<Product>, query: string, lo: int, hi: int, sortBy: string,
                          collate: (string, string) -> bool)
    requires sortBy != "price-asc" && sortBy != "price-desc" && sortBy != "name-asc"
    ensures IsSubseq(FilterResult(all, query, lo, hi, sortBy, collate), all)
  {
    var searched := if query == "" then all else MatchingSearch(all, query);
    if query == "" {
      SubseqRefl(all);
    }
    SubseqTrans(WithinPrice(searched, lo, hi), searched, all);
  }

  /** `price-asc` is non-decreasing, `price-desc` non-increasing, `name-asc` ordered by the collation. */
  lemma SortKeysOrder(all: seq<Product>, query: string, lo: int, hi: int, sortBy: string,
                      collate: (string, string) -> bool)
    requires sortBy == "name-asc" ==> TotalPreorder(collate)
    ensures var r := FilterResult(all, query, lo, hi, sortBy, collate);
      && (sortBy == "price-asc" ==> forall i, j :: 0 <= i < j < |r| ==> r[i].price <= r[j].price)
      && (sortBy == "price-desc" ==> forall i, j :: 0 <= i < j < |r| ==> r[i].price >= r[j].price)
      && (sortBy == "name-asc" ==> forall i, j :: 0 <= i < j < |r| ==> collate(r[i].name, r[j].name))
  {
    var searched := if query == "" then all else MatchingSearch(all, query);
    var windowed := WithinPrice(searched, lo, hi);
    IntOrdersArePreorders();
    if sortBy == "price-asc" {
      SortOnSorted(windowed, Price, IntLe);
    } else if sortBy == "price-desc" {
      SortOnSorted(windowed, Price, IntGe);
    } else if sortBy == "name-asc" {
      SortOnSorted(windowed, Name, collate);
    }
  }

  // ---------------------------------------------------------------- pages

  /** `Math.ceil(n / ITEMS_PER_PAGE)`. */
  function TotalPages(n: nat): (t: nat)
    ensures t * ItemsPerPage >= n
    ensures t == 0 || (t - 1) * ItemsPerPage < n
    ensures t == 0 <==> n == 0
  {
    (n + ItemsPerPage - 1) / ItemsPerPage
  }

  /** How `Array.prototype.slice` turns an index into a position in `0..len`. */
  function SliceIndex(i: int, len: nat): (k: nat)
    ensures k <= len
    ensures 0 <= i <= len ==> k == i
  {
    if i < 0 then (if len + i < 0 then 0 else len + i)
    else if i > len then len
    else i
  }

  /** `s.slice(start, end)`. */
  function Slice<T>(s: seq<T>, start: int, end: int): (r: seq<T>)
    ensures |r| <= |s|
  {
    var a := SliceIndex(start, |s|);
    var b := SliceIndex(end, |s|);
    if a < b then s[a..b] else []
  }

  /** `(currentPage - 1) * ITEMS_PER_PAGE`. */
  function StartIndex(page: int): int {
    (page - 1) * ItemsPerPage
  }

  /** `filteredProducts.slice(startIndex, startIndex + ITEMS_PER_PAGE)`. */
  function PageOf(s: seq<Product>, page: int): (r: seq<Product>)
    ensures |r| <= ItemsPerPage
    ensures page >= 1 ==> r == s[Min(StartIndex(page), |s|)..Min(StartIndex(page) + ItemsPerPage, |s|)]
  {
    Slice(s, StartIndex(page), StartIndex(page) + ItemsPerPage)
  }

  function Min(a: int, b: int): int { if a <= b then a else b }
  function Max(a: int, b: int): int { if a >= b then a else b }

  /** Pages `1..k` one after another. */
  function Pages(s: seq<Product>, k: nat): seq<Product> {
    if k == 0 then [] else Pages(s, k - 1) + PageOf(s, k)
  }

  lemma {:induction false} PagesPrefix(s: seq<Product>, k: nat)
    ensures Pages(s, k) == s[..Min(k * ItemsPerPage, |s|)]
  {
    if k > 0 {
      PagesPrefix(s, k - 1);
      assert StartIndex(k) == (k - 1) * ItemsPerPage;
    }
  }

  /** Pages `1..totalPages`, taken together, are the filtered list exactly once. */
  lemma PagesCoverAll(s: seq<Product>)
    ensures Pages(s, TotalPages(|s|)) == s
  {
    PagesPrefix(s, TotalPages(|s|));
  }

  /** The last page holds `n mod 9` products, or 9 when 9 divides `n`. */
  lemma LastPageSize(s: seq<Product>)
    requires |s| > 0
    ensures |PageOf(s, TotalPages(|s|))| == if |s| % ItemsPerPage == 0 then ItemsPerPage else |s| % ItemsPerPage
  {
  }

  // ---------------------------------------------------------------- price window and top products

  /** `Math.max(...prices, 5000000)`. */
  function MaxPrice(s: seq<Product>): (m: int)
    ensures m >= DefaultMaxPrice
    ensures forall p :: p in s ==> p.price <= m
    ensures m == DefaultMaxPrice || exists p :: p in s && p.price == m
  {
    if s == [] then DefaultMaxPrice
    else
      var rest := MaxPrice(s[1..]);
      assert forall p :: p in s ==> p == s[0] || p in s[1..];
      if s[0].price > rest then s[0].price else rest
  }

  /** After a fetch the window `[0, maxPrice]` admits every product priced at 0 or more. */
  lemma {:induction false} FetchedWindowAdmitsAll(s: seq<Product>, m: int)
    requires forall p :: p in s ==> 0 <= p.price <= m
    ensures WithinPrice(s, 0, m) == s
  {
    if s != [] {
      assert s[0] in s;
      FetchedWindowAdmitsAll(s[1..], m);
    }
  }

  /** `[...allProducts].sort((a, b) => b.price - a.price).slice(0, 5)`. */
  function TopProducts(all: seq<Product>): (top: seq<Product>)
    ensures top == SortOn(all, Price, IntGe)[..Min(TopCount, |all|)]
  {
    Slice(SortOn(all, Price, IntGe), 0, TopCount)
  }

  /**
   * The top products: at most five (exactly five when there are that many),
   * most expensive first, and drawn from `all`.
   */
  lemma TopProductsShape(all: seq<Product>)
    ensures var top := TopProducts(all);
      && |top| == Min(TopCount, |all|)
      && (forall i, j :: 0 <= i < j < |top| ==> top[i].price >= top[j].price)
      && multiset(top) <= multiset(all)
  {
    var sorted := SortOn(all, Price, IntGe);
    var k := Min(TopCount, |all|);
    assert TopProducts(all) == sorted[..k];
    IntOrdersArePreorders();
    SortOnSorted(all, Price, IntGe);
    SortedPrefix(sorted, k);
  }

  /** A prefix of a list sorted by descending price is sorted the same way and drawn from it. */
  lemma SortedPrefix(s: seq<Product>, k: nat)
    requires k <= |s|
    requires SortedOn(s, Price, IntGe)
    ensures forall i, j :: 0 <= i < j < |s[..k]| ==> s[..k][i].price >= s[..k][j].price
    ensures multiset(s[..k]) <= multiset(s)
  {
    forall i, j | 0 <= i < j < |s[..k]| ensures s[..k][i].price >= s[..k][j].price {
      assert IntGe(Price(s[i]), Price(s[j]));
    }
    assert s == s[..k] + s[k..];
  }

  /** No product left out of the top products costs more than one that was chosen. */
  lemma TopProductsDominate(all: seq<Product>, p: Product, q: Product)
    requires p in multiset(all) - multiset(TopProducts(all))
    requires q in TopProducts(all)
    ensures p.price <= q.price
  {
    var sorted := SortOn(all, Price, IntGe);
    var k := Min(TopCount, |all|);
    SplitMultiset(sorted, k);
    assert p in sorted[k..];
    var j :| k <= j < |sorted| && sorted[j] == p;
    var i :| 0 <= i < k && sorted[i] == q;
    IntOrdersArePreorders();
    SortOnSorted(all, Price, IntGe);
    assert IntGe(Price(sorted[i]), Price(sorted[j]));
  }

  /** The listing URL up to the unencoded category id. */
  const CategoryQueryPrefix: string := ProductsEndpoint + "?category="

  /** The request URL of `fetchProducts`: category-scoped when one is selected. */
  function ProductsUrl(category: Option<string>): (url: string)
    ensures Strings.StartsWith(url, ProductsEndpoint)
    ensures category.None? || category.value == "" ==> url == ProductsEndpoint
    ensures category.Some? && category.value != "" ==>
      Strings.StartsWith(url, CategoryQueryPrefix) && url[|CategoryQueryPrefix|..] == category.value
  {
    if category.Some? && category.value != "" then CategoryQueryPrefix + category.value
    else ProductsEndpoint
  }

  // ---------------------------------------------------------------- page state

  /** The state of `ProductsContent` that the listing logic reads and writes. */
  class ProductsPage {
    /** `localeCompare`, as the order it induces on names. */
    const collate: (string, string) -> bool
    var allProducts: seq<Product>
    var filteredProducts: seq<Product>
    var selectedCategory: Option<string>
    var currentPage: int
    var loading: bool
    var searchQuery: string
    var priceLow: int
    var priceHigh: int
    var maxPrice: int
    var sortBy: string

    /**
     * Every state change re-runs `filterProducts` through its effect, so the
     * shown list is always the filter of the current inputs; the page number
     * stays between 1 and the page count (or is 1 on an empty list).
     */
    ghost predicate Valid()
      reads this`filteredProducts, this`allProducts, this`searchQuery, this`priceLow, this`priceHigh
      reads this`sortBy, this`currentPage, this`maxPrice
    {
      && filteredProducts == FilterResult(allProducts, searchQuery, priceLow, priceHigh, sortBy, collate)
      && 1 <= currentPage
      && (currentPage == 1 || currentPage <= TotalPages(|filteredProducts|))
      && priceLow == 0 && 0 <= priceHigh <= maxPrice
      && maxPrice >= DefaultMaxPrice
    }

    constructor (collate: (string, string) -> bool, categoryParam: Option<string>)
      ensures Valid()
      ensures this.collate == collate && selectedCategory == categoryParam
      ensures allProducts == [] && filteredProducts == [] && currentPage == 1 && loading
      ensures searchQuery == "" && priceLow == 0 && priceHigh == DefaultMaxPrice
      ensures maxPrice == DefaultMaxPrice && sortBy == "default"
    {
      this.collate := collate;
      allProducts := [];
      filteredProducts := [];
      selectedCategory := categoryParam;
      currentPage := 1;
      loading := true;
      searchQuery := "";
      priceLow, priceHigh := 0, DefaultMaxPrice;
      maxPrice := DefaultMaxPrice;
      sortBy := "default";
    }

    /** `filterProducts`: search, then price window, then sort; back to page 1. */
    method FilterProducts()
      requires priceLow == 0 && 0 <= priceHigh <= maxPrice && maxPrice >= DefaultMaxPrice
      modifies this`filteredProducts, this`currentPage
      ensures Valid()
      ensures filteredProducts == FilterResult(allProducts, searchQuery, priceLow, priceHigh, sortBy, collate)
      ensures currentPage == 1
    {
      var result := allProducts;
      if searchQuery != "" {
        result := MatchingSearch(result, searchQuery);
      }
      assert result == if searchQuery == "" then allProducts else MatchingSearch(allProducts, searchQuery);
      result := WithinPrice(result, priceLow, priceHigh);
      ghost var windowed := result;
      if sortBy == "price-asc" {
        result := SortOn(result, Price, IntLe);
      } else if sortBy == "price-desc" {
        result := SortOn(result, Price, IntGe);
      } else if sortBy == "name-asc" {
        result := SortOn(result, Name, collate);
      }
      assert result == SortedProducts(windowed, sortBy, collate);
      filteredProducts := result;
      currentPage := 1;
    }

    /**
     * `fetchProducts` given the response: `Some(data)` for a reply with
     * `success`, `None` for a failed request or an unsuccessful reply.
     */
    method FetchProducts(response: Option<seq<Product>>) returns (url: string)
      requires Valid()
      modifies this`allProducts, this`maxPrice, this`priceLow, this`priceHigh, this`loading, this`filteredProducts, this`currentPage
      ensures Valid()
      ensures url == ProductsUrl(old(selectedCategory))
      ensures !loading
      ensures response.Some? ==>
        && allProducts == response.value
        && maxPrice == MaxPrice(response.value)
        && priceLow == 0 && priceHigh == maxPrice
        && currentPage == 1
      ensures response.None? ==>
        && allProducts == old(allProducts) && filteredProducts == old(filteredProducts)
        && maxPrice == old(maxPrice) && priceLow == old(priceLow) && priceHigh == old(priceHigh)
        && currentPage == old(currentPage)
    {
      loading := true;
      url := ProductsUrl(selectedCategory);
      if response.Some? {
        LoadProducts(response.value);
      }
      loading := false;
    }

    /**
     * A new list resets the window to `[0, max(prices, 5000000)]` and, through
     * the effect on those values, re-filters.
     */
    method LoadProducts(products: seq<Product>)
      modifies this`allProducts, this`maxPrice, this`priceLow, this`priceHigh, this`filteredProducts, this`currentPage
      ensures Valid()
      ensures allProducts == products && maxPrice == MaxPrice(products)
      ensures priceLow == 0 && priceHigh == maxPrice && currentPage == 1
    {
      allProducts := products;
      var max := MaxPrice(products);
      maxPrice := max;
      priceLow, priceHigh := 0, max;
      FilterProducts();
    }

    /**
     * A click on a category: when the selection changes, the effect on
     * `selectedCategory` fetches that category's products and goes to page 1.
     */
    method SelectCategory(category: Option<string>, response: Option<seq<Product>>) returns (url: Option<string>)
      requires Valid()
      modifies this`selectedCategory, this`allProducts, this`maxPrice, this`priceLow, this`priceHigh, this`loading, this`filteredProducts, this`currentPage
      ensures Valid()
      ensures selectedCategory == category
      ensures category == old(selectedCategory) ==>
        url.None? && allProducts == old(allProducts) && filteredProducts == old(filteredProducts)
        && currentPage == old(currentPage)
        && maxPrice == old(maxPrice) && priceLow == old(priceLow) && priceHigh == old(priceHigh)
        && loading == old(loading)
      ensures category != old(selectedCategory) ==> url == Some(ProductsUrl(category)) && currentPage == 1 && !loading
      ensures category != old(selectedCategory) && response.Some? ==>
        allProducts == response.value && maxPrice == MaxPrice(response.value)
        && priceLow == 0 && priceHigh == maxPrice
      ensures category != old(selectedCategory) && response.None? ==>
        allProducts == old(allProducts) && filteredProducts == old(filteredProducts)
        && maxPrice == old(maxPrice) && priceLow == old(priceLow) && priceHigh == old(priceHigh)
    {
      url := None;
      if category != selectedCategory {
        var requested := SwitchCategory(category, response);
        url := Some(requested);
      }
    }

    /**
     * The effect on a new `selectedCategory`: page 1 is set at once, and the
     * fetch of that category lands afterwards.
     */
    method SwitchCategory(category: Option<string>, response: Option<seq<Product>>) returns (url: string)
      requires Valid()
      modifies this`selectedCategory, this`allProducts, this`maxPrice, this`priceLow, this`priceHigh, this`loading, this`filteredProducts, this`currentPage
      ensures Valid()
      ensures selectedCategory == category
      ensures url == ProductsUrl(category) && currentPage == 1 && !loading
      ensures response.Some? ==>
        allProducts == response.value && maxPrice == MaxPrice(response.value)
        && priceLow == 0 && priceHigh == maxPrice
      ensures response.None? ==>
        allProducts == old(allProducts) && filteredProducts == old(filteredProducts)
        && maxPrice == old(maxPrice) && priceLow == old(priceLow) && priceHigh == old(priceHigh)
    {
      selectedCategory := category;
      currentPage := 1;
      url := FetchProducts(response);
    }

    /** Typing in the search box; a changed query re-filters and goes to page 1. */
    method SetSearchQuery(query: string)
      requires Valid()
      modifies this`searchQuery, this`filteredProducts, this`currentPage
      ensures Valid()
      ensures searchQuery == query
      ensures query != old(searchQuery) ==> currentPage == 1
      ensures query == old(searchQuery) ==> currentPage == old(currentPage)
    {
      if query != searchQuery {
        searchQuery := query;
        FilterProducts();
      }
    }

    /** Choosing a sort key; a changed key re-filters and goes to page 1. */
    method SetSortBy(key: string)
      requires Valid()
      modifies this`sortBy, this`filteredProducts, this`currentPage
      ensures Valid()
      ensures sortBy == key
      ensures key != old(sortBy) ==> currentPage == 1
      ensures key == old(sortBy) ==> currentPage == old(currentPage)
    {
      if key != sortBy {
        sortBy := key;
        FilterProducts();
      }
    }

    /**
     * Moving the price slider (range `0..maxPrice`): a new `priceRange` array
     * is stored every time, so the effect always re-filters.
     */
    method SetPriceCeiling(value: int)
      requires Valid()
      requires 0 <= value <= maxPrice
      modifies this`priceHigh, this`filteredProducts, this`currentPage
      ensures Valid()
      ensures priceHigh == value && currentPage == 1
    {
      priceHigh := value;
      FilterProducts();
    }

    /** The "Áp dụng" button calls `filterProducts` directly. */
    method ApplyFilters()
      requires Valid()
      modifies this`filteredProducts, this`currentPage
      ensures Valid()
      ensures filteredProducts == old(filteredProducts) && currentPage == 1
    {
      FilterProducts();
    }

    /** "← Trước", shown only when there is more than one page. */
    method PreviousPage()
      requires Valid()
      requires TotalPages(|filteredProducts|) > 1
      modifies this`currentPage
      ensures Valid()
      ensures currentPage == Max(1, old(currentPage) - 1)
    {
      currentPage := Max(1, currentPage - 1);
    }

    /** "Sau →", shown only when there is more than one page. */
    method NextPage()
      requires Valid()
      requires TotalPages(|filteredProducts|) > 1
      modifies this`currentPage
      ensures Valid()
      ensures currentPage == Min(TotalPages(|filteredProducts|), old(currentPage) + 1)
      ensures currentPage <= TotalPages(|filteredProducts|)
    {
      currentPage := Min(TotalPages(|filteredProducts|), currentPage + 1);
    }

    /** A numbered page button `i + 1`, for `i` below the page count. */
    method GoToPage(page: int)
      requires Valid()
      requires TotalPages(|filteredProducts|) > 1
      requires 1 <= page <= TotalPages(|filteredProducts|)
      modifies this`currentPage
      ensures Valid()
      ensures currentPage == page
    {
      currentPage := page;
    }

    /** The products shown on the current page. */
    function CurrentProducts(): (r: seq<Product>)
      reads this
      requires Valid()
      ensures |r| <= ItemsPerPage
      ensures r == filteredProducts[Min(StartIndex(currentPage), |filteredProducts|)..Min(StartIndex(currentPage) + ItemsPerPage, |filteredProducts|)]
    {
      PageOf(filteredProducts, currentPage)
    }
  }
}
