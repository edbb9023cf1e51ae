/**
 * The product list page: a category's products (or a hand-picked list of
 * product ids) are loaded, narrowed by brand, stock, rating and price
 * filters, optionally sorted by price, rating or name, and shown ten to a
 * page. A category arrives in chunks of 50 products; a list of ids is
 * fetched three requests at a time.
 */
module ProductList {
  import opened Common
  import opened Model
  import opened Paging
  import Sorting

  const ItemsPerPage: nat := 10
  const ChunkSize: nat := 50
  const BatchSize: nat := 3

  const FullStar: string := "\U{2605}"
  const EmptyStar: string := "\U{2606}"

  // ------------------------------------------------------- category name

  /**
   * The text with each '-' turned into a space and the first letter of each
   * '-'-separated word upper-cased; `atStart` says whether s begins a word.
   */
  function Capitalized(s: string, atStart: bool): (r: string)
    ensures |r| == |s|
    ensures forall i :: 0 <= i < |s| ==> r[i] == FormattedAt(s, i, atStart)
    decreases |s|
  {
    if s == [] then []
    else
      var c := if s[0] == '-' then ' ' else if atStart then UpperChar(s[0]) else s[0];
      var t := Capitalized(s[1..], s[0] == '-');
      assert forall i :: 1 <= i < |s| ==> FormattedAt(s, i, atStart) == FormattedAt(s[1..], i - 1, s[0] == '-');
      [c] + t
  }

  /** Character i of the formatted text. */
  function FormattedAt(s: string, i: nat, atStart: bool): char
    requires i < |s|
  {
    if s[i] == '-' then ' '
    else if (i == 0 && atStart) || (i > 0 && s[i - 1] == '-') then UpperChar(s[i])
    else s[i]
  }

  /**
   * formatCategoryName: split on '-', upper-case the first letter of each
   * part, join with single spaces. Splitting and re-joining keeps every
   * character in place, so the result has the input's length.
   */
  function FormatCategoryName(category: string): (r: string)
    ensures |r| == |category|
    ensures forall i :: 0 <= i < |category| ==> (category[i] == '-' ==> r[i] == ' ')
    ensures forall i :: 0 <= i < |category| && category[i] != '-' && (i == 0 || category[i - 1] == '-') ==>
      r[i] == UpperChar(category[i])
    ensures forall i :: 0 < i < |category| && category[i] != '-' && category[i - 1] != '-' ==> r[i] == category[i]
  {
    Capitalized(category, true)
  }

  /** A formatted name has no '-' left, so formatting it again changes nothing. */
  lemma FormatCategoryNameIdempotent(category: string)
    ensures FormatCategoryName(FormatCategoryName(category)) == FormatCategoryName(category)
  {
    var r := FormatCategoryName(category);
    var rr := FormatCategoryName(r);
    forall i | 0 <= i < |r|
      ensures rr[i] == r[i]
    {
      assert r[i] == FormattedAt(category, i, true);
      if i > 0 {
        assert r[i - 1] == FormattedAt(category, i - 1, true);
        assert r[i - 1] != '-';
      }
      if i == 0 && category[0] != '-' {
        assert UpperChar(UpperChar(category[0])) == UpperChar(category[0]);
      }
    }
  }

  // ------------------------------------------------------------ brands

  /** Distinct and in ascending JavaScript string order. */
  predicate StrictlySorted(s: seq<string>)
  {
    forall i, j :: 0 <= i < j < |s| ==> Sorting.LexLe(s[i], s[j]) && s[i] != s[j]
  }

  /** Adds x to an ordered list of distinct texts, unless it is already there. */
  function InsertBrand(x: string, s: seq<string>): (r: seq<string>)
    ensures forall y :: y in r <==> y == x || y in s
  {
    if s == [] then [x]
    else if x == s[0] then s
    else if Sorting.LexLe(x, s[0]) then [x] + s
    else
      assert forall y :: y in s <==> y == s[0] || y in s[1..];
      [s[0]] + InsertBrand(x, s[1..])
  }

  lemma {:induction false} InsertBrandSorted(x: string, s: seq<string>)
    requires StrictlySorted(s)
    ensures StrictlySorted(InsertBrand(x, s))
  {
    if s == [] || x == s[0] {
    } else if Sorting.LexLe(x, s[0]) {
      var r := [x] + s;
      forall i, j | 0 <= i < j < |r|
        ensures Sorting.LexLe(r[i], r[j]) && r[i] != r[j]
      {
        if i == 0 && j > 1 {
          Sorting.LexTransitive(x, s[0], s[j - 1]);
          if x == s[j - 1] {
            Sorting.LexAntisymmetric(s[0], s[j - 1]);
          }
        }
      }
    } else {
      Sorting.LexTotal(x, s[0]);
      InsertBrandSorted(x, s[1..]);
      var t := InsertBrand(x, s[1..]);
      var r := [s[0]] + t;
      forall i, j | 0 <= i < j < |r|
        ensures Sorting.LexLe(r[i], r[j]) && r[i] != r[j]
      {
        if i == 0 {
          assert r[j] in t;
          assert r[j] == x || r[j] in s[1..];
          if r[j] != x {
            var k :| 0 <= k < |s[1..]| && s[1..][k] == r[j];
            assert s[k + 1] == r[j];
          }
        } else {
          assert r[i] == t[i - 1] && r[j] == t[j - 1];
        }
      }
    }
  }

  /**
   * initializeFilters' brand list: the distinct non-empty brands of the
   * products, sorted. Being strictly sorted, it is the only list with
   * these members in this order.
   */
  function SortedBrands(products: seq<Product>): (r: seq<string>)
    ensures StrictlySorted(r)
    ensures forall b :: b in r <==> b != "" && exists p :: p in products && p.brand == b
  {
    if products == [] then []
    else
      var init := products[..|products| - 1];
      var last := products[|products| - 1];
      assert products == init + [last];
      var rest := SortedBrands(init);
      if last.brand == "" then rest
      else
        InsertBrandSorted(last.brand, rest);
        InsertBrand(last.brand, rest)
  }

  // ------------------------------------------------------------ filters

  /** A price bound: Math.min and Math.max of an empty list give +Infinity and -Infinity. */
  datatype Bound = NegInf | Finite(v: real) | PosInf

  /** x < b. */
  predicate Below(x: real, b: Bound)
  {
    match b
    case NegInf => false
    case Finite(v) => x < v
    case PosInf => true
  }

  /** x > b. */
  predicate Above(x: real, b: Bound)
  {
    match b
    case NegInf => true
    case Finite(v) => x > v
    case PosInf => false
  }

  /** Math.min over the prices: +Infinity for no products, else the lowest price. */
  function LowestPrice(products: seq<Product>): (r: Bound)
    ensures products == [] <==> r == PosInf
    ensures r != NegInf
  {
    if products == [] then PosInf
    else
      var rest := LowestPrice(products[..|products| - 1]);
      var last := products[|products| - 1];
      if rest == PosInf || last.price < rest.v then Finite(last.price) else rest
  }

  /** The lowest price is the price of one of the products, and no product costs less. */
  lemma {:induction false} LowestPriceIsMin(products: seq<Product>)
    ensures var r := LowestPrice(products);
      r.Finite? ==> (exists p :: p in products && p.price == r.v) && forall p :: p in products ==> r.v <= p.price
  {
    if products != [] {
      var init := products[..|products| - 1];
      var last := products[|products| - 1];
      assert products == init + [last];
      LowestPriceIsMin(init);
    }
  }

  /** Math.max over the prices: -Infinity for no products, else the highest price. */
  function HighestPrice(products: seq<Product>): (r: Bound)
    ensures products == [] <==> r == NegInf
    ensures r != PosInf
  {
    if products == [] then NegInf
    else
      var rest := HighestPrice(products[..|products| - 1]);
      var last := products[|products| - 1];
      if rest == NegInf || last.price > rest.v then Finite(last.price) else rest
  }

  /** The highest price is the price of one of the products, and no product costs more. */
  lemma {:induction false} HighestPriceIsMax(products: seq<Product>)
    ensures var r := HighestPrice(products);
      r.Finite? ==> (exists p :: p in products && p.price == r.v) && forall p :: p in products ==> p.price <= r.v
  {
    if products != [] {
      var init := products[..|products| - 1];
      var last := products[|products| - 1];
      assert products == init + [last];
      HighestPriceIsMax(init);
    }
  }

  /** The filter settings; `brands` is the set of ticked brands. */
  datatype ProductFilters = ProductFilters(brands: set<string>, inStockOnly: bool, minRating: real, minPrice: Bound, maxPrice: Bound)

  /**
   * applyFilters' test. A rating or price of 0 is falsy in the source and
   * skips that filter; a missing brand counts as ''.
   */
  predicate Passes(p: Product, f: ProductFilters)
  {
    !(f.brands != {} && p.brand !in f.brands) &&
    !(f.inStockOnly && p.stock <= 0) &&
    !(p.rating != 0.0 && p.rating < f.minRating) &&
    !(p.price != 0.0 && (Below(p.price, f.minPrice) || Above(p.price, f.maxPrice)))
  }

  /** The settings after a load: no brand, no stock or rating limit, the price range of all products. */
  function DefaultFilters(all: seq<Product>): ProductFilters
  {
    ProductFilters({}, false, 0.0, LowestPrice(all), HighestPrice(all))
  }

  /** With the settings a load leaves, every loaded product with a non-negative rating is listed. */
  lemma DefaultFiltersKeepAll(all: seq<Product>, p: Product)
    requires p in all && p.rating >= 0.0
    ensures Passes(p, DefaultFilters(all))
  {
    LowestPriceIsMin(all);
    HighestPriceIsMax(all);
  }

  // ------------------------------------------------------------ sorting

  /**
   * applySorting's comparator as an order: ascending or descending by price,
   * rating or title; any other column leaves the list as it is.
   */
  predicate ProductLe(sortBy: string, sortOrder: string, a: Product, b: Product)
  {
    if sortBy == "price" then (if sortOrder == "desc" then b.price <= a.price else a.price <= b.price)
    else if sortBy == "rating" then (if sortOrder == "desc" then b.rating <= a.rating else a.rating <= b.rating)
    else if sortBy == "title" then
      (if sortOrder == "desc" then Sorting.LexLe(b.title, a.title) else Sorting.LexLe(a.title, b.title))
    else true
  }

  function Comparator(sortBy: string, sortOrder: string): (Product, Product) -> bool
  {
    (a: Product, b: Product) => ProductLe(sortBy, sortOrder, a, b)
  }

  lemma ComparatorPreorder(sortBy: string, sortOrder: string)
    ensures Sorting.Preorder(Comparator(sortBy, sortOrder))
  {
    var le := Comparator(sortBy, sortOrder);
    forall a: Product, b: Product ensures le(a, b) || le(b, a) {
      Sorting.LexTotal(a.title, b.title);
    }
    forall a: Product, b: Product, c: Product | le(a, b) && le(b, c) ensures le(a, c) {
      if sortBy == "title" {
        if sortOrder == "desc" {
          Sorting.LexTransitive(c.title, b.title, a.title);
        } else {
          Sorting.LexTransitive(a.title, b.title, c.title);
        }
      }
    }
  }

  /** applySorting: no column leaves the list alone; otherwise it is sorted by the column. */
  function SortedProducts(s: seq<Product>, sortBy: string, sortOrder: string): seq<Product>
  {
    if sortBy == "" then s else Sorting.SortBy(s, Comparator(sortBy, sortOrder))
  }

  /** The sorted list is a reordering of the input, ordered by the comparator. */
  lemma SortedProductsCorrect(s: seq<Product>, sortBy: string, sortOrder: string)
    ensures var r := SortedProducts(s, sortBy, sortOrder);
      multiset(r) == multiset(s) &&
      (sortBy == "" ==> r == s) &&
      (forall i, j :: 0 <= i < j < |r| ==> ProductLe(sortBy, sortOrder, r[i], r[j]))
  {
    if sortBy != "" {
      var le := Comparator(sortBy, sortOrder);
      ComparatorPreorder(sortBy, sortOrder);
      Sorting.SortBySorted(s, le);
      Sorting.SortByPermutation(s, le);
      var r := Sorting.SortBy(s, le);
      forall i, j | 0 <= i < j < |r| ensures ProductLe(sortBy, sortOrder, r[i], r[j]) {
        assert le(r[i], r[j]);
      }
    }
  }

  /** applyFilters followed by applySorting. */
  function Listing(all: seq<Product>, f: ProductFilters, sortBy: string, sortOrder: string): seq<Product>
  {
    SortedProducts(Filter(all, (p: Product) => Passes(p, f)), sortBy, sortOrder)
  }

  /**
   * The filtered list holds exactly the loaded products passing every active
   * filter, each as often as loaded; unsorted it keeps the loaded order,
   * sorted it is ordered by the column.
   */
  lemma ListingCorrect(all: seq<Product>, f: ProductFilters, sortBy: string, sortOrder: string)
    ensures var r := Listing(all, f, sortBy, sortOrder);
      multiset(r) == multiset(Filter(all, (p: Product) => Passes(p, f))) &&
      (forall p :: p in r <==> p in all && Passes(p, f)) &&
      (sortBy == "" ==> r == Filter(all, (p: Product) => Passes(p, f))) &&
      (forall i, j :: 0 <= i < j < |r| ==> ProductLe(sortBy, sortOrder, r[i], r[j]))
  {
    var s := Filter(all, (p: Product) => Passes(p, f));
    SortedProductsCorrect(s, sortBy, sortOrder);
    var r := Listing(all, f, sortBy, sortOrder);
    forall p ensures p in r <==> p in all && Passes(p, f) {
      assert p in r <==> p in multiset(r);
      assert p in s <==> p in multiset(s);
    }
  }

  // -------------------------------------------------------------- stars

  /** Math.floor(rating), and no full stars for a negative rating. */
  function FullStars(rating: real): nat
  {
    if rating.Floor < 0 then 0 else rating.Floor
  }

  /** rating % 1 >= 0.5; JavaScript's remainder of a negative rating is never positive. */
  predicate HasHalfStar(rating: real)
  {
    rating >= 0.0 && rating - rating.Floor as real >= 0.5
  }

  /**
   * getStars: the full stars, then one hollow star for a half, then hollow
   * stars up to five. A half star looks like an empty one.
   */
  method GetStars(rating: real) returns (stars: seq<string>)
    ensures |stars| == Max(5, FullStars(rating) + if HasHalfStar(rating) then 1 else 0)
    ensures forall i :: 0 <= i < |stars| ==> stars[i] == if i < FullStars(rating) then FullStar else EmptyStar
  {
    stars := [];
    var fullStars := FullStars(rating);
    var i := 0;
    while i < fullStars
      invariant 0 <= i <= fullStars && |stars| == i
      invariant forall k :: 0 <= k < i ==> stars[k] == FullStar
    {
      stars := stars + [FullStar];
      i := i + 1;
    }
    if HasHalfStar(rating) {
      stars := stars + [EmptyStar];
    }
    while |stars| < 5
      invariant fullStars <= |stars| <= Max(5, fullStars + if HasHalfStar(rating) then 1 else 0)
      invariant |stars| >= fullStars + if HasHalfStar(rating) then 1 else 0
      invariant forall k :: 0 <= k < |stars| ==> stars[k] == if k < fullStars then FullStar else EmptyStar
    {
      stars := stars + [EmptyStar];
    }
  }

  // -------------------------------------------------- loading by product id

  /** What one getProductById request gives: an error, a null product, or a product. */
  datatype ProductResponse = RequestFailed | NullProduct | Found(product: Product)

  /** The responses to the requests for the ids, in id order. */
  function Responses(ids: seq<int>, respond: int -> ProductResponse): (r: seq<ProductResponse>)
    ensures |r| == |ids| && forall k :: 0 <= k < |ids| ==> r[k] == respond(ids[k])
  {
    seq(|ids|, k requires 0 <= k < |ids| => respond(ids[k]))
  }

  predicate AnyFailed(rs: seq<ProductResponse>)
  {
    exists k :: 0 <= k < |rs| && rs[k].RequestFailed?
  }

  /** products.filter(p => p): the products received, in order, without the nulls. */
  function Present(rs: seq<ProductResponse>): (r: seq<Product>)
    ensures |r| <= |rs|
    ensures forall p :: p in r <==> Found(p) in rs
    ensures (forall k :: 0 <= k < |rs| ==> rs[k].Found?) ==> |r| == |rs| && forall k :: 0 <= k < |r| ==> r[k] == rs[k].product
  {
    if rs == [] then []
    else
      assert forall x :: x in rs <==> x == rs[0] || x in rs[1..];
      (if rs[0].Found? then [rs[0].product] else []) + Present(rs[1..])
  }

  /** The ids cut into consecutive batches of three requests, the last one shorter when needed. */
  method Batches(ids: seq<int>) returns (batches: seq<seq<int>>)
    ensures Chunking(batches, ids, BatchSize)
  {
    batches := [];
    var i := 0;
    while i < |ids|
      invariant i == BatchSize * |batches|
      invariant Concat(batches) == ids[..Min(i, |ids|)]
      invariant forall k :: 0 <= k < |batches| ==> 1 <= |batches[k]| <= BatchSize
      invariant i <= |ids| ==> forall k :: 0 <= k < |batches| ==> |batches[k]| == BatchSize
      invariant forall k :: 0 <= k < |batches| - 1 ==> |batches[k]| == BatchSize
      decreases |ids| - i
    {
      var batch := ids[i..Min(i + BatchSize, |ids|)];
      assert (batches + [batch])[..|batches|] == batches;
      assert ids[..i] + batch == ids[..Min(i + BatchSize, |ids|)];
      batches := batches + [batch];
      i := i + BatchSize;
    }
    assert ids[..Min(i, |ids|)] == ids;
  }

  /** The first elements of a chunking are a prefix of what it cuts. */
  lemma {:induction false} ConcatPrefix<T>(ss: seq<seq<T>>, j: nat)
    requires j <= |ss|
    ensures Concat(ss[..j]) <= Concat(ss)
    decreases |ss|
  {
    if j < |ss| {
      var init := ss[..|ss| - 1];
      assert init[..j] == ss[..j];
      ConcatPrefix(init, j);
    } else {
      assert ss[..j] == ss;
    }
  }

  /**
   * The batches requested one after another, each batch's requests together
   * (Promise.all): the responses in id order, or None as soon as a batch
   * holds a failed request.
   */
  method FetchBatches(batches: seq<seq<int>>, respond: int -> ProductResponse) returns (results: Option<seq<ProductResponse>>)
    ensures results.None? <==> AnyFailed(Responses(Concat(batches), respond))
    ensures results.Some? ==> results.value == Responses(Concat(batches), respond)
  {
    var done: seq<ProductResponse> := [];
    var j := 0;
    while j < |batches|
      invariant 0 <= j <= |batches|
      invariant done == Responses(Concat(batches[..j]), respond)
      invariant !AnyFailed(done)
    {
      var batch := batches[j];
      var answers := Responses(batch, respond);
      assert batches[..j + 1][..j] == batches[..j];
      assert Concat(batches[..j + 1]) == Concat(batches[..j]) + batch;
      if exists k :: 0 <= k < |answers| && answers[k].RequestFailed? {
        var k :| 0 <= k < |answers| && answers[k].RequestFailed?;
        ConcatPrefix(batches, j + 1);
        var all := Concat(batches);
        assert all[|Concat(batches[..j])| + k] == batch[k];
        assert Responses(all, respond)[|Concat(batches[..j])| + k] == answers[k];
        return None;
      }
      done := done + answers;
      j := j + 1;
    }
    assert batches[..j] == batches;
    return Some(done);
  }

  /** The j-th chunk of 50 products, clamped to the list as slice does. */
  function ChunkOf(products: seq<Product>, k: nat): (r: seq<Product>)
    ensures |r| <= ChunkSize
  {
    products[Min(ChunkSize * k, |products|)..Min(ChunkSize * k + ChunkSize, |products|)]
  }

  /** The first k chunks followed by chunk k are the first k + 1 chunks. */
  lemma ChunkStep(products: seq<Product>, k: nat)
    ensures products[..Min(ChunkSize * k, |products|)] + ChunkOf(products, k) == products[..Min(ChunkSize * (k + 1), |products|)]
  {
    assert ChunkSize * (k + 1) == ChunkSize * k + ChunkSize;
  }

  // ------------------------------------------------------------- the page

  /** productCache and loadedChunks: the chunks of the category loaded so far, by chunk number. */
  class ChunkCache {
    var entries: map<nat, seq<Product>>
    var loaded: set<nat>

    constructor ()
      ensures entries == map[] && loaded == {}
    {
      entries := map[];
      loaded := {};
    }

    /** clearCache, for the two collections. */
    method Clear()
      modifies this
      ensures entries == map[] && loaded == {}
    {
      entries := map[];
      loaded := {};
    }

    /** productCache.set(k, chunk) and loadedChunks.add(k). */
    method Store(k: nat, chunk: seq<Product>)
      modifies this
      ensures entries == old(entries)[k := chunk] && loaded == old(loaded) + {k}
    {
      entries := entries[k := chunk];
      loaded := loaded + {k};
    }

    /** Chunks 0 to n - 1 of the products, and no others, are cached under their numbers and marked loaded. */
    ghost predicate Holds(products: seq<Product>, n: nat)
      reads this
    {
      (forall k: nat :: k in entries <==> k < n) &&
      (forall k: nat :: k in entries ==> entries[k] == ChunkOf(products, k)) &&
      loaded == entries.Keys
    }
  }

  class ProductListPage {
    var allProducts: seq<Product>
    var filteredProducts: seq<Product>
    var displayedProducts: seq<Product>
    var availableBrands: seq<string>
    /** The settings in force, and the ones the filter panel is editing. */
    var applied: ProductFilters
    var temp: ProductFilters
    var sortBy: string
    var sortOrder: string
    var currentPage: int
    var totalPages: nat
    const cache: ChunkCache
    var loading: bool
    var selectedCategory: string
    var categoryDisplayName: string

    predicate Valid()
      reads this`currentPage
    {
      currentPage >= 1
    }

    /** The shown page is the current page of the filtered list. */
    predicate Paged()
      reads this`currentPage, this`totalPages, this`filteredProducts, this`displayedProducts
    {
      currentPage >= 1 &&
      totalPages == PageCount(|filteredProducts|, ItemsPerPage) &&
      displayedProducts == PageSlice(filteredProducts, currentPage, ItemsPerPage)
    }

    constructor ()
      ensures Valid() && currentPage == 1 && totalPages == 0
      ensures allProducts == [] && filteredProducts == [] && displayedProducts == []
      ensures applied == temp == ProductFilters({}, false, 0.0, Finite(0.0), Finite(10000.0))
      ensures sortBy == "" && sortOrder == "asc" && !loading
    {
      allProducts := [];
      filteredProducts := [];
      displayedProducts := [];
      availableBrands := [];
      applied := ProductFilters({}, false, 0.0, Finite(0.0), Finite(10000.0));
      temp := applied;
      sortBy := "";
      sortOrder := "asc";
      currentPage := 1;
      totalPages := 0;
      cache := new ChunkCache();
      loading := false;
      selectedCategory := "";
      categoryDisplayName := "";
    }

    /** initializeFilters: the brand list and the price range (in force and in the panel) from the loaded products. */
    method InitializeFilters()
      modifies this
      ensures availableBrands == SortedBrands(allProducts)
      ensures applied == old(applied).(minPrice := LowestPrice(allProducts), maxPrice := HighestPrice(allProducts))
      ensures temp == old(temp).(minPrice := LowestPrice(allProducts), maxPrice := HighestPrice(allProducts))
      ensures allProducts == old(allProducts) && filteredProducts == old(filteredProducts)
      ensures displayedProducts == old(displayedProducts) && currentPage == old(currentPage) && totalPages == old(totalPages)
      ensures sortBy == old(sortBy) && sortOrder == old(sortOrder) && loading == old(loading)
      ensures selectedCategory == old(selectedCategory) && categoryDisplayName == old(categoryDisplayName)
    {
      availableBrands := SortedBrands(allProducts);
      var lo, hi := LowestPrice(allProducts), HighestPrice(allProducts);
      applied := applied.(minPrice := lo, maxPrice := hi);
      temp := temp.(minPrice := lo, maxPrice := hi);
    }

    /** resetFilters: no brand, stock or rating filter (in force and in the panel), back to page 1. */
    method ResetFilters()
      modifies this
      ensures applied == old(applied).(brands := {}, inStockOnly := false, minRating := 0.0)
      ensures temp == old(temp).(brands := {}, inStockOnly := false, minRating := 0.0)
      ensures currentPage == 1
      ensures allProducts == old(allProducts) && filteredProducts == old(filteredProducts)
      ensures displayedProducts == old(displayedProducts) && totalPages == old(totalPages)
      ensures availableBrands == old(availableBrands)
      ensures sortBy == old(sortBy) && sortOrder == old(sortOrder) && loading == old(loading)
      ensures selectedCategory == old(selectedCategory) && categoryDisplayName == old(categoryDisplayName)
    {
      applied := applied.(brands := {}, inStockOnly := false, minRating := 0.0);
      temp := temp.(brands := {}, inStockOnly := false, minRating := 0.0);
      currentPage := 1;
    }

    /**
     * updatePagination: the page count is the ceiling of the list length over
     * ten, the current page is kept within it (page 1 for an empty list), and
     * the shown products are that page.
     */
    method UpdatePagination()
      requires Valid()
      modifies this
      ensures Valid() && Paged()
      ensures currentPage == Min(old(currentPage), if totalPages == 0 then 1 else totalPages)
      ensures |displayedProducts| <= ItemsPerPage
      ensures allProducts == old(allProducts) && filteredProducts == old(filteredProducts)
      ensures applied == old(applied) && temp == old(temp) && availableBrands == old(availableBrands)
      ensures sortBy == old(sortBy) && sortOrder == old(sortOrder) && loading == old(loading)
      ensures selectedCategory == old(selectedCategory) && categoryDisplayName == old(categoryDisplayName)
    {
      totalPages := PageCount(|filteredProducts|, ItemsPerPage);
      currentPage := Min(currentPage, if totalPages == 0 then 1 else totalPages);
      displayedProducts := PageSlice(filteredProducts, currentPage, ItemsPerPage);
    }

    /** applySorting: the filtered list sorted by the chosen column, or left alone without one. */
    method ApplySorting()
      modifies this
      ensures filteredProducts == SortedProducts(old(filteredProducts), sortBy, sortOrder)
      ensures allProducts == old(allProducts) && displayedProducts == old(displayedProducts)
      ensures currentPage == old(currentPage) && totalPages == old(totalPages)
      ensures applied == old(applied) && temp == old(temp) && availableBrands == old(availableBrands)
      ensures sortBy == old(sortBy) && sortOrder == old(sortOrder) && loading == old(loading)
      ensures selectedCategory == old(selectedCategory) && categoryDisplayName == old(categoryDisplayName)
    {
      if sortBy != "" {
        filteredProducts := Sorting.SortBy(filteredProducts, Comparator(sortBy, sortOrder));
      }
    }

    /**
     * applyFilters: the panel's settings come into force, the filtered list
     * is the loaded products passing them (then sorted), and the page is
     * recomputed.
     */
    method ApplyFilters()
      requires Valid()
      modifies this
      ensures Valid() && Paged()
      ensures applied == temp == old(temp)
      ensures filteredProducts == Listing(allProducts, applied, sortBy, sortOrder)
      ensures currentPage == Min(old(currentPage), if totalPages == 0 then 1 else totalPages)
      ensures allProducts == old(allProducts) && availableBrands == old(availableBrands)
      ensures sortBy == old(sortBy) && sortOrder == old(sortOrder) && loading == old(loading)
      ensures selectedCategory == old(selectedCategory) && categoryDisplayName == old(categoryDisplayName)
    {
      applied := temp;
      var f := applied;
      filteredProducts := Filter(allProducts, (p: Product) => Passes(p, f));
      ApplySorting();
      UpdatePagination();
    }

    /** onBrandChange: ticks or unticks a brand in the panel; nothing is applied yet. */
    method OnBrandChange(brand: string, checked: bool)
      modifies this
      ensures temp == old(temp).(brands := if checked then old(temp).brands + {brand} else old(temp).brands - {brand})
      ensures applied == old(applied) && filteredProducts == old(filteredProducts) && displayedProducts == old(displayedProducts)
    {
      temp := temp.(brands := if checked then temp.brands + {brand} else temp.brands - {brand});
    }

    /** onSortChange: the current filtered list is sorted by the new column, then paged again. */
    method OnSortChange(newSortBy: string, newSortOrder: string)
      requires Valid()
      modifies this
      ensures Valid() && Paged()
      ensures sortBy == newSortBy && sortOrder == newSortOrder
      ensures filteredProducts == SortedProducts(old(filteredProducts), newSortBy, newSortOrder)
      ensures allProducts == old(allProducts) && applied == old(applied) && temp == old(temp)
    {
      sortBy := newSortBy;
      sortOrder := newSortOrder;
      ApplySorting();
      UpdatePagination();
    }

    /** clearFilters: the panel goes back to no brand, stock or rating filter and the full price range, and is applied. */
    method ClearFilters()
      requires Valid()
      modifies this
      ensures Valid() && Paged()
      ensures applied == temp == ProductFilters({}, false, 0.0, old(applied).minPrice, old(applied).maxPrice)
      ensures filteredProducts == Listing(allProducts, applied, sortBy, sortOrder)
      ensures allProducts == old(allProducts)
    {
      temp := ProductFilters({}, false, 0.0, applied.minPrice, applied.maxPrice);
      ApplyFilters();
    }

    /** changePage: a page within 1..totalPages is shown; any other request is ignored. */
    method ChangePage(page: int)
      requires Valid() && Paged()
      modifies this
      ensures Valid() && Paged()
      ensures 1 <= page <= old(totalPages) ==> currentPage == page
      ensures !(1 <= page <= old(totalPages)) ==> currentPage == old(currentPage) && displayedProducts == old(displayedProducts)
      ensures filteredProducts == old(filteredProducts) && totalPages == old(totalPages)
    {
      if 1 <= page <= totalPages {
        currentPage := page;
        UpdatePagination();
      }
    }

    /**
     * getPaginationArray: the page numbers from two before to two after the
     * current page, cut to 1..totalPages: consecutive, ascending, at most
     * five, all existing pages.
     */
    method GetPaginationArray() returns (pages: seq<int>)
      requires Valid()
      ensures |pages| == Max(0, Min(totalPages, currentPage + 2) - Max(1, currentPage - 2) + 1)
      ensures forall k :: 0 <= k < |pages| ==> pages[k] == Max(1, currentPage - 2) + k
      ensures |pages| <= 5
      ensures forall k :: 0 <= k < |pages| ==> 1 <= pages[k] <= totalPages
    {
      pages := [];
      var start := Max(1, currentPage - 2);
      var end := Min(totalPages, currentPage + 2);
      var i := start;
      while i <= end
        invariant start <= i <= Max(start, end + 1)
        invariant |pages| == i - start
        invariant forall k :: 0 <= k < |pages| ==> pages[k] == start + k
      {
        pages := pages + [i];
        i := i + 1;
      }
    }

    /**
     * loadCategoryProducts, run to the end: the route's category is named,
     * the cache cleared, and a fetched category is loaded in chunks of 50;
     * a failed fetch leaves no products.
     */
    method LoadCategoryProducts(category: string, response: Option<seq<Product>>)
      requires Valid()
      modifies this, cache
      ensures Valid()
      ensures selectedCategory == category && categoryDisplayName == FormatCategoryName(category) && !loading
      ensures response.None? ==>
        allProducts == [] && cache.entries == map[] && cache.loaded == {} && filteredProducts == old(filteredProducts)
      ensures response.Some? ==>
        allProducts == response.value && ShowsDefault() &&
        cache.Holds(allProducts, Max(1, PageCount(|allProducts|, ChunkSize)))
      ensures sortBy == old(sortBy) && sortOrder == old(sortOrder)
    {
      selectedCategory := category;
      categoryDisplayName := FormatCategoryName(category);
      loading := true;
      cache.Clear();
      allProducts := [];
      if response.None? {
        loading := false;
        return;
      }
      ProcessProductsInChunks(response.value);
    }

    /** What a finished load shows: the loaded products under the reset filters, on page 1. */
    predicate ShowsDefault()
      reads this`currentPage, this`totalPages, this`filteredProducts, this`displayedProducts
      reads this`allProducts, this`applied, this`temp, this`sortBy, this`sortOrder
    {
      Valid() && Paged() && currentPage == 1 &&
      applied == temp == DefaultFilters(allProducts) &&
      filteredProducts == Listing(allProducts, applied, sortBy, sortOrder)
    }

    /** The loaded products are shown from scratch: brand list and price range recomputed, filters reset and applied. */
    method ShowLoaded(products: seq<Product>)
      requires Valid()
      modifies this
      ensures allProducts == products && ShowsDefault() && availableBrands == SortedBrands(products)
      ensures loading == old(loading)
      ensures sortBy == old(sortBy) && sortOrder == old(sortOrder)
      ensures selectedCategory == old(selectedCategory) && categoryDisplayName == old(categoryDisplayName)
    {
      allProducts := products;
      InitializeFilters();
      ResetFilters();
      ApplyFilters();
    }

    /** The first n chunks of the products are loaded and cached. */
    ghost predicate ChunksLoaded(products: seq<Product>, n: nat)
      reads this, cache
    {
      cache.Holds(products, n) && allProducts == products[..Min(ChunkSize * n, |products|)]
    }

    /** The panel holds no brand, stock or rating choice and the first page is shown. */
    predicate Untouched()
      reads this`temp, this`currentPage
    {
      temp.brands == {} && !temp.inStockOnly && temp.minRating == 0.0 && currentPage == 1
    }

    /**
     * The shown list is the loaded products under the panel's choices, in
     * force, with the brand list and the price range taken from the loaded
     * products.
     */
    predicate ShowsCurrent()
      reads this
    {
      Valid() && Paged() && availableBrands == SortedBrands(allProducts) && applied == temp &&
      temp.minPrice == LowestPrice(allProducts) && temp.maxPrice == HighestPrice(allProducts) &&
      filteredProducts == Listing(allProducts, applied, sortBy, sortOrder)
    }

    /**
     * One step of loadRemainingChunks: chunk k is cached and appended, the
     * brand list and price range are recomputed and the panel's choices,
     * whatever the shopper set since the last chunk, are applied again.
     */
    method AppendChunk(products: seq<Product>, k: nat)
      requires Valid() && ChunksLoaded(products, k)
      modifies this, cache
      ensures ChunksLoaded(products, k + 1) && ShowsCurrent()
      ensures temp == old(temp).(minPrice := LowestPrice(allProducts), maxPrice := HighestPrice(allProducts))
      ensures currentPage == Min(old(currentPage), if totalPages == 0 then 1 else totalPages)
      ensures old(Untouched()) ==> ShowsDefault()
      ensures loading == old(loading) && sortBy == old(sortBy) && sortOrder == old(sortOrder)
      ensures selectedCategory == old(selectedCategory) && categoryDisplayName == old(categoryDisplayName)
    {
      var chunk := ChunkOf(products, k);
      cache.Store(k, chunk);
      assert cache.Holds(products, k + 1);
      ChunkStep(products, k);
      allProducts := allProducts + chunk;
      InitializeFilters();
      ApplyFilters();
    }

    /**
     * processProductsInChunks: the first 50 products are shown at once with
     * the filters reset, and the rest follow chunk by chunk.
     */
    method ProcessProductsInChunks(products: seq<Product>)
      requires Valid() && cache.entries == map[] && cache.loaded == {}
      modifies this, cache
      ensures allProducts == products && ShowsDefault() && !loading
      ensures cache.Holds(products, Max(1, PageCount(|products|, ChunkSize)))
      ensures sortBy == old(sortBy) && sortOrder == old(sortOrder)
      ensures selectedCategory == old(selectedCategory) && categoryDisplayName == old(categoryDisplayName)
    {
      var firstChunk := ChunkOf(products, 0);
      cache.Store(0, firstChunk);
      assert cache.Holds(products, 1);
      loading := false;
      ShowLoaded(firstChunk);
      if |products| > ChunkSize {
        LoadRemainingChunks(products);
      } else {
        assert firstChunk == products;
        assert Max(1, PageCount(|products|, ChunkSize)) == 1;
      }
    }

    /**
     * loadRemainingChunks: chunks 1, 2, ... of 50 products are appended in
     * turn, by loadNextChunk.
     */
    method LoadRemainingChunks(products: seq<Product>)
      requires ShowsDefault() && allProducts == ChunkOf(products, 0) && cache.Holds(products, 1)
      modifies this, cache
      ensures allProducts == products && ShowsDefault()
      ensures cache.Holds(products, Max(1, PageCount(|products|, ChunkSize)))
      ensures loading == old(loading) && sortBy == old(sortBy) && sortOrder == old(sortOrder)
      ensures selectedCategory == old(selectedCategory) && categoryDisplayName == old(categoryDisplayName)
    {
      var totalChunks := PageCount(|products|, ChunkSize);
      LoadNextChunk(products, 1, totalChunks);
      assert products[..Min(ChunkSize * Max(1, totalChunks), |products|)] == products;
    }

    /**
     * loadNextChunk: while chunks remain, chunk chunkIndex is appended and
     * the next one follows. The delay between chunks is not modelled.
     */
    method LoadNextChunk(products: seq<Product>, chunkIndex: nat, totalChunks: nat)
      requires 1 <= chunkIndex <= Max(1, totalChunks)
      requires Valid() && ChunksLoaded(products, chunkIndex)
      modifies this, cache
      ensures Valid() && ChunksLoaded(products, Max(1, totalChunks))
      ensures chunkIndex < totalChunks ==>
        ShowsCurrent() && temp == old(temp).(minPrice := LowestPrice(allProducts), maxPrice := HighestPrice(allProducts))
      ensures chunkIndex >= totalChunks ==> unchanged(this)
      ensures old(Untouched() && ShowsDefault()) ==> ShowsDefault()
      ensures loading == old(loading) && sortBy == old(sortBy) && sortOrder == old(sortOrder)
      ensures selectedCategory == old(selectedCategory) && categoryDisplayName == old(categoryDisplayName)
      decreases totalChunks - chunkIndex
    {
      if chunkIndex < totalChunks {
        ghost var untouched := Untouched() && ShowsDefault();
        AppendChunk(products, chunkIndex);
        assert untouched ==> Untouched();
        LoadNextChunk(products, chunkIndex + 1, totalChunks);
      }
    }

    /**
     * loadProductsByIds: the ids are fetched three at a time, batch after
     * batch; the products received are kept in id order without the nulls,
     * and the filters are reset and applied. A failed request abandons the
     * load with no products.
     */
    method LoadProductsByIds(ids: seq<int>, respond: int -> ProductResponse)
      requires Valid()
      modifies this
      ensures Valid() && !loading
      ensures AnyFailed(Responses(ids, respond)) ==> allProducts == [] && filteredProducts == old(filteredProducts)
      ensures !AnyFailed(Responses(ids, respond)) ==>
        allProducts == Present(Responses(ids, respond)) && ShowsDefault()
      ensures sortBy == old(sortBy) && sortOrder == old(sortOrder)
      ensures selectedCategory == old(selectedCategory) && categoryDisplayName == old(categoryDisplayName)
    {
      loading := true;
      allProducts := [];
      var batches := Batches(ids);
      assert Concat(batches) == ids;
      var results := FetchBatches(batches, respond);
      if results.None? {
        loading := false;
        return;
      }
      loading := false;
      ShowLoaded(Present(results.value));
    }

    /** The id-list route: a non-empty list is shown as 'Selected Products'; an empty one changes nothing. */
    method SelectProducts(ids: seq<int>, respond: int -> ProductResponse)
      requires Valid()
      modifies this
      ensures Valid()
      ensures ids == [] ==> allProducts == old(allProducts) && categoryDisplayName == old(categoryDisplayName)
      ensures ids != [] ==> categoryDisplayName == "Selected Products" && !loading
      ensures ids != [] && !AnyFailed(Responses(ids, respond)) ==>
        allProducts == Present(Responses(ids, respond)) &&
        filteredProducts == Listing(allProducts, DefaultFilters(allProducts), sortBy, sortOrder)
    {
      if |ids| > 0 {
        categoryDisplayName := "Selected Products";
        LoadProductsByIds(ids, respond);
      }
    }
  }
}
