/**
 * The home page: a carousel per category (the first ten categories, their
 * products in slides of four), the category grid, the featured products, and
 * the category icons with their chain of fallbacks: a known icon URL, then
 * alternative URLs, then a drawing chosen by the category's slug or type.
 */
module Home {
  import opened Common
  import opened Model

  /** A category as the catalogue lists it. */
  datatype Category = Category(slug: string, name: string)

  /** One carousel: a category, its products and the products cut into slides. */
  datatype CategoryWithProducts = CategoryWithProducts(
    name: string, slug: string, products: seq<Product>, chunkedProducts: seq<seq<Product>>)

  const CarouselCategories: nat := 10
  const SlideSize: nat := 4

  /**
   * chunkArray: slices of chunkSize items are spliced off the front of a
   * copy until the copy is empty, so the input itself is left as it was. A
   * chunk size of 0 would never empty the copy; every caller passes 4.
   */
  method ChunkArray<T>(input: seq<T>, chunkSize: nat) returns (results: seq<seq<T>>)
    requires chunkSize > 0
    ensures Chunking(results, input, chunkSize)
  {
    results := [];
    var copy := input;
    while |copy| > 0
      invariant Concat(results) + copy == input
      invariant forall k :: 0 <= k < |results| ==> 1 <= |results[k]| <= chunkSize
      invariant copy != [] ==> forall k :: 0 <= k < |results| ==> |results[k]| == chunkSize
      invariant forall k :: 0 <= k < |results| - 1 ==> |results[k]| == chunkSize
    {
      var n := Min(chunkSize, |copy|);
      var chunk := copy[..n];
      assert (results + [chunk])[..|results|] == results;
      assert Concat(results + [chunk]) + copy[n..] == input by {
        assert chunk + copy[n..] == copy;
      }
      results := results + [chunk];
      copy := copy[n..];
    }
    assert copy == [];
  }

  // ------------------------------------------------------ category types

  /** A fallback class of categories and the slug fragments that select it. */
  datatype TypeRule = TypeRule(kind: string, words: set<string>)

  /** The classes in the order they are tried. */
  const TypeRules: seq<TypeRule> := [
    TypeRule("fashion", {"men", "women", "fashion", "shirt", "dress"}),
    TypeRule("electronics", {"phone", "laptop", "tablet", "electronic"}),
    TypeRule("beauty", {"beauty", "skin", "fragrance"}),
    TypeRule("home", {"home", "furniture", "kitchen"}),
    TypeRule("sports", {"sport", "vehicle", "motorcycle"}),
    TypeRule("watches", {"watch"}),
    TypeRule("shoes", {"shoe"})]

  /** Whether the slug contains any of the fragments. */
  predicate Matches(slug: string, rule: TypeRule)
  {
    exists w :: w in rule.words && Contains(slug, w)
  }

  /** The class of the first rule from position i on that the slug matches. */
  function FirstMatchingType(rules: seq<TypeRule>, i: nat, slug: string): (r: Option<string>)
    requires i <= |rules|
    ensures r.Some? ==> exists k :: i <= k < |rules| && rules[k].kind == r.value && Matches(slug, rules[k])
    ensures r.None? <==> forall k :: i <= k < |rules| ==> !Matches(slug, rules[k])
    decreases |rules| - i
  {
    if i == |rules| then None
    else if Matches(slug, rules[i]) then Some(rules[i].kind)
    else FirstMatchingType(rules, i + 1, slug)
  }

  /**
   * getCategoryType: fashion, electronics, beauty, home, sports, watches and
   * shoes are tried in turn by the fragments of the slug; 'electronics' when
   * none matches.
   */
  function CategoryType(slug: string): (r: string)
    ensures r in {"fashion", "electronics", "beauty", "home", "sports", "watches", "shoes"}
  {
    if Contains(slug, "men") || Contains(slug, "women") || Contains(slug, "fashion") || Contains(slug, "shirt") || Contains(slug, "dress") then
      "fashion"
    else if Contains(slug, "phone") || Contains(slug, "laptop") || Contains(slug, "tablet") || Contains(slug, "electronic") then
      "electronics"
    else if Contains(slug, "beauty") || Contains(slug, "skin") || Contains(slug, "fragrance") then
      "beauty"
    else if Contains(slug, "home") || Contains(slug, "furniture") || Contains(slug, "kitchen") then
      "home"
    else if Contains(slug, "sport") || Contains(slug, "vehicle") || Contains(slug, "motorcycle") then
      "sports"
    else if Contains(slug, "watch") then
      "watches"
    else if Contains(slug, "shoe") then
      "shoes"
    else
      "electronics"
  }

  /** What matching each rule of the table means, fragment by fragment. */
  lemma FashionRule(slug: string)
    ensures Matches(slug, TypeRules[0]) <==>
      Contains(slug, "men") || Contains(slug, "women") || Contains(slug, "fashion") || Contains(slug, "shirt") || Contains(slug, "dress")
  {
    var words := TypeRules[0].words;
    assert "men" in words && "women" in words && "fashion" in words && "shirt" in words && "dress" in words;
  }

  lemma ElectronicsRule(slug: string)
    ensures Matches(slug, TypeRules[1]) <==>
      Contains(slug, "phone") || Contains(slug, "laptop") || Contains(slug, "tablet") || Contains(slug, "electronic")
  {
    var words := TypeRules[1].words;
    assert "phone" in words && "laptop" in words && "tablet" in words && "electronic" in words;
  }

  lemma BeautyRule(slug: string)
    ensures Matches(slug, TypeRules[2]) <==> Contains(slug, "beauty") || Contains(slug, "skin") || Contains(slug, "fragrance")
  {
    var words := TypeRules[2].words;
    assert "beauty" in words && "skin" in words && "fragrance" in words;
  }

  lemma HomeRule(slug: string)
    ensures Matches(slug, TypeRules[3]) <==> Contains(slug, "home") || Contains(slug, "furniture") || Contains(slug, "kitchen")
  {
    var words := TypeRules[3].words;
    assert "home" in words && "furniture" in words && "kitchen" in words;
  }

  lemma SportsRule(slug: string)
    ensures Matches(slug, TypeRules[4]) <==> Contains(slug, "sport") || Contains(slug, "vehicle") || Contains(slug, "motorcycle")
  {
    var words := TypeRules[4].words;
    assert "sport" in words && "vehicle" in words && "motorcycle" in words;
  }

  /** getCategoryType is the class of the first rule of the table the slug matches, or 'electronics'. */
  lemma CategoryTypeByRules(slug: string)
    ensures FirstMatchingType(TypeRules, 0, slug).Some? ==> CategoryType(slug) == FirstMatchingType(TypeRules, 0, slug).value
    ensures FirstMatchingType(TypeRules, 0, slug).None? ==> CategoryType(slug) == "electronics"
  {
    var rules := TypeRules;
    FashionRule(slug);
    ElectronicsRule(slug);
    BeautyRule(slug);
    HomeRule(slug);
    SportsRule(slug);
    assert Matches(slug, rules[5]) <==> Contains(slug, "watch") by {
      assert "watch" in rules[5].words;
    }
    assert Matches(slug, rules[6]) <==> Contains(slug, "shoe") by {
      assert "shoe" in rules[6].words;
    }
    if Matches(slug, rules[0]) {
      assert FirstMatchingType(rules, 0, slug) == Some("fashion");
    } else if Matches(slug, rules[1]) {
      assert FirstMatchingType(rules, 0, slug) == Some("electronics");
    } else if Matches(slug, rules[2]) {
      assert FirstMatchingType(rules, 0, slug) == Some("beauty");
    } else if Matches(slug, rules[3]) {
      assert FirstMatchingType(rules, 0, slug) == Some("home");
    } else if Matches(slug, rules[4]) {
      assert FirstMatchingType(rules, 0, slug) == Some("sports");
    } else if Matches(slug, rules[5]) {
      assert FirstMatchingType(rules, 0, slug) == Some("watches");
    } else if Matches(slug, rules[6]) {
      assert FirstMatchingType(rules, 0, slug) == Some("shoes");
    } else {
      assert FirstMatchingType(rules, 7, slug) == None;
    }
  }

  /**
   * Fashion comes first, and every slug containing 'women' contains 'men':
   * any men's or women's category is fashion, so its watches and shoes
   * never reach the watches or shoes rule.
   */
  lemma {:induction false} FashionFirst(slug: string)
    ensures Contains(slug, "women") ==> Contains(slug, "men")
    ensures Contains(slug, "men") ==> CategoryType(slug) == "fashion"
    decreases |slug|
  {
    if Contains(slug, "women") && !("women" <= slug) {
      FashionFirst(slug[1..]);
    } else if "women" <= slug {
      assert "men" <= slug[2..];
      assert Contains(slug[2..], "men");
      assert Contains(slug[1..], "men");
    }
  }

  // ------------------------------------------------------------- icons

  /** The two icon sets the page links to. */
  datatype IconStyle = Color | Fluency

  /** An icons8 icon: a set and the icon's name, which together give its URL. */
  datatype IconUrl = Icon(style: IconStyle, name: string)

  const ColorPrefix: string := "https://img.icons8.com/color/64/"
  const FluencyPrefix: string := "https://img.icons8.com/fluency/64/"

  /** The URL of a 64-pixel icon. */
  function UrlText(u: IconUrl): (r: string)
    ensures u.style == Color ==> r == ColorPrefix + u.name + ".png"
    ensures u.style == Fluency ==> r == FluencyPrefix + u.name + ".png"
  {
    (if u.style == Color then ColorPrefix else FluencyPrefix) + u.name + ".png"
  }

  /** Different icons have different URLs, so an icon can be told by its URL. */
  lemma UrlTextInjective(a: IconUrl, b: IconUrl)
    requires a != b
    ensures UrlText(a) != UrlText(b)
  {
    var ta, tb := UrlText(a), UrlText(b);
    if a.style != b.style {
      assert ColorPrefix[23] == 'c' && FluencyPrefix[23] == 'f';
      assert ta[23] != tb[23];
    } else if |a.name| != |b.name| {
      assert |ta| != |tb|;
    } else {
      var p := if a.style == Color then ColorPrefix else FluencyPrefix;
      var k :| 0 <= k < |a.name| && a.name[k] != b.name[k];
      assert ta == p + a.name + ".png" && tb == p + b.name + ".png";
      assert ta[|p| + k] == a.name[k] && tb[|p| + k] == b.name[k];
    }
  }

  /** The colour icon of every category with a known icon, by name. */
  const IconTable: map<string, string> := map[
    "beauty" := "makeup",
    "fragrances" := "perfume",
    "skin-care" := "spa",
    "mens-shirts" := "shirt",
    "mens-shoes" := "shoes",
    "mens-watches" := "wristwatch",
    "womens-bags" := "handbag",
    "womens-dresses" := "dress",
    "womens-jewellery" := "jewelry",
    "womens-shoes" := "high-heeled-shoe",
    "womens-watches" := "smartwatch",
    "tops" := "t-shirt",
    "sunglasses" := "sunglasses",
    "laptops" := "laptop",
    "smartphones" := "smartphone",
    "tablets" := "tablet",
    "mobile-accessories" := "phone-case",
    "furniture" := "armchair",
    "home-decoration" := "interior",
    "kitchen-accessories" := "kitchen",
    "groceries" := "grocery-bag",
    "motorcycle" := "motorcycle",
    "vehicle" := "car",
    "sports-accessories" := "sports",
    "automotive" := "car",
    "books" := "book",
    "electronics" := "laptop",
    "fashion" := "t-shirt",
    "health" := "medical-heart",
    "jewelry" := "jewelry",
    "music" := "headphones",
    "shoes" := "shoes",
    "sports" := "sports",
    "toys" := "teddy-bear",
    "watches" := "watch"]

  /** The keys that have a drawing of their own. */
  const DrawingKeys: set<string> := {
    "beauty", "fragrances", "electronics", "fashion", "home", "sports",
    "vehicles", "kitchen", "furniture", "groceries", "watches", "shoes"}

  /** Which inline drawing an SVG icon shows: one of the keyed drawings, or the shopping bag. */
  datatype Drawing = Keyed(key: string) | ShoppingBag

  /** getCategorySVG: the slug's own drawing, else the drawing of its type, else the shopping bag. */
  function CategoryDrawing(slug: string): (r: Drawing)
    ensures r.Keyed? ==> r.key in DrawingKeys
    ensures slug in DrawingKeys ==> r == Keyed(slug)
    ensures slug !in DrawingKeys ==> r == Keyed(CategoryType(slug))
    ensures r != ShoppingBag
  {
    if slug in DrawingKeys then Keyed(slug)
    else if CategoryType(slug) in DrawingKeys then Keyed(CategoryType(slug))
    else ShoppingBag
  }

  /** Where an icon image comes from: a URL, or an SVG data URL of a drawing. */
  datatype ImageSource = Url(icon: IconUrl) | Svg(drawing: Drawing)

  /** getCategoryIcon: the known icon URL of the slug, or else its drawing as an SVG data URL. */
  function CategoryIcon(slug: string): (r: ImageSource)
    ensures r.Url? <==> slug in IconTable
    ensures r.Url? ==> r.icon == Icon(Color, IconTable[slug])
    ensures r.Svg? ==> r.drawing == CategoryDrawing(slug) && r.drawing != ShoppingBag
  {
    if slug in IconTable then Url(Icon(Color, IconTable[slug])) else Svg(CategoryDrawing(slug))
  }

  /** getAlternativeUrls: four URLs for beauty and for fragrances; for any other slug just its icon. */
  function AlternativeSources(slug: string): (r: seq<ImageSource>)
    ensures |r| >= 1
    ensures slug !in {"beauty", "fragrances"} ==> r == [CategoryIcon(slug)]
    ensures r[0] == CategoryIcon(slug)
  {
    if slug == "beauty" then
      [Url(Icon(Color, "makeup")), Url(Icon(Color, "lipstick")), Url(Icon(Color, "cosmetics")),
       Url(Icon(Fluency, "beauty"))]
    else if slug == "fragrances" then
      [Url(Icon(Color, "perfume")), Url(Icon(Color, "fragrance")),
       Url(Icon(Fluency, "perfume")), Url(Icon(Color, "cologne"))]
    else
      [CategoryIcon(slug)]
  }

  /** The alternatives of a category are all different. */
  lemma AlternativesDistinct(slug: string)
    ensures forall i, j :: 0 <= i < j < |AlternativeSources(slug)| ==> AlternativeSources(slug)[i] != AlternativeSources(slug)[j]
  {
    var r := AlternativeSources(slug);
    if slug == "beauty" {
      assert r[0].icon.name[0] == 'm' && r[1].icon.name[0] == 'l' && r[2].icon.name[0] == 'c';
    } else if slug == "fragrances" {
      assert r[0].icon.name[0] == 'p' && r[1].icon.name[0] == 'f' && r[3].icon.name[0] == 'c';
    }
  }

  /** indexOf: the first position of x in s, or -1. */
  function IndexOf<T(==)>(s: seq<T>, x: T): (r: int)
    ensures -1 <= r < |s|
    ensures r == -1 <==> x !in s
    ensures r >= 0 ==> s[r] == x && forall j :: 0 <= j < r ==> s[j] != x
  {
    if s == [] then -1
    else if s[0] == x then 0
    else
      var r := IndexOf(s[1..], x);
      if r == -1 then -1 else r + 1
  }

  /**
   * onImageError: the image that failed moves to the alternative after its
   * own source (to the first alternative when its source is not one of them),
   * and from the last alternative to the drawing.
   */
  function NextSource(slug: string, current: ImageSource): (r: ImageSource)
    ensures var alts := AlternativeSources(slug);
      (current !in alts ==> r == alts[0]) &&
      (forall i :: 0 <= i < |alts| - 1 && alts[i] == current ==> r == alts[i + 1]) &&
      (alts[|alts| - 1] == current ==> r == Svg(CategoryDrawing(slug)))
  {
    var alts := AlternativeSources(slug);
    AlternativesDistinct(slug);
    var i := IndexOf(alts, current);
    if i < |alts| - 1 then alts[i + 1] else Svg(CategoryDrawing(slug))
  }

  /** The source after n load failures in a row, starting from src. */
  function AfterFailures(slug: string, src: ImageSource, n: nat): ImageSource
  {
    if n == 0 then src else NextSource(slug, AfterFailures(slug, src, n - 1))
  }

  /**
   * An icon that keeps failing goes through every alternative in order and
   * then to the drawing: after k failures it shows alternative k, and after
   * as many failures as there are alternatives it shows the drawing.
   */
  lemma {:induction false} FailuresWalkAlternatives(slug: string, k: nat)
    requires k <= |AlternativeSources(slug)|
    ensures k < |AlternativeSources(slug)| ==> AfterFailures(slug, CategoryIcon(slug), k) == AlternativeSources(slug)[k]
    ensures k == |AlternativeSources(slug)| ==> AfterFailures(slug, CategoryIcon(slug), k) == Svg(CategoryDrawing(slug))
  {
    if k > 0 {
      var alts := AlternativeSources(slug);
      FailuresWalkAlternatives(slug, k - 1);
      var prev := AfterFailures(slug, CategoryIcon(slug), k - 1);
      assert prev == alts[k - 1];
      assert AfterFailures(slug, CategoryIcon(slug), k) == NextSource(slug, prev);
    }
  }

  /** An img element on the page; its source is what onImageError replaces. */
  class ImageElement {
    var src: ImageSource

    constructor (src: ImageSource)
      ensures this.src == src
    {
      this.src := src;
    }
  }

  /** Whether the product request of one of the categories fails. */
  predicate AnyFetchFails(cs: seq<Category>, fetch: string -> Option<seq<Product>>)
  {
    exists i :: 0 <= i < |cs| && fetch(cs[i].slug).None?
  }

  /** The carousels show the categories in order, each with its fetched products cut into slides of four. */
  ghost predicate Carousels(carousels: seq<CategoryWithProducts>, cs: seq<Category>, fetch: string -> Option<seq<Product>>)
  {
    |carousels| == |cs| &&
    forall i :: 0 <= i < |cs| ==>
      carousels[i].name == cs[i].name && carousels[i].slug == cs[i].slug &&
      fetch(cs[i].slug) == Some(carousels[i].products) &&
      Chunking(carousels[i].chunkedProducts, carousels[i].products, SlideSize)
  }

  /** The forkJoin of the product requests: every carousel when all succeed, nothing when one fails. */
  method FetchCarousels(cs: seq<Category>, fetch: string -> Option<seq<Product>>) returns (r: Option<seq<CategoryWithProducts>>)
    ensures r.None? <==> AnyFetchFails(cs, fetch)
    ensures r.Some? ==> Carousels(r.value, cs, fetch)
  {
    var result: seq<CategoryWithProducts> := [];
    var i := 0;
    while i < |cs|
      invariant 0 <= i <= |cs|
      invariant Carousels(result, cs[..i], fetch)
    {
      var products := fetch(cs[i].slug);
      if products.None? {
        return None;
      }
      var slides := ChunkArray(products.value, SlideSize);
      result := result + [CategoryWithProducts(cs[i].name, cs[i].slug, products.value, slides)];
      i := i + 1;
    }
    assert cs[..i] == cs;
    return Some(result);
  }

  class HomePage {
    var categoriesWithProducts: seq<CategoryWithProducts>
    var isLoading: bool
    var categories: seq<Category>
    var allProducts: seq<Product>
    var navigatedTo: Option<string>

    constructor ()
      ensures categoriesWithProducts == [] && isLoading && categories == [] && allProducts == []
      ensures navigatedTo == None
    {
      categoriesWithProducts := [];
      isLoading := true;
      categories := [];
      allProducts := [];
      navigatedTo := None;
    }

    /**
     * loadCategorizedProducts: the products of the first ten categories are
     * fetched together and each category becomes a carousel of slides of
     * four. A failed category request, or any failed product request, keeps
     * the carousels as they were; no categories give no carousels. Loading
     * ends either way.
     */
    method LoadCategorizedProducts(response: Option<seq<Category>>, fetch: string -> Option<seq<Product>>)
      modifies this
      ensures !isLoading
      ensures categories == old(categories) && allProducts == old(allProducts) && navigatedTo == old(navigatedTo)
      ensures response.None? ==> categoriesWithProducts == old(categoriesWithProducts)
      ensures response == Some([]) ==> categoriesWithProducts == []
      ensures response.Some? && AnyFetchFails(Take(response.value, CarouselCategories), fetch) ==>
        categoriesWithProducts == old(categoriesWithProducts)
      ensures response.Some? && !AnyFetchFails(Take(response.value, CarouselCategories), fetch) ==>
        Carousels(categoriesWithProducts, Take(response.value, CarouselCategories), fetch)
    {
      isLoading := false;
      if response.None? {
        return;
      }
      var loaded := FetchCarousels(Take(response.value, CarouselCategories), fetch);
      if loaded.Some? {
        categoriesWithProducts := loaded.value;
      }
    }

    /** loadCategories: the category grid shows the fetched categories; a failure keeps the old ones. */
    method LoadCategories(response: Option<seq<Category>>)
      modifies this
      ensures response.Some? ==> categories == response.value
      ensures response.None? ==> categories == old(categories)
      ensures categoriesWithProducts == old(categoriesWithProducts) && allProducts == old(allProducts)
      ensures isLoading == old(isLoading) && navigatedTo == old(navigatedTo)
    {
      if response.Some? {
        categories := response.value;
      }
    }

    /** loadAllProducts: the featured sections show every fetched product; a failure keeps the old ones. */
    method LoadAllProducts(response: Option<seq<Product>>)
      modifies this
      ensures response.Some? ==> allProducts == response.value
      ensures response.None? ==> allProducts == old(allProducts)
      ensures categoriesWithProducts == old(categoriesWithProducts) && categories == old(categories)
      ensures isLoading == old(isLoading) && navigatedTo == old(navigatedTo)
    {
      if response.Some? {
        allProducts := response.value;
      }
    }

    /** navigateToCategory: opens the category's product list. */
    method NavigateToCategory(slug: string)
      modifies this
      ensures navigatedTo == Some("/category/" + slug)
      ensures categoriesWithProducts == old(categoriesWithProducts) && categories == old(categories)
      ensures allProducts == old(allProducts) && isLoading == old(isLoading)
    {
      navigatedTo := Some("/category/" + slug);
    }

    /** onImageError: the failing image moves on to its next source. */
    method OnImageError(img: ImageElement, slug: string)
      modifies img
      ensures img.src == NextSource(slug, old(img.src))
    {
      var alternatives := AlternativeSources(slug);
      var currentIndex := IndexOf(alternatives, img.src);
      if currentIndex < |alternatives| - 1 {
        img.src := alternatives[currentIndex + 1];
      } else {
        img.src := Svg(CategoryDrawing(slug));
      }
    }
  }
}
