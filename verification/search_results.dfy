/**
 * The search results page: the product ids of the last search are fetched
 * together, the products received are listed, and the page says "no
 * results" exactly when the list is empty. Prices are shown after discount
 * and ratings as five star slots.
 */
module SearchResults {
  import opened Common
  import opened Model
  import opened ProductList

  /** getDiscountedPrice: the price less its discount percentage, or the price when there is no discount. */
  function DiscountedPrice(p: Product): (r: real)
    ensures p.discountPercentage <= 0.0 ==> r == p.price
    ensures p.discountPercentage > 0.0 ==> r == p.price * (1.0 - p.discountPercentage / 100.0)
    ensures 0.0 <= p.discountPercentage <= 100.0 && p.price >= 0.0 ==> 0.0 <= r <= p.price
    ensures 0.0 < p.discountPercentage && p.price > 0.0 ==> r < p.price
  {
    if p.discountPercentage > 0.0 then p.price * (1.0 - p.discountPercentage / 100.0) else p.price
  }

  /**
   * getRatingStars: 'full' for each whole point, then 'half' when the
   * fraction is at least a half, then 'empty' up to five slots.
   */
  method RatingStars(rating: real) returns (stars: seq<string>)
    ensures |stars| == Max(5, FullStars(rating) + if HasHalfStar(rating) then 1 else 0)
    ensures forall i :: 0 <= i < |stars| ==>
      stars[i] == if i < FullStars(rating) then "full"
                  else if i == FullStars(rating) && HasHalfStar(rating) then "half"
                  else "empty"
    ensures 0.0 <= rating <= 5.0 ==> |stars| == 5
  {
    stars := [];
    var fullStars := FullStars(rating);
    var i := 0;
    while i < fullStars
      invariant 0 <= i <= fullStars && |stars| == i
      invariant forall k :: 0 <= k < i ==> stars[k] == "full"
    {
      stars := stars + ["full"];
      i := i + 1;
    }
    if HasHalfStar(rating) {
      stars := stars + ["half"];
    }
    while |stars| < 5
      invariant fullStars <= |stars| <= Max(5, fullStars + if HasHalfStar(rating) then 1 else 0)
      invariant |stars| >= fullStars + if HasHalfStar(rating) then 1 else 0
      invariant forall k :: 0 <= k < |stars| ==>
        stars[k] == if k < fullStars then "full"
                    else if k == fullStars && HasHalfStar(rating) then "half"
                    else "empty"
    {
      stars := stars + ["empty"];
    }
    if 0.0 <= rating <= 5.0 {
      assert fullStars <= 5;
      assert fullStars == 5 ==> !HasHalfStar(rating);
    }
  }

  class SearchResultsPage {
    var searchQuery: string
    var searchResults: seq<Product>
    var loading: bool
    var noResults: bool

    constructor ()
      ensures searchQuery == "" && searchResults == [] && !loading && !noResults
    {
      searchQuery := "";
      searchResults := [];
      loading := false;
      noResults := false;
    }

    /**
     * The query parameter arrives ('' when absent) and the last search's ids
     * are loaded: no ids give no results; otherwise all products are fetched
     * at once, the nulls dropped, and any failed request empties the list.
     * Either way "no results" is shown exactly when the list is empty.
     */
    method OnQuery(q: string, productIds: seq<int>, respond: int -> ProductResponse)
      modifies this
      ensures searchQuery == q && !loading
      ensures noResults <==> searchResults == []
      ensures productIds == [] ==> searchResults == []
      ensures productIds != [] && AnyFailed(Responses(productIds, respond)) ==> searchResults == []
      ensures productIds != [] && !AnyFailed(Responses(productIds, respond)) ==>
        searchResults == Present(Responses(productIds, respond))
    {
      searchQuery := q;
      loading := true;
      noResults := false;
      if |productIds| == 0 {
        searchResults := [];
        noResults := true;
        loading := false;
        return;
      }
      var answers := Responses(productIds, respond);
      if exists k :: 0 <= k < |answers| && answers[k].RequestFailed? {
        searchResults := [];
        noResults := true;
      } else {
        searchResults := Present(answers);
        noResults := |searchResults| == 0;
      }
      loading := false;
    }
  }
}
