/**
 * Pagination and column sorting as the admin tables and the product list do
 * them: Math.ceil page counts, slice(start, start + size) pages, column keys
 * compared as numbers or lower-cased texts, and a header click that flips
 * the direction of the current column or starts a new column ascending.
 */
module Paging {
  import opened Common
  import Sorting

  /** Math.ceil(n / size). */
  function PageCount(n: nat, size: nat): nat
    requires size > 0
  {
    (n + size - 1) / size
  }

  /** The page count is the least number of pages of `size` items that hold n items. */
  lemma PageCountBounds(n: nat, size: nat)
    requires size > 0
    ensures n == 0 ==> PageCount(n, size) == 0
    ensures n > 0 ==> (PageCount(n, size) - 1) * size < n <= PageCount(n, size) * size
  {
  }

  /** filtered.slice((page - 1) * size, page * size). */
  function PageSlice<T>(s: seq<T>, page: nat, size: nat): (r: seq<T>)
    requires page >= 1 && size > 0
    ensures |r| <= size
  {
    var start := (page - 1) * size;
    if start >= |s| then [] else s[start..Min(start + size, |s|)]
  }

  /** A page holds the items from (page - 1) * size on, in order, and all of them that exist up to size. */
  lemma PageSliceContents<T>(s: seq<T>, page: nat, size: nat)
    requires page >= 1 && size > 0
    ensures var r := PageSlice(s, page, size);
      (forall i :: 0 <= i < |r| ==> (page - 1) * size + i < |s| && r[i] == s[(page - 1) * size + i]) &&
      ((page - 1) * size < |s| ==> |r| == Min(size, |s| - (page - 1) * size))
  {
  }

  /**
   * Every element of the list is shown on exactly one page within the page
   * count: element i is at position i % size of page i / size + 1.
   */
  lemma ElementOnPage<T>(s: seq<T>, size: nat, i: nat)
    requires size > 0 && i < |s|
    ensures 1 <= i / size + 1 <= PageCount(|s|, size)
    ensures |PageSlice(s, i / size + 1, size)| > i % size
    ensures PageSlice(s, i / size + 1, size)[i % size] == s[i]
  {
    var p, m := i / size, i % size;
    DivMod(i, size);
    var n := PageCount(|s|, size);
    PageCountBounds(|s|, size);
    PageSliceContents(s, p + 1, size);
    if p >= n {
      MulMono(p, n, size);
      assert false;
    }
    var r := PageSlice(s, p + 1, size);
    assert (p + 1 - 1) * size == p * size;
    assert |r| == Min(size, |s| - p * size);
  }

  lemma DivMod(i: nat, size: nat)
    requires size > 0
    ensures i == (i / size) * size + i % size && 0 <= i % size < size
  {
  }

  lemma MulMono(a: nat, b: nat, k: nat)
    requires a >= b
    ensures a * k >= b * k
  {
    assert a * k == b * k + (a - b) * k;
  }

  /** The page kept after the list changed: back to page 1 when the current one no longer exists. */
  function PageAfterChange(current: nat, totalPages: nat): (r: nat)
    ensures current <= totalPages ==> r == current
    ensures current > totalPages ==> r == 1
  {
    if current > totalPages then 1 else current
  }

  /** The value a column sorts on: a number, a lower-cased text, or nothing. */
  datatype SortKey = Absent | Num(n: real) | Str(t: string)

  /** Key order: absent keys first, then numbers, then texts; texts in JavaScript's string order. */
  predicate KeyLe(a: SortKey, b: SortKey)
  {
    match (a, b)
    case (Absent, _) => true
    case (Num(x), Num(y)) => x <= y
    case (Num(_), Str(_)) => true
    case (Str(x), Str(y)) => Sorting.LexLe(x, y)
    case _ => false
  }

  lemma KeyLeTotal(a: SortKey, b: SortKey)
    ensures KeyLe(a, b) || KeyLe(b, a)
  {
    if a.Str? && b.Str? {
      Sorting.LexTotal(a.t, b.t);
    }
  }

  lemma KeyLeTransitive(a: SortKey, b: SortKey, c: SortKey)
    requires KeyLe(a, b) && KeyLe(b, c)
    ensures KeyLe(a, c)
  {
    if a.Str? && b.Str? && c.Str? {
      Sorting.LexTransitive(a.t, b.t, c.t);
    }
  }

  datatype SortOrder = SortOrder(field: string, direction: string)

  /** sortBy(field): the same column flips direction; a new column starts ascending. */
  function NextSort(current: SortOrder, field: string): (r: SortOrder)
    ensures r.field == field
    ensures field != current.field ==> r.direction == "asc"
    ensures field == current.field && current.direction == "asc" ==> r.direction == "desc"
    ensures field == current.field && current.direction != "asc" ==> r.direction == "asc"
  {
    if current.field == field then SortOrder(field, if current.direction == "asc" then "desc" else "asc")
    else SortOrder(field, "asc")
  }

}
