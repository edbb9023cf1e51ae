/**
 * How the order lists are arranged: the admin sees every order not hidden
 * from admins, the customer every order of theirs not hidden from customers,
 * and both lists put cancelled orders last and the newest order first.
 */
module OrderListing {
  import opened Common
  import opened Model
  import opened Sorting

  /** `o.visibleToAdmin !== false`. */
  predicate AdminVisible(o: Order) { o.visibleToAdmin != Some(false) }

  /** `o.visibleToCustomer !== false`. */
  predicate CustomerVisible(o: Order) { o.visibleToCustomer != Some(false) }

  /** statusRank: cancelled orders sink to the bottom. */
  function StatusRank(o: Order): int
  {
    if o.orderStatus == Cancelled then 2 else 0
  }

  /** The comparator: lower rank first, then the later orderDate first. */
  predicate RankThenNewest(a: Order, b: Order)
  {
    StatusRank(a) < StatusRank(b) || (StatusRank(a) == StatusRank(b) && a.orderDate >= b.orderDate)
  }

  /** The comparator of a list sorted by date only, newest first. */
  predicate Newest(a: Order, b: Order)
  {
    a.orderDate >= b.orderDate
  }

  lemma RankThenNewestPreorder()
    ensures Preorder(RankThenNewest)
  {
  }

  lemma NewestPreorder()
    ensures Preorder(Newest)
  {
  }

  /** Cancelled orders come after all others; within each group, newest first. */
  ghost predicate ArrangedForAdmin(s: seq<Order>)
  {
    forall i, j :: 0 <= i < j < |s| ==>
      (s[i].orderStatus == Cancelled ==> s[j].orderStatus == Cancelled) &&
      (StatusRank(s[i]) == StatusRank(s[j]) ==> s[i].orderDate >= s[j].orderDate)
  }

  /** loadOrders on the admin page: the admin-visible orders, arranged. */
  function AdminListing(orders: seq<Order>): seq<Order>
  {
    SortBy(Filter(orders, AdminVisible), RankThenNewest)
  }

  /**
   * The admin listing holds exactly the orders not hidden from admins, each as
   * often as stored, with cancelled orders last and newest first within each
   * group.
   */
  lemma {:induction false} AdminListingArranged(orders: seq<Order>)
    ensures multiset(AdminListing(orders)) == multiset(Filter(orders, AdminVisible))
    ensures forall o :: o in AdminListing(orders) <==> o in orders && AdminVisible(o)
    ensures ArrangedForAdmin(AdminListing(orders))
  {
    var f := Filter(orders, AdminVisible);
    RankThenNewestPreorder();
    SortBySorted(f, RankThenNewest);
    SortByPermutation(f, RankThenNewest);
    forall o ensures o in AdminListing(orders) <==> o in orders && AdminVisible(o) {
      SortByMembers(f, RankThenNewest, o);
    }
  }

  /** The re-sort after a customer cancels: cancelled orders last, newest first within each group. */
  function CancelledLast(s: seq<Order>): seq<Order>
  {
    SortBy(s, RankThenNewest)
  }

  /** The re-sorted list keeps every order, each as often, arranged as the admin listing is. */
  lemma {:induction false} CancelledLastArranged(s: seq<Order>)
    ensures multiset(CancelledLast(s)) == multiset(s)
    ensures ArrangedForAdmin(CancelledLast(s))
  {
    RankThenNewestPreorder();
    SortBySorted(s, RankThenNewest);
    SortByPermutation(s, RankThenNewest);
  }
}
