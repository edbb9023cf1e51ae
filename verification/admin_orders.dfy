/**
 * The admin orders page: the order table with its filters, column sorting
 * and pagination, the processing dialog that moves an order along the
 * status flow, the quick status change, and order removal (a hard delete for
 * a delivered order, otherwise an archive that the expiry sweep deletes 30
 * days later, with the stock returned and the customer notified).
 */
module AdminOrders {
  import opened Common
  import opened Model
  import opened DocumentStore
  import Sorting
  import opened Paging
  import opened Inventory
  import opened OrderProcessing
  import opened OrderListing
  import opened AutoCleanup

  // ------------------------------------------------------ status flow

  /** The moves the processing dialog accepts, written pair by pair. */
  predicate AllowedMove(from: string, to: string)
  {
    (from == Pending && to == Confirmed) || (from == Pending && to == Cancelled) ||
    (from == Confirmed && to == Processing) || (from == Processing && to == Shipped) ||
    (from == Shipped && to == Delivered)
  }

  /** getValidStatusTransitions' table; delivered, cancelled and unknown statuses allow nothing. */
  function ValidTransitions(status: string): (r: seq<string>)
    ensures forall t :: t in r <==> AllowedMove(status, t)
    ensures status == Delivered || status == Cancelled || !KnownStatus(status) ==> r == []
  {
    if status == Confirmed then [Processing]
    else if status == Processing then [Shipped]
    else if status == Shipped then [Delivered]
    else if status == Pending then [Confirmed, Cancelled]
    else []
  }

  /** How far along the flow a status is; delivered and cancelled are both ends. */
  function Rank(status: string): nat
  {
    if status == Confirmed then 1
    else if status == Processing then 2
    else if status == Shipped then 3
    else if status == Delivered || status == Cancelled then 4
    else 0
  }

  /** A sequence of statuses each reached from the previous one through the dialog. */
  predicate ValidPath(p: seq<string>)
  {
    forall i :: 0 <= i < |p| - 1 ==> p[i + 1] in ValidTransitions(p[i])
  }

  /**
   * Through the dialog an order only moves forward: every step raises its
   * rank, so no status is ever revisited and at most four moves are possible.
   */
  lemma {:induction false} ValidPathForward(p: seq<string>)
    requires ValidPath(p)
    ensures |p| <= 5
    ensures forall i, j :: 0 <= i < j < |p| ==> Rank(p[i]) < Rank(p[j]) && p[i] != p[j]
    ensures |p| > 0 ==> Rank(p[|p| - 1]) >= Rank(p[0]) + |p| - 1
  {
    if |p| > 1 {
      var tail := p[1..];
      assert ValidPath(tail) by {
        forall i | 0 <= i < |tail| - 1
          ensures tail[i + 1] in ValidTransitions(tail[i])
        {
          assert tail[i] == p[i + 1] && tail[i + 1] == p[i + 2];
        }
      }
      ValidPathForward(tail);
      assert p[1] in ValidTransitions(p[0]);
      assert Rank(p[0]) < Rank(p[1]);
      forall i, j | 0 <= i < j < |p|
        ensures Rank(p[i]) < Rank(p[j]) && p[i] != p[j]
      {
        if i == 0 {
          if j > 1 {
            assert tail[0] == p[1] && tail[j - 1] == p[j];
          }
        } else {
          assert tail[i - 1] == p[i] && tail[j - 1] == p[j];
        }
      }
      assert tail[|tail| - 1] == p[|p| - 1];
    }
  }

  // ---------------------------------------------------------- filters

  /**
   * The filter bar. Empty texts and absent dates are inactive filters; a date
   * is the first millisecond of the chosen day.
   */
  datatype OrderFilters = OrderFilters(
    status: string,
    paymentStatus: string,
    dateFrom: Option<int>,
    dateTo: Option<int>,
    customer: string)

  const NoFilters: OrderFilters := OrderFilters("", "", None, None, "")

  /** The search text, case-insensitively, in the customer's name or email or in the order number. */
  predicate CustomerMatch(o: Order, search: string)
  {
    var term := Lower(search);
    (o.customerInfo.Some? &&
      (Contains(Lower(o.customerInfo.value.fullName), term) || Contains(Lower(o.customerInfo.value.email), term))) ||
    (o.orderNumber.Some? && Contains(Lower(o.orderNumber.value), term))
  }

  /** The order passes every active filter. */
  predicate PassesFilters(o: Order, f: OrderFilters)
  {
    (f.status == "" || o.orderStatus == f.status) &&
    (f.paymentStatus == "" || o.paymentStatus == f.paymentStatus) &&
    (f.dateFrom.None? || o.orderDate >= f.dateFrom.value) &&
    (f.dateTo.None? || o.orderDate <= EndOfDay(f.dateTo.value)) &&
    (f.customer == "" || CustomerMatch(o, f.customer))
  }

  /** With every filter cleared the table holds every loaded order, each as often as loaded, in column order. */
  lemma NoFiltersPassAll(all: seq<Order>, field: string, direction: string)
    ensures var r := FilteredListing(all, NoFilters, field, direction);
      multiset(r) == multiset(all) && (forall i, j :: 0 <= i < j < |r| ==> OrderLe(field, direction, r[i], r[j]))
  {
    FilterAll(all, (o: Order) => PassesFilters(o, NoFilters));
    FilteredListingCorrect(all, NoFilters, field, direction);
  }

  // ---------------------------------------------------------- sorting

  /** The key of an order in a column: dates as times, texts lower-cased, unknown columns all equal. */
  function OrderSortKey(o: Order, field: string): SortKey
  {
    if field == "orderDate" then Num(o.orderDate as real)
    else if field == "estimatedDelivery" then Num(o.estimatedDelivery as real)
    else if field == "total" then Num(o.total)
    else if field == "subtotal" then Num(o.subtotal)
    else if field == "customerName" then
      (if o.customerInfo.Some? then Str(Lower(o.customerInfo.value.fullName)) else Absent)
    else if field == "customerEmail" then
      (if o.customerInfo.Some? then Str(Lower(o.customerInfo.value.email)) else Absent)
    else if field == "orderNumber" then
      (if o.orderNumber.Some? then Str(Lower(o.orderNumber.value)) else Absent)
    else if field == "orderStatus" then Str(Lower(o.orderStatus))
    else if field == "paymentStatus" then Str(Lower(o.paymentStatus))
    else Absent
  }

  /** The comparator of sortOrders: ascending or descending by the column's key. */
  predicate OrderLe(field: string, direction: string, a: Order, b: Order)
  {
    if direction == "asc" then KeyLe(OrderSortKey(a, field), OrderSortKey(b, field))
    else KeyLe(OrderSortKey(b, field), OrderSortKey(a, field))
  }

  function Comparator(field: string, direction: string): (Order, Order) -> bool
  {
    (a: Order, b: Order) => OrderLe(field, direction, a, b)
  }

  lemma ComparatorPreorder(field: string, direction: string)
    ensures Sorting.Preorder(Comparator(field, direction))
  {
    var le := Comparator(field, direction);
    forall a: Order, b: Order ensures le(a, b) || le(b, a) {
      KeyLeTotal(OrderSortKey(a, field), OrderSortKey(b, field));
    }
    forall a: Order, b: Order, c: Order | le(a, b) && le(b, c) ensures le(a, c) {
      if direction == "asc" {
        KeyLeTransitive(OrderSortKey(a, field), OrderSortKey(b, field), OrderSortKey(c, field));
      } else {
        KeyLeTransitive(OrderSortKey(c, field), OrderSortKey(b, field), OrderSortKey(a, field));
      }
    }
  }

  /** sortOrders: the orders sorted by a column in a direction. */
  function ColumnSorted(orders: seq<Order>, field: string, direction: string): seq<Order>
  {
    Sorting.SortBy(orders, Comparator(field, direction))
  }

  /** Sorting by a column keeps every order, as often as listed, and orders the list by that column. */
  lemma ColumnSortedCorrect(orders: seq<Order>, field: string, direction: string)
    ensures var r := ColumnSorted(orders, field, direction);
      multiset(r) == multiset(orders) &&
      (forall i, j :: 0 <= i < j < |r| ==> OrderLe(field, direction, r[i], r[j]))
  {
    var le := Comparator(field, direction);
    ComparatorPreorder(field, direction);
    Sorting.SortBySorted(orders, le);
    Sorting.SortByPermutation(orders, le);
    var r := Sorting.SortBy(orders, le);
    forall i, j | 0 <= i < j < |r| ensures OrderLe(field, direction, r[i], r[j]) {
      assert le(r[i], r[j]);
    }
  }

  /** applyFilters followed by sortOrders: the passing orders, sorted by the current column. */
  function FilteredListing(all: seq<Order>, f: OrderFilters, field: string, direction: string): seq<Order>
  {
    ColumnSorted(Filter(all, (o: Order) => PassesFilters(o, f)), field, direction)
  }

  /**
   * The filtered table holds exactly the loaded orders that pass every active
   * filter, each as often as loaded, ordered by the sort column in the sort
   * direction.
   */
  lemma FilteredListingCorrect(all: seq<Order>, f: OrderFilters, field: string, direction: string)
    ensures var r := FilteredListing(all, f, field, direction);
      multiset(r) == multiset(Filter(all, (o: Order) => PassesFilters(o, f))) &&
      (forall o :: o in r <==> o in all && PassesFilters(o, f)) &&
      (forall i, j :: 0 <= i < j < |r| ==> OrderLe(field, direction, r[i], r[j]))
  {
    var s := Filter(all, (o: Order) => PassesFilters(o, f));
    ColumnSortedCorrect(s, field, direction);
    var r := ColumnSorted(s, field, direction);
    forall o ensures o in r <==> o in all && PassesFilters(o, f) {
      assert o in r <==> o in multiset(r);
      assert o in s <==> o in multiset(s);
    }
  }

  // ---------------------------------------------------------- removal

  /** Who an admin removal is recorded as, and the notice it sends. */
  const AdminActor: string := "admin"
  const RemovedKind: string := "order_removed"
  const RemovedTitle: string := "Order Cancelled - Refund Processed"
  const InvalidTransitionText: string := "Invalid status transition: "

  /** The record an admin's removal writes back: cancelled, archived by the admin, deleted 30 days on. */
  function ArchivedByAdmin(order: Order, reason: string, now: int): (r: Order)
    ensures r.orderStatus == Cancelled && StatusRank(r) == 2
    ensures r.cancelledBy == Some(AdminActor) && r.archivedBy == Some(AdminActor)
    ensures r.cancellationReason == Some(reason) && r.archivedReason == Some(reason)
    ensures forall t :: IsExpired(r, t) <==> t >= now + 30 * DayMillis
    ensures AdminVisible(r) == AdminVisible(order) && CustomerVisible(r) == CustomerVisible(order)
    ensures r.id == order.id && r.items == order.items && r.total == order.total && r.customerInfo == order.customerInfo
    ensures r.archivedAt == Some(now) && r.cancelledAt == Some(now)
    // every field but the cancellation and archive fields is the order's own
    ensures r == order.(orderStatus := r.orderStatus, isArchived := r.isArchived, archivedAt := r.archivedAt,
                        archivedReason := r.archivedReason, archivedBy := r.archivedBy,
                        autoDeleteDate := r.autoDeleteDate, cancelledAt := r.cancelledAt,
                        cancelledBy := r.cancelledBy, cancellationReason := r.cancellationReason)
  {
    order.(orderStatus := Cancelled,
           isArchived := Some(true),
           archivedAt := Some(now),
           archivedReason := Some(reason),
           archivedBy := Some(AdminActor),
           autoDeleteDate := Some(now + 30 * DayMillis),
           cancelledAt := Some(now),
           cancelledBy := Some(AdminActor),
           cancellationReason := Some(reason))
  }

  /** The notice sendCustomerNotification posts: unread, for the order's customer, for the order's total. */
  function RemovalNotice(order: Order, reason: string, now: nat): (r: Notification)
    ensures !r.read && r.audience == Unflagged && r.kind == RemovedKind
    ensures r.orderNumber == order.orderNumber && r.amount == order.total && r.reason == reason
    ensures order.customerInfo.Some? ==> r.customerEmail == order.customerInfo.value.email
    ensures r.id == NatToString(now) && r.createdAt == now
  {
    var email := if order.customerInfo.Some? then order.customerInfo.value.email else "";
    var name := if order.customerInfo.Some? then order.customerInfo.value.fullName else "";
    Notification(NatToString(now), order.orderNumber, email, name, RemovedKind,
                 RemovedTitle, reason, order.total, now, false, Unflagged)
  }

  /**
   * An order the admin removes before delivery stays in the admin's table
   * (unless it was already hidden), now among the cancelled orders at the
   * bottom, until the sweep deletes it.
   */
  lemma ArchivedStaysListed(orders: seq<Order>, id: string, order: Order, reason: string, now: int)
    requires IndexOfOrder(orders, id) >= 0 && orders[IndexOfOrder(orders, id)] == order
    ensures var a := ArchivedByAdmin(order, reason, now);
      (a in AdminListing(ReplaceOrder(orders, id, a)) <==> AdminVisible(order)) &&
      (forall t :: t < now + 30 * DayMillis ==> !IsExpired(a, t))
  {
    var a := ArchivedByAdmin(order, reason, now);
    var k := IndexOfOrder(orders, id);
    var s := ReplaceOrder(orders, id, a);
    assert s[k] == a;
    assert a in s;
    AdminListingArranged(s);
  }

  /**
   * The store side of an admin removal before delivery: the stock is
   * returned (whether or not every product could be fetched), then the
   * archived record replaces the stored order.
   */
  method ArchiveOrder(store: Store, order: Order, reason: string, now: int) returns (ok: bool)
    requires order.id.Some?
    modifies store
    ensures ok <==> IndexOfOrder(old(store.orders), order.id.value) >= 0
    ensures store.products == (if order.orderStatus == Delivered then old(store.products) else Restocked(old(store.products), order.items))
    ensures store.orders == ReplaceOrder(old(store.orders), order.id.value, ArchivedByAdmin(order, reason, now))
    ensures store.notifications == old(store.notifications) && store.cart == old(store.cart) && store.users == old(store.users)
    ensures store.admins == old(store.admins) && store.locations == old(store.locations)
  {
    var restocked := RestockOrderItems(store, order);
    ok := store.PutOrder(order.id.value, ArchivedByAdmin(order, reason, now));
  }

  // ------------------------------------------------------------- page

  /** What processOrder does: nothing without an order with an id, an alert for a move outside the table, or a write. */
  datatype ProcessStep = Skip | Refuse | Write(id: string)

  function StepFor(selected: Option<Order>, target: string): (r: ProcessStep)
    ensures r.Skip? <==> selected.None? || selected.value.id.None?
    ensures r.Refuse? <==> selected.Some? && selected.value.id.Some? && !AllowedMove(selected.value.orderStatus, target)
    ensures r.Write? ==> selected.Some? && selected.value.id == Some(r.id) && AllowedMove(selected.value.orderStatus, target)
  {
    if selected.None? || selected.value.id.None? then Skip
    else if target !in ValidTransitions(selected.value.orderStatus) then Refuse
    else Write(selected.value.id.value)
  }

  /** The alert processOrder raises for a move outside the table. */
  function TransitionAlert(current: string, target: string): string
  {
    InvalidTransitionText + current + " -> " + target
  }

  class AdminOrdersPage {
    const store: Store
    const processing: OrderProcessingService

    var allOrders: seq<Order>
    var filteredOrders: seq<Order>
    var paginatedOrders: seq<Order>
    var currentPage: nat
    var itemsPerPage: nat
    var totalPages: nat
    var filters: OrderFilters
    var sortField: string
    var sortDirection: string
    var isLoading: bool
    var isUpdating: bool

    var showProcessingModal: bool
    var selectedOrderForProcessing: Option<Order>
    var newStatus: string
    var selectedLocation: string
    var processingNotes: string

    var showRemoveModal: bool
    var selectedOrderForRemoval: Option<Order>
    var removalReason: string
    var sendNotification: bool

    /** The text of the last alert() the page raised. */
    var alertMessage: Option<string>

    /** The page is wired to the store its service uses, and pages are positive. */
    ghost predicate Wired()
      reads this`itemsPerPage, this`currentPage
    {
      processing.store == store && itemsPerPage > 0 && currentPage >= 1
    }

    /** Wired, and the page count is that of the filtered list. */
    ghost predicate Valid()
      reads this`itemsPerPage, this`currentPage, this`totalPages, this`filteredOrders
    {
      Wired() && totalPages == PageCount(|filteredOrders|, itemsPerPage)
    }

    constructor (store: Store, processing: OrderProcessingService)
      requires processing.store == store
      ensures Valid() && this.store == store && this.processing == processing
      ensures allOrders == [] && filteredOrders == [] && paginatedOrders == []
      ensures currentPage == 1 && itemsPerPage == 10 && totalPages == 0
      ensures filters == NoFilters && sortField == "orderDate" && sortDirection == "desc"
      ensures !isLoading && !isUpdating && !showProcessingModal && !showRemoveModal && sendNotification
    {
      this.store := store;
      this.processing := processing;
      allOrders := [];
      filteredOrders := [];
      paginatedOrders := [];
      currentPage := 1;
      itemsPerPage := 10;
      totalPages := 0;
      filters := NoFilters;
      sortField := "orderDate";
      sortDirection := "desc";
      isLoading := false;
      isUpdating := false;
      showProcessingModal := false;
      selectedOrderForProcessing := None;
      newStatus := "";
      selectedLocation := "";
      processingNotes := "";
      showRemoveModal := false;
      selectedOrderForRemoval := None;
      removalReason := "";
      sendNotification := true;
      alertMessage := None;
    }

    /** updatePagination: recount the pages, fall back to page 1 when the page is gone, and cut the page out. */
    method UpdatePagination()
      requires Wired()
      modifies this`totalPages, this`currentPage, this`paginatedOrders
      ensures Valid()
      ensures totalPages == PageCount(|filteredOrders|, itemsPerPage)
      ensures currentPage == PageAfterChange(old(currentPage), totalPages)
      ensures paginatedOrders == PageSlice(filteredOrders, currentPage, itemsPerPage)
    {
      totalPages := PageCount(|filteredOrders|, itemsPerPage);
      if currentPage > totalPages {
        currentPage := 1;
      }
      paginatedOrders := PageSlice(filteredOrders, currentPage, itemsPerPage);
    }

    /** sortOrders: the filtered list sorted in place by the current column and direction. */
    method SortOrders()
      requires Wired()
      modifies this`filteredOrders
      ensures Wired() && (old(Valid()) ==> Valid())
      ensures filteredOrders == ColumnSorted(old(filteredOrders), sortField, sortDirection)
    {
      filteredOrders := ColumnSorted(filteredOrders, sortField, sortDirection);
    }

    /** applyFilters: keep the orders passing every active filter, sort them, and repaginate. */
    method ApplyFilters()
      requires Valid()
      modifies this`filteredOrders, this`totalPages, this`currentPage, this`paginatedOrders
      ensures Valid()
      ensures filteredOrders == FilteredListing(allOrders, filters, sortField, sortDirection)
      ensures totalPages == PageCount(|filteredOrders|, itemsPerPage)
      ensures currentPage == PageAfterChange(old(currentPage), totalPages)
      ensures paginatedOrders == PageSlice(filteredOrders, currentPage, itemsPerPage)
    {
      filteredOrders := FilteredListing(allOrders, filters, sortField, sortDirection);
      UpdatePagination();
    }

    /** loadOrders: the admin-visible orders, cancelled last and newest first, then filtered. */
    method LoadOrders(fetchOk: bool)
      requires Valid()
      modifies this`isLoading, this`allOrders, this`filteredOrders, this`totalPages, this`currentPage, this`paginatedOrders
      ensures Valid() && !isLoading
      ensures fetchOk ==> allOrders == AdminListing(store.orders) &&
                          filteredOrders == FilteredListing(allOrders, filters, sortField, sortDirection) &&
                          paginatedOrders == PageSlice(filteredOrders, currentPage, itemsPerPage)
      ensures !fetchOk ==> allOrders == old(allOrders) && filteredOrders == old(filteredOrders) &&
                           paginatedOrders == old(paginatedOrders) && currentPage == old(currentPage)
    {
      isLoading := true;
      if fetchOk {
        allOrders := AdminListing(store.orders);
        ApplyFilters();
      }
      isLoading := false;
    }

    /** changePage: only pages 1..totalPages are taken. */
    method ChangePage(page: int)
      requires Valid()
      modifies this`totalPages, this`currentPage, this`paginatedOrders
      ensures Valid()
      ensures 1 <= page <= old(totalPages) ==>
        currentPage == page && paginatedOrders == PageSlice(filteredOrders, page, itemsPerPage)
      ensures !(1 <= page <= old(totalPages)) ==>
        currentPage == old(currentPage) && paginatedOrders == old(paginatedOrders)
      ensures allOrders == old(allOrders) && filteredOrders == old(filteredOrders) && totalPages == old(totalPages)
    {
      if 1 <= page <= totalPages {
        currentPage := page;
        UpdatePagination();
      }
    }

    /** changeItemsPerPage: a new page size restarts at page 1. */
    method ChangeItemsPerPage(newSize: nat)
      requires Valid() && newSize > 0
      modifies this`itemsPerPage, this`totalPages, this`currentPage, this`paginatedOrders
      ensures Valid()
      ensures itemsPerPage == newSize && currentPage == 1
      ensures totalPages == PageCount(|filteredOrders|, newSize)
      ensures paginatedOrders == PageSlice(filteredOrders, 1, newSize)
      ensures allOrders == old(allOrders) && filteredOrders == old(filteredOrders)
    {
      itemsPerPage := newSize;
      currentPage := 1;
      UpdatePagination();
    }

    /** sortBy: the same column flips its direction, a new column sorts ascending; then the list is re-sorted. */
    method SortBy(field: string)
      requires Valid()
      modifies this`sortField, this`sortDirection, this`filteredOrders, this`totalPages, this`currentPage, this`paginatedOrders
      ensures Valid()
      ensures SortOrder(sortField, sortDirection) == NextSort(SortOrder(old(sortField), old(sortDirection)), field)
      ensures filteredOrders == ColumnSorted(old(filteredOrders), sortField, sortDirection)
      ensures paginatedOrders == PageSlice(filteredOrders, currentPage, itemsPerPage)
      ensures allOrders == old(allOrders) && filters == old(filters) && itemsPerPage == old(itemsPerPage)
    {
      var next := NextSort(SortOrder(sortField, sortDirection), field);
      sortField, sortDirection := next.field, next.direction;
      filteredOrders := ColumnSorted(filteredOrders, sortField, sortDirection);
      UpdatePagination();
    }

    /** clearFilters: every filter off, then applyFilters. */
    method ClearFilters()
      requires Valid()
      modifies this`filters, this`filteredOrders, this`totalPages, this`currentPage, this`paginatedOrders
      ensures Valid()
      ensures filters == NoFilters
      ensures filteredOrders == FilteredListing(allOrders, NoFilters, sortField, sortDirection)
      ensures allOrders == old(allOrders) && sortField == old(sortField) && sortDirection == old(sortDirection)
    {
      filters := NoFilters;
      ApplyFilters();
    }

    /**
     * The write both status paths share: the service call, then on success
     * the order replaced in the table and the table refiltered; the busy flag
     * drops either way.
     */
    method SaveStatus(id: string, status: string, locationId: string, notes: string, admin: Option<Admin>, now: int,
                      locationsFetched: bool, putOk: bool) returns (ok: bool)
      requires Valid()
      modifies this`isUpdating, this`allOrders, this`filteredOrders, this`totalPages, this`currentPage, this`paginatedOrders, store, processing
      ensures Valid() && !isUpdating
      ensures ok <==> old(store.GetOrder(id)).Some? && putOk
      ensures ok ==>
        var saved := WithStatus(old(store.GetOrder(id)).value, status,
                                OrderProcessingService.ResolveLocation(old(store.locations), locationId, locationsFetched),
                                notes, admin, now);
        store.orders == ReplaceOrder(old(store.orders), id, saved) && allOrders == ReplaceOrder(old(allOrders), id, saved)
      ensures !ok ==> store.orders == old(store.orders) && allOrders == old(allOrders)
      ensures store.products == old(store.products) && store.notifications == old(store.notifications)
    {
      var r := processing.UpdateOrderStatus(id, status, locationId, notes, admin, now, locationsFetched, putOk);
      ok := r.Ok?;
      if ok {
        allOrders := ReplaceOrder(allOrders, id, r.value);
        ApplyFilters();
      }
      isUpdating := false;
    }

    /**
     * updateOrderStatus, the quick status change: no transition check. The
     * busy flag is raised before the id check, so an order without an id
     * leaves the page busy.
     */
    method UpdateOrderStatus(order: Order, status: string, admin: Option<Admin>, now: int, putOk: bool)
      requires Valid()
      modifies this`isUpdating, this`allOrders, this`filteredOrders, this`totalPages, this`currentPage, this`paginatedOrders, store, processing
      ensures Valid()
      ensures order.id.None? ==> isUpdating && store.orders == old(store.orders) && allOrders == old(allOrders)
      ensures order.id.Some? ==> !isUpdating
      ensures order.id.Some? && old(store.GetOrder(order.id.value)).Some? && putOk ==>
        var saved := WithStatus(old(store.GetOrder(order.id.value)).value, status, None, "", admin, now);
        store.orders == ReplaceOrder(old(store.orders), order.id.value, saved) &&
        allOrders == ReplaceOrder(old(allOrders), order.id.value, saved)
      ensures order.id.Some? && (old(store.GetOrder(order.id.value)).None? || !putOk) ==>
        store.orders == old(store.orders) && allOrders == old(allOrders)
      ensures store.products == old(store.products) && store.notifications == old(store.notifications)
    {
      isUpdating := true;
      if order.id.None? {
        return;
      }
      var ok := SaveStatus(order.id.value, status, "", "", admin, now, true, putOk);
    }

    /** openProcessingModal: the dialog starts from the order's status, location and notes. */
    method OpenProcessingModal(order: Order)
      requires Valid()
      modifies this`showProcessingModal, this`selectedOrderForProcessing, this`newStatus, this`selectedLocation, this`processingNotes
      ensures Valid()
      ensures showProcessingModal && selectedOrderForProcessing == Some(order) && newStatus == order.orderStatus
      ensures selectedLocation == (if order.currentLocation.Some? then order.currentLocation.value.id else "")
      ensures processingNotes == (if order.processingNotes.Some? then order.processingNotes.value else "")
    {
      selectedOrderForProcessing := Some(order);
      newStatus := order.orderStatus;
      selectedLocation := if order.currentLocation.Some? then order.currentLocation.value.id else "";
      processingNotes := if order.processingNotes.Some? then order.processingNotes.value else "";
      showProcessingModal := true;
    }

    /** getValidStatusTransitions for the order in the dialog; none without one. */
    function ValidStatusTransitions(): (r: seq<string>)
      reads this
      ensures selectedOrderForProcessing.None? ==> r == []
      ensures selectedOrderForProcessing.Some? ==>
        forall t :: t in r <==> AllowedMove(selectedOrderForProcessing.value.orderStatus, t)
    {
      if selectedOrderForProcessing.None? then [] else ValidTransitions(selectedOrderForProcessing.value.orderStatus)
    }

    /** closeProcessingModal. */
    method CloseProcessingModal()
      requires Valid()
      modifies this`showProcessingModal, this`selectedOrderForProcessing, this`newStatus, this`selectedLocation, this`processingNotes
      ensures Valid()
      ensures !showProcessingModal && selectedOrderForProcessing == None
      ensures newStatus == "" && selectedLocation == "" && processingNotes == ""
    {
      showProcessingModal := false;
      selectedOrderForProcessing := None;
      newStatus := "";
      selectedLocation := "";
      processingNotes := "";
    }

    /**
     * processOrder: a move outside the table raises an alert and writes
     * nothing; an allowed move goes to the service with the chosen location
     * and notes, and on success the dialog closes. `saved` tells whether the
     * order was written.
     */
    method ProcessOrder(admin: Option<Admin>, now: int, locationsFetched: bool, putOk: bool) returns (saved: bool)
      requires Valid()
      modifies this`alertMessage, this`isUpdating, this`allOrders, this`filteredOrders, this`totalPages, this`currentPage, this`paginatedOrders,
        this`showProcessingModal, this`selectedOrderForProcessing, this`newStatus, this`selectedLocation, this`processingNotes, store, processing
      ensures Valid()
      ensures var step := StepFor(old(selectedOrderForProcessing), old(newStatus));
        (step.Refuse? ==> alertMessage.Some?) &&
        (!step.Write? ==> !saved && isUpdating == old(isUpdating) && selectedOrderForProcessing == old(selectedOrderForProcessing)) &&
        (step.Write? ==> !isUpdating && (saved <==> old(store.GetOrder(step.id)).Some? && putOk))
      ensures saved ==>
        var id := old(selectedOrderForProcessing).value.id.value;
        var written := WithStatus(old(store.GetOrder(id)).value, old(newStatus),
                                  OrderProcessingService.ResolveLocation(old(store.locations), old(selectedLocation), locationsFetched),
                                  old(processingNotes), admin, now);
        store.orders == ReplaceOrder(old(store.orders), id, written) &&
        allOrders == ReplaceOrder(old(allOrders), id, written) && !showProcessingModal
      ensures !saved ==> store.orders == old(store.orders) && allOrders == old(allOrders)
      ensures store.products == old(store.products) && store.notifications == old(store.notifications)
    {
      var step := StepFor(selectedOrderForProcessing, newStatus);
      if step.Skip? {
        return false;
      }
      if step.Refuse? {
        alertMessage := Some(TransitionAlert(selectedOrderForProcessing.value.orderStatus, newStatus));
        return false;
      }
      isUpdating := true;
      saved := SaveStatus(step.id, newStatus, selectedLocation, processingNotes, admin, now, locationsFetched, putOk);
      if saved {
        CloseProcessingModal();
      }
    }

    /** openRemoveModal: notifying the customer is preselected unless the order was delivered. */
    method OpenRemoveModal(order: Order)
      requires Valid()
      modifies this`showRemoveModal, this`selectedOrderForRemoval, this`removalReason, this`sendNotification
      ensures Valid()
      ensures showRemoveModal && selectedOrderForRemoval == Some(order) && removalReason == ""
      ensures sendNotification <==> order.orderStatus != Delivered
    {
      selectedOrderForRemoval := Some(order);
      removalReason := "";
      sendNotification := order.orderStatus != Delivered;
      showRemoveModal := true;
    }

    /** closeRemoveModal. */
    method CloseRemoveModal()
      requires Valid()
      modifies this`showRemoveModal, this`selectedOrderForRemoval, this`removalReason, this`sendNotification
      ensures Valid()
      ensures !showRemoveModal && selectedOrderForRemoval == None && removalReason == "" && sendNotification
    {
      showRemoveModal := false;
      selectedOrderForRemoval := None;
      removalReason := "";
      sendNotification := true;
    }

    /** The table after a removal was written: reloaded and the dialog closed on success; the busy flag drops either way. */
    method AfterRemoval(ok: bool, fetchOk: bool)
      requires Valid()
      modifies this`isLoading, this`isUpdating, this`allOrders, this`filteredOrders, this`totalPages, this`currentPage, this`paginatedOrders,
        this`showRemoveModal, this`selectedOrderForRemoval, this`removalReason, this`sendNotification
      ensures Valid() && !isUpdating
      ensures ok && fetchOk ==> allOrders == AdminListing(store.orders)
      ensures ok ==> !showRemoveModal
      ensures !ok ==> allOrders == old(allOrders)
    {
      if ok {
        LoadOrders(fetchOk);
        CloseRemoveModal();
      }
      isUpdating := false;
    }

    /**
     * removeOrderFromDatabase: return the stock (unless delivered), then write
     * the archived record, whether or not the restock succeeded; on success
     * the table is reloaded and the dialog closes.
     */
    method RemoveOrderFromDatabase(now: int, fetchOk: bool)
      requires Valid()
      requires selectedOrderForRemoval.Some? && selectedOrderForRemoval.value.id.Some?
      modifies this`isLoading, this`isUpdating, this`allOrders, this`filteredOrders, this`totalPages, this`currentPage, this`paginatedOrders,
        this`showRemoveModal, this`selectedOrderForRemoval, this`removalReason, this`sendNotification, store
      ensures Valid() && !isUpdating
      ensures var order := old(selectedOrderForRemoval).value;
        store.products == (if order.orderStatus == Delivered then old(store.products) else Restocked(old(store.products), order.items)) &&
        store.orders == ReplaceOrder(old(store.orders), order.id.value, ArchivedByAdmin(order, old(removalReason), now))
      ensures IndexOfOrder(old(store.orders), old(selectedOrderForRemoval).value.id.value) >= 0 && fetchOk ==>
        allOrders == AdminListing(store.orders) && !showRemoveModal
      ensures store.notifications == old(store.notifications) && store.cart == old(store.cart) && store.users == old(store.users)
    {
      var order := selectedOrderForRemoval.value;
      var ok := ArchiveOrder(store, order, removalReason, now);
      AfterRemoval(ok, fetchOk);
    }

    /**
     * The delivered branch of removeOrder: the order is deleted; on success
     * it leaves the table and the dialog closes.
     */
    method RemoveDelivered(id: string)
      requires Valid()
      modifies this`isUpdating, this`allOrders, this`filteredOrders, this`totalPages, this`currentPage, this`paginatedOrders,
        this`showRemoveModal, this`selectedOrderForRemoval, this`removalReason, this`sendNotification, store
      ensures Valid() && !isUpdating
      ensures store.orders == WithoutIds(old(store.orders), {id})
      ensures IndexOfOrder(old(store.orders), id) >= 0 ==> allOrders == WithoutIds(old(allOrders), {id}) && !showRemoveModal
      ensures IndexOfOrder(old(store.orders), id) < 0 ==> allOrders == old(allOrders)
      ensures store.products == old(store.products) && store.notifications == old(store.notifications)
      ensures store.cart == old(store.cart) && store.users == old(store.users)
    {
      var ok := store.DeleteOrder(id);
      if ok {
        allOrders := WithoutIds(allOrders, {id});
        ApplyFilters();
        CloseRemoveModal();
      }
      isUpdating := false;
    }

    /**
     * removeOrder: a delivered order is deleted outright, without notice or
     * restock; any other order is archived, after the customer notice when
     * one is to be sent (the archive goes ahead even if the notice fails).
     */
    method RemoveOrder(now: nat, postOk: bool, fetchOk: bool)
      requires Valid()
      modifies this`isLoading, this`isUpdating, this`allOrders, this`filteredOrders, this`totalPages, this`currentPage, this`paginatedOrders,
        this`showRemoveModal, this`selectedOrderForRemoval, this`removalReason, this`sendNotification, store
      ensures Valid()
      ensures old(selectedOrderForRemoval).None? || old(selectedOrderForRemoval).value.id.None? ==>
        store.orders == old(store.orders) && store.products == old(store.products) &&
        store.notifications == old(store.notifications) && isUpdating == old(isUpdating)
      ensures old(selectedOrderForRemoval).Some? && old(selectedOrderForRemoval).value.id.Some? ==>
        var order := old(selectedOrderForRemoval).value;
        var id := order.id.value;
        !isUpdating &&
        if order.orderStatus == Delivered then
          store.orders == WithoutIds(old(store.orders), {id}) &&
          store.products == old(store.products) && store.notifications == old(store.notifications)
        else
          store.orders == ReplaceOrder(old(store.orders), id, ArchivedByAdmin(order, old(removalReason), now)) &&
          store.products == Restocked(old(store.products), order.items) &&
          store.notifications == old(store.notifications) +
            (if old(sendNotification) && postOk then [RemovalNotice(order, old(removalReason), now)] else [])
      ensures store.cart == old(store.cart) && store.users == old(store.users)
    {
      if selectedOrderForRemoval.None? || selectedOrderForRemoval.value.id.None? {
        return;
      }
      var order := selectedOrderForRemoval.value;
      var id := order.id.value;
      isUpdating := true;
      if order.orderStatus == Delivered {
        RemoveDelivered(id);
        return;
      }
      if sendNotification && postOk {
        store.PostNotification(RemovalNotice(order, removalReason, now));
      }
      RemoveOrderFromDatabase(now, fetchOk);
    }

    /** getOrderCountByStatus: how many loaded orders have the status. */
    function OrderCountByStatus(status: string): (r: nat)
      reads this
      ensures r == CountStatus(allOrders, status)
      ensures r <= |allOrders|
    {
      CountMatchesQuery(allOrders, status);
      |OrdersByStatus(allOrders, status)|
    }

    /**
     * getTotalOrdersCount: every loaded order, which is the five per-status
     * counts shown beside it plus the orders in no counted status (the
     * confirmed ones among them).
     */
    function TotalOrdersCount(): (r: nat)
      reads this
      ensures r == |allOrders|
      ensures r == OrderCountByStatus(Pending) + OrderCountByStatus(Processing) + OrderCountByStatus(Shipped) +
                   OrderCountByStatus(Delivered) + OrderCountByStatus(Cancelled) + CountUntallied(allOrders)
    {
      StatisticsAccount(allOrders);
      |allOrders|
    }
  }
}
