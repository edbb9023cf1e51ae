/**
 * The customer's order history page: the customer's own orders, newest
 * first, and cancellation by the customer, which rewrites the order as
 * cancelled, returns its stock and notifies the customer and the admins.
 */
module OrderHistory {
  import opened Common
  import opened Model
  import opened DocumentStore
  import Sorting
  import opened Inventory
  import opened OrderListing
  import opened AutoCleanup

  /** The texts of the notices and alerts. */
  const RefundKind: string := "order_refund_notification"
  const RefundTitle: string := "Order Cancelled - Refund Processing"
  const CustomerDeletedKind: string := "order_deleted_by_customer"
  const CustomerDeletedTitle: string := "Order Deleted by Customer"
  const MissingReasonAlert: string := "Please provide a reason for cancellation"
  const ArchiveFailedAlert: string := "Failed to archive order. Please try again."
  const RefundNoticeText: string := "Your order has been cancelled. A refund will be processed within 7 business days."
  const CodNoticeText: string := "Your order has been cancelled. As the payment method was Cash on Delivery, no refund is applicable."

  /** `order.customerInfo` is set and its email, lower-cased and trimmed, is the user's. */
  predicate OwnedBy(o: Order, email: string)
  {
    o.customerInfo.Some? && Trim(Lower(o.customerInfo.value.email)) == Trim(Lower(email))
  }

  predicate ShownToCustomer(o: Order, email: string)
  {
    OwnedBy(o, email) && CustomerVisible(o)
  }

  /** loadOrders: the user's visible orders, newest first. */
  function CustomerListing(orders: seq<Order>, email: string): seq<Order>
  {
    Sorting.SortBy(Filter(orders, (o: Order) => ShownToCustomer(o, email)), Newest)
  }

  /**
   * The history holds exactly the stored orders of this customer that are not
   * hidden from customers, each as often as stored, newest first.
   */
  lemma {:induction false} CustomerListingCorrect(orders: seq<Order>, email: string)
    ensures var r := CustomerListing(orders, email);
      multiset(r) == multiset(Filter(orders, (o: Order) => ShownToCustomer(o, email))) &&
      (forall o :: o in r <==> o in orders && OwnedBy(o, email) && CustomerVisible(o)) &&
      (forall i, j :: 0 <= i < j < |r| ==> r[i].orderDate >= r[j].orderDate)
  {
    var s := Filter(orders, (o: Order) => ShownToCustomer(o, email));
    NewestPreorder();
    Sorting.SortBySorted(s, Newest);
    Sorting.SortByPermutation(s, Newest);
    forall o ensures o in CustomerListing(orders, email) <==> o in s {
      Sorting.SortByMembers(s, Newest, o);
    }
  }

  /** canCancelOrder: only confirmed and processing orders offer the cancel button. */
  function CanCancelOrder(order: Order): (r: bool)
    ensures r <==> order.orderStatus in {Confirmed, Processing}
  {
    order.orderStatus == Confirmed || order.orderStatus == Processing
  }

  /** The reason recorded: the typed text when 'Other' was chosen, otherwise the chosen reason. */
  function FinalReason(chosen: string, custom: string): (r: string)
    ensures chosen == "Other" ==> r == custom
    ensures chosen != "Other" ==> r == chosen
  {
    if chosen == "Other" then custom else chosen
  }

  /** `(paymentMethod?.type || '').toLowerCase() === 'cod'`. */
  predicate IsCod(order: Order)
  {
    Lower(order.paymentMethod.kind) == "cod"
  }

  /**
   * The record a customer's cancellation writes: cancelled by the customer,
   * visible to both sides, everything else as it was. It is not archived and
   * gets no auto-delete date.
   */
  function CancelledRecord(order: Order, reason: string, now: int): (r: Order)
    ensures r.orderStatus == Cancelled && r.cancelledBy == Some("customer")
    ensures r.cancellationReason == Some(reason) && r.cancelledAt == Some(now)
    ensures AdminVisible(r) && CustomerVisible(r)
    ensures r.isArchived == order.isArchived && r.autoDeleteDate == order.autoDeleteDate
    ensures r.id == order.id && r.items == order.items && r.total == order.total
    ensures r.customerInfo == order.customerInfo && r.orderDate == order.orderDate
    // every field but the six stated above is the order's own
    ensures r == order.(orderStatus := r.orderStatus, cancelledAt := r.cancelledAt, cancelledBy := r.cancelledBy,
                        cancellationReason := r.cancellationReason, visibleToAdmin := r.visibleToAdmin,
                        visibleToCustomer := r.visibleToCustomer)
  {
    order.(orderStatus := Cancelled,
           cancelledAt := Some(now),
           cancelledBy := Some("customer"),
           cancellationReason := Some(reason),
           visibleToAdmin := Some(true),
           visibleToCustomer := Some(true))
  }

  /**
   * A customer's cancellation, written over the stored copy of an order that
   * was not archived, leaves the expiry sweep's selection exactly as it was,
   * at every time: the cancelled record is never swept.
   */
  lemma CustomerCancelNeverSwept(orders: seq<Order>, order: Order, reason: string, now: int, t: int)
    requires order.id.Some? && !IsTrue(order.isArchived)
    requires IndexOfOrder(orders, order.id.value) >= 0 ==> orders[IndexOfOrder(orders, order.id.value)] == order
    ensures SelectExpired(ReplaceOrder(orders, order.id.value, CancelledRecord(order, reason, now)), t) ==
            SelectExpired(orders, t)
  {
    var k := IndexOfOrder(orders, order.id.value);
    if k >= 0 {
      var c := CancelledRecord(order, reason, now);
      var before, after := orders[..k], orders[k + 1..];
      assert ReplaceOrder(orders, order.id.value, c) == before + [c] + after;
      assert orders == before + [order] + after;
      SelectExpiredAppend(before + [c], after, t);
      SelectExpiredAppend(before, [c], t);
      SelectExpiredAppend(before + [order], after, t);
      SelectExpiredAppend(before, [order], t);
      assert SelectExpired([c], t) == [] == SelectExpired([order], t);
    }
  }

  /** The refund notice sent to the customer when the order was not cash on delivery. */
  function RefundNotice(order: Order, reason: string, now: nat): (r: Notification)
    ensures r.audience == ForCustomer && !r.read && r.kind == RefundKind
    ensures r.amount == order.total && r.reason == reason && r.orderNumber == order.orderNumber
    ensures r.id == NatToString(now) && r.createdAt == now
  {
    var email := if order.customerInfo.Some? then order.customerInfo.value.email else "";
    var name := if order.customerInfo.Some? then order.customerInfo.value.fullName else "";
    Notification(NatToString(now), order.orderNumber, email, name, RefundKind,
                 RefundTitle, reason, order.total, now, false, ForCustomer)
  }

  /** The notice sent to the admins about every customer cancellation. */
  function CancelNotice(order: Order, reason: string, now: nat): (r: Notification)
    ensures r.audience == ForAdmin && !r.read && r.kind == CustomerDeletedKind
    ensures r.amount == order.total && r.reason == reason && r.orderNumber == order.orderNumber
    ensures r.id == NatToString(now) && r.createdAt == now
  {
    var email := if order.customerInfo.Some? then order.customerInfo.value.email else "";
    var name := if order.customerInfo.Some? then order.customerInfo.value.fullName else "";
    Notification(NatToString(now), order.orderNumber, email, name, CustomerDeletedKind,
                 CustomerDeletedTitle, reason, order.total, now, false, ForAdmin)
  }

  /** The notices one cancellation posts, in the order they are sent. */
  function CancellationNotices(order: Order, reason: string, now: nat, refundPostOk: bool, adminPostOk: bool): (r: seq<Notification>)
    ensures |r| <= 2
    ensures (exists n :: n in r && n.audience == ForCustomer) <==> !IsCod(order) && refundPostOk
    ensures (exists n :: n in r && n.audience == ForAdmin) <==> adminPostOk
  {
    var refund := if !IsCod(order) && refundPostOk then [RefundNotice(order, reason, now)] else [];
    var admin := if adminPostOk then [CancelNotice(order, reason, now)] else [];
    assert forall n :: n in refund + admin <==> n in refund || n in admin;
    refund + admin
  }

  /** getStatusText: 'Unknown' for an empty status, otherwise the status with its first letter upper-cased. */
  function StatusText(status: string): (r: string)
    ensures status == "" ==> r == "Unknown"
    ensures status != "" ==> |r| == |status| && r[0] == UpperChar(status[0]) && r[1..] == status[1..]
  {
    if status == "" then "Unknown" else [UpperChar(status[0])] + status[1..]
  }

  /** Capitalising twice changes nothing more. */
  lemma StatusTextIdempotent(status: string)
    requires status != ""
    ensures StatusText(StatusText(status)) == StatusText(status)
  {
    var r := StatusText(status);
    assert UpperChar(UpperChar(status[0])) == UpperChar(status[0]);
    assert r[1..] == status[1..];
  }

  /**
   * The store side of a customer cancellation: write the cancelled record;
   * only if that succeeds, return the stock and post the notices.
   */
  method CancelInStore(store: Store, order: Order, reason: string, now: nat, refundPostOk: bool, adminPostOk: bool)
    returns (ok: bool)
    requires order.id.Some?
    modifies store
    ensures ok <==> IndexOfOrder(old(store.orders), order.id.value) >= 0
    ensures store.orders == ReplaceOrder(old(store.orders), order.id.value, CancelledRecord(order, reason, now))
    ensures ok ==> store.products == Restocked(old(store.products), order.items) &&
                   store.notifications == old(store.notifications) + CancellationNotices(order, reason, now, refundPostOk, adminPostOk)
    ensures !ok ==> store.products == old(store.products) && store.notifications == old(store.notifications)
    ensures store.cart == old(store.cart) && store.users == old(store.users)
    ensures store.admins == old(store.admins) && store.locations == old(store.locations)
  {
    var updated := CancelledRecord(order, reason, now);
    ok := store.PutOrder(order.id.value, updated);
    if !ok {
      return;
    }
    var restocked := RestockOrderItems(store, updated);
    if !IsCod(order) && refundPostOk {
      store.PostNotification(RefundNotice(order, reason, now));
    }
    if adminPostOk {
      store.PostNotification(CancelNotice(order, reason, now));
    }
  }

  /** The notice after a cancellation: a refund is promised unless the order was cash on delivery. */
  function CancelledMessage(order: Order): (r: string)
    ensures IsCod(order) ==> r == CodNoticeText
    ensures !IsCod(order) ==> r == RefundNoticeText
  {
    if !IsCod(order) then RefundNoticeText else CodNoticeText
  }

  class OrderHistoryPage {
    const store: Store
    const storage: BrowserStorage

    var orders: seq<Order>
    var isLoading: bool
    var error: string
    var showCancelModal: bool
    var selectedOrderForCancellation: Option<Order>
    var cancellationReason: string
    var customReason: string
    var alertMessage: Option<string>
    var navigatedTo: Option<string>

    constructor (store: Store, storage: BrowserStorage)
      ensures this.store == store && this.storage == storage
      ensures orders == [] && isLoading && error == "" && !showCancelModal && selectedOrderForCancellation == None
    {
      this.store := store;
      this.storage := storage;
      orders := [];
      isLoading := true;
      error := "";
      showCancelModal := false;
      selectedOrderForCancellation := None;
      cancellationReason := "";
      customReason := "";
      alertMessage := None;
      navigatedTo := None;
    }

    /**
     * loadOrders: with no stored userId the page goes to the login page; an
     * unknown user is an error and loads nothing; otherwise the user's
     * orders are listed, newest first.
     */
    method LoadOrders(usersFetched: bool, ordersFetched: bool)
      modifies this`orders, this`isLoading, this`error, this`navigatedTo
      ensures !("userId" in storage.items && storage.items["userId"].Text? && storage.items["userId"].text != "") ==>
        navigatedTo == Some("/login") && orders == old(orders) && isLoading && error == old(error)
      ensures "userId" in storage.items && storage.items["userId"].Text? && storage.items["userId"].text != "" ==>
        var userId := storage.items["userId"].text;
        !isLoading && navigatedTo == old(navigatedTo) &&
        if !usersFetched then error == "Failed to load order history" && orders == old(orders)
        else if forall u :: u in store.users ==> u.userId != userId then error == "User not found" && orders == old(orders)
        else if !ordersFetched then error == "Failed to load order history" && orders == old(orders)
        else (error == old(error) &&
              exists i :: (0 <= i < |store.users| && store.users[i].userId == userId &&
                           (forall k :: 0 <= k < i ==> store.users[k].userId != userId) &&
                           orders == CustomerListing(store.orders, store.users[i].email)))
      ensures showCancelModal == old(showCancelModal) && selectedOrderForCancellation == old(selectedOrderForCancellation)
      ensures alertMessage == old(alertMessage) && cancellationReason == old(cancellationReason) && customReason == old(customReason)
    {
      isLoading := true;
      if !("userId" in storage.items && storage.items["userId"].Text? && storage.items["userId"].text != "") {
        navigatedTo := Some("/login");
        return;
      }
      var userId := storage.items["userId"].text;
      if !usersFetched {
        error := "Failed to load order history";
        isLoading := false;
        return;
      }
      var users := store.users;
      var i := 0;
      while i < |users| && users[i].userId != userId
        invariant 0 <= i <= |users|
        invariant forall k :: 0 <= k < i ==> users[k].userId != userId
      {
        i := i + 1;
      }
      if i == |users| {
        error := "User not found";
        isLoading := false;
        return;
      }
      if !ordersFetched {
        error := "Failed to load order history";
        isLoading := false;
        return;
      }
      orders := CustomerListing(store.orders, users[i].email);
      isLoading := false;
    }

    /** openCancelModal. */
    method OpenCancelModal(order: Order)
      modifies this`showCancelModal, this`selectedOrderForCancellation, this`cancellationReason, this`customReason
      ensures showCancelModal && selectedOrderForCancellation == Some(order)
      ensures cancellationReason == "" && customReason == ""
    {
      selectedOrderForCancellation := Some(order);
      cancellationReason := "";
      customReason := "";
      showCancelModal := true;
    }

    /** closeCancelModal. */
    method CloseCancelModal()
      modifies this`showCancelModal, this`selectedOrderForCancellation, this`cancellationReason, this`customReason
      ensures !showCancelModal && selectedOrderForCancellation == None
      ensures cancellationReason == "" && customReason == ""
    {
      showCancelModal := false;
      selectedOrderForCancellation := None;
      cancellationReason := "";
      customReason := "";
    }

    /** The order the dialog would cancel, with the final reason: none without an order id or a reason. */
    function CancelRequest(): (r: Option<(Order, string)>)
      reads this`selectedOrderForCancellation, this`cancellationReason, this`customReason
      ensures r.Some? <==> selectedOrderForCancellation.Some? && selectedOrderForCancellation.value.id.Some? &&
                           FinalReason(cancellationReason, customReason) != ""
      ensures r.Some? ==> r.value.0 == selectedOrderForCancellation.value && r.value.0.id.Some? &&
                          r.value.1 == FinalReason(cancellationReason, customReason)
    {
      if selectedOrderForCancellation.None? || selectedOrderForCancellation.value.id.None? then None
      else
        var reason := FinalReason(cancellationReason, customReason);
        if reason == "" then None else Some((selectedOrderForCancellation.value, reason))
    }

    /**
     * cancelOrder: an empty reason aborts with nothing written. Otherwise the
     * cancelled record is written; only when that write succeeds is the stock
     * returned, the refund notice sent (not for cash on delivery), the admin
     * notice sent, and the list updated and re-sorted. The cancel button's
     * status check is not repeated here.
     */
    method CancelOrder(now: nat, refundPostOk: bool, adminPostOk: bool)
      modifies this`alertMessage, this`orders, this`showCancelModal, this`selectedOrderForCancellation,
        this`cancellationReason, this`customReason, store
      ensures old(CancelRequest()).None? ==>
        store.orders == old(store.orders) && store.products == old(store.products) &&
        store.notifications == old(store.notifications) && orders == old(orders)
      ensures old(CancelRequest()).Some? ==>
        var (order, reason) := old(CancelRequest()).value;
        store.orders == ReplaceOrder(old(store.orders), order.id.value, CancelledRecord(order, reason, now))
      ensures old(CancelRequest()).Some? && IndexOfOrder(old(store.orders), old(CancelRequest()).value.0.id.value) >= 0 ==>
        var (order, reason) := old(CancelRequest()).value;
        store.products == Restocked(old(store.products), order.items) &&
        store.notifications == old(store.notifications) + CancellationNotices(order, reason, now, refundPostOk, adminPostOk) &&
        orders == CancelledLast(ReplaceOrder(old(orders), order.id.value, CancelledRecord(order, reason, now))) &&
        !showCancelModal
      ensures old(CancelRequest()).Some? && IndexOfOrder(old(store.orders), old(CancelRequest()).value.0.id.value) < 0 ==>
        store.products == old(store.products) && store.notifications == old(store.notifications) && orders == old(orders)
      ensures store.cart == old(store.cart) && store.users == old(store.users)
    {
      var request := CancelRequest();
      if request.None? {
        if selectedOrderForCancellation.Some? && selectedOrderForCancellation.value.id.Some? {
          alertMessage := Some(MissingReasonAlert);
        }
        return;
      }
      var (order, reason) := request.value;
      var id := order.id.value;
      var ok := CancelInStore(store, order, reason, now, refundPostOk, adminPostOk);
      if !ok {
        alertMessage := Some(ArchiveFailedAlert);
        return;
      }
      ShowCancelled(order, reason, now);
    }

    /** What the page does once the cancelled record is written: the notice, the replaced and re-sorted list, the dialog closed. */
    method ShowCancelled(order: Order, reason: string, now: nat)
      requires order.id.Some?
      modifies this`alertMessage, this`orders, this`showCancelModal, this`selectedOrderForCancellation,
        this`cancellationReason, this`customReason
      ensures alertMessage == Some(CancelledMessage(order))
      ensures orders == CancelledLast(ReplaceOrder(old(orders), order.id.value, CancelledRecord(order, reason, now)))
      ensures !showCancelModal && selectedOrderForCancellation == None
    {
      alertMessage := Some(CancelledMessage(order));
      orders := ReplaceOrder(orders, order.id.value, CancelledRecord(order, reason, now));
      CloseCancelModal();
      orders := CancelledLast(orders);
    }
  }

  /**
   * After a cancellation the list keeps the same orders (one replaced by its
   * cancelled record), with the cancelled ones at the bottom and newest first
   * within each group.
   */
  lemma {:induction false} ResortedAfterCancel(orders: seq<Order>, id: string, updated: Order)
    ensures var r := CancelledLast(ReplaceOrder(orders, id, updated));
      |r| == |orders| && ArrangedForAdmin(r) &&
      multiset(r) == multiset(ReplaceOrder(orders, id, updated))
  {
    CancelledLastArranged(ReplaceOrder(orders, id, updated));
  }
}
