/**
 * The admin's order processing service: status updates that append a
 * tracking entry, processing notes, and the read-only queries over the order
 * list (by status, needing attention, statistics).
 */
module OrderProcessing {
  import opened Common
  import opened Model
  import opened DocumentStore

  /** The tracking history of an order, `order.trackingHistory || []`. */
  function History(o: Order): seq<OrderTracking>
  {
    if o.trackingHistory.Some? then o.trackingHistory.value else []
  }

  /** `currentAdmin?.name || 'System'`. */
  function ActorName(admin: Option<Admin>): (r: string)
    ensures r != ""
    ensures admin.Some? && admin.value.name != "" ==> r == admin.value.name
    ensures admin.None? || admin.value.name == "" ==> r == "System"
  {
    if admin.Some? && admin.value.name != "" then admin.value.name else "System"
  }

  /** The location with the given id, the first one if several share it. */
  function FindLocation(locations: seq<ProcessingLocation>, id: string): (r: Option<ProcessingLocation>)
    ensures r.Some? ==> r.value in locations && r.value.id == id
    ensures r.None? <==> forall l :: l in locations ==> l.id != id
    ensures r.Some? ==> exists k :: 0 <= k < |locations| && locations[k] == r.value &&
                                  forall j :: 0 <= j < k ==> locations[j].id != id
  {
    if locations == [] then None
    else if locations[0].id == id then Some(locations[0])
    else
      var r := FindLocation(locations[1..], id);
      assert forall l :: l in locations[1..] ==> l in locations;
      if r.Some? then
        var k :| 0 <= k < |locations[1..]| && locations[1..][k] == r.value &&
                forall j :: 0 <= j < k ==> locations[1..][j].id != id;
        assert locations[k + 1] == r.value;
        r
      else r
  }

  /** The six statuses the description table knows. */
  predicate KnownStatus(s: string)
  {
    s == Pending || s == Confirmed || s == Processing || s == Shipped || s == Delivered || s == Cancelled
  }

  /** The texts of the tracking entries. */
  const PendingText: string := "Order received and pending confirmation"
  const ConfirmedText: string := "Order confirmed and payment verified"
  const ProcessingAtText: string := "Order is being processed at "
  const ProcessingText: string := "Order is being processed"
  const ShippedFromText: string := "Order shipped from "
  const ShippedText: string := "Order has been shipped"
  const DeliveredText: string := "Order has been delivered to customer"
  const CancelledText: string := "Order has been cancelled"
  const UpdatedText: string := "Status updated"

  /** getStatusDescription: the text of a tracking entry. */
  function StatusDescription(status: string, location: Option<ProcessingLocation>): (r: string)
    ensures r == UpdatedText <==> !KnownStatus(status)
    ensures status == Processing && location.Some? ==> r == ProcessingAtText + location.value.name
    ensures status == Shipped && location.Some? ==> r == ShippedFromText + location.value.name
  {
    if status == Pending then PendingText
    else if status == Confirmed then ConfirmedText
    else if status == Processing then
      (if location.Some? then ProcessingAtText + location.value.name else ProcessingText)
    else if status == Shipped then
      (if location.Some? then ShippedFromText + location.value.name else ShippedText)
    else if status == Delivered then DeliveredText
    else if status == Cancelled then CancelledText
    else UpdatedText
  }

  /** The fields a status update or a note leaves alone: the order as the customer placed it, and its cancellation and archive records. */
  predicate SameOrderRecord(a: Order, b: Order)
  {
    a.id == b.id && a.orderNumber == b.orderNumber && a.customerInfo == b.customerInfo &&
    a.shippingAddress == b.shippingAddress && a.items == b.items && a.subtotal == b.subtotal &&
    a.tax == b.tax && a.shipping == b.shipping && a.total == b.total && a.paymentMethod == b.paymentMethod &&
    a.paymentStatus == b.paymentStatus && a.orderDate == b.orderDate && a.estimatedDelivery == b.estimatedDelivery &&
    a.cancellationReason == b.cancellationReason && a.cancelledAt == b.cancelledAt && a.cancelledBy == b.cancelledBy &&
    a.visibleToAdmin == b.visibleToAdmin && a.visibleToCustomer == b.visibleToCustomer &&
    a.isArchived == b.isArchived && a.archivedAt == b.archivedAt && a.archivedReason == b.archivedReason &&
    a.archivedBy == b.archivedBy && a.autoDeleteDate == b.autoDeleteDate
  }

  /**
   * updateOrderWithLocation: the order moved to `newStatus`, with one tracking
   * entry appended that records the move.
   */
  function WithStatus(order: Order, newStatus: string, location: Option<ProcessingLocation>,
                      notes: string, admin: Option<Admin>, timestamp: int): (r: Order)
    ensures r.orderStatus == newStatus
    ensures SameOrderRecord(r, order)
    ensures |History(r)| == |History(order)| + 1 && History(order) <= History(r)
    ensures var e := History(r)[|History(order)|];
      e.status == newStatus && e.timestamp == timestamp && Some(e.updatedBy) == r.updatedBy &&
      e.description == StatusDescription(newStatus, location) &&
      e.location == (if location.Some? then Some(location.value.name + ", " + location.value.city) else None)
    ensures r.currentLocation == location
    ensures r.processingNotes == if notes != "" then Some(notes) else order.processingNotes
    ensures r.lastUpdated == Some(timestamp) && r.updatedBy == Some(ActorName(admin))
  {
    var entry := OrderTracking(
      newStatus,
      if location.Some? then Some(location.value.name + ", " + location.value.city) else None,
      StatusDescription(newStatus, location),
      timestamp,
      ActorName(admin));
    order.(orderStatus := newStatus,
           currentLocation := location,
           processingNotes := if notes != "" then Some(notes) else order.processingNotes,
           lastUpdated := Some(timestamp),
           updatedBy := Some(ActorName(admin)),
           trackingHistory := Some(History(order) + [entry]))
  }

  /** One status move as the admin requests it. */
  datatype StatusUpdate = StatusUpdate(status: string, location: Option<ProcessingLocation>, notes: string, admin: Option<Admin>, timestamp: int)

  function ApplyUpdates(order: Order, updates: seq<StatusUpdate>): Order
  {
    if updates == [] then order
    else
      var u := updates[|updates| - 1];
      WithStatus(ApplyUpdates(order, updates[..|updates| - 1]), u.status, u.location, u.notes, u.admin, u.timestamp)
  }

  /**
   * Tracking history is append-only: after any run of status updates the old
   * history is a prefix of the new one, there is one new entry per update, in
   * order, and the order as placed is untouched.
   */
  lemma {:induction false} HistoryAppendOnly(order: Order, updates: seq<StatusUpdate>)
    ensures var r := ApplyUpdates(order, updates);
      History(order) <= History(r) &&
      |History(r)| == |History(order)| + |updates| &&
      SameOrderRecord(r, order) &&
      forall k :: 0 <= k < |updates| ==> History(r)[|History(order)| + k].status == updates[k].status
  {
    if updates != [] {
      var init := updates[..|updates| - 1];
      HistoryAppendOnly(order, init);
      var mid := ApplyUpdates(order, init);
      var u := updates[|updates| - 1];
      var r := WithStatus(mid, u.status, u.location, u.notes, u.admin, u.timestamp);
      assert History(mid) <= History(r);
      forall k | 0 <= k < |updates|
        ensures History(r)[|History(order)| + k].status == updates[k].status
      {
        if k < |init| {
          assert init[k] == updates[k];
          assert History(r)[|History(order)| + k] == History(mid)[|History(order)| + k];
        }
      }
    }
  }

  /** addProcessingNotes: the notes, the time and the actor change, nothing else. */
  function WithNotes(order: Order, notes: string, admin: Option<Admin>, timestamp: int): (r: Order)
    ensures SameOrderRecord(r, order)
    ensures r.orderStatus == order.orderStatus && History(r) == History(order) && r.currentLocation == order.currentLocation
    ensures r.processingNotes == Some(notes) && r.lastUpdated == Some(timestamp) && r.updatedBy == Some(ActorName(admin))
  {
    order.(processingNotes := Some(notes), lastUpdated := Some(timestamp), updatedBy := Some(ActorName(admin)))
  }

  /** getOrdersByStatus. */
  function OrdersByStatus(orders: seq<Order>, status: string): (r: seq<Order>)
    ensures forall o :: o in r <==> o in orders && o.orderStatus == status
  {
    Filter(orders, (o: Order) => o.orderStatus == status)
  }

  predicate NeedsAttention(o: Order)
  {
    o.orderStatus == Pending || o.orderStatus == Processing
  }

  /** getOrdersNeedingAttention: the pending and processing orders. */
  function OrdersNeedingAttention(orders: seq<Order>): (r: seq<Order>)
    ensures forall o :: o in r <==> o in orders && (o.orderStatus == Pending || o.orderStatus == Processing)
  {
    Filter(orders, NeedsAttention)
  }

  /** The number of orders with a status. */
  function CountStatus(orders: seq<Order>, status: string): nat
  {
    if orders == [] then 0
    else CountStatus(orders[..|orders| - 1], status) + (if orders[|orders| - 1].orderStatus == status then 1 else 0)
  }

  predicate Tallied(s: string)
  {
    s == Pending || s == Processing || s == Shipped || s == Delivered || s == Cancelled
  }

  /** The number of orders whose status the statistics have no counter for. */
  function CountUntallied(orders: seq<Order>): nat
  {
    if orders == [] then 0
    else CountUntallied(orders[..|orders| - 1]) + (if Tallied(orders[|orders| - 1].orderStatus) then 0 else 1)
  }

  datatype Statistics = Statistics(total: nat, pending: nat, processing: nat, shipped: nat, delivered: nat, cancelled: nat)

  /** getOrderStatistics: one pass over the orders, one counter per tallied status. */
  method OrderStatistics(orders: seq<Order>) returns (stats: Statistics)
    ensures stats.total == |orders|
    ensures stats.pending == CountStatus(orders, Pending) && stats.processing == CountStatus(orders, Processing)
    ensures stats.shipped == CountStatus(orders, Shipped) && stats.delivered == CountStatus(orders, Delivered)
    ensures stats.cancelled == CountStatus(orders, Cancelled)
  {
    stats := Statistics(|orders|, 0, 0, 0, 0, 0);
    var i := 0;
    while i < |orders|
      invariant 0 <= i <= |orders|
      invariant stats.total == |orders|
      invariant stats.pending == CountStatus(orders[..i], Pending) && stats.processing == CountStatus(orders[..i], Processing)
      invariant stats.shipped == CountStatus(orders[..i], Shipped) && stats.delivered == CountStatus(orders[..i], Delivered)
      invariant stats.cancelled == CountStatus(orders[..i], Cancelled)
    {
      assert orders[..i + 1][..i] == orders[..i];
      var s := orders[i].orderStatus;
      if s == Pending {
        stats := stats.(pending := stats.pending + 1);
      } else if s == Processing {
        stats := stats.(processing := stats.processing + 1);
      } else if s == Shipped {
        stats := stats.(shipped := stats.shipped + 1);
      } else if s == Delivered {
        stats := stats.(delivered := stats.delivered + 1);
      } else if s == Cancelled {
        stats := stats.(cancelled := stats.cancelled + 1);
      }
      i := i + 1;
    }
    assert orders[..i] == orders;
  }

  /**
   * The five counters and the untallied orders account for every order; in
   * particular every confirmed order is left out of the counters.
   */
  lemma {:induction false} StatisticsAccount(orders: seq<Order>)
    ensures CountStatus(orders, Pending) + CountStatus(orders, Processing) + CountStatus(orders, Shipped) +
            CountStatus(orders, Delivered) + CountStatus(orders, Cancelled) + CountUntallied(orders) == |orders|
    ensures CountUntallied(orders) >= CountStatus(orders, Confirmed)
  {
    if orders != [] {
      StatisticsAccount(orders[..|orders| - 1]);
    }
  }

  /** Counting agrees with the by-status query. */
  lemma {:induction false} CountMatchesQuery(orders: seq<Order>, status: string)
    ensures CountStatus(orders, status) == |OrdersByStatus(orders, status)|
  {
    if orders != [] {
      var init := orders[..|orders| - 1];
      var last := orders[|orders| - 1];
      CountMatchesQuery(init, status);
      assert orders == init + [last];
      FilterAppend(init, [last], (o: Order) => o.orderStatus == status);
    }
  }

  /** The service: the shared store, and the last order it saved (orderUpdate$). */
  class OrderProcessingService {
    const store: Store
    var lastUpdate: Option<Order>

    constructor (store: Store)
      ensures this.store == store && lastUpdate == None
    {
      this.store := store;
      lastUpdate := None;
    }

    /** The location a status update records: none without an id, on a failed fetch or for an unknown id. */
    static function ResolveLocation(locations: seq<ProcessingLocation>, locationId: string, fetched: bool): (r: Option<ProcessingLocation>)
      ensures locationId == "" || !fetched ==> r == None
      ensures r.Some? ==> r.value in locations && r.value.id == locationId
    {
      if locationId == "" || !fetched then None else FindLocation(locations, locationId)
    }

    /**
     * updateOrderStatus: fetch the order, resolve the location, append the
     * tracking entry and save. No transition is checked here. A failed fetch
     * or save leaves the store unchanged.
     */
    method UpdateOrderStatus(orderId: string, newStatus: string, locationId: string, notes: string,
                             admin: Option<Admin>, now: int, locationsFetched: bool, putOk: bool)
      returns (r: Result<Order>)
      modifies this, store
      ensures old(store.GetOrder(orderId)).None? ==> r.Err? && store.orders == old(store.orders)
      ensures old(store.GetOrder(orderId)).Some? ==>
        var updated := WithStatus(old(store.GetOrder(orderId)).value, newStatus,
                                  ResolveLocation(old(store.locations), locationId, locationsFetched), notes, admin, now);
        if putOk then r == Ok(updated) && store.orders == ReplaceOrder(old(store.orders), orderId, updated) && lastUpdate == Some(updated)
        else r.Err? && store.orders == old(store.orders) && lastUpdate == old(lastUpdate)
      ensures store.products == old(store.products) && store.cart == old(store.cart) && store.users == old(store.users)
      ensures store.admins == old(store.admins) && store.notifications == old(store.notifications)
      ensures store.locations == old(store.locations)
    {
      var found := store.GetOrder(orderId);
      if found.None? {
        return Err("Http failure response for /orders/" + orderId + ": 404 Not Found");
      }
      var order := found.value;
      var location := ResolveLocation(store.locations, locationId, locationsFetched);
      var updated := WithStatus(order, newStatus, location, notes, admin, now);
      if !putOk {
        return Err("Http failure response for /orders/" + orderId);
      }
      var ok := store.PutOrder(orderId, updated);
      lastUpdate := Some(updated);
      r := Ok(updated);
    }

    /** getOrderTracking: the stored history, empty when the order has none. */
    function GetOrderTracking(orderId: string): (r: Result<seq<OrderTracking>>)
      reads store
      ensures r.Ok? <==> store.GetOrder(orderId).Some?
      ensures r.Ok? ==> r.value == History(store.GetOrder(orderId).value)
    {
      var found := store.GetOrder(orderId);
      if found.None? then Err("Http failure response for /orders/" + orderId + ": 404 Not Found")
      else Ok(History(found.value))
    }

    /** addProcessingNotes: like a status update, but only the notes, time and actor change. */
    method AddProcessingNotes(orderId: string, notes: string, admin: Option<Admin>, now: int, putOk: bool)
      returns (r: Result<Order>)
      modifies this, store
      ensures old(store.GetOrder(orderId)).None? ==> r.Err? && store.orders == old(store.orders)
      ensures old(store.GetOrder(orderId)).Some? ==>
        var updated := WithNotes(old(store.GetOrder(orderId)).value, notes, admin, now);
        if putOk then r == Ok(updated) && store.orders == ReplaceOrder(old(store.orders), orderId, updated) && lastUpdate == Some(updated)
        else r.Err? && store.orders == old(store.orders) && lastUpdate == old(lastUpdate)
      ensures store.products == old(store.products) && store.cart == old(store.cart) && store.users == old(store.users)
      ensures store.admins == old(store.admins) && store.notifications == old(store.notifications)
      ensures store.locations == old(store.locations)
    {
      var found := store.GetOrder(orderId);
      if found.None? {
        return Err("Http failure response for /orders/" + orderId + ": 404 Not Found");
      }
      var updated := WithNotes(found.value, notes, admin, now);
      if !putOk {
        return Err("Http failure response for /orders/" + orderId);
      }
      var ok := store.PutOrder(orderId, updated);
      lastUpdate := Some(updated);
      r := Ok(updated);
    }
  }
}
