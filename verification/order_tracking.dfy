/**
 * The order tracking page: the order named in the route is looked up among
 * all orders and its four progress steps (confirmed, processing, shipped,
 * delivered) are marked from the order's status.
 */
module OrderTracking {
  import opened Common
  import opened Model

  /** A progress step; `id` is the status it stands for. */
  datatype Step = Step(id: string, title: string, description: string, completed: bool)

  const StepIds: seq<string> := [Confirmed, Processing, Shipped, Delivered]

  /** The position of a status on the way to delivery; any other status, cancelled included, counts as 0. */
  function StatusIndex(status: string): (r: nat)
    ensures r <= 4
    ensures r == 0 <==> status !in {Confirmed, Processing, Shipped, Delivered}
    ensures r == 4 <==> status == Delivered
  {
    if status == Confirmed then 1
    else if status == Processing then 2
    else if status == Shipped then 3
    else if status == Delivered then 4
    else 0
  }

  /** The order the page shows: the first whose order number is the route's. */
  function FindByNumber(orders: seq<Order>, orderNumber: string): (r: Option<Order>)
    ensures r.Some? ==> r.value in orders && r.value.orderNumber == Some(orderNumber)
    ensures r.None? <==> forall o :: o in orders ==> o.orderNumber != Some(orderNumber)
  {
    if orders == [] then None
    else if orders[0].orderNumber == Some(orderNumber) then Some(orders[0])
    else
      assert forall o :: o in orders ==> o == orders[0] || o in orders[1..];
      FindByNumber(orders[1..], orderNumber)
  }

  /** FindByNumber takes the first match: no earlier order has that number. */
  lemma {:induction false} FindByNumberFirst(orders: seq<Order>, orderNumber: string, k: nat)
    requires k < |orders| && orders[k].orderNumber == Some(orderNumber)
    ensures FindByNumber(orders, orderNumber).Some?
    ensures (forall j :: 0 <= j < k ==> orders[j].orderNumber != Some(orderNumber)) ==> FindByNumber(orders, orderNumber) == Some(orders[k])
  {
    if k > 0 && orders[0].orderNumber != Some(orderNumber) {
      FindByNumberFirst(orders[1..], orderNumber, k - 1);
    }
  }

  /** formatPrice: '$0.00' for a missing, NaN or zero price, else the price with two decimals. */
  function FormatPrice(price: Option<real>, toFixed2: real -> string): (r: string)
    ensures price.None? || price.value == 0.0 ==> r == "$0.00"
    ensures price.Some? && price.value != 0.0 ==> r == "$" + toFixed2(price.value)
  {
    if price.None? || price.value == 0.0 then "$0.00" else "$" + toFixed2(price.value)
  }

  /** getStatusColor: the badge colour of each of the six statuses, 'secondary' for anything else. */
  function StatusColor(status: string): (r: string)
    ensures r == "secondary" <==> status !in {Pending, Confirmed, Processing, Shipped, Delivered, Cancelled}
    ensures r == "success" <==> status == Shipped || status == Delivered
    ensures r == "danger" <==> status == Cancelled
  {
    if status == Pending then "warning"
    else if status == Confirmed then "info"
    else if status == Processing then "primary"
    else if status == Shipped || status == Delivered then "success"
    else if status == Cancelled then "danger"
    else "secondary"
  }

  /**
   * What the steps would show if each were marked by its own status: a step
   * is done exactly when the order has reached the status it stands for.
   */
  function ReachedSteps(status: string): (r: seq<bool>)
    ensures |r| == 4
    ensures forall i :: 0 <= i < 4 ==> (r[i] <==> StatusIndex(status) >= StatusIndex(StepIds[i]))
  {
    seq(4, i requires 0 <= i < 4 => i + 1 <= StatusIndex(status))
  }

  /** With the steps marked by their own status, the delivered step is done only for a delivered order. */
  lemma ReachedStepsDelivered(status: string)
    ensures ReachedSteps(status)[3] <==> status == Delivered
    ensures ReachedSteps(status)[0] <==> status in {Confirmed, Processing, Shipped, Delivered}
  {
  }

  class OrderTrackingPage {
    var order: Option<Order>
    var orderNumber: string
    var isLoading: bool
    var error: string
    const trackingSteps: array<Step>

    constructor ()
      ensures order == None && orderNumber == "" && isLoading && error == ""
      ensures trackingSteps.Length == 4 && fresh(trackingSteps)
      ensures forall i :: 0 <= i < 4 ==> trackingSteps[i].id == StepIds[i] && !trackingSteps[i].completed
    {
      order := None;
      orderNumber := "";
      isLoading := true;
      error := "";
      trackingSteps := new Step[4] [
        Step(Confirmed, "Order Confirmed", "We have received your order", false),
        Step(Processing, "Processing", "Your order is being prepared", false),
        Step(Shipped, "Shipped", "Your order is on its way", false),
        Step(Delivered, "Delivered", "Your order has been delivered", false)];
    }

    /**
     * updateTrackingSteps: step i is marked done exactly when i is at most
     * the status index. The steps are numbered from 0 while the index of
     * 'confirmed' is 1, so each status also marks the step after its own.
     */
    method UpdateTrackingSteps()
      modifies trackingSteps
      ensures order.None? ==> trackingSteps[..] == old(trackingSteps[..])
      ensures order.Some? ==> forall i :: 0 <= i < trackingSteps.Length ==>
        trackingSteps[i] == old(trackingSteps[i]).(completed := i <= StatusIndex(order.value.orderStatus))
    {
      if order.None? {
        return;
      }
      var index := StatusIndex(order.value.orderStatus);
      var i := 0;
      while i < trackingSteps.Length
        invariant 0 <= i <= trackingSteps.Length
        invariant forall k :: 0 <= k < i ==> trackingSteps[k] == old(trackingSteps[k]).(completed := k <= index)
        invariant forall k :: i <= k < trackingSteps.Length ==> trackingSteps[k] == old(trackingSteps[k])
      {
        trackingSteps[i] := trackingSteps[i].(completed := i <= index);
        i := i + 1;
      }
    }

    /**
     * The route parameter arrives: without an order number the page reports
     * it and loads nothing; otherwise all orders are fetched and the first
     * with that number is shown, or an error says why there is none.
     */
    method OnRoute(param: string, fetched: Option<seq<Order>>)
      modifies this, trackingSteps
      ensures orderNumber == param && !isLoading
      ensures param == "" ==> error == "No order number provided" && order == old(order) && trackingSteps[..] == old(trackingSteps[..])
      ensures param != "" && fetched.None? ==> error == "Failed to load order information" && order == old(order)
      ensures param != "" && fetched.Some? ==>
        order == FindByNumber(fetched.value, param) && (order.None? ==> error == "Order not found")
      ensures param != "" && fetched.Some? && order.Some? ==> error == old(error) && forall i :: 0 <= i < trackingSteps.Length ==>
        trackingSteps[i] == old(trackingSteps[i]).(completed := i <= StatusIndex(order.value.orderStatus))
      ensures fetched.None? || order.None? ==> trackingSteps[..] == old(trackingSteps[..])
    {
      orderNumber := param;
      if param == "" {
        error := "No order number provided";
        isLoading := false;
        return;
      }
      isLoading := true;
      if fetched.None? {
        error := "Failed to load order information";
      } else {
        order := FindByNumber(fetched.value, param);
        if order.Some? {
          UpdateTrackingSteps();
        } else {
          error := "Order not found";
        }
      }
      isLoading := false;
    }
  }

  /** The steps marked by updateTrackingSteps, as a list of flags. */
  function ShownSteps(status: string): (r: seq<bool>)
    ensures |r| == 4
  {
    seq(4, i requires 0 <= i < 4 => i <= StatusIndex(status))
  }

  /** The marked steps are always a prefix of the four, one longer than the status index (at most all four). */
  lemma ShownStepsPrefix(status: string)
    ensures forall i :: 0 <= i < 4 ==> (ShownSteps(status)[i] <==> i < Min(StatusIndex(status) + 1, 4))
    ensures ShownSteps(status)[0]
  {
  }

  /**
   * The shift shows a step the order has not reached: a shipped order shows
   * 'Delivered' done, a confirmed one shows 'Processing' done, and a pending
   * one shows 'Order Confirmed' done.
   */
  lemma ShownStepsRunAhead()
    ensures ShownSteps(Shipped)[3] && !ReachedSteps(Shipped)[3]
    ensures ShownSteps(Confirmed)[1] && !ReachedSteps(Confirmed)[1]
    ensures ShownSteps(Pending)[0] && !ReachedSteps(Pending)[0]
  {
    assert StepIds[0] == Confirmed && StepIds[1] == Processing && StepIds[3] == Delivered;
    assert StatusIndex(Shipped) == 3 && StatusIndex(Delivered) == 4;
    assert StatusIndex(Confirmed) == 1 && StatusIndex(Processing) == 2;
    assert StatusIndex(Pending) == 0;
  }
}
