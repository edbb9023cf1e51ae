/**
 * The hourly sweep that permanently deletes archived orders whose
 * auto-delete date has passed, and the statistics the admin panel shows
 * about it.
 */
module AutoCleanup {
  import opened Common
  import opened Model
  import opened DocumentStore

  /** The sweep runs once an hour. */
  const CleanupInterval: nat := 3600000

  /** An order the sweep deletes at time `now`: archived, with an auto-delete date that has been reached. */
  predicate IsExpired(o: Order, now: int)
  {
    IsTrue(o.isArchived) && o.autoDeleteDate.Some? && now >= o.autoDeleteDate.value
  }

  /** The orders selected for deletion, in store order. */
  function SelectExpired(orders: seq<Order>, now: int): (r: seq<Order>)
    ensures |r| <= |orders|
    ensures forall o :: o in r <==> o in orders && IsTrue(o.isArchived) && o.autoDeleteDate.Some? && o.autoDeleteDate.value <= now
  {
    if orders == [] then []
    else
      assert orders == [orders[0]] + orders[1..];
      (if IsExpired(orders[0], now) then [orders[0]] else []) + SelectExpired(orders[1..], now)
  }

  lemma {:induction false} SelectExpiredAppend(a: seq<Order>, b: seq<Order>, now: int)
    ensures SelectExpired(a + b, now) == SelectExpired(a, now) + SelectExpired(b, now)
  {
    if a == [] {
      assert a + b == b;
    } else {
      assert (a + b)[1..] == a[1..] + b;
      SelectExpiredAppend(a[1..], b, now);
    }
  }

  predicate IsArchived(o: Order) { IsTrue(o.isArchived) }

  /** The ids of the selected orders that have one. */
  function IdsOf(orders: seq<Order>): (r: set<string>)
    ensures forall x :: x in r <==> exists o :: o in orders && o.id == Some(x)
  {
    set o | o in orders && o.id.Some? :: o.id.value
  }

  /** Every order has an id and no two share one: then every DELETE /orders/id finds its order. */
  predicate UniquelyIdentified(orders: seq<Order>)
  {
    (forall k :: 0 <= k < |orders| ==> orders[k].id.Some?) &&
    (forall j, k :: 0 <= j < k < |orders| ==> orders[j].id != orders[k].id)
  }

  lemma UniquelyIdentifiedSnoc(s: seq<Order>, e: Order)
    ensures UniquelyIdentified(s + [e]) <==> UniquelyIdentified(s) && e.id.Some? && e.id.value !in IdsOf(s)
  {
    var t := s + [e];
    assert forall k :: 0 <= k < |s| ==> t[k] == s[k];
    assert t[|s|] == e;
  }

  lemma IdsOfSnoc(s: seq<Order>, e: Order)
    ensures IdsOf(s + [e]) == IdsOf(s) + (if e.id.Some? then {e.id.value} else {})
  {
    assert forall o :: o in s + [e] <==> o in s || o == e;
  }

  /** The store after the ids of `gone` were deleted still holds `e` exactly when its id was not among them. */
  lemma DeleteFinds(orders: seq<Order>, gone: seq<Order>, e: Order)
    requires e in orders && e.id.Some?
    ensures IndexOfOrder(WithoutIds(orders, IdsOf(gone)), e.id.value) >= 0 <==> e.id.value !in IdsOf(gone)
  {
    var w := WithoutIds(orders, IdsOf(gone));
    if e.id.value !in IdsOf(gone) {
      assert e in w;
      var j :| 0 <= j < |w| && w[j] == e;
      assert w[j].id == Some(e.id.value);
    }
  }

  /** One DELETE of the sweep: what it leaves in the store and whether it succeeds. */
  lemma DeleteStep(orders: seq<Order>, done: seq<Order>, e: Order)
    requires e in orders
    ensures e.id.None? ==> IdsOf(done + [e]) == IdsOf(done) && !UniquelyIdentified(done + [e])
    ensures e.id.Some? ==>
      WithoutIds(WithoutIds(orders, IdsOf(done)), {e.id.value}) == WithoutIds(orders, IdsOf(done + [e])) &&
      (UniquelyIdentified(done + [e]) <==> UniquelyIdentified(done) && IndexOfOrder(WithoutIds(orders, IdsOf(done)), e.id.value) >= 0)
  {
    UniquelyIdentifiedSnoc(done, e);
    IdsOfSnoc(done, e);
    if e.id.Some? {
      DeleteFinds(orders, done, e);
      WithoutIdsTwice(orders, IdsOf(done), {e.id.value});
    }
  }

  /**
   * cleanupExpiredOrders: the expired orders are selected and a DELETE is
   * issued for each; the result counts them when every deletion succeeds,
   * which is exactly when each has an id and no two share one, and is an
   * error otherwise (the deletions that did succeed stay done). With nothing
   * selected nothing is deleted and the count is 0.
   */
  method CleanupExpiredOrders(store: Store, now: int, fetchOk: bool) returns (r: Result<nat>)
    modifies store
    ensures !fetchOk ==> r.Err? && store.orders == old(store.orders)
    ensures fetchOk && SelectExpired(old(store.orders), now) == [] ==> r == Ok(0) && store.orders == old(store.orders)
    ensures fetchOk ==> store.orders == WithoutIds(old(store.orders), IdsOf(SelectExpired(old(store.orders), now)))
    ensures fetchOk ==> (r.Ok? <==> UniquelyIdentified(SelectExpired(old(store.orders), now)))
    ensures r.Ok? ==> r.value == |SelectExpired(old(store.orders), now)|
    ensures store.products == old(store.products) && store.cart == old(store.cart) && store.users == old(store.users)
    ensures store.admins == old(store.admins) && store.notifications == old(store.notifications)
    ensures store.locations == old(store.locations)
  {
    if !fetchOk {
      return Err("Http failure response for /orders");
    }
    var orders := store.orders;
    var expired := SelectExpired(orders, now);
    WithoutIdsNone(orders);
    if |expired| == 0 {
      assert IdsOf(expired) == {};
      return Ok(0);
    }
    var allOk := DeleteEach(store, expired);
    if allOk {
      r := Ok(|expired|);
    } else {
      r := Err("Http failure response during auto-deletion");
    }
  }

  /**
   * The sweep's loop: one DELETE per selected order, in order; an order
   * without an id, or one a previous DELETE already removed, fails its step.
   */
  method DeleteEach(store: Store, expired: seq<Order>) returns (allOk: bool)
    requires forall e :: e in expired ==> e in store.orders
    modifies store
    ensures store.orders == WithoutIds(old(store.orders), IdsOf(expired))
    ensures allOk <==> UniquelyIdentified(expired)
    ensures store.products == old(store.products) && store.cart == old(store.cart) && store.users == old(store.users)
    ensures store.admins == old(store.admins) && store.notifications == old(store.notifications)
    ensures store.locations == old(store.locations)
  {
    ghost var orders := store.orders;
    WithoutIdsNone(orders);
    allOk := true;
    var i := 0;
    assert expired[..0] == [];
    assert IdsOf(expired[..0]) == {};
    while i < |expired|
      invariant 0 <= i <= |expired|
      invariant store.orders == WithoutIds(orders, IdsOf(expired[..i]))
      invariant allOk <==> UniquelyIdentified(expired[..i])
      invariant store.products == old(store.products) && store.cart == old(store.cart) && store.users == old(store.users)
      invariant store.admins == old(store.admins) && store.notifications == old(store.notifications)
      invariant store.locations == old(store.locations)
    {
      var e := expired[i];
      PrefixSnoc(expired, i);
      DeleteStep(orders, expired[..i], e);
      ghost var next := expired[..i + 1];
      if e.id.None? {
        allOk := false;
      } else {
        var ok := store.DeleteOrder(e.id.value);
        allOk := allOk && ok;
      }
      i := i + 1;
      assert expired[..i] == next;
    }
    assert expired[..i] == expired;
  }

  lemma WithoutIdsNone(orders: seq<Order>)
    ensures WithoutIds(orders, {}) == orders
  {
    if orders != [] {
      WithoutIdsNone(orders[1..]);
      assert orders == [orders[0]] + orders[1..];
    }
  }

  datatype CleanupStats = CleanupStats(totalArchived: nat, expiredCount: nat, nextCleanup: int)

  /** getCleanupStats: how many orders are archived, how many of them the sweep would delete now, and when it runs next. */
  function GetCleanupStats(orders: seq<Order>, now: int): (r: CleanupStats)
    ensures r.expiredCount <= r.totalArchived <= |orders|
    ensures r.expiredCount == |SelectExpired(orders, now)|
    ensures r.nextCleanup == now + CleanupInterval
  {
    var archived := Filter(orders, IsArchived);
    var expired := SelectExpired(archived, now);
    ExpiredOfArchived(orders, now);
    CleanupStats(|archived|, |expired|, now + CleanupInterval)
  }

  /** Selecting archived orders and then reached dates is the sweep's own selection. */
  lemma {:induction false} ExpiredOfArchived(orders: seq<Order>, now: int)
    ensures SelectExpired(Filter(orders, IsArchived), now) == SelectExpired(orders, now)
  {
    if orders != [] {
      var h, t := orders[0], orders[1..];
      var rest := Filter(t, IsArchived);
      ExpiredOfArchived(t, now);
      if IsArchived(h) {
        assert Filter(orders, IsArchived) == [h] + rest;
        assert ([h] + rest)[1..] == rest;
      } else {
        assert Filter(orders, IsArchived) == rest;
        assert !IsExpired(h, now);
      }
    }
  }
}
