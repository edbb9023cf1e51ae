/**
 * Product stock as orders move it: the checkout takes the ordered quantities
 * out of stock, and cancelling or removing an undelivered order puts them
 * back. The same restock routine is used by the admin orders page and the
 * customer's order history page.
 */
module Inventory {
  import opened Common
  import opened Model
  import opened DocumentStore

  // ------------------------------------------------------------ restock

  /** Number(ProductID || Product.id): the product a line returns stock to, 0 when it has none. */
  function RestockProductId(it: CartItem): int
  {
    if it.productId != 0 then it.productId
    else if it.product.Some? then it.product.value.id
    else 0
  }

  /** A line is restocked only when it names a product and a positive quantity. */
  predicate Restockable(it: CartItem)
  {
    RestockProductId(it) != 0 && it.quantity > 0
  }

  /** One line's restock: GET the product, then PUT it back with the quantity added. */
  function RestockLine(products: map<int, Product>, it: CartItem): map<int, Product>
  {
    var pid := RestockProductId(it);
    if Restockable(it) && pid in products
    then products[pid := products[pid].(stock := products[pid].stock + it.quantity)]
    else products
  }

  /** The products after every line of `items` has been restocked. */
  function Restocked(products: map<int, Product>, items: seq<CartItem>): map<int, Product>
  {
    if items == [] then products
    else RestockLine(Restocked(products, items[..|items| - 1]), items[|items| - 1])
  }

  /** The total quantity `items` return to product `pid`. */
  function ReturnedQuantity(items: seq<CartItem>, pid: int): int
  {
    if items == [] then 0
    else
      var it := items[|items| - 1];
      ReturnedQuantity(items[..|items| - 1], pid) + (if Restockable(it) && RestockProductId(it) == pid then it.quantity else 0)
  }

  /**
   * Restocking changes no product other than its stock, and raises each
   * stored product's stock by exactly the quantity the order's lines return
   * to it; no product appears or disappears.
   */
  lemma {:induction false} RestockedStock(products: map<int, Product>, items: seq<CartItem>, pid: int)
    ensures Restocked(products, items).Keys == products.Keys
    ensures pid in products ==>
      Restocked(products, items)[pid] == products[pid].(stock := products[pid].stock + ReturnedQuantity(items, pid))
  {
    if items != [] {
      RestockedStock(products, items[..|items| - 1], pid);
    }
  }

  /** Restocking never lowers a stock level. */
  lemma {:induction false} ReturnedQuantityNonNegative(items: seq<CartItem>, pid: int)
    ensures ReturnedQuantity(items, pid) >= 0
  {
    if items != [] {
      ReturnedQuantityNonNegative(items[..|items| - 1], pid);
    }
  }

  /** Every restockable line names a product the store holds, so every GET succeeds. */
  predicate AllFound(products: map<int, Product>, items: seq<CartItem>)
  {
    forall i :: 0 <= i < |items| && Restockable(items[i]) ==> RestockProductId(items[i]) in products
  }

  /**
   * restockOrderItems: a delivered order returns nothing; otherwise each line
   * returns its quantity to its product. `ok` is false when some product
   * could not be fetched (the joined requests then fail).
   */
  method RestockOrderItems(store: Store, order: Order) returns (ok: bool)
    modifies store
    ensures order.orderStatus == Delivered ==> ok && store.products == old(store.products)
    ensures order.orderStatus != Delivered ==>
      store.products == Restocked(old(store.products), order.items) &&
      (ok <==> AllFound(old(store.products), order.items))
    ensures store.orders == old(store.orders) && store.cart == old(store.cart) && store.users == old(store.users)
    ensures store.admins == old(store.admins) && store.notifications == old(store.notifications)
    ensures store.locations == old(store.locations)
  {
    ok := true;
    if order.orderStatus == Delivered {
      return;
    }
    var items := order.items;
    var i := 0;
    while i < |items|
      invariant 0 <= i <= |items|
      invariant store.products == Restocked(old(store.products), items[..i])
      invariant store.products.Keys == old(store.products).Keys
      invariant ok <==> AllFound(old(store.products), items[..i])
      invariant store.orders == old(store.orders) && store.cart == old(store.cart) && store.users == old(store.users)
      invariant store.admins == old(store.admins) && store.notifications == old(store.notifications)
      invariant store.locations == old(store.locations)
    {
      var it := items[i];
      assert items[..i + 1][..i] == items[..i];
      var pid := RestockProductId(it);
      if Restockable(it) {
        if pid in store.products {
          var p := store.products[pid];
          store.products := store.products[pid := p.(stock := p.stock + it.quantity)];
        } else {
          ok := false;
        }
      }
      i := i + 1;
    }
    assert items[..i] == items;
  }

  // ------------------------------------------------------ checkout sale

  /** The stock left after a sale: never below zero. */
  function StockAfterSale(stock: int, quantity: int): (r: int)
    ensures r >= 0
    ensures r == 0 <==> stock <= quantity
    ensures r > 0 ==> r == stock - quantity
  {
    Max(0, stock - quantity)
  }

  /** The availability label the checkout writes for a stock level. */
  function AvailabilityFor(stock: int): (r: string)
    ensures r == "Out of Stock" <==> stock == 0
    ensures r == "Low Stock" <==> stock != 0 && stock <= 10
    ensures r == "In Stock" <==> stock > 10
  {
    if stock == 0 then "Out of Stock"
    else if stock <= 10 then "Low Stock"
    else "In Stock"
  }

  /** One purchased line: PATCH the product with its reduced stock and matching label. */
  function SellLine(products: map<int, Product>, it: CartItem): map<int, Product>
  {
    var pid := it.productId;
    if pid in products
    then
      var s := StockAfterSale(products[pid].stock, it.quantity);
      products[pid := products[pid].(stock := s, availabilityStatus := AvailabilityFor(s))]
    else products
  }

  /** The products after every line of an order has been sold. */
  function Sold(products: map<int, Product>, items: seq<CartItem>): map<int, Product>
  {
    if items == [] then products
    else SellLine(Sold(products, items[..|items| - 1]), items[|items| - 1])
  }

  /**
   * After a sale every product the order touched has a non-negative stock
   * whose label agrees with it; products the order did not name are left as
   * they were, and no product appears or disappears.
   */
  lemma {:induction false} SoldConsistent(products: map<int, Product>, items: seq<CartItem>, pid: int)
    ensures Sold(products, items).Keys == products.Keys
    ensures pid in products && (forall i :: 0 <= i < |items| ==> items[i].productId != pid) ==>
      Sold(products, items)[pid] == products[pid]
    ensures pid in products && (exists i :: 0 <= i < |items| && items[i].productId == pid) ==>
      var p := Sold(products, items)[pid];
      p.stock >= 0 && p.availabilityStatus == AvailabilityFor(p.stock)
  {
    if items != [] {
      var init := items[..|items| - 1];
      SoldConsistent(products, init, pid);
      if pid in products && (exists i :: 0 <= i < |items| && items[i].productId == pid) {
        var i :| 0 <= i < |items| && items[i].productId == pid;
        if i < |items| - 1 {
          assert init[i].productId == pid;
        }
      }
      if pid in products && (forall i :: 0 <= i < |items| ==> items[i].productId != pid) {
        assert forall i :: 0 <= i < |init| ==> init[i].productId == items[i].productId;
      }
    }
  }

  /**
   * updateProductStock: for each purchased line, the product is fetched and
   * patched with its reduced stock and label; a product that cannot be
   * fetched is skipped.
   */
  method UpdateProductStock(store: Store, items: seq<CartItem>)
    modifies store
    ensures store.products == Sold(old(store.products), items)
    ensures store.orders == old(store.orders) && store.cart == old(store.cart) && store.users == old(store.users)
    ensures store.admins == old(store.admins) && store.notifications == old(store.notifications)
    ensures store.locations == old(store.locations)
  {
    var i := 0;
    while i < |items|
      invariant 0 <= i <= |items|
      invariant store.products == Sold(old(store.products), items[..i])
      invariant store.orders == old(store.orders) && store.cart == old(store.cart) && store.users == old(store.users)
      invariant store.admins == old(store.admins) && store.notifications == old(store.notifications)
      invariant store.locations == old(store.locations)
    {
      var it := items[i];
      assert items[..i + 1][..i] == items[..i];
      if it.productId in store.products {
        var p := store.products[it.productId];
        var s := Max(0, p.stock - it.quantity);
        var status: string;
        if s == 0 {
          status := "Out of Stock";
        } else if s <= 10 {
          status := "Low Stock";
        } else {
          status := "In Stock";
        }
        store.products := store.products[it.productId := p.(stock := s, availabilityStatus := status)];
      }
      i := i + 1;
    }
    assert items[..i] == items;
  }
}
