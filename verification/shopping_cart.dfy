/**
 * The cart service: the cart lines live in the store's `cart` collection and
 * the service keeps the last loaded copy (with each line's product attached
 * and the totals computed) as its current cart. Adding a product that is
 * already in the cart merges into its line; no cart operation reads or
 * writes product stock.
 */
module ShoppingCart {
  import opened Common
  import opened Model
  import opened DocumentStore

  // ------------------------------------------------------------- totals

  /** The sum of the lines' quantities. */
  function TotalQuantity(items: seq<CartItem>): int
  {
    if items == [] then 0 else items[0].quantity + TotalQuantity(items[1..])
  }

  function LinePrice(it: CartItem): real { it.totalPrice }

  /** A cart whose totals are those of its own lines. */
  predicate Consistent(c: Cart)
  {
    c.totalItems == TotalQuantity(c.items) && c.totalPrice == Sum(c.items, LinePrice)
  }

  /** calculateCartTotals: the lines unchanged, with their summed quantity and price. */
  function CalculateCartTotals(items: seq<CartItem>): (r: Cart)
    ensures r.items == items && Consistent(r)
  {
    Cart(items, TotalQuantity(items), Sum(items, LinePrice))
  }

  const EmptyCart: Cart := Cart([], 0, 0.0)

  lemma {:induction false} TotalQuantityAppend(a: seq<CartItem>, b: seq<CartItem>)
    ensures TotalQuantity(a + b) == TotalQuantity(a) + TotalQuantity(b)
  {
    if a == [] {
      assert a + b == b;
    } else {
      assert (a + b)[1..] == a[1..] + b;
      TotalQuantityAppend(a[1..], b);
    }
  }

  /**
   * The totals move with the lines: a new line adds its quantity and price,
   * and a line replaced by another changes them by the difference.
   */
  lemma CartTotalsUpdate(items: seq<CartItem>, i: nat, x: CartItem)
    requires i < |items|
    ensures CalculateCartTotals(items + [x]).totalItems == CalculateCartTotals(items).totalItems + x.quantity
    ensures CalculateCartTotals(items + [x]).totalPrice == CalculateCartTotals(items).totalPrice + x.totalPrice
    ensures CalculateCartTotals(items[i := x]).totalItems == CalculateCartTotals(items).totalItems - items[i].quantity + x.quantity
    ensures CalculateCartTotals(items[i := x]).totalPrice == CalculateCartTotals(items).totalPrice - items[i].totalPrice + x.totalPrice
  {
    TotalQuantityAppend(items, [x]);
    SumAppend(items, [x], LinePrice);
    SumUpdate(items, i, x, LinePrice);
    assert items == items[..i] + [items[i]] + items[i + 1..];
    assert items[i := x] == items[..i] + [x] + items[i + 1..];
    TotalQuantityAppend(items[..i] + [items[i]], items[i + 1..]);
    TotalQuantityAppend(items[..i], [items[i]]);
    TotalQuantityAppend(items[..i] + [x], items[i + 1..]);
    TotalQuantityAppend(items[..i], [x]);
  }

  // ------------------------------------------------------------ lookups

  /** `items.findIndex(item => item.ProductID === pid)`, or -1. */
  function FindLineByProduct(items: seq<CartItem>, pid: int): (r: int)
    ensures -1 <= r < |items|
    ensures r >= 0 ==> items[r].productId == pid && forall k :: 0 <= k < r ==> items[k].productId != pid
    ensures r == -1 ==> forall k :: 0 <= k < |items| ==> items[k].productId != pid
  {
    if items == [] then -1
    else if items[0].productId == pid then 0
    else
      var k := FindLineByProduct(items[1..], pid);
      if k == -1 then -1 else k + 1
  }

  /** `items.findIndex(item => item.id === id)`, or -1. */
  function FindLineById(items: seq<CartItem>, id: string): (r: int)
    ensures -1 <= r < |items|
    ensures r >= 0 ==> items[r].id == Some(id) && forall k :: 0 <= k < r ==> items[k].id != Some(id)
    ensures r == -1 ==> forall k :: 0 <= k < |items| ==> items[k].id != Some(id)
  {
    if items == [] then -1
    else if items[0].id == Some(id) then 0
    else
      var k := FindLineById(items[1..], id);
      if k == -1 then -1 else k + 1
  }

  /** isProductInCart. */
  predicate InCart(c: Cart, pid: int)
  {
    exists i :: 0 <= i < |c.items| && c.items[i].productId == pid
  }

  /** getProductQuantityInCart: the quantity of the product's first line, or 0. */
  function QuantityInCart(c: Cart, pid: int): (r: int)
    ensures !InCart(c, pid) ==> r == 0
    ensures InCart(c, pid) ==> exists i :: 0 <= i < |c.items| && c.items[i].productId == pid && r == c.items[i].quantity &&
                                         (forall k :: 0 <= k < i ==> c.items[k].productId != pid)
  {
    var k := FindLineByProduct(c.items, pid);
    if k == -1 then 0 else c.items[k].quantity
  }

  /** getCartItemCount: the number of lines, not the number of units. */
  function ItemCount(c: Cart): (r: nat)
    ensures r == |c.items|
    ensures r == 0 <==> forall pid :: !InCart(c, pid)
  {
    if |c.items| > 0 then assert InCart(c, c.items[0].productId); |c.items| else 0
  }

  /** Two lists whose lines name the same products position by position find a product at the same place. */
  lemma {:induction false} FindLineByProductSameIds(a: seq<CartItem>, b: seq<CartItem>, pid: int)
    requires |a| == |b| && forall i :: 0 <= i < |a| ==> a[i].productId == b[i].productId
    ensures FindLineByProduct(a, pid) == FindLineByProduct(b, pid)
  {
    if a != [] && a[0].productId != pid {
      FindLineByProductSameIds(a[1..], b[1..], pid);
    }
  }

  // --------------------------------------------------------- the store

  /** The lines whose id is not `id` (DELETE /cart/id). */
  function WithoutLine(lines: seq<CartItem>, id: string): (r: seq<CartItem>)
    ensures forall l :: l in r <==> l in lines && l.id != Some(id)
  {
    Filter(lines, (l: CartItem) => l.id != Some(id))
  }

  /** PUT /cart/id: the first line with that id is replaced. */
  function ReplaceLine(lines: seq<CartItem>, id: string, line: CartItem): (r: seq<CartItem>)
    ensures |r| == |lines|
    ensures forall k :: 0 <= k < |lines| && lines[k].id != Some(id) ==> r[k] == lines[k]
    ensures (exists k :: 0 <= k < |lines| && lines[k].id == Some(id)) ==> line in r
  {
    var k := FindLineById(lines, id);
    if k == -1 then lines else assert lines[k := line][k] == line; lines[k := line]
  }

  /**
   * The cart loadCart publishes: the stored lines with their products
   * attached, or the empty cart when the cart or one of the products cannot
   * be fetched.
   */
  function LoadedCart(lines: seq<CartItem>, products: map<int, Product>, fetchOk: bool): (r: Cart)
    ensures Consistent(r)
    ensures r.items == [] || |r.items| == |lines|
    ensures r.items != [] ==> forall i :: 0 <= i < |lines| ==>
      lines[i].productId in products && r.items[i] == lines[i].(product := Some(products[lines[i].productId]))
    ensures fetchOk && (forall i :: 0 <= i < |lines| ==> lines[i].productId in products) ==> |r.items| == |lines|
    ensures !fetchOk || (exists i :: 0 <= i < |lines| && lines[i].productId !in products) ==> r == EmptyCart
  {
    if !fetchOk then EmptyCart
    else if forall i :: 0 <= i < |lines| ==> lines[i].productId in products then
      CalculateCartTotals(seq(|lines|, i requires 0 <= i < |lines| && lines[i].productId in products =>
        lines[i].(product := Some(products[lines[i].productId]))))
    else EmptyCart
  }

  /** The write an addToCart call makes, decided from the current cart and the fetched product. */
  datatype CartWrite = Fail(message: string) | Put(id: string, line: CartItem) | Post(line: CartItem)

  /**
   * addToCart: a product already in the cart has its line's quantity raised
   * and its price recomputed at the current price; a line without an id
   * cannot be written; a new product gets a new line.
   */
  function AddRequest(current: seq<CartItem>, p: Product, productId: int, quantity: int, newId: string, now: int): (r: CartWrite)
    ensures FindLineByProduct(current, productId) == -1 <==> r.Post?
    ensures r.Post? ==> r.line == CartItem(Some(newId), now, productId, quantity, p.price * quantity as real, None)
    ensures r.Put? ==> var k := FindLineByProduct(current, productId);
      Some(r.id) == current[k].id &&
      r.line == current[k].(quantity := current[k].quantity + quantity, totalPrice := p.price * (current[k].quantity + quantity) as real)
    ensures r.Fail? ==> r.message == "Existing cart item missing ID"
  {
    var k := FindLineByProduct(current, productId);
    if k == -1 then Post(CartItem(Some(newId), now, productId, quantity, p.price * quantity as real, None))
    else
      var q := current[k].quantity + quantity;
      if current[k].id.None? then Fail("Existing cart item missing ID")
      else Put(current[k].id.value, current[k].(quantity := q, totalPrice := p.price * q as real))
  }

  /** The stored lines after a write. */
  function ApplyWrite(lines: seq<CartItem>, w: CartWrite): seq<CartItem>
  {
    match w
    case Fail(_) => lines
    case Put(id, line) => ReplaceLine(lines, id, line)
    case Post(line) => lines + [line]
  }

  /** No two stored lines share an id. */
  predicate UniqueLineIds(lines: seq<CartItem>)
  {
    forall i, j :: 0 <= i < j < |lines| && lines[i].id.Some? ==> lines[i].id != lines[j].id
  }

  /**
   * Adding to a cart in step with the store raises the product's quantity by
   * the amount added, leaves every other product's quantity alone, and
   * creates a line only for a product that had none.
   */
  lemma AddToCartMerges(lines: seq<CartItem>, p: Product, productId: int, quantity: int, newId: string, now: int, other: int)
    requires UniqueLineIds(lines) && other != productId
    requires !AddRequest(lines, p, productId, quantity, newId, now).Fail?
    ensures var after := Cart(ApplyWrite(lines, AddRequest(lines, p, productId, quantity, newId, now)), 0, 0.0);
      var before := Cart(lines, 0, 0.0);
      QuantityInCart(after, productId) == QuantityInCart(before, productId) + quantity &&
      QuantityInCart(after, other) == QuantityInCart(before, other) &&
      ItemCount(after) == ItemCount(before) + (if InCart(before, productId) then 0 else 1)
  {
    var w := AddRequest(lines, p, productId, quantity, newId, now);
    var k := FindLineByProduct(lines, productId);
    if w.Put? {
      var j := FindLineById(lines, w.id);
      assert j == k;
      var after := lines[k := w.line];
      FindLineByProductSameIds(after, lines, productId);
      FindLineByProductSameIds(after, lines, other);
    } else {
      var after := lines + [w.line];
      assert after[..|lines|] == lines;
      FindLineByProductPrefix(after, |lines|, productId);
      FindLineByProductPrefix(after, |lines|, other);
    }
  }

  /** Finding a product in a list extended at the end finds its old place, if it had one. */
  lemma {:induction false} FindLineByProductPrefix(s: seq<CartItem>, n: nat, pid: int)
    requires n <= |s|
    ensures FindLineByProduct(s[..n], pid) >= 0 ==> FindLineByProduct(s, pid) == FindLineByProduct(s[..n], pid)
    ensures FindLineByProduct(s[..n], pid) == -1 && n < |s| && s[n].productId == pid ==> FindLineByProduct(s, pid) == n
    ensures FindLineByProduct(s[..n], pid) == -1 && n == |s| - 1 && s[n].productId != pid ==> FindLineByProduct(s, pid) == -1
  {
    if n > 0 && s[0].productId != pid {
      assert s[..n][1..] == s[1..][..n - 1];
      FindLineByProductPrefix(s[1..], n - 1, pid);
    }
  }

  /** The line updateQuantity writes: the new quantity, priced at the line's product price (0 without a product). */
  function Requantified(item: CartItem, q: int): (r: CartItem)
    ensures r.id == item.id && r.productId == item.productId && r.cartItemId == item.cartItemId && r.quantity == q
    ensures item.product.None? ==> r.totalPrice == 0.0
    ensures item.product.Some? ==> r.totalPrice == item.product.value.price * q as real
  {
    var price := if item.product.Some? then item.product.value.price else 0.0;
    item.(quantity := q, totalPrice := price * q as real)
  }

  // ------------------------------------------------------- clearing

  /** The stored lines after a DELETE for each of `items`, in order; a line without an id deletes nothing. */
  function RemoveLines(lines: seq<CartItem>, items: seq<CartItem>): seq<CartItem>
  {
    if items == [] then lines
    else
      var rest := RemoveLines(lines, items[..|items| - 1]);
      var it := items[|items| - 1];
      if it.id.Some? then WithoutLine(rest, it.id.value) else rest
  }

  /** Whether every DELETE of the run finds its line. */
  predicate AllRemovable(lines: seq<CartItem>, items: seq<CartItem>)
  {
    if items == [] then true
    else
      var it := items[|items| - 1];
      AllRemovable(lines, items[..|items| - 1]) && it.id.Some? &&
      FindLineById(RemoveLines(lines, items[..|items| - 1]), it.id.value) >= 0
  }

  /** A line survives the run exactly when no deleted line shared its id. */
  lemma {:induction false} RemoveLinesMembers(lines: seq<CartItem>, items: seq<CartItem>, l: CartItem)
    ensures l in RemoveLines(lines, items) <==>
      l in lines && !(l.id.Some? && exists i :: 0 <= i < |items| && items[i].id == l.id)
  {
    if items != [] {
      var init := items[..|items| - 1];
      RemoveLinesMembers(lines, init, l);
      assert forall i :: 0 <= i < |init| ==> init[i] == items[i];
    }
  }

  /** Clearing a cart in step with the store, whose lines all have ids, leaves no line behind. */
  lemma ClearLeavesNothing(lines: seq<CartItem>)
    requires forall i :: 0 <= i < |lines| ==> lines[i].id.Some?
    ensures RemoveLines(lines, lines) == []
  {
    var r := RemoveLines(lines, lines);
    if r != [] {
      RemoveLinesMembers(lines, lines, r[0]);
    }
  }

  // ------------------------------------------------------ the service

  class CartService {
    const store: Store
    /** The value of cartSubject: the last loaded cart. */
    var cart: Cart

    /** The service loads the cart when it is created. */
    constructor (store: Store, fetchOk: bool)
      ensures this.store == store && cart == LoadedCart(store.cart, store.products, fetchOk)
    {
      this.store := store;
      cart := LoadedCart(store.cart, store.products, fetchOk);
    }

    /** loadCart: the current cart becomes the stored lines with their products, or the empty cart on a failure. */
    method LoadCart(fetchOk: bool)
      modifies this
      ensures cart == LoadedCart(store.cart, store.products, fetchOk)
    {
      cart := LoadedCart(store.cart, store.products, fetchOk);
    }

    /**
     * addToCart: the product is fetched, then the current cart decides
     * between updating the product's line and posting a new one; after a
     * successful write the cart is reloaded.
     */
    method AddToCart(productId: int, quantity: int, newId: string, now: int, reloadOk: bool) returns (r: Result<()>)
      modifies this, store
      ensures productId !in old(store.products) ==> r.Err? && store.cart == old(store.cart) && cart == old(cart)
      ensures productId in old(store.products) ==>
        var w := AddRequest(old(cart.items), old(store.products)[productId], productId, quantity, newId, now);
        store.cart == ApplyWrite(old(store.cart), w) &&
        (r.Ok? <==> w.Post? || (w.Put? && FindLineById(old(store.cart), w.id) >= 0)) &&
        (w.Fail? ==> r == Err(w.message))
      ensures r.Ok? ==> cart == LoadedCart(store.cart, store.products, reloadOk)
      ensures r.Err? ==> cart == old(cart)
      ensures store.products == old(store.products) && store.orders == old(store.orders) && store.users == old(store.users)
      ensures store.admins == old(store.admins) && store.notifications == old(store.notifications)
      ensures store.locations == old(store.locations)
    {
      if productId !in store.products {
        return Err("Http failure response for /products: 404 Not Found");
      }
      var p := store.products[productId];
      var w := AddRequest(cart.items, p, productId, quantity, newId, now);
      match w {
        case Fail(msg) =>
          r := Err(msg);
        case Put(id, line) =>
          if FindLineById(store.cart, id) >= 0 {
            store.cart := ReplaceLine(store.cart, id, line);
            r := Ok(());
          } else {
            r := Err("Http failure response for /cart: 404 Not Found");
          }
        case Post(line) =>
          store.cart := store.cart + [line];
          r := Ok(());
      }
      if r.Ok? {
        LoadCart(reloadOk);
      }
    }

    /** removeFromCart: DELETE the line; the cart is reloaded when the line was found. */
    method RemoveFromCart(cartItemId: string, reloadOk: bool) returns (ok: bool)
      modifies this, store
      ensures ok <==> FindLineById(old(store.cart), cartItemId) >= 0
      ensures store.cart == WithoutLine(old(store.cart), cartItemId)
      ensures ok ==> cart == LoadedCart(store.cart, store.products, reloadOk)
      ensures !ok ==> cart == old(cart)
      ensures store.products == old(store.products) && store.orders == old(store.orders) && store.users == old(store.users)
      ensures store.admins == old(store.admins) && store.notifications == old(store.notifications)
      ensures store.locations == old(store.locations)
    {
      ok := FindLineById(store.cart, cartItemId) >= 0;
      store.cart := WithoutLine(store.cart, cartItemId);
      if ok {
        LoadCart(reloadOk);
      }
    }

    /**
     * updateQuantity: an unknown line fails with 'Cart item not found'; a
     * quantity of zero or less removes the line; otherwise only that line's
     * quantity and price change, the price being the product's price (0 when
     * the line has no product) times the new quantity.
     */
    method UpdateQuantity(cartItemId: string, newQuantity: int, reloadOk: bool) returns (r: Result<()>)
      modifies this, store
      ensures FindLineById(old(cart.items), cartItemId) == -1 ==>
        r == Err("Cart item not found") && store.cart == old(store.cart) && cart == old(cart)
      ensures FindLineById(old(cart.items), cartItemId) >= 0 && newQuantity <= 0 ==>
        store.cart == WithoutLine(old(store.cart), cartItemId) && (r.Ok? <==> FindLineById(old(store.cart), cartItemId) >= 0)
      ensures FindLineById(old(cart.items), cartItemId) >= 0 && newQuantity > 0 ==>
        store.cart == ReplaceLine(old(store.cart), cartItemId, Requantified(old(cart.items)[FindLineById(old(cart.items), cartItemId)], newQuantity))
      ensures FindLineById(old(cart.items), cartItemId) >= 0 && newQuantity > 0 ==>
        (r.Ok? <==> FindLineById(old(store.cart), cartItemId) >= 0)
      ensures r.Ok? ==> cart == LoadedCart(store.cart, store.products, reloadOk)
      ensures r.Err? ==> cart == old(cart)
      ensures store.products == old(store.products) && store.orders == old(store.orders) && store.users == old(store.users)
      ensures store.admins == old(store.admins) && store.notifications == old(store.notifications)
      ensures store.locations == old(store.locations)
    {
      var k := FindLineById(cart.items, cartItemId);
      if k == -1 {
        return Err("Cart item not found");
      }
      if newQuantity <= 0 {
        var ok := RemoveFromCart(cartItemId, reloadOk);
        r := if ok then Ok(()) else Err("Http failure response for /cart: 404 Not Found");
        return;
      }
      var found := FindLineById(store.cart, cartItemId) >= 0;
      store.cart := ReplaceLine(store.cart, cartItemId, Requantified(cart.items[k], newQuantity));
      if found {
        LoadCart(reloadOk);
        r := Ok(());
      } else {
        r := Err("Http failure response for /cart: 404 Not Found");
      }
    }

    /** The DELETE requests of clearCart, one per line of the cart, in order. */
    method RemoveEach(items: seq<CartItem>) returns (ok: bool)
      modifies store
      ensures store.cart == RemoveLines(old(store.cart), items)
      ensures ok <==> AllRemovable(old(store.cart), items)
      ensures store.products == old(store.products) && store.orders == old(store.orders) && store.users == old(store.users)
      ensures store.admins == old(store.admins) && store.notifications == old(store.notifications)
      ensures store.locations == old(store.locations)
    {
      var lines := store.cart;
      ok := true;
      var i := 0;
      while i < |items|
        invariant 0 <= i <= |items|
        invariant store.cart == RemoveLines(lines, items[..i])
        invariant ok <==> AllRemovable(lines, items[..i])
        invariant store.products == old(store.products) && store.orders == old(store.orders) && store.users == old(store.users)
        invariant store.admins == old(store.admins) && store.notifications == old(store.notifications)
        invariant store.locations == old(store.locations)
      {
        var it := items[i];
        ghost var next := items[..i + 1];
        assert next[..i] == items[..i] && next[i] == it;
        if it.id.Some? {
          var found := FindLineById(store.cart, it.id.value) >= 0;
          store.cart := WithoutLine(store.cart, it.id.value);
          ok := ok && found;
        } else {
          ok := false;
        }
        i := i + 1;
        assert items[..i] == next;
      }
      assert items[..i] == items;
    }

    /**
     * clearCart: a DELETE for every line of the current cart; the cart is
     * reloaded when all of them succeed. An empty cart issues no request and
     * reloads nothing.
     */
    method ClearCart(reloadOk: bool) returns (ok: bool)
      modifies this, store
      ensures store.cart == RemoveLines(old(store.cart), old(cart.items))
      ensures ok <==> AllRemovable(old(store.cart), old(cart.items))
      ensures ok && old(cart.items) != [] ==> cart == LoadedCart(store.cart, store.products, reloadOk)
      ensures !ok || old(cart.items) == [] ==> cart == old(cart)
      ensures store.products == old(store.products) && store.orders == old(store.orders) && store.users == old(store.users)
      ensures store.admins == old(store.admins) && store.notifications == old(store.notifications)
      ensures store.locations == old(store.locations)
    {
      var items := cart.items;
      ok := RemoveEach(items);
      if ok && items != [] {
        LoadCart(reloadOk);
      }
    }
  }
}
