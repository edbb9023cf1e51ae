/**
 * The JSON document store behind the storefront (one collection per record
 * kind, addressed by `id` as json-server does) and the browser's key/value
 * storage. Pages and services hold a reference to these objects and change
 * them in place, as the HTTP calls and `localStorage.setItem` calls do.
 */
module DocumentStore {
  import opened Common
  import opened Model

  class Store {
    var products: map<int, Product>
    var cart: seq<CartItem>
    var orders: seq<Order>
    var users: seq<User>
    var admins: seq<Admin>
    var notifications: seq<Notification>
    var locations: seq<ProcessingLocation>

    constructor ()
      ensures products == map[] && cart == [] && orders == [] && users == []
      ensures admins == [] && notifications == [] && locations == []
    {
      products := map[];
      cart := [];
      orders := [];
      users := [];
      admins := [];
      notifications := [];
      locations := [];
    }

    /** GET /orders/id. */
    function GetOrder(id: string): (r: Option<Order>)
      reads this
      ensures r.Some? <==> IndexOfOrder(orders, id) >= 0
      ensures r.Some? ==> r.value in orders && r.value.id == Some(id)
    {
      var k := IndexOfOrder(orders, id);
      if k == -1 then None else Some(orders[k])
    }

    /** PUT /orders/id: replaces the stored order; fails with 404 when there is none. */
    method PutOrder(id: string, o: Order) returns (ok: bool)
      modifies this
      ensures ok <==> IndexOfOrder(old(orders), id) >= 0
      ensures orders == ReplaceOrder(old(orders), id, o)
      ensures products == old(products) && cart == old(cart) && users == old(users)
      ensures admins == old(admins) && notifications == old(notifications) && locations == old(locations)
    {
      ok := IndexOfOrder(orders, id) >= 0;
      orders := ReplaceOrder(orders, id, o);
    }

    /** DELETE /orders/id: removes the order with that id; fails with 404 when there is none. */
    method DeleteOrder(id: string) returns (ok: bool)
      modifies this
      ensures ok <==> IndexOfOrder(old(orders), id) >= 0
      ensures orders == WithoutIds(old(orders), {id})
      ensures products == old(products) && cart == old(cart) && users == old(users)
      ensures admins == old(admins) && notifications == old(notifications) && locations == old(locations)
    {
      ok := IndexOfOrder(orders, id) >= 0;
      orders := WithoutIds(orders, {id});
    }

    /** POST /orders: the new order is appended (with the id the store gave it). */
    method PostOrder(o: Order)
      modifies this
      ensures orders == old(orders) + [o]
      ensures products == old(products) && cart == old(cart) && users == old(users)
      ensures admins == old(admins) && notifications == old(notifications) && locations == old(locations)
    {
      orders := orders + [o];
    }

    /** POST /notifications: the new notification is appended. */
    method PostNotification(n: Notification)
      modifies this
      ensures notifications == old(notifications) + [n]
      ensures products == old(products) && cart == old(cart) && orders == old(orders) && users == old(users)
      ensures admins == old(admins) && locations == old(locations)
    {
      notifications := notifications + [n];
    }
  }

  /**
   * A value in localStorage or sessionStorage: plain text, the JSON text of an
   * admin or an address, or text that JSON.parse rejects.
   */
  datatype StoredValue = Text(text: string) | AdminJson(admin: Admin) | AddressJson(address: Address) | Unparseable

  /** The shopper's session keys in localStorage. */
  const IsLoggedInKey: string := "isLoggedIn"
  const UserIdKey: string := "userId"

  class BrowserStorage {
    var items: map<string, StoredValue>

    constructor ()
      ensures items == map[]
    {
      items := map[];
    }

    /** setItem(key, value). */
    method SetItem(key: string, value: StoredValue)
      modifies this
      ensures items == old(items)[key := value]
    {
      items := items[key := value];
    }

    /** removeItem(key). */
    method RemoveItem(key: string)
      modifies this
      ensures items == old(items) - {key}
    {
      items := items - {key};
    }

    /** getItem(key) === value. */
    function Holds(key: string, value: string): bool
      reads this
    {
      key in items && items[key] == Text(value)
    }
  }
}
