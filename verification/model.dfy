/**
 * The records the storefront keeps in its JSON document store: products,
 * cart lines, orders with their tracking history, processing locations,
 * notifications, users and admins. Dates are milliseconds since the epoch;
 * money is a real number; a field the source may leave undefined is an Option.
 */
module Model {
  import opened Common
  import Sorting

  // Order statuses, spelled as the source spells them.
  const Pending: string := "pending"
  const Confirmed: string := "confirmed"
  const Processing: string := "processing"
  const Shipped: string := "shipped"
  const Delivered: string := "delivered"
  const Cancelled: string := "cancelled"

  /** One day, in milliseconds. */
  const DayMillis: int := 86400000

  /** The last millisecond of the day that starts at `day` (setHours(23, 59, 59, 999)). */
  function EndOfDay(day: int): int { day + DayMillis - 1 }

  datatype Product = Product(
    id: int,
    title: string,
    category: string,
    price: real,
    discountPercentage: real,
    rating: real,
    stock: int,
    brand: string,
    availabilityStatus: string,
    images: seq<string>)

  /** A line of the cart; orders keep a copy of the lines they were placed with. */
  datatype CartItem = CartItem(
    id: Option<string>,
    cartItemId: int,
    productId: int,
    quantity: int,
    totalPrice: real,
    product: Option<Product>)

  datatype Cart = Cart(items: seq<CartItem>, totalItems: int, totalPrice: real)

  datatype CustomerInfo = CustomerInfo(fullName: string, email: string, phone: string)

  datatype Address = Address(
    fullName: string,
    email: string,
    phone: string,
    addressLine1: string,
    addressLine2: string,
    city: string,
    state: string,
    postalCode: string,
    country: string,
    isDefault: bool)

  /** `kind` is the source's `type` field: 'card', 'upi' or 'cod'. */
  datatype PaymentMethod = PaymentMethod(
    kind: string,
    cardNumber: string,
    expiryMonth: string,
    expiryYear: string,
    cvv: string,
    cardholderName: string,
    upiId: string)

  datatype OrderTracking = OrderTracking(
    status: string,
    location: Option<string>,
    description: string,
    timestamp: int,
    updatedBy: string)

  datatype ProcessingLocation = ProcessingLocation(
    id: string,
    name: string,
    address: string,
    city: string,
    state: string,
    postalCode: string,
    country: string,
    kind: string)

  datatype Order = Order(
    id: Option<string>,
    orderNumber: Option<string>,
    customerInfo: Option<CustomerInfo>,
    shippingAddress: Address,
    items: seq<CartItem>,
    subtotal: real,
    tax: real,
    shipping: real,
    total: real,
    paymentMethod: PaymentMethod,
    orderStatus: string,
    paymentStatus: string,
    orderDate: int,
    estimatedDelivery: int,
    trackingHistory: Option<seq<OrderTracking>>,
    currentLocation: Option<ProcessingLocation>,
    processingNotes: Option<string>,
    lastUpdated: Option<int>,
    updatedBy: Option<string>,
    cancellationReason: Option<string>,
    cancelledAt: Option<int>,
    cancelledBy: Option<string>,
    visibleToAdmin: Option<bool>,
    visibleToCustomer: Option<bool>,
    isArchived: Option<bool>,
    archivedAt: Option<int>,
    archivedReason: Option<string>,
    archivedBy: Option<string>,
    autoDeleteDate: Option<int>)

  /** Who a notification is flagged for; the admin orders page sets neither flag. */
  datatype Audience = ForCustomer | ForAdmin | Unflagged

  datatype Notification = Notification(
    id: string,
    orderNumber: Option<string>,
    customerEmail: string,
    customerName: string,
    kind: string,
    title: string,
    reason: string,
    amount: real,
    createdAt: int,
    read: bool,
    audience: Audience)

  /** The notification lists' comparator: the later createdAt first. */
  predicate NewerFirst(a: Notification, b: Notification) { a.createdAt >= b.createdAt }

  lemma NewerFirstPreorder()
    ensures Sorting.Preorder(NewerFirst)
  {
  }

  /** A record a user keeps a list of, under an id of its own ("" when it has none yet). */
  datatype Entry<T> = Entry(id: string, value: T)

  type UserAddress = Entry<Address>

  type UserPaymentMethod = Entry<PaymentMethod>

  /** `userId` is the source's `user_id`; `id` is the store's own key. */
  datatype User = User(
    id: string,
    userId: string,
    name: string,
    email: string,
    password: string,
    phone: string,
    dateOfBirth: string,
    gender: string,
    addresses: seq<UserAddress>,
    paymentMethods: seq<UserPaymentMethod>)

  datatype Admin = Admin(
    id: string,
    name: string,
    email: string,
    password: string,
    role: string,
    permissions: seq<string>,
    lastLogin: Option<int>)

  /** The truthiness of an optional flag: only a stored `true` counts. */
  predicate IsTrue(b: Option<bool>) { b == Some(true) }

  /** The store's key of an order, or "" when the record has none. */
  function OrderKey(o: Order): string
  {
    if o.id.Some? then o.id.value else ""
  }

  /** `orders.findIndex(o => o.id === id)`, or -1. */
  function IndexOfOrder(orders: seq<Order>, id: string): (r: int)
    ensures -1 <= r < |orders|
    ensures r >= 0 ==> orders[r].id == Some(id) && forall k :: 0 <= k < r ==> orders[k].id != Some(id)
    ensures r == -1 ==> forall k :: 0 <= k < |orders| ==> orders[k].id != Some(id)
  {
    if orders == [] then -1
    else if orders[0].id == Some(id) then 0
    else
      var k := IndexOfOrder(orders[1..], id);
      if k == -1 then -1 else k + 1
  }

  /** Replaces the first order whose id is `id` (what a PUT to /orders/id does); otherwise nothing changes. */
  function ReplaceOrder(orders: seq<Order>, id: string, o: Order): (r: seq<Order>)
    ensures |r| == |orders|
    ensures forall k :: 0 <= k < |orders| && orders[k].id != Some(id) ==> r[k] == orders[k]
    ensures (exists k :: 0 <= k < |orders| && orders[k].id == Some(id)) ==> o in r
  {
    var k := IndexOfOrder(orders, id);
    if k == -1 then orders else assert orders[k := o][k] == o; orders[k := o]
  }

  /** The orders whose id is not one of `ids`, in their order. */
  function WithoutIds(orders: seq<Order>, ids: set<string>): (r: seq<Order>)
    ensures |r| <= |orders|
    ensures forall o :: o in r <==> o in orders && !(o.id.Some? && o.id.value in ids)
  {
    if orders == [] then []
    else
      assert orders == [orders[0]] + orders[1..];
      (if orders[0].id.Some? && orders[0].id.value in ids then [] else [orders[0]]) + WithoutIds(orders[1..], ids)
  }

  lemma {:induction false} WithoutIdsAppend(x: seq<Order>, y: seq<Order>, ids: set<string>)
    ensures WithoutIds(x + y, ids) == WithoutIds(x, ids) + WithoutIds(y, ids)
  {
    if x != [] {
      assert (x + y)[1..] == x[1..] + y;
      WithoutIdsAppend(x[1..], y, ids);
    } else {
      assert x + y == y;
    }
  }

  /** Removing two groups of ids one after the other removes their union. */
  lemma {:induction false} WithoutIdsTwice(orders: seq<Order>, a: set<string>, b: set<string>)
    ensures WithoutIds(WithoutIds(orders, a), b) == WithoutIds(orders, a + b)
  {
    if orders != [] {
      var o, rest := orders[0], orders[1..];
      WithoutIdsTwice(rest, a, b);
      var head := if o.id.Some? && o.id.value in a then [] else [o];
      assert WithoutIds(orders, a) == head + WithoutIds(rest, a);
      WithoutIdsAppend(head, WithoutIds(rest, a), b);
      if head != [] {
        assert WithoutIds(head, b) == (if o.id.Some? && o.id.value in b then [] else [o]) by {
          assert head[1..] == [];
        }
      }
    }
  }
}
