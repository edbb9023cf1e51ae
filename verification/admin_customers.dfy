/**
 * The admin customers page: every registered user with the number and total
 * of the orders placed under their email, the page's statistics (revenue,
 * average order value, new customers this month, the top five spenders), the
 * filter bar, column sorting and pagination, and the spending tiers.
 */
module AdminCustomers {
  import opened Common
  import opened Model
  import Sorting
  import opened Paging

  /**
   * A customer row. `city` is the shipping city, "" when the user has none;
   * `totalOrders` and `totalSpent` are filled in from the orders.
   */
  datatype Customer = Customer(
    id: string,
    userId: string,
    name: string,
    email: string,
    phone: Option<string>,
    dateOfBirth: Option<string>,
    gender: Option<string>,
    city: string,
    registrationDate: Option<int>,
    totalOrders: nat,
    totalSpent: real)

  /**
   * What the statistics read from a stored order: the email of its customer
   * information (None when it has none) and its total (None when missing or
   * not a number).
   */
  datatype OrderRecord = OrderRecord(customerEmail: Option<string>, total: Option<real>)

  datatype CustomerStats = CustomerStats(
    totalCustomers: nat,
    newThisMonth: nat,
    totalRevenue: real,
    averageOrderValue: real,
    topSpenders: seq<Customer>)

  const NoStats: CustomerStats := CustomerStats(0, 0, 0.0, 0.0, [])

  // ------------------------------------------------------- statistics

  /** The order was placed under exactly this email (case counts). */
  predicate PlacedBy(o: OrderRecord, email: string) { o.customerEmail == Some(email) }

  /** order.total || 0. */
  function TotalOrZero(o: OrderRecord): real
  {
    if o.total.Some? then o.total.value else 0.0
  }

  /** The orders of one customer, in the stored order. */
  function OrdersOf(orders: seq<OrderRecord>, email: string): (r: seq<OrderRecord>)
    ensures forall o :: o in r <==> o in orders && PlacedBy(o, email)
  {
    Filter(orders, (o: OrderRecord) => PlacedBy(o, email))
  }

  /** The customer with the count and the summed totals of their orders; nothing else changes. */
  function WithStats(c: Customer, orders: seq<OrderRecord>): Customer
  {
    var mine := OrdersOf(orders, c.email);
    c.(totalOrders := |mine|, totalSpent := Sum(mine, TotalOrZero))
  }

  /** Every customer with the statistics of their own orders, in the same order. */
  function AllWithStats(customers: seq<Customer>, orders: seq<OrderRecord>): (r: seq<Customer>)
    ensures |r| == |customers|
    ensures forall i :: 0 <= i < |r| ==> r[i] == WithStats(customers[i], orders)
  {
    seq(|customers|, i requires 0 <= i < |customers| => WithStats(customers[i], orders))
  }

  /** The forEach of calculateCustomerStats: each customer gets the statistics of its own orders. */
  method AddOrderStats(customers: seq<Customer>, orders: seq<OrderRecord>) returns (r: seq<Customer>)
    ensures r == AllWithStats(customers, orders)
  {
    r := customers;
    var i := 0;
    while i < |r|
      invariant 0 <= i <= |r| == |customers|
      invariant forall k :: 0 <= k < i ==> r[k] == WithStats(customers[k], orders)
      invariant forall k :: i <= k < |r| ==> r[k] == customers[k]
    {
      var mine := Filter(orders, (o: OrderRecord) => PlacedBy(o, r[i].email));
      r := r[i := r[i].(totalOrders := |mine|, totalSpent := Sum(mine, TotalOrZero))];
      i := i + 1;
    }
    assert r == AllWithStats(customers, orders);
  }

  function Spent(c: Customer): real { c.totalSpent }

  /** The sum of what every customer spent. */
  function TotalRevenue(customers: seq<Customer>): real
  {
    Sum(customers, Spent)
  }

  /**
   * totalRevenue / orders.length || 0: the revenue spread over every stored
   * order; 0 when there are no orders, where the division gives NaN.
   */
  function AverageOrderValue(revenue: real, orderCount: nat): real
  {
    if orderCount == 0 then 0.0 else revenue / orderCount as real
  }

  /** Registered on or after the first of this month. */
  predicate NewSince(c: Customer, monthStart: int)
  {
    c.registrationDate.Some? && c.registrationDate.value >= monthStart
  }

  /** The comparator of the top spenders: the larger total first. */
  predicate SpentMore(a: Customer, b: Customer) { a.totalSpent >= b.totalSpent }

  lemma SpentMorePreorder()
    ensures Sorting.Preorder(SpentMore)
  {
  }

  predicate HasSpent(c: Customer) { c.totalSpent > 0.0 }

  /** The customers who spent something, largest total first, at most five. */
  function TopSpenders(customers: seq<Customer>): seq<Customer>
  {
    Take(Sorting.SortBy(Filter(customers, HasSpent), SpentMore), 5)
  }

  /**
   * The top spenders are at most five customers who spent something, in
   * descending order of spending, and no customer left out spent more than
   * any of them (one is left out only when five are shown).
   */
  lemma TopSpendersCorrect(customers: seq<Customer>)
    ensures var top := TopSpenders(customers);
      |top| <= 5 &&
      (forall c :: c in top ==> c in customers && c.totalSpent > 0.0) &&
      (forall i, j :: 0 <= i < j < |top| ==> top[i].totalSpent >= top[j].totalSpent) &&
      (forall c :: c in customers && c.totalSpent > 0.0 && c !in top ==>
        |top| == 5 && forall t :: t in top ==> t.totalSpent >= c.totalSpent)
  {
    var s := Filter(customers, HasSpent);
    var sorted := Sorting.SortBy(s, SpentMore);
    var top := Take(sorted, 5);
    SpentMorePreorder();
    Sorting.SortBySorted(s, SpentMore);
    forall c | c in top ensures c in customers && c.totalSpent > 0.0 {
      Sorting.SortByMembers(s, SpentMore, c);
    }
    forall c | c in customers && c.totalSpent > 0.0 && c !in top
      ensures |top| == 5 && forall t :: t in top ==> t.totalSpent >= c.totalSpent
    {
      Sorting.SortByMembers(s, SpentMore, c);
      var k :| 0 <= k < |sorted| && sorted[k] == c;
      assert k >= 5;
      forall t | t in top ensures t.totalSpent >= c.totalSpent {
        var j :| 0 <= j < |top| && top[j] == t;
        assert sorted[j] == t;
      }
    }
  }

  /** calculateCustomerStats' figures for customers whose order statistics are filled in. */
  function Stats(customers: seq<Customer>, orderCount: nat, monthStart: int): CustomerStats
  {
    var revenue := TotalRevenue(customers);
    CustomerStats(
      |customers|,
      Count(customers, (c: Customer) => NewSince(c, monthStart)),
      revenue,
      AverageOrderValue(revenue, orderCount),
      TopSpenders(customers))
  }

  /**
   * Without orders every customer has spent 0, so the revenue is 0: the
   * division by zero is always 0 / 0, whose NaN the page turns into 0.
   */
  lemma {:induction false} RevenueWithoutOrders(customers: seq<Customer>, r: seq<Customer>)
    requires |r| == |customers| && forall i :: 0 <= i < |r| ==> r[i] == WithStats(customers[i], [])
    ensures TotalRevenue(r) == 0.0
  {
    if r != [] {
      assert Filter([], (o: OrderRecord) => PlacedBy(o, customers[0].email)) == [];
      RevenueWithoutOrders(customers[1..], r[1..]);
    }
  }

  /** The order was placed under one of the emails. */
  predicate PlacedByAny(o: OrderRecord, emails: set<string>)
  {
    o.customerEmail.Some? && o.customerEmail.value in emails
  }

  /** The total of the orders placed under one of the emails. */
  function TotalUnder(orders: seq<OrderRecord>, emails: set<string>): real
  {
    Sum(Filter(orders, (o: OrderRecord) => PlacedByAny(o, emails)), TotalOrZero)
  }

  /** Adding an email not yet counted adds the total of its own orders. */
  lemma {:induction false} TotalUnderAdd(orders: seq<OrderRecord>, emails: set<string>, e: string)
    requires e !in emails
    ensures TotalUnder(orders, emails + {e}) == TotalUnder(orders, emails) + Sum(OrdersOf(orders, e), TotalOrZero)
  {
    if orders != [] {
      var o, rest := orders[0], orders[1..];
      TotalUnderAdd(rest, emails, e);
      var all := Filter(orders, (o: OrderRecord) => PlacedByAny(o, emails + {e}));
      var before := Filter(orders, (o: OrderRecord) => PlacedByAny(o, emails));
      var mine := OrdersOf(orders, e);
      var first := if PlacedByAny(o, emails + {e}) then [o] else [];
      assert all == first + Filter(rest, (o: OrderRecord) => PlacedByAny(o, emails + {e}));
      assert before == (if PlacedByAny(o, emails) then [o] else []) + Filter(rest, (o: OrderRecord) => PlacedByAny(o, emails));
      assert mine == (if PlacedBy(o, e) then [o] else []) + OrdersOf(rest, e);
      SumAppend(first, Filter(rest, (o: OrderRecord) => PlacedByAny(o, emails + {e})), TotalOrZero);
      SumAppend(if PlacedByAny(o, emails) then [o] else [], Filter(rest, (o: OrderRecord) => PlacedByAny(o, emails)), TotalOrZero);
      SumAppend(if PlacedBy(o, e) then [o] else [], OrdersOf(rest, e), TotalOrZero);
    }
  }

  /** No order is placed under an empty set of emails. */
  lemma {:induction false} NothingUnderNoEmails(orders: seq<OrderRecord>)
    ensures TotalUnder(orders, {}) == 0.0
  {
    if orders != [] {
      NothingUnderNoEmails(orders[1..]);
      assert Filter(orders, (o: OrderRecord) => PlacedByAny(o, {})) == Filter(orders[1..], (o: OrderRecord) => PlacedByAny(o, {}));
    }
  }

  function Emails(customers: seq<Customer>): set<string>
  {
    set c | c in customers :: c.email
  }

  /** No two customers share an email. */
  predicate DistinctEmails(customers: seq<Customer>)
  {
    forall i, j :: 0 <= i < j < |customers| ==> customers[i].email != customers[j].email
  }

  /**
   * With distinct emails the revenue counts every order placed under a
   * customer's email exactly once; orders under other emails, or without
   * customer information, are not counted.
   */
  lemma {:induction false} RevenueCountsOrdersOnce(customers: seq<Customer>, orders: seq<OrderRecord>, r: seq<Customer>)
    requires DistinctEmails(customers)
    requires |r| == |customers| && forall i :: 0 <= i < |r| ==> r[i] == WithStats(customers[i], orders)
    ensures TotalRevenue(r) == TotalUnder(orders, Emails(customers))
  {
    if customers == [] {
      assert Emails(customers) == {};
      NothingUnderNoEmails(orders);
    } else {
      var rest := customers[1..];
      assert DistinctEmails(rest);
      RevenueCountsOrdersOnce(rest, orders, r[1..]);
      assert Emails(customers) == Emails(rest) + {customers[0].email} by {
        assert forall c :: c in customers <==> c == customers[0] || c in rest;
      }
      assert customers[0].email !in Emails(rest);
      TotalUnderAdd(orders, Emails(rest), customers[0].email);
    }
  }

  // ---------------------------------------------------------- filters

  /** The filter bar: empty texts and absent dates are inactive; a date is the first millisecond of its day. */
  datatype CustomerFilters = CustomerFilters(
    name: string,
    email: string,
    gender: string,
    city: string,
    dateFrom: Option<int>,
    dateTo: Option<int>)

  const NoFilters: CustomerFilters := CustomerFilters("", "", "", "", None, None)

  /**
   * Name, email and city are case-insensitive substrings, the gender must
   * match exactly, and a customer with no city or no registration date
   * passes the city or date filters.
   */
  predicate PassesFilters(c: Customer, f: CustomerFilters)
  {
    (f.name == "" || Contains(Lower(c.name), Lower(f.name))) &&
    (f.email == "" || Contains(Lower(c.email), Lower(f.email))) &&
    (f.gender == "" || c.gender == Some(f.gender)) &&
    (f.city == "" || c.city == "" || Contains(Lower(c.city), Lower(f.city))) &&
    (f.dateFrom.None? || c.registrationDate.None? || c.registrationDate.value >= f.dateFrom.value) &&
    (f.dateTo.None? || c.registrationDate.None? || c.registrationDate.value <= EndOfDay(f.dateTo.value))
  }

  /** The text filters ignore the case of what is typed into them. */
  lemma FiltersIgnoreCase(c: Customer, f: CustomerFilters)
    ensures PassesFilters(c, f) <==> PassesFilters(c, f.(name := Lower(f.name), email := Lower(f.email), city := Lower(f.city)))
  {
    LowerTwice(f.name);
    LowerTwice(f.email);
    LowerTwice(f.city);
  }

  // ---------------------------------------------------------- sorting

  /** The key of a customer in a column: texts lower-cased, a missing date as 0, unknown columns all equal. */
  function CustomerSortKey(c: Customer, field: string): SortKey
  {
    if field == "name" then Str(Lower(c.name))
    else if field == "email" then Str(Lower(c.email))
    else if field == "id" then Str(Lower(c.id))
    else if field == "user_id" then Str(Lower(c.userId))
    else if field == "city" then Str(Lower(c.city))
    else if field == "phone" then (if c.phone.Some? then Str(Lower(c.phone.value)) else Absent)
    else if field == "dateOfBirth" then (if c.dateOfBirth.Some? then Str(Lower(c.dateOfBirth.value)) else Absent)
    else if field == "gender" then (if c.gender.Some? then Str(Lower(c.gender.value)) else Absent)
    else if field == "registrationDate" then Num(if c.registrationDate.Some? then c.registrationDate.value as real else 0.0)
    else if field == "totalOrders" then Num(c.totalOrders as real)
    else if field == "totalSpent" then Num(c.totalSpent)
    else Absent
  }

  /** The comparator of sortCustomers: ascending or descending by the column's key. */
  predicate CustomerLe(field: string, direction: string, a: Customer, b: Customer)
  {
    if direction == "asc" then KeyLe(CustomerSortKey(a, field), CustomerSortKey(b, field))
    else KeyLe(CustomerSortKey(b, field), CustomerSortKey(a, field))
  }

  function Comparator(field: string, direction: string): (Customer, Customer) -> bool
  {
    (a: Customer, b: Customer) => CustomerLe(field, direction, a, b)
  }

  lemma ComparatorPreorder(field: string, direction: string)
    ensures Sorting.Preorder(Comparator(field, direction))
  {
    var le := Comparator(field, direction);
    forall a: Customer, b: Customer ensures le(a, b) || le(b, a) {
      KeyLeTotal(CustomerSortKey(a, field), CustomerSortKey(b, field));
    }
    forall a: Customer, b: Customer, c: Customer | le(a, b) && le(b, c) ensures le(a, c) {
      if direction == "asc" {
        KeyLeTransitive(CustomerSortKey(a, field), CustomerSortKey(b, field), CustomerSortKey(c, field));
      } else {
        KeyLeTransitive(CustomerSortKey(c, field), CustomerSortKey(b, field), CustomerSortKey(a, field));
      }
    }
  }

  /** sortCustomers: the customers sorted by a column in a direction. */
  function ColumnSorted(customers: seq<Customer>, field: string, direction: string): seq<Customer>
  {
    Sorting.SortBy(customers, Comparator(field, direction))
  }

  /** Sorting by a column keeps every customer, as often as listed, and orders the list by that column. */
  lemma ColumnSortedCorrect(customers: seq<Customer>, field: string, direction: string)
    ensures var r := ColumnSorted(customers, field, direction);
      multiset(r) == multiset(customers) &&
      (forall i, j :: 0 <= i < j < |r| ==> CustomerLe(field, direction, r[i], r[j]))
  {
    var le := Comparator(field, direction);
    ComparatorPreorder(field, direction);
    Sorting.SortBySorted(customers, le);
    Sorting.SortByPermutation(customers, le);
    var r := Sorting.SortBy(customers, le);
    forall i, j | 0 <= i < j < |r| ensures CustomerLe(field, direction, r[i], r[j]) {
      assert le(r[i], r[j]);
    }
  }

  /** applyFilters followed by sortCustomers. */
  function FilteredListing(all: seq<Customer>, f: CustomerFilters, field: string, direction: string): seq<Customer>
  {
    ColumnSorted(Filter(all, (c: Customer) => PassesFilters(c, f)), field, direction)
  }

  /**
   * The table holds exactly the customers passing every active filter, each
   * as often as loaded, ordered by the sort column in the sort direction.
   */
  lemma FilteredListingCorrect(all: seq<Customer>, f: CustomerFilters, field: string, direction: string)
    ensures var r := FilteredListing(all, f, field, direction);
      multiset(r) == multiset(Filter(all, (c: Customer) => PassesFilters(c, f))) &&
      (forall c :: c in r <==> c in all && PassesFilters(c, f)) &&
      (forall i, j :: 0 <= i < j < |r| ==> CustomerLe(field, direction, r[i], r[j]))
  {
    var s := Filter(all, (c: Customer) => PassesFilters(c, f));
    ColumnSortedCorrect(s, field, direction);
    var r := ColumnSorted(s, field, direction);
    forall c ensures c in r <==> c in all && PassesFilters(c, f) {
      assert c in r <==> c in multiset(r);
      assert c in s <==> c in multiset(s);
    }
  }

  // ------------------------------------------------------ presentation

  datatype Tier = Tier(name: string, badge: string)

  /** getCustomerTier: VIP from 1000, Gold from 500, Silver from 100, Bronze below. */
  function CustomerTier(totalSpent: real): (r: Tier)
    ensures r.name == "VIP" <==> totalSpent >= 1000.0
    ensures r.name == "Gold" <==> 500.0 <= totalSpent < 1000.0
    ensures r.name == "Silver" <==> 100.0 <= totalSpent < 500.0
    ensures r.name == "Bronze" <==> totalSpent < 100.0
  {
    if totalSpent >= 1000.0 then Tier("VIP", "badge bg-warning")
    else if totalSpent >= 500.0 then Tier("Gold", "badge bg-success")
    else if totalSpent >= 100.0 then Tier("Silver", "badge bg-info")
    else Tier("Bronze", "badge bg-secondary")
  }

  /** Spending more never lowers the tier. */
  lemma TierMonotone(a: real, b: real)
    requires a <= b
    ensures TierRank(CustomerTier(a)) <= TierRank(CustomerTier(b))
  {
  }

  function TierRank(t: Tier): nat
  {
    if t.name == "VIP" then 3 else if t.name == "Gold" then 2 else if t.name == "Silver" then 1 else 0
  }

  /** getGenderBadgeClass: by the lower-cased gender; anything else, or none, is light. */
  function GenderBadgeClass(gender: Option<string>): (r: string)
    ensures gender.None? ==> r == "badge bg-light text-dark"
    ensures gender.Some? && Lower(gender.value) == "male" ==> r == "badge bg-primary"
    ensures gender.Some? && Lower(gender.value) == "female" ==> r == "badge bg-info"
    ensures gender.Some? && Lower(gender.value) == "other" ==> r == "badge bg-secondary"
    ensures gender.Some? && Lower(gender.value) !in {"male", "female", "other"} ==> r == "badge bg-light text-dark"
  {
    if gender.None? then "badge bg-light text-dark"
    else
      var g := Lower(gender.value);
      if g == "male" then "badge bg-primary"
      else if g == "female" then "badge bg-info"
      else if g == "other" then "badge bg-secondary"
      else "badge bg-light text-dark"
  }

  // -------------------------------------------------------------- page

  class AdminCustomersPage {
    var allCustomers: seq<Customer>
    var filteredCustomers: seq<Customer>
    var paginatedCustomers: seq<Customer>
    var currentPage: nat
    var itemsPerPage: nat
    var totalPages: nat
    var filters: CustomerFilters
    var sortField: string
    var sortDirection: string
    var isLoading: bool
    var showCustomerDetails: bool
    var selectedCustomer: Option<Customer>
    var customerStats: CustomerStats
    var navigatedTo: Option<string>

    /** Pages are positive and the page count is that of the filtered list. */
    ghost predicate Valid()
      reads this`itemsPerPage, this`currentPage, this`totalPages, this`filteredCustomers
    {
      itemsPerPage > 0 && currentPage >= 1 && totalPages == PageCount(|filteredCustomers|, itemsPerPage)
    }

    constructor ()
      ensures Valid()
      ensures allCustomers == [] && filteredCustomers == [] && paginatedCustomers == []
      ensures currentPage == 1 && itemsPerPage == 15 && totalPages == 0
      ensures filters == NoFilters && sortField == "name" && sortDirection == "asc"
      ensures !isLoading && !showCustomerDetails && selectedCustomer == None
      ensures customerStats == NoStats && navigatedTo == None
    {
      allCustomers := [];
      filteredCustomers := [];
      paginatedCustomers := [];
      currentPage := 1;
      itemsPerPage := 15;
      totalPages := 0;
      filters := NoFilters;
      sortField := "name";
      sortDirection := "asc";
      isLoading := false;
      showCustomerDetails := false;
      selectedCustomer := None;
      customerStats := NoStats;
      navigatedTo := None;
    }

    /**
     * calculateCustomerStats: every loaded customer gets the count and total
     * of the orders under their email, then the page's figures are taken
     * from them. monthStart is this month's first day at the current time of day.
     */
    method CalculateCustomerStats(orders: seq<OrderRecord>, monthStart: int)
      modifies this`allCustomers, this`customerStats
      ensures allCustomers == AllWithStats(old(allCustomers), orders)
      ensures customerStats == Stats(allCustomers, |orders|, monthStart)
    {
      allCustomers := AddOrderStats(allCustomers, orders);
      customerStats := Stats(allCustomers, |orders|, monthStart);
    }

    /** updatePagination: recount the pages, fall back to page 1 when the page is gone, and cut the page out. */
    method UpdatePagination()
      requires itemsPerPage > 0 && currentPage >= 1
      modifies this`totalPages, this`currentPage, this`paginatedCustomers
      ensures Valid()
      ensures totalPages == PageCount(|filteredCustomers|, itemsPerPage)
      ensures currentPage == PageAfterChange(old(currentPage), totalPages)
      ensures paginatedCustomers == PageSlice(filteredCustomers, currentPage, itemsPerPage)
    {
      totalPages := PageCount(|filteredCustomers|, itemsPerPage);
      if currentPage > totalPages {
        currentPage := 1;
      }
      paginatedCustomers := PageSlice(filteredCustomers, currentPage, itemsPerPage);
    }

    /** sortCustomers: the filtered list sorted by the current column and direction. */
    method SortCustomers()
      modifies this`filteredCustomers
      ensures filteredCustomers == ColumnSorted(old(filteredCustomers), sortField, sortDirection)
    {
      filteredCustomers := ColumnSorted(filteredCustomers, sortField, sortDirection);
    }

    /** applyFilters: keep the customers passing every active filter, sort them, and repaginate. */
    method ApplyFilters()
      requires itemsPerPage > 0 && currentPage >= 1
      modifies this`filteredCustomers, this`totalPages, this`currentPage, this`paginatedCustomers
      ensures Valid()
      ensures filteredCustomers == FilteredListing(allCustomers, filters, sortField, sortDirection)
      ensures currentPage == PageAfterChange(old(currentPage), totalPages)
      ensures paginatedCustomers == PageSlice(filteredCustomers, currentPage, itemsPerPage)
    {
      filteredCustomers := FilteredListing(allCustomers, filters, sortField, sortDirection);
      UpdatePagination();
    }

    /**
     * The page shows what was loaded: the users with the statistics of their
     * orders, the figures over them, the filtered and sorted table, and the
     * current page of it.
     */
    ghost predicate Shows(users: seq<Customer>, orders: seq<OrderRecord>, monthStart: int)
      reads this`allCustomers, this`customerStats, this`filteredCustomers, this`paginatedCustomers,
        this`filters, this`sortField, this`sortDirection, this`currentPage, this`itemsPerPage
    {
      itemsPerPage > 0 && currentPage >= 1 &&
      allCustomers == AllWithStats(users, orders) &&
      customerStats == Stats(allCustomers, |orders|, monthStart) &&
      filteredCustomers == FilteredListing(allCustomers, filters, sortField, sortDirection) &&
      paginatedCustomers == PageSlice(filteredCustomers, currentPage, itemsPerPage)
    }

    /** The loaded users become the customers, with their statistics, and the table is rebuilt. */
    method ShowLoaded(users: seq<Customer>, orders: seq<OrderRecord>, monthStart: int)
      requires itemsPerPage > 0 && currentPage >= 1
      modifies this`allCustomers, this`customerStats, this`filteredCustomers, this`totalPages, this`currentPage,
        this`paginatedCustomers
      ensures Valid() && Shows(users, orders, monthStart)
    {
      allCustomers := AddOrderStats(users, orders);
      customerStats := Stats(allCustomers, |orders|, monthStart);
      ghost var loaded, stats := allCustomers, customerStats;
      ApplyFilters();
      assert allCustomers == loaded && customerStats == stats;
    }

    /**
     * loadCustomers: users and orders are fetched together; when both
     * arrive the customers get their statistics and the table is rebuilt,
     * and when either fails nothing but the loading flag changes.
     */
    method LoadCustomers(users: Option<seq<Customer>>, orders: Option<seq<OrderRecord>>, monthStart: int)
      requires Valid()
      modifies this`isLoading, this`allCustomers, this`customerStats, this`filteredCustomers, this`totalPages,
        this`currentPage, this`paginatedCustomers
      ensures Valid() && !isLoading
      ensures users.Some? && orders.Some? ==> Shows(users.value, orders.value, monthStart)
      ensures users.None? || orders.None? ==>
        allCustomers == old(allCustomers) && customerStats == old(customerStats) &&
        filteredCustomers == old(filteredCustomers) && paginatedCustomers == old(paginatedCustomers) &&
        currentPage == old(currentPage)
    {
      isLoading := true;
      if users.None? || orders.None? {
        isLoading := false;
        return;
      }
      ShowLoaded(users.value, orders.value, monthStart);
      isLoading := false;
    }

    /** changePage: only pages 1..totalPages are taken. */
    method ChangePage(page: int)
      requires Valid()
      modifies this`currentPage, this`totalPages, this`paginatedCustomers
      ensures Valid() && totalPages == old(totalPages)
      ensures 1 <= page <= old(totalPages) ==>
        currentPage == page && paginatedCustomers == PageSlice(filteredCustomers, page, itemsPerPage)
      ensures !(1 <= page <= old(totalPages)) ==>
        currentPage == old(currentPage) && paginatedCustomers == old(paginatedCustomers)
    {
      if 1 <= page <= totalPages {
        currentPage := page;
        UpdatePagination();
      }
    }

    /** changeItemsPerPage: a new page size restarts at page 1. */
    method ChangeItemsPerPage(newSize: nat)
      requires newSize > 0
      modifies this`itemsPerPage, this`currentPage, this`totalPages, this`paginatedCustomers
      ensures Valid()
      ensures itemsPerPage == newSize && currentPage == 1
      ensures totalPages == PageCount(|filteredCustomers|, newSize)
      ensures paginatedCustomers == PageSlice(filteredCustomers, 1, newSize)
    {
      itemsPerPage := newSize;
      currentPage := 1;
      UpdatePagination();
    }

    /** sortBy: the same column flips its direction, a new column sorts ascending; then the list is re-sorted. */
    method SortBy(field: string)
      requires Valid()
      modifies this`sortField, this`sortDirection, this`filteredCustomers, this`totalPages, this`currentPage,
        this`paginatedCustomers
      ensures Valid()
      ensures SortOrder(sortField, sortDirection) == NextSort(SortOrder(old(sortField), old(sortDirection)), field)
      ensures filteredCustomers == ColumnSorted(old(filteredCustomers), sortField, sortDirection)
      ensures currentPage == PageAfterChange(old(currentPage), totalPages)
      ensures paginatedCustomers == PageSlice(filteredCustomers, currentPage, itemsPerPage)
    {
      var next := NextSort(SortOrder(sortField, sortDirection), field);
      sortField, sortDirection := next.field, next.direction;
      filteredCustomers := ColumnSorted(filteredCustomers, sortField, sortDirection);
      UpdatePagination();
    }

    /** getSortIcon: an arrow on the sorted column only, up when ascending. */
    function SortIcon(field: string): (r: string)
      reads this`sortField, this`sortDirection
      ensures r == "" <==> field != sortField
      ensures field == sortField ==> (r == "↑" <==> sortDirection == "asc")
    {
      if sortField != field then "" else if sortDirection == "asc" then "↑" else "↓"
    }

    /** clearFilters: every filter off, then applyFilters. */
    method ClearFilters()
      requires Valid()
      modifies this`filters, this`filteredCustomers, this`totalPages, this`currentPage, this`paginatedCustomers
      ensures Valid() && filters == NoFilters
      ensures filteredCustomers == FilteredListing(allCustomers, NoFilters, sortField, sortDirection)
      ensures paginatedCustomers == PageSlice(filteredCustomers, currentPage, itemsPerPage)
    {
      filters := NoFilters;
      ApplyFilters();
    }

    /** viewCustomerDetails: opens the details dialog on the customer. */
    method ViewCustomerDetails(c: Customer)
      modifies this`selectedCustomer, this`showCustomerDetails
      ensures selectedCustomer == Some(c) && showCustomerDetails
    {
      selectedCustomer := Some(c);
      showCustomerDetails := true;
    }

    /** closeCustomerDetails: closes the dialog and forgets the customer. */
    method CloseCustomerDetails()
      modifies this`selectedCustomer, this`showCustomerDetails
      ensures selectedCustomer == None && !showCustomerDetails
    {
      showCustomerDetails := false;
      selectedCustomer := None;
    }

    /** viewCustomerOrders: the orders page filtered on the customer's email. */
    method ViewCustomerOrders(c: Customer)
      modifies this`navigatedTo
      ensures navigatedTo == Some("/admin/orders?customer=" + c.email)
    {
      navigatedTo := Some("/admin/orders?customer=" + c.email);
    }
  }
}
