/**
 * The payment step of the checkout: the payment fields are validated for the
 * chosen payment type, the stock of every cart line is checked, and the
 * order is saved as a snapshot of the cart (8% tax, free shipping). Only a
 * saved order takes its quantities out of stock and clears the cart.
 */
module CheckoutPayment {
  import opened Common
  import opened Model
  import opened DocumentStore
  import opened Inventory
  import opened ShoppingCart
  import CheckoutAddress

  // -------------------------------------------------------- validation

  /** isValidUPI: a non-empty id whose lower-cased text ends with one of the three providers. */
  predicate IsValidUpi(upiId: string)
  {
    upiId != "" &&
    (EndsWith(Lower(upiId), "@gpay") || EndsWith(Lower(upiId), "@phonepe") || EndsWith(Lower(upiId), "@paytm"))
  }

  /** The UPI check ignores case: an id and its lower-cased form are accepted alike. */
  lemma UpiIgnoresCase(upiId: string)
    ensures IsValidUpi(upiId) <==> IsValidUpi(Lower(upiId))
  {
    LowerTwice(upiId);
  }

  /**
   * Only the suffix is checked: any text, even none, followed by a provider
   * suffix in any case is accepted, and an empty id never is.
   */
  lemma UpiBareSuffix(prefix: string, provider: string)
    requires Lower(provider) in {"@gpay", "@phonepe", "@paytm"}
    ensures IsValidUpi(prefix + provider)
    ensures !IsValidUpi("")
  {
    var s := prefix + provider;
    assert Lower(s) == Lower(prefix) + Lower(provider);
    assert Lower(s)[|Lower(s)| - |Lower(provider)|..] == Lower(provider);
  }

  /** The payment fields onSubmit copies from the form (a missing value becomes ''). */
  function FromForm(payment: PaymentMethod, form: PaymentMethod): (r: PaymentMethod)
    ensures r.kind == payment.kind
    ensures r.cardholderName == form.cardholderName && r.cardNumber == form.cardNumber && r.cvv == form.cvv
    ensures r.expiryMonth == form.expiryMonth && r.expiryYear == form.expiryYear && r.upiId == form.upiId
  {
    payment.(cardholderName := form.cardholderName, cardNumber := form.cardNumber,
             expiryMonth := form.expiryMonth, expiryYear := form.expiryYear,
             cvv := form.cvv, upiId := form.upiId)
  }

  /**
   * onSubmit's validation: a card needs all five card fields, UPI a valid
   * id, cash on delivery nothing. The result is the message shown, if any.
   */
  function PaymentError(selectedType: string, p: PaymentMethod): (r: Option<string>)
    ensures r.None? <==>
      (selectedType == "card" ==> p.cardholderName != "" && p.cardNumber != "" && p.expiryMonth != "" && p.expiryYear != "" && p.cvv != "") &&
      (selectedType == "upi" ==> IsValidUpi(p.upiId))
    ensures selectedType == "upi" && p.upiId == "" ==> r == Some("Please enter your UPI ID")
    ensures selectedType != "card" && selectedType != "upi" ==> r.None?
  {
    if selectedType == "card" then
      if p.cardholderName == "" || p.cardNumber == "" || p.expiryMonth == "" || p.expiryYear == "" || p.cvv == ""
      then Some("Please fill in all card details")
      else None
    else if selectedType == "upi" then
      if p.upiId == "" then Some("Please enter your UPI ID")
      else if !IsValidUpi(p.upiId) then Some("UPI ID must end with @gpay, @phonepe, or @paytm")
      else None
    else None
  }

  // ------------------------------------------------------- stock check

  /** Every line's product can be fetched. */
  predicate AllFetched(products: map<int, Product>, items: seq<CartItem>)
  {
    forall i :: 0 <= i < |items| ==> items[i].productId in products
  }

  /** Every line asks for no more than its product's current stock. */
  predicate StockSufficient(products: map<int, Product>, items: seq<CartItem>)
    requires AllFetched(products, items)
  {
    forall i :: 0 <= i < |items| ==> items[i].quantity <= products[items[i].productId].stock
  }

  /**
   * checkStockAvailability: whether every line is covered by its product's
   * stock, or no answer at all when one of the products cannot be fetched
   * (the joined promise is rejected and nothing handles it).
   */
  method CheckStockAvailability(store: Store, items: seq<CartItem>) returns (r: Option<bool>)
    ensures r.None? <==> !AllFetched(store.products, items)
    ensures r.Some? ==> (r.value <==> StockSufficient(store.products, items))
  {
    var fetched := true;
    var enough := true;
    var i := 0;
    while i < |items|
      invariant 0 <= i <= |items|
      invariant fetched <==> forall k :: 0 <= k < i ==> items[k].productId in store.products
      invariant fetched ==> (enough <==> forall k :: 0 <= k < i ==> items[k].quantity <= store.products[items[k].productId].stock)
    {
      var pid := items[i].productId;
      if pid in store.products {
        enough := enough && items[i].quantity <= store.products[pid].stock;
      } else {
        fetched := false;
      }
      i := i + 1;
    }
    r := if fetched then Some(enough) else None;
  }

  /** No two lines name the same product, which the cart's merging of lines keeps true. */
  predicate DistinctProducts(items: seq<CartItem>)
  {
    forall i, j :: 0 <= i < j < |items| ==> items[i].productId != items[j].productId
  }

  /**
   * When the stock check passes and no product has two lines, the sale
   * never needs its clamp at zero: each product's stock drops by exactly the
   * quantity of its line.
   */
  lemma {:induction false} CheckedSaleIsExact(products: map<int, Product>, items: seq<CartItem>, i: nat)
    requires AllFetched(products, items) && StockSufficient(products, items) && DistinctProducts(items)
    requires i < |items|
    ensures items[i].productId in Sold(products, items)
    ensures Sold(products, items)[items[i].productId].stock == products[items[i].productId].stock - items[i].quantity
  {
    var init := items[..|items| - 1];
    var last := items[|items| - 1];
    var pid := items[i].productId;
    CheckedPrefix(products, items);
    SoldConsistent(products, init, pid);
    SoldConsistent(products, init, last.productId);
    if i < |items| - 1 {
      assert init[i] == items[i];
      CheckedSaleIsExact(products, init, i);
    }
  }

  /** The lines before the last keep the three conditions, and none of them names the last line's product. */
  lemma CheckedPrefix(products: map<int, Product>, items: seq<CartItem>)
    requires AllFetched(products, items) && StockSufficient(products, items) && DistinctProducts(items)
    requires items != []
    ensures var init := items[..|items| - 1];
      AllFetched(products, init) && StockSufficient(products, init) && DistinctProducts(init) &&
      forall k :: 0 <= k < |init| ==> init[k].productId != items[|items| - 1].productId
  {
    var init := items[..|items| - 1];
    assert forall k :: 0 <= k < |init| ==> init[k] == items[k];
  }

  // ---------------------------------------------------------- the order

  /** generateOrderNumber: 'ORD-', the time in milliseconds, '-', and floor(random × 1000). */
  function GenerateOrderNumber(now: nat, random: real): (r: string)
    requires 0.0 <= random < 1.0
  {
    var n := (random * 1000.0).Floor;
    assert 0 <= n < 1000;
    "ORD-" + NatToString(now) + "-" + NatToString(n)
  }

  /** The first '-' in a text, or -1. */
  function DashIndex(s: string): (r: int)
    ensures -1 <= r < |s|
    ensures r >= 0 ==> s[r] == '-' && forall k :: 0 <= k < r ==> s[k] != '-'
    ensures r == -1 ==> forall k :: 0 <= k < |s| ==> s[k] != '-'
  {
    if s == [] then -1
    else if s[0] == '-' then 0
    else
      var k := DashIndex(s[1..]);
      if k == -1 then -1 else k + 1
  }

  /** Reads the time and the random part back out of an order number. */
  function ParseOrderNumber(s: string): Option<(nat, nat)>
  {
    if |s| < 4 || s[..4] != "ORD-" then None
    else
      var rest := s[4..];
      var k := DashIndex(rest);
      if k < 0 then None
      else
        var a, b := rest[..k], rest[k + 1..];
        if a != [] && b != [] && AllDigits(a) && AllDigits(b) then Some((ParseNat(a), ParseNat(b))) else None
  }

  /** An order number gives back the time it was made at and a random part below 1000. */
  lemma OrderNumberRoundTrip(now: nat, random: real)
    requires 0.0 <= random < 1.0
    ensures var parsed := ParseOrderNumber(GenerateOrderNumber(now, random));
      parsed.Some? && parsed.value.0 == now && parsed.value.1 == (random * 1000.0).Floor && parsed.value.1 < 1000
  {
    var n := (random * 1000.0).Floor;
    var t, u := NatToString(now), NatToString(n);
    var s := GenerateOrderNumber(now, random);
    assert s == "ORD-" + t + "-" + u;
    var rest := s[4..];
    assert rest == t + "-" + u;
    assert forall k :: 0 <= k < |t| ==> rest[k] == t[k] && rest[k] != '-';
    assert rest[|t|] == '-';
    assert DashIndex(rest) == |t|;
    assert rest[..|t|] == t && rest[|t| + 1..] == u;
    ParseNatToString(now);
    ParseNatToString(n);
  }

  /** calculateDeliveryDate: the start (UTC) of the day five days from now. */
  function DeliveryDay(now: nat): (r: int)
    ensures r % DayMillis == 0
    ensures r <= now + 5 * DayMillis < r + DayMillis
  {
    ((now + 5 * DayMillis) / DayMillis) * DayMillis
  }

  /**
   * The order processPayment saves: the cart's lines and total with 8% tax
   * and no shipping, the shipping address as customer, status 'confirmed',
   * and a payment that is pending exactly for cash on delivery.
   */
  function OrderSnapshot(cart: Cart, address: Address, payment: PaymentMethod, orderNumber: string, now: nat): (r: Order)
    ensures r.items == cart.items && r.subtotal == cart.totalPrice
    ensures r.tax == 0.08 * r.subtotal && r.shipping == 0.0 && r.total == r.subtotal + r.tax
    ensures r.orderStatus == Confirmed
    ensures r.paymentStatus == "pending" <==> payment.kind == "cod"
    ensures r.paymentStatus == "pending" || r.paymentStatus == "completed"
    ensures r.customerInfo == Some(CustomerInfo(address.fullName, address.email, address.phone))
    ensures r.shippingAddress == address && r.paymentMethod == payment && r.orderNumber == Some(orderNumber)
    ensures r.orderDate == now && r.estimatedDelivery == DeliveryDay(now)
    ensures r.id.None? && r.trackingHistory.None? && !IsTrue(r.isArchived)
  {
    Order(
      id := None,
      orderNumber := Some(orderNumber),
      customerInfo := Some(CustomerInfo(address.fullName, address.email, address.phone)),
      shippingAddress := address,
      items := cart.items,
      subtotal := cart.totalPrice,
      tax := cart.totalPrice * 0.08,
      shipping := 0.0,
      total := cart.totalPrice * 1.08,
      paymentMethod := payment,
      orderStatus := Confirmed,
      paymentStatus := if payment.kind == "cod" then "pending" else "completed",
      orderDate := now,
      estimatedDelivery := DeliveryDay(now),
      trackingHistory := None,
      currentLocation := None,
      processingNotes := None,
      lastUpdated := None,
      updatedBy := None,
      cancellationReason := None,
      cancelledAt := None,
      cancelledBy := None,
      visibleToAdmin := None,
      visibleToCustomer := None,
      isArchived := None,
      archivedAt := None,
      archivedReason := None,
      archivedBy := None,
      autoDeleteDate := None)
  }

  // -------------------------------------------------------- formatting

  /** Groups a digit string by four, with one space after each group that another digit follows. */
  function GroupDigits(d: string): (r: string)
    decreases |d|
  {
    if |d| > 4 then d[..4] + " " + GroupDigits(d[4..]) else d
  }

  /** formatCardNumber: the digits of the input grouped by four. */
  function FormatCardNumber(s: string): string
  {
    GroupDigits(DigitsOnly(s))
  }

  /** Position i of a grouped number is a space exactly when i is the fifth of its block, and it never ends in a space. */
  lemma {:induction false} GroupDigitsShape(d: string)
    requires AllDigits(d)
    ensures var r := GroupDigits(d);
      (forall i :: 0 <= i < |r| ==> (r[i] == ' ' <==> i % 5 == 4) && (i % 5 != 4 ==> IsDigit(r[i]))) &&
      (r == [] || r[|r| - 1] != ' ') &&
      (|d| > 0 ==> |r| == |d| + (|d| - 1) / 4)
  {
    if |d| > 4 {
      var t := GroupDigits(d[4..]);
      GroupDigitsShape(d[4..]);
      var r := d[..4] + " " + t;
      forall i | 0 <= i < |r|
        ensures (r[i] == ' ' <==> i % 5 == 4) && (i % 5 != 4 ==> IsDigit(r[i]))
      {
        if i >= 5 {
          assert r[i] == t[i - 5];
          assert (i - 5) % 5 == i % 5;
        }
      }
    }
  }

  lemma DigitsOnlyAppend(a: string, b: string)
    ensures DigitsOnly(a + b) == DigitsOnly(a) + DigitsOnly(b)
  {
    FilterAppend(a, b, IsDigit);
  }

  /** Dropping the spaces of a grouped number gives the digits back. */
  lemma {:induction false} GroupDigitsDigits(d: string)
    requires AllDigits(d)
    ensures DigitsOnly(GroupDigits(d)) == d
  {
    if |d| > 4 {
      var head, tail := d[..4], GroupDigits(d[4..]);
      GroupDigitsDigits(d[4..]);
      assert GroupDigits(d) == (head + " ") + tail;
      DigitsOnlyAppend(head + " ", tail);
      DigitsOnlyAppend(head, " ");
      DigitsOnlyOfDigits(head);
      assert DigitsOnly(" ") == [];
      assert DigitsOnly(head + " ") == head;
      assert head + d[4..] == d;
    } else {
      DigitsOnlyOfDigits(d);
    }
  }

  /** The card number keeps every digit typed, in order, and formatting it again changes nothing. */
  lemma CardNumberKeepsDigits(s: string)
    ensures DigitsOnly(FormatCardNumber(s)) == DigitsOnly(s)
    ensures FormatCardNumber(FormatCardNumber(s)) == FormatCardNumber(s)
  {
    GroupDigitsDigits(DigitsOnly(s));
  }

  /** formatCVV: the first four digits of the input, or all of them when fewer. */
  function FormatCvv(s: string): (r: string)
    ensures |r| <= 4 && AllDigits(r) && r <= DigitsOnly(s)
    ensures |DigitsOnly(s)| <= 4 ==> r == DigitsOnly(s)
    ensures |DigitsOnly(s)| >= 4 ==> |r| == 4
    ensures LeadingDigits(r, 4) == r
  {
    LeadingDigitsIdempotent(s, 4);
    LeadingDigits(s, 4)
  }

  /** The expiry years offered: this year and the ten after it. */
  method YearOptions(currentYear: nat) returns (years: seq<string>)
    ensures |years| == 11
    ensures forall i :: 0 <= i < 11 ==> years[i] == NatToString(currentYear + i)
  {
    years := [];
    var i := 0;
    while i < 11
      invariant 0 <= i <= 11 && |years| == i
      invariant forall k :: 0 <= k < i ==> years[k] == NatToString(currentYear + k)
    {
      years := years + [NatToString(currentYear + i)];
      i := i + 1;
    }
  }

  const PaymentFailed: string := "Payment failed. Please try again."
  const OutOfStockToast: string := "Some items in your cart are out of stock. Please update your cart."
  const PaymentSucceeded: string := "Payment successful! Your order has been placed."

  /** The order a submitted payment places, when it reaches the save. */
  function PlacedOrder(cart: Cart, address: Address, payment: PaymentMethod, now: nat, random: real, newId: string): (r: Order)
    requires 0.0 <= random < 1.0
    ensures r.id == Some(newId) && r.orderNumber == Some(GenerateOrderNumber(now, random))
    ensures r == OrderSnapshot(cart, address, payment, GenerateOrderNumber(now, random), now).(id := Some(newId))
  {
    OrderSnapshot(cart, address, payment, GenerateOrderNumber(now, random), now).(id := Some(newId))
  }

  /** The order is placed and saved, and the order, the stock and the cart are written. */
  method PlaceOrder(service: CartService, session: BrowserStorage, order: Order, reloadOk: bool)
    modifies service, service.store, session
    ensures service.store.orders == old(service.store.orders) + [order]
    ensures service.store.products == Sold(old(service.store.products), order.items)
    ensures service.store.cart == RemoveLines(old(service.store.cart), old(service.cart.items))
    ensures session.items == old(session.items) - {CheckoutAddress.CheckoutAddressKey}
    ensures service.store.users == old(service.store.users) && service.store.admins == old(service.store.admins)
  {
    var store := service.store;
    store.PostOrder(order);
    UpdateProductStock(store, order.items);
    session.RemoveItem(CheckoutAddress.CheckoutAddressKey);
    var cleared := service.ClearCart(reloadOk);
  }

  class CheckoutPaymentPage {
    const cartService: CartService
    const session: BrowserStorage
    var shippingAddress: Option<Address>
    var isProcessing: bool
    var orderNum: string
    var selectedPaymentType: string
    var payment: PaymentMethod
    /** The values currently in the payment form. */
    var form: PaymentMethod
    var years: seq<string>
    var alertMessage: Option<string>
    var toast: Option<string>
    var navigatedTo: Option<string>

    constructor (cartService: CartService, session: BrowserStorage, currentYear: nat)
      ensures this.cartService == cartService && this.session == session
      ensures !isProcessing && selectedPaymentType == "card" && payment == PaymentMethod("card", "", "", "", "", "", "")
      ensures |years| == 11 && forall i :: 0 <= i < 11 ==> years[i] == NatToString(currentYear + i)
    {
      this.cartService := cartService;
      this.session := session;
      shippingAddress := None;
      isProcessing := false;
      orderNum := "";
      selectedPaymentType := "card";
      payment := PaymentMethod("card", "", "", "", "", "", "");
      form := PaymentMethod("card", "", "", "", "", "", "");
      alertMessage := None;
      toast := None;
      navigatedTo := None;
      var options := YearOptions(currentYear);
      years := options;
    }

    /** onPaymentTypeChange: the new type is selected and every payment field is emptied. */
    method OnPaymentTypeChange(kind: string)
      modifies this
      ensures selectedPaymentType == kind && payment == PaymentMethod(kind, "", "", "", "", "", "")
      ensures form == old(form).(cardholderName := "", cardNumber := "", expiryMonth := "", expiryYear := "", cvv := "", upiId := "")
      ensures isProcessing == old(isProcessing) && shippingAddress == old(shippingAddress)
    {
      selectedPaymentType := kind;
      payment := PaymentMethod(kind, "", "", "", "", "", "");
      form := form.(cardholderName := "", cardNumber := "", expiryMonth := "", expiryYear := "", cvv := "", upiId := "");
    }

    /** formatCardNumber and formatCVV: the form keeps the formatted text. */
    method FormatInputs(cardInput: string, cvvInput: string)
      modifies this
      ensures form == old(form).(cardNumber := FormatCardNumber(cardInput), cvv := FormatCvv(cvvInput))
      ensures payment == old(payment) && isProcessing == old(isProcessing)
    {
      form := form.(cardNumber := FormatCardNumber(cardInput), cvv := FormatCvv(cvvInput));
    }

    /**
     * onSubmit: ignored while a payment is processing. Otherwise the form is
     * copied into the payment and validated; a valid payment whose stock
     * check passes goes on to processPayment, which saves the order and,
     * only when the save succeeds, takes the stock, clears the cart and
     * opens the order's tracking page. Processing ends in every case except
     * when no shipping address was loaded, where building the order fails.
     */
    method OnSubmit(now: nat, random: real, newId: string, postOk: bool, reloadOk: bool)
      requires 0.0 <= random < 1.0
      modifies this, cartService, cartService.store, session
      ensures old(isProcessing) ==>
        isProcessing && payment == old(payment) && cartService.store.orders == old(cartService.store.orders) &&
        cartService.store.products == old(cartService.store.products) && cartService.store.cart == old(cartService.store.cart)
      ensures !old(isProcessing) ==> payment == FromForm(old(payment), old(form))
      ensures !old(isProcessing) && PaymentError(old(selectedPaymentType), payment).Some? ==>
        alertMessage == PaymentError(old(selectedPaymentType), payment) && !isProcessing
      ensures
        var reached := !old(isProcessing) && PaymentError(old(selectedPaymentType), FromForm(old(payment), old(form))).None? &&
          AllFetched(old(cartService.store.products), old(cartService.cart.items)) &&
          StockSufficient(old(cartService.store.products), old(cartService.cart.items)) && old(shippingAddress).Some?;
        var placed := reached && postOk;
        (placed ==>
          var order := PlacedOrder(old(cartService.cart), old(shippingAddress).value, FromForm(old(payment), old(form)), now, random, newId);
          cartService.store.orders == old(cartService.store.orders) + [order] &&
          cartService.store.products == Sold(old(cartService.store.products), old(cartService.cart.items)) &&
          cartService.store.cart == RemoveLines(old(cartService.store.cart), old(cartService.cart.items)) &&
          session.items == old(session.items) - {CheckoutAddress.CheckoutAddressKey} &&
          orderNum == order.orderNumber.value && navigatedTo == Some("/order-tracking/" + orderNum) && !isProcessing) &&
        (!placed ==>
          cartService.store.orders == old(cartService.store.orders) &&
          cartService.store.products == old(cartService.store.products) &&
          cartService.store.cart == old(cartService.store.cart)) &&
        (reached && !postOk ==> toast == Some(PaymentFailed) && !isProcessing)
      ensures
        var checked := !old(isProcessing) && PaymentError(old(selectedPaymentType), FromForm(old(payment), old(form))).None?;
        (checked && AllFetched(old(cartService.store.products), old(cartService.cart.items)) &&
         !StockSufficient(old(cartService.store.products), old(cartService.cart.items)) ==>
          toast == Some(OutOfStockToast) && !isProcessing && navigatedTo == old(navigatedTo)) &&
        (checked && !AllFetched(old(cartService.store.products), old(cartService.cart.items)) ==>
          toast == old(toast) && !isProcessing && navigatedTo == old(navigatedTo))
      ensures cartService.store.users == old(cartService.store.users) && cartService.store.admins == old(cartService.store.admins)
    {
      if isProcessing {
        return;
      }
      payment := FromForm(payment, form);
      var error := PaymentError(selectedPaymentType, payment);
      if error.Some? {
        alertMessage := error;
        return;
      }
      var hasStock := CheckStockAvailability(cartService.store, cartService.cart.items);
      if hasStock == Some(false) {
        toast := Some(OutOfStockToast);
      } else if hasStock == Some(true) {
        ProcessPayment(now, random, newId, postOk, reloadOk);
      }
    }

    /** processPayment: builds the order snapshot and saves it; see OnSubmit. */
    method ProcessPayment(now: nat, random: real, newId: string, postOk: bool, reloadOk: bool)
      requires 0.0 <= random < 1.0
      modifies this, cartService, cartService.store, session
      ensures old(shippingAddress).None? ==>
        isProcessing && cartService.store.orders == old(cartService.store.orders) &&
        cartService.store.products == old(cartService.store.products) && cartService.store.cart == old(cartService.store.cart)
      ensures old(shippingAddress).Some? && postOk ==>
        var order := PlacedOrder(old(cartService.cart), old(shippingAddress).value, old(payment), now, random, newId);
        cartService.store.orders == old(cartService.store.orders) + [order] &&
        cartService.store.products == Sold(old(cartService.store.products), old(cartService.cart.items)) &&
        cartService.store.cart == RemoveLines(old(cartService.store.cart), old(cartService.cart.items)) &&
        session.items == old(session.items) - {CheckoutAddress.CheckoutAddressKey} &&
        orderNum == order.orderNumber.value && navigatedTo == Some("/order-tracking/" + orderNum) && !isProcessing
      ensures old(shippingAddress).Some? && !postOk ==>
        toast == Some(PaymentFailed) && !isProcessing &&
        cartService.store.orders == old(cartService.store.orders) &&
        cartService.store.products == old(cartService.store.products) && cartService.store.cart == old(cartService.store.cart)
      ensures payment == old(payment)
      ensures cartService.store.users == old(cartService.store.users) && cartService.store.admins == old(cartService.store.admins)
    {
      isProcessing := true;
      if shippingAddress.None? {
        return;
      }
      var order := PlacedOrder(cartService.cart, shippingAddress.value, payment, now, random, newId);
      orderNum := order.orderNumber.value;
      if postOk {
        PlaceOrder(cartService, session, order, reloadOk);
        toast := Some(PaymentSucceeded);
        navigatedTo := Some("/order-tracking/" + orderNum);
      } else {
        toast := Some(PaymentFailed);
      }
      isProcessing := false;
    }
  }
}
