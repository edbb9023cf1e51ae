/**
 * The address step of the checkout: phone and ZIP inputs are reduced to
 * their leading digits, a valid form stores the address in session storage
 * for the payment step, and an empty cart sends the shopper back to the cart.
 */
module CheckoutAddress {
  import opened Common
  import opened Model
  import opened DocumentStore
  import opened ShoppingCart

  const CheckoutAddressKey: string := "checkoutAddress"

  /** The address a new checkout starts from: every field empty, country 'USA', not the default. */
  const BlankAddress: Address := Address("", "", "", "", "", "", "", "", "USA", false)

  /** formatPhoneNumber: the first ten digits of the input, or all of them when fewer. */
  function FormatPhoneNumber(s: string): (r: string)
    ensures |r| <= 10 && AllDigits(r) && r <= DigitsOnly(s)
    ensures |DigitsOnly(s)| <= 10 ==> r == DigitsOnly(s)
    ensures |DigitsOnly(s)| >= 10 ==> |r| == 10
    ensures LeadingDigits(r, 10) == r
  {
    LeadingDigitsIdempotent(s, 10);
    LeadingDigits(s, 10)
  }

  /** formatZipCode: the first six digits of the input, or all of them when fewer. */
  function FormatZipCode(s: string): (r: string)
    ensures |r| <= 6 && AllDigits(r) && r <= DigitsOnly(s)
    ensures |DigitsOnly(s)| <= 6 ==> r == DigitsOnly(s)
    ensures |DigitsOnly(s)| >= 6 ==> |r| == 6
    ensures LeadingDigits(r, 6) == r
  {
    LeadingDigitsIdempotent(s, 6);
    LeadingDigits(s, 6)
  }

  class CheckoutAddressPage {
    const cartService: CartService
    const session: BrowserStorage
    var address: Address
    /** Whether the form's controls have been marked touched (so their errors show). */
    var touched: bool
    var navigatedTo: Option<string>

    constructor (cartService: CartService, session: BrowserStorage)
      ensures this.cartService == cartService && this.session == session
      ensures address == BlankAddress && address.country == "USA" && !address.isDefault
      ensures !touched && navigatedTo == None
    {
      this.cartService := cartService;
      this.session := session;
      address := BlankAddress;
      touched := false;
      navigatedTo := None;
    }

    /** ngOnInit: with nothing in the cart the page goes back to the cart. */
    method OnInit()
      modifies this
      ensures cartService.cart.items == [] ==> navigatedTo == Some("/cart")
      ensures cartService.cart.items != [] ==> navigatedTo == old(navigatedTo)
      ensures address == old(address) && touched == old(touched)
    {
      if |cartService.cart.items| == 0 {
        navigatedTo := Some("/cart");
      }
    }

    /**
     * onSubmit: a valid form stores the address under 'checkoutAddress' and
     * opens the payment step; an invalid one stores nothing and marks every
     * control touched.
     */
    method OnSubmit(formValid: bool)
      modifies this, session
      ensures formValid ==>
        session.items == old(session.items)[CheckoutAddressKey := AddressJson(address)] &&
        navigatedTo == Some("/checkout/payment") && touched == old(touched)
      ensures !formValid ==> session.items == old(session.items) && touched && navigatedTo == old(navigatedTo)
      ensures address == old(address)
    {
      if formValid {
        session.SetItem(CheckoutAddressKey, AddressJson(address));
        navigatedTo := Some("/checkout/payment");
      } else {
        touched := true;
      }
    }

    /** formatPhoneNumber: the field keeps the formatted digits, which are also written back to the input. */
    method OnPhoneInput(input: string) returns (shown: string)
      modifies this
      ensures address == old(address).(phone := FormatPhoneNumber(input)) && shown == address.phone
      ensures touched == old(touched) && navigatedTo == old(navigatedTo)
    {
      address := address.(phone := FormatPhoneNumber(input));
      shown := address.phone;
    }

    /** formatZipCode: the postal code keeps the formatted digits, which are also written back to the input. */
    method OnZipInput(input: string) returns (shown: string)
      modifies this
      ensures address == old(address).(postalCode := FormatZipCode(input)) && shown == address.postalCode
      ensures touched == old(touched) && navigatedTo == old(navigatedTo)
    {
      address := address.(postalCode := FormatZipCode(input));
      shown := address.postalCode;
    }
  }
}
