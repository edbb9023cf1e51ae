/**
 * The cart page: its handlers guard the calls into the cart service (a line
 * without an id is refused, a quantity below one removes the line, removal
 * and clearing wait for the user's confirmation) and it shows the service's
 * current cart.
 */
module CartPage {
  import opened Common
  import opened Model
  import opened DocumentStore
  import opened ShoppingCart

  const MissingIdAlert: string := "Error: Cart item missing ID. Please refresh the page."
  const EmptyCartAlert: string := "Your cart is empty. Please add some items before checkout."
  const Placeholder: string := "assets/placeholder.jpg"

  /** getProductImage: the product's first image when it is a non-empty text, else the placeholder. */
  function ProductImage(item: CartItem): (r: string)
    ensures r == Placeholder <==>
      item.product.None? || item.product.value.images == [] || item.product.value.images[0] in {"", Placeholder}
    ensures r != Placeholder ==> r == item.product.value.images[0]
  {
    if item.product.Some? && item.product.value.images != [] && item.product.value.images[0] != ""
    then item.product.value.images[0]
    else Placeholder
  }

  class CartPageView {
    const service: CartService
    var alertMessage: Option<string>
    var navigatedTo: Option<string>

    constructor (service: CartService)
      ensures this.service == service && alertMessage == None && navigatedTo == None
    {
      this.service := service;
      alertMessage := None;
      navigatedTo := None;
    }

    /**
     * removeItem: a line without an id is refused with an alert; otherwise
     * the line is removed only when the user confirms.
     */
    method RemoveItem(item: CartItem, confirmed: bool, reloadOk: bool)
      modifies this, service, service.store
      ensures item.id.None? ==>
        alertMessage == Some(MissingIdAlert) && service.store.cart == old(service.store.cart) && service.cart == old(service.cart)
      ensures item.id.Some? && !confirmed ==>
        alertMessage == old(alertMessage) && service.store.cart == old(service.store.cart) && service.cart == old(service.cart)
      ensures item.id.Some? && confirmed ==> service.store.cart == WithoutLine(old(service.store.cart), item.id.value)
      ensures service.store.products == old(service.store.products) && service.store.orders == old(service.store.orders)
      ensures navigatedTo == old(navigatedTo)
    {
      if item.id.None? {
        alertMessage := Some(MissingIdAlert);
        return;
      }
      if confirmed {
        var ok := service.RemoveFromCart(item.id.value, reloadOk);
        if !ok {
          alertMessage := Some("Failed to remove item. Please try again.");
        }
      }
    }

    /**
     * updateQuantity: a quantity below one goes to removeItem; a line without
     * an id is refused; otherwise the service updates the line.
     */
    method UpdateQuantity(item: CartItem, newQuantity: int, confirmed: bool, reloadOk: bool)
      modifies this, service, service.store
      ensures newQuantity < 1 && item.id.Some? && confirmed ==>
        service.store.cart == WithoutLine(old(service.store.cart), item.id.value)
      ensures (newQuantity < 1 && item.id.Some? && !confirmed) || item.id.None? ==>
        service.store.cart == old(service.store.cart) && service.cart == old(service.cart)
      ensures item.id.None? ==> alertMessage == Some(MissingIdAlert)
      ensures newQuantity >= 1 && item.id.Some? ==>
        var k := FindLineById(old(service.cart.items), item.id.value);
        (k == -1 ==> service.store.cart == old(service.store.cart)) &&
        (k >= 0 ==>
          service.store.cart == ReplaceLine(old(service.store.cart), item.id.value, Requantified(old(service.cart.items)[k], newQuantity)))
      ensures service.store.products == old(service.store.products) && service.store.orders == old(service.store.orders)
      ensures navigatedTo == old(navigatedTo)
    {
      if newQuantity < 1 {
        RemoveItem(item, confirmed, reloadOk);
        return;
      }
      if item.id.None? {
        alertMessage := Some(MissingIdAlert);
        return;
      }
      var r := service.UpdateQuantity(item.id.value, newQuantity, reloadOk);
      // An unknown line makes the service throw before any request: no alert is shown.
      if r.Err? && r.message != "Cart item not found" {
        alertMessage := Some("Failed to update quantity. Please try again.");
      }
    }

    /** incrementQuantity: asks for one more unit. */
    method IncrementQuantity(item: CartItem, reloadOk: bool)
      modifies this, service, service.store
      ensures item.id.Some? && item.quantity >= 0 ==>
        var k := FindLineById(old(service.cart.items), item.id.value);
        k >= 0 ==>
          service.store.cart == ReplaceLine(old(service.store.cart), item.id.value, Requantified(old(service.cart.items)[k], item.quantity + 1))
      ensures service.store.products == old(service.store.products)
    {
      UpdateQuantity(item, item.quantity + 1, false, reloadOk);
    }

    /** decrementQuantity: asks for one unit less, so a line at one unit is removed (once confirmed). */
    method DecrementQuantity(item: CartItem, confirmed: bool, reloadOk: bool)
      modifies this, service, service.store
      ensures item.quantity <= 1 && item.id.Some? && confirmed ==>
        service.store.cart == WithoutLine(old(service.store.cart), item.id.value)
      ensures item.quantity > 1 && item.id.Some? ==>
        var k := FindLineById(old(service.cart.items), item.id.value);
        k >= 0 ==>
          service.store.cart == ReplaceLine(old(service.store.cart), item.id.value, Requantified(old(service.cart.items)[k], item.quantity - 1))
      ensures service.store.products == old(service.store.products)
    {
      UpdateQuantity(item, item.quantity - 1, confirmed, reloadOk);
    }

    /** clearCart: the service clears the cart only when the user confirms. */
    method ClearCart(confirmed: bool, reloadOk: bool)
      modifies this, service, service.store
      ensures confirmed ==> service.store.cart == RemoveLines(old(service.store.cart), old(service.cart.items))
      ensures !confirmed ==> service.store.cart == old(service.store.cart) && service.cart == old(service.cart)
      ensures service.store.products == old(service.store.products)
      ensures navigatedTo == old(navigatedTo)
    {
      if confirmed {
        var ok := service.ClearCart(reloadOk);
        if !ok {
          alertMessage := Some("Failed to clear cart. Please try again.");
        }
      }
    }

    /** proceedToCheckout: an empty cart alerts and stays; otherwise the address step opens. */
    method ProceedToCheckout()
      modifies this
      ensures service.cart.items == [] ==> alertMessage == Some(EmptyCartAlert) && navigatedTo == old(navigatedTo)
      ensures service.cart.items != [] ==> navigatedTo == Some("/checkout/address") && alertMessage == old(alertMessage)
    {
      if |service.cart.items| == 0 {
        alertMessage := Some(EmptyCartAlert);
        return;
      }
      navigatedTo := Some("/checkout/address");
    }
  }
}
