/**
 * The product page's cart counter: `quantityAdded` counts the units this page
 * put in the cart, and the page lowers (or raises) its own copy of the
 * product's stock alongside, so that the two always add up to the stock the
 * product was loaded with. Only the local copy changes: the stored product's
 * stock is untouched by the cart.
 */
module ProductDetail {
  import opened Common
  import opened Model
  import opened DocumentStore
  import opened ShoppingCart

  /** A wishlist entry as the wishlist service returns it. */
  datatype WishlistItem = WishlistItem(id: string, productId: int)

  /** The first image of a product, if it has one. */
  function FirstImage(p: Product): (r: Option<string>)
    ensures r.Some? <==> p.images != []
    ensures r.Some? ==> r.value == p.images[0]
  {
    if p.images == [] then None else Some(p.images[0])
  }

  /**
   * The id of the product's first line in the cart, the line decreaseQty
   * writes to; none when the product has no line or its line has no id.
   */
  function ProductLineId(items: seq<CartItem>, pid: int): (r: Option<string>)
    ensures r.Some? <==> FindLineByProduct(items, pid) >= 0 && items[FindLineByProduct(items, pid)].id.Some?
    ensures r.Some? ==> items[FindLineByProduct(items, pid)].id == r && FindLineById(items, r.value) >= 0
  {
    var k := FindLineByProduct(items, pid);
    if k == -1 || items[k].id.None? then None
    else items[k].id
  }

  class ProductDetailPage {
    const cartService: CartService
    var product: Option<Product>
    var selectedImage: Option<string>
    var loading: bool
    var quantityAdded: int
    var isInWishlist: bool
    var wishlistItem: Option<WishlistItem>

    constructor (cartService: CartService)
      ensures this.cartService == cartService && product == None && quantityAdded == 0 && loading
      ensures !isInWishlist && wishlistItem == None && selectedImage == None
    {
      this.cartService := cartService;
      product := None;
      selectedImage := None;
      loading := true;
      quantityAdded := 0;
      isInWishlist := false;
      wishlistItem := None;
    }

    /** The units in the cart plus the local stock: what the counter keeps constant. */
    function Units(): int
      reads this
      requires product.Some?
    {
      quantityAdded + product.value.stock
    }

    /**
     * loadProduct: a fetched product is shown with its first image selected
     * and the counter reset; a failed fetch shows no product.
     */
    method LoadProduct(fetched: Option<Product>)
      modifies this
      ensures product == fetched && !loading
      ensures fetched.Some? ==> selectedImage == FirstImage(fetched.value) && quantityAdded == 0
      ensures fetched.None? ==> selectedImage == old(selectedImage) && quantityAdded == old(quantityAdded)
      ensures isInWishlist == old(isInWishlist) && wishlistItem == old(wishlistItem)
    {
      loading := true;
      product := fetched;
      if fetched.Some? {
        selectedImage := FirstImage(fetched.value);
        quantityAdded := 0;
      }
      loading := false;
    }

    /**
     * addToCart: only with a product loaded, nothing added yet and stock
     * left; a successful add counts one unit and takes it from the local
     * stock.
     */
    method AddToCart(newId: string, now: int, reloadOk: bool)
      modifies this, cartService, cartService.store
      ensures old(product).None? || old(quantityAdded) != 0 || old(product).value.stock <= 0 ==>
        product == old(product) && quantityAdded == old(quantityAdded) && cartService.store.cart == old(cartService.store.cart)
      ensures product.Some? <==> old(product).Some?
      ensures product.Some? ==> product.value == old(product).value.(stock := product.value.stock)
      ensures product.Some? && old(product).value.stock > 0 ==> Units() == old(quantityAdded + product.value.stock)
      ensures product.Some? && quantityAdded != old(quantityAdded) ==>
        old(quantityAdded) == 0 && quantityAdded == 1 && product.value.stock == old(product).value.stock - 1
      ensures cartService.store.products == old(cartService.store.products)
    {
      if product.Some? && quantityAdded == 0 && product.value.stock > 0 {
        var r := cartService.AddToCart(product.value.id, 1, newId, now, reloadOk);
        if r.Ok? {
          quantityAdded := 1;
          product := Some(product.value.(stock := Max(0, product.value.stock - 1)));
        }
      }
    }

    /**
     * increaseQty: only while local stock is left (the source's guard
     * `quantityAdded < stock + quantityAdded`); a successful add moves one
     * unit from the local stock to the counter.
     */
    method IncreaseQty(newId: string, now: int, reloadOk: bool)
      modifies this, cartService, cartService.store
      ensures old(product).None? || old(product).value.stock <= 0 ==>
        product == old(product) && quantityAdded == old(quantityAdded) && cartService.store.cart == old(cartService.store.cart)
      ensures product.Some? <==> old(product).Some?
      ensures product.Some? ==> product.value == old(product).value.(stock := product.value.stock)
      ensures product.Some? ==> Units() == old(quantityAdded + product.value.stock)
      ensures product.Some? ==>
        (quantityAdded == old(quantityAdded) && product == old(product)) ||
        (quantityAdded == old(quantityAdded) + 1 && product.value.stock == old(product).value.stock - 1)
      ensures cartService.store.products == old(cartService.store.products)
    {
      if product.Some? && quantityAdded < product.value.stock + quantityAdded {
        var r := cartService.AddToCart(product.value.id, 1, newId, now, reloadOk);
        if r.Ok? {
          quantityAdded := quantityAdded + 1;
          product := Some(product.value.(stock := Max(0, product.value.stock - 1)));
        }
      }
    }

    /**
     * decreaseQty: the product's line in the current cart is set to one unit
     * less, or removed when the counter is at one or below; on success the
     * units go back to the local stock. Without a line that has an id,
     * nothing happens.
     */
    method DecreaseQty(reloadOk: bool)
      modifies this, cartService, cartService.store
      ensures product.Some? <==> old(product).Some?
      ensures product.Some? ==> product.value == old(product).value.(stock := product.value.stock)
      ensures product.Some? ==> Units() == old(quantityAdded + product.value.stock)
      ensures product.Some? ==>
        (quantityAdded == old(quantityAdded) && product == old(product)) ||
        (old(quantityAdded) > 1 && quantityAdded == old(quantityAdded) - 1) ||
        (old(quantityAdded) <= 1 && quantityAdded == 0)
      ensures old(product).None? || ProductLineId(old(cartService.cart.items), old(product).value.id).None? ==>
        product == old(product) && quantityAdded == old(quantityAdded) && cartService.store.cart == old(cartService.store.cart)
      ensures old(product).Some? && old(quantityAdded) > 1 && ProductLineId(old(cartService.cart.items), old(product).value.id).Some? ==>
        var lineId := ProductLineId(old(cartService.cart.items), old(product).value.id).value;
        var line := old(cartService.cart.items)[FindLineById(old(cartService.cart.items), lineId)];
        cartService.store.cart == ReplaceLine(old(cartService.store.cart), lineId, Requantified(line, old(quantityAdded) - 1)) &&
        quantityAdded == (if FindLineById(old(cartService.store.cart), lineId) >= 0 then old(quantityAdded) - 1 else old(quantityAdded))
      ensures old(product).Some? && old(quantityAdded) <= 1 && ProductLineId(old(cartService.cart.items), old(product).value.id).Some? ==>
        var lineId := ProductLineId(old(cartService.cart.items), old(product).value.id).value;
        cartService.store.cart == WithoutLine(old(cartService.store.cart), lineId) &&
        quantityAdded == (if FindLineById(old(cartService.store.cart), lineId) >= 0 then 0 else old(quantityAdded))
      ensures cartService.store.products == old(cartService.store.products)
    {
      if product.None? {
        return;
      }
      var found := ProductLineId(cartService.cart.items, product.value.id);
      if found.None? {
        return;
      }
      var lineId := found.value;
      if quantityAdded > 1 {
        var r := cartService.UpdateQuantity(lineId, quantityAdded - 1, reloadOk);
        if r.Ok? {
          quantityAdded := quantityAdded - 1;
          product := Some(product.value.(stock := product.value.stock + 1));
        }
      } else {
        var qtyToReturn := quantityAdded;
        var ok := cartService.RemoveFromCart(lineId, reloadOk);
        if ok {
          quantityAdded := 0;
          product := Some(product.value.(stock := product.value.stock + qtyToReturn));
        }
      }
    }

    /**
     * toggleWishlist: a product in the wishlist is removed (when its entry is
     * known) and any other is added; the flag flips only on success.
     */
    method ToggleWishlist(requestOk: bool, added: WishlistItem)
      modifies this
      ensures old(product).None? ==> isInWishlist == old(isInWishlist) && wishlistItem == old(wishlistItem)
      ensures old(product).Some? && old(isInWishlist) ==>
        (if old(wishlistItem).Some? && requestOk then !isInWishlist && wishlistItem == None
         else isInWishlist && wishlistItem == old(wishlistItem))
      ensures old(product).Some? && !old(isInWishlist) ==>
        (if requestOk then isInWishlist && wishlistItem == Some(added)
         else !isInWishlist && wishlistItem == old(wishlistItem))
      ensures product == old(product) && quantityAdded == old(quantityAdded)
    {
      if product.None? {
        return;
      }
      if isInWishlist {
        if wishlistItem.Some? && requestOk {
          isInWishlist := false;
          wishlistItem := None;
        }
      } else if requestOk {
        isInWishlist := true;
        wishlistItem := Some(added);
      }
    }
  }
}
