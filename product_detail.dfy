/** The product page: the stock notice, the quantity stepper held between 1 and
    the stock, adding the chosen quantity to the cart and toggling the wishlist.
    The product is whatever the catalog returns for the route's id (`None` for an
    unknown id); the catalog lookup itself is not part of this model. */
module ProductDetail {
  import opened Common
  import Cart
  import Wishlist

  const RemovedMessage := "Removed from wishlist"
  const AddedMessage := "Added to wishlist"

  /** The three stock notices: "Out of Stock", "Only n left in stock - order soon!"
      and "In Stock". */
  datatype StockNotice = OutOfStock | OnlyLeft(n: int) | InStock

  function StockStatus(stock: int): (s: StockNotice)
    ensures s == OutOfStock <==> stock == 0
    ensures s.OnlyLeft? <==> stock != 0 && stock <= 5
    ensures s.OnlyLeft? ==> s.n == stock
    ensures s == InStock <==> stock > 5
  {
    if stock == 0 then OutOfStock
    else if stock <= 5 then OnlyLeft(stock)
    else InStock
  }

  /** What the `-` button sets the quantity to. */
  function Decreased(q: int): int { Max(1, q - 1) }

  /** What the `+` button sets the quantity to. */
  function Increased(q: int, stock: int): int { Min(stock, q + 1) }

  /** Each button is disabled exactly when a click on it could not move the quantity
      one step inside `[1, stock]`; an enabled click moves it by exactly one, and
      from inside the range every click stays inside. */
  lemma StepperSpec(q: int, stock: int)
    requires 1 <= q <= stock
    ensures 1 <= Decreased(q) <= stock && 1 <= Increased(q, stock) <= stock
    ensures q > 1 ==> Decreased(q) == q - 1
    ensures q <= 1 <==> Decreased(q) == q
    ensures q < stock ==> Increased(q, stock) == q + 1
    ensures q >= stock <==> Increased(q, stock) == q
  {
  }

  /** The toast after a toggle, chosen from the membership before it. */
  function ToggleMessage(wasIn: bool): (m: string)
    ensures m == RemovedMessage <==> wasIn
  {
    if wasIn then RemovedMessage else AddedMessage
  }

  class ProductPage {
    var product: Option<Product>
    var quantity: int
    var isLoading: bool
    var isAdding: bool
    var showSuccess: bool

    constructor (product: Option<Product>)
      ensures this.product == product && quantity == 1 && isLoading && !isAdding && !showSuccess
    {
      this.product := product;
      quantity := 1;
      isLoading := true;
      isAdding := false;
      showSuccess := false;
    }

    /** The quantity is within the stepper's range for the shown product. */
    predicate InRange()
      reads this
    {
      product.Some? ==> 1 <= quantity <= product.value.stock
    }

    predicate DecreaseDisabled()
      reads this
    {
      quantity <= 1
    }

    predicate IncreaseDisabled()
      reads this
      requires product.Some?
    {
      quantity >= product.value.stock
    }

    /** A new route id: the effect on `id` restarts only the loading state; the
        quantity chosen on the previous product is kept. */
    method ChangeProduct(p: Option<Product>)
      modifies this
      ensures product == p && isLoading && quantity == old(quantity)
      ensures isAdding == old(isAdding) && showSuccess == old(showSuccess)
    {
      product := p;
      isLoading := true;
    }

    /** The loading timer. */
    method FinishLoading()
      modifies this
      ensures !isLoading && product == old(product) && quantity == old(quantity)
    {
      isLoading := false;
    }

    method Decrease()
      modifies this
      ensures quantity == Decreased(old(quantity)) && product == old(product)
      ensures old(InRange()) ==> InRange()
      ensures isLoading == old(isLoading) && isAdding == old(isAdding) && showSuccess == old(showSuccess)
    {
      quantity := Max(1, quantity - 1);
    }

    /** The `+` button, shown only for a product in stock. */
    method Increase()
      requires product.Some?
      modifies this
      ensures product == old(product) && quantity == Increased(old(quantity), product.value.stock)
      ensures old(InRange()) ==> InRange()
      ensures isLoading == old(isLoading) && isAdding == old(isAdding) && showSuccess == old(showSuccess)
    {
      quantity := Min(product.value.stock, quantity + 1);
    }

    /** `handleAddToCart`. `fails` stands for the cart's simulated failure. Without a
        product, or with one out of stock, nothing happens and `None` is returned. */
    method HandleAddToCart(cart: Cart.CartStore, fails: bool) returns (r: Option<Result<()>>)
      requires cart.Valid()
      modifies this, cart
      ensures cart.Valid() && product == old(product) && quantity == old(quantity)
      ensures product.None? || product.value.stock == 0 ==> cart.isLoading == old(cart.isLoading)
      ensures product.Some? && product.value.stock != 0 ==> !cart.isLoading
      ensures isLoading == old(isLoading)
      ensures product.None? || product.value.stock == 0 ==>
                r == None && cart.items == old(cart.items) && showSuccess == old(showSuccess)
                && isAdding == old(isAdding)
      ensures product.Some? && product.value.stock != 0 ==>
                && r.Some? && !isAdding
                && (r.value.Ok? ==> showSuccess) && (r.value.Err? ==> showSuccess == old(showSuccess))
                && (fails ==> r.value == Err(Cart.AddFailedMessage) && cart.items == old(cart.items))
                && (!fails ==> r.value == Ok(()) && cart.items == Cart.MergeAdd(old(cart.items), product.value, quantity))
    {
      if product.None? || product.value.stock == 0 {
        return None;
      }
      isAdding := true;
      var res := cart.AddToCart(product.value, quantity, fails);
      isAdding := false;
      if res.Ok? {
        showSuccess := true;
      }
      return Some(res);
    }

    /** `handleToggleWishlist`: flips the product's membership and returns the message
        for the state it was in. */
    method HandleToggleWishlist(wishlist: Wishlist.WishlistStore) returns (message: Option<string>)
      requires wishlist.Valid()
      modifies wishlist
      ensures wishlist.Valid()
      ensures product.None? ==> message == None && wishlist.items == old(wishlist.items)
      ensures product.Some? ==>
                && message == Some(ToggleMessage(old(wishlist.IsIn(product.value.id))))
                && (wishlist.IsIn(product.value.id) <==> !old(wishlist.IsIn(product.value.id)))
                && wishlist.items == Wishlist.Toggle(old(wishlist.items), product.value)
    {
      if product.None? {
        return None;
      }
      var wasIn := wishlist.IsIn(product.value.id);
      wishlist.ToggleWishlist(product.value);
      return Some(ToggleMessage(wasIn));
    }
  }

  /** The quantity is not reset for a new product: a choice of 5 on a product with
      5 in stock stays 5 on one with 2 in stock, outside that product's range. */
  lemma QuantityCarriesOver()
    ensures var q := Increased(Increased(Increased(Increased(1, 5), 5), 5), 5);
            q == 5 && !(1 <= q <= 2)
  {
  }
}
