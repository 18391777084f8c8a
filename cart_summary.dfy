/** The order summary beside the cart: the price breakdown by the shared rule,
    the free-shipping progress or "qualify" message, the checkout route and the
    state of the checkout button and login prompt. Amounts are in cents. */
module CartSummary {
  import opened Pricing

  const LoginRoute := "/auth?mode=login&redirect=/checkout"
  const CheckoutRoute := "/checkout"

  datatype Summary = Summary(
    shipping: int, tax: real, total: real, amountToFreeShipping: int,
    showProgress: bool, progressPercent: real, showQualify: bool,
    checkoutDisabled: bool, showLoginPrompt: bool, buttonLabel: string)

  function View(subtotal: int, itemCount: int, isAuthenticated: bool): Summary {
    Summary(
      Shipping(subtotal), Tax(subtotal), Total(subtotal), AmountToFreeShipping(subtotal),
      subtotal < FreeShippingThreshold && subtotal > 0,
      subtotal as real / FreeShippingThreshold as real * 100.0,
      subtotal >= FreeShippingThreshold,
      itemCount == 0,
      !isAuthenticated && itemCount > 0,
      if isAuthenticated then "Proceed to Checkout" else "Login to Checkout")
  }

  /** `handleCheckout`: where the button leads. */
  function CheckoutTarget(isAuthenticated: bool): (route: string)
    ensures route == CheckoutRoute <==> isAuthenticated
    ensures !isAuthenticated ==> route == LoginRoute
  {
    if !isAuthenticated then LoginRoute else CheckoutRoute
  }

  /** While the progress message is shown, the amount still missing is positive and
      the bar is strictly between empty and full. */
  lemma ProgressBounds(subtotal: int, itemCount: int, isAuthenticated: bool)
    ensures var s := View(subtotal, itemCount, isAuthenticated);
            s.showProgress ==> s.amountToFreeShipping > 0 && 0.0 < s.progressPercent < 100.0
  {
  }

  /** With something in the cart exactly one of the two shipping messages shows;
      with an empty cart (subtotal 0) neither does. */
  lemma OneShippingMessage(subtotal: int, itemCount: int, isAuthenticated: bool)
    ensures var s := View(subtotal, itemCount, isAuthenticated);
            && (subtotal > 0 ==> (s.showProgress <==> !s.showQualify))
            && (subtotal == 0 ==> !s.showProgress && !s.showQualify)
  {
  }

  /** The breakdown agrees with the cart's: free shipping exactly from 100 dollars. */
  lemma SummaryShipping(subtotal: int, itemCount: int, isAuthenticated: bool)
    ensures var s := View(subtotal, itemCount, isAuthenticated);
            && (s.shipping == 0 <==> subtotal >= FreeShippingThreshold)
            && (s.shipping != 0 ==> s.shipping == ShippingCost)
            && s.total == subtotal as real + s.shipping as real + s.tax
            && (s.showQualify <==> s.shipping == 0)
  {
  }

  /** Whenever the login prompt shows, the button is enabled, labelled for login
      and leads to the login route; a signed-in user never sees the prompt, and an
      enabled button for a guest always comes with it. The item count is the
      cart's, never negative. */
  lemma ButtonAndPrompt(subtotal: int, itemCount: int, isAuthenticated: bool)
    requires itemCount >= 0
    ensures var s := View(subtotal, itemCount, isAuthenticated);
            && (s.showLoginPrompt ==>
                  !s.checkoutDisabled && s.buttonLabel == "Login to Checkout" &&
                  CheckoutTarget(isAuthenticated) == LoginRoute)
            && (isAuthenticated ==> !s.showLoginPrompt && s.buttonLabel == "Proceed to Checkout")
            && (!isAuthenticated && !s.checkoutDisabled ==> s.showLoginPrompt)
  {
  }
}
