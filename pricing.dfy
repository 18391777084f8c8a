/** The shipping, tax and total rule shared by the cart store, the cart summary and
    the checkout page. Amounts are in integer cents; the tax is a real number of
    cents, since the storefront multiplies by 0.08 without rounding. */
module Pricing {

  /** 100 dollars. */
  const FreeShippingThreshold: int := 10000
  /** 9.99 dollars. */
  const ShippingCost: int := 999
  const TaxRate: real := 0.08

  /** Shipping is free from the threshold on and costs the flat rate below it. */
  function Shipping(subtotal: int): (r: int)
    ensures r == 0 <==> subtotal >= FreeShippingThreshold
    ensures r == 0 || r == ShippingCost
  {
    if subtotal >= FreeShippingThreshold then 0 else ShippingCost
  }

  function Tax(subtotal: int): (t: real)
    ensures subtotal >= 0 ==> 0.0 <= t < subtotal as real || subtotal == 0
    ensures subtotal == 0 ==> t == 0.0
    ensures subtotal > 0 ==> 0.0 < t
  {
    TaxRate * subtotal as real
  }

  function Total(subtotal: int): (r: real)
    ensures subtotal >= 0 ==> r >= subtotal as real
  {
    subtotal as real + Shipping(subtotal) as real + Tax(subtotal)
  }

  /** What is still missing for free shipping. */
  function AmountToFreeShipping(subtotal: int): (r: int)
    ensures r > 0 <==> Shipping(subtotal) == ShippingCost
    ensures r + subtotal == FreeShippingThreshold
  {
    FreeShippingThreshold - subtotal
  }

  /** At or above the threshold the total is the subtotal plus tax; below it the
      flat shipping rate is added as well. */
  lemma TotalCases(subtotal: int)
    ensures subtotal >= FreeShippingThreshold ==> Total(subtotal) == 1.08 * subtotal as real
    ensures subtotal < FreeShippingThreshold ==> Total(subtotal) == 1.08 * subtotal as real + 999.0
  {
  }

  /** The total is not monotone in the subtotal: one more cent at the threshold
      makes the order cheaper. */
  lemma TotalDropsAtThreshold()
    ensures Total(FreeShippingThreshold) < Total(FreeShippingThreshold - 1)
  {
    TotalCases(FreeShippingThreshold);
    TotalCases(FreeShippingThreshold - 1);
  }
}
