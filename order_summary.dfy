/** The order summary shown by the cart (src/pages/Cart.tsx) and by the
    checkout form (src/pages/Checkout.tsx): flat-rate shipping waived from a
    threshold, 8% tax on the subtotal, and their sum. The two pages use
    different thresholds. */
module OrderSummary {

  const CartFreeShippingFrom: real := 150.0
  const CheckoutFreeShippingFrom: real := 50.0
  const FlatShipping: real := 5.99
  const TaxRate: real := 0.08

  /** `total >= threshold ? 0 : 5.99` */
  function Shipping(threshold: real, subtotal: real): (s: real)
    ensures s == 0.0 <==> subtotal >= threshold
    ensures s == 0.0 || s == FlatShipping
  {
    if subtotal >= threshold then 0.0 else FlatShipping
  }

  /** `total * 0.08` */
  function Tax(subtotal: real): real {
    subtotal * TaxRate
  }

  /** `total + shipping + tax` */
  function OrderTotal(threshold: real, subtotal: real): real {
    subtotal + Shipping(threshold, subtotal) + Tax(subtotal)
  }

  /** The order total is 108% of the subtotal, plus 5.99 below the threshold,
      and never less than the subtotal for a non-negative subtotal. */
  lemma OrderTotalShape(threshold: real, subtotal: real)
    ensures OrderTotal(threshold, subtotal) ==
      subtotal * 1.08 + (if subtotal >= threshold then 0.0 else FlatShipping)
    ensures subtotal >= 0.0 ==> OrderTotal(threshold, subtotal) >= subtotal
  {
  }

  /** A subtotal from 50 up to (not including) 150 ships free at the checkout
      form but not in the cart; elsewhere the two pages agree. */
  lemma ThresholdsDisagree(subtotal: real)
    ensures Shipping(CheckoutFreeShippingFrom, subtotal) != Shipping(CartFreeShippingFrom, subtotal)
      <==> CheckoutFreeShippingFrom <= subtotal < CartFreeShippingFrom
    ensures CheckoutFreeShippingFrom <= subtotal < CartFreeShippingFrom ==>
      OrderTotal(CartFreeShippingFrom, subtotal) == OrderTotal(CheckoutFreeShippingFrom, subtotal) + FlatShipping
  {
  }

  /** A cart of one large stamp (99.99), a medium pad (9.99) and a refill
      (7.99) is charged shipping in the cart and none at the checkout form. */
  lemma SampleOrder()
    ensures OrderTotal(CartFreeShippingFrom, 117.97) == 133.3976
    ensures OrderTotal(CheckoutFreeShippingFrom, 117.97) == 127.4076
  {
  }
}
