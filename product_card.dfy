/** The quick-add button of a catalogue card (src/components/ProductCard.tsx):
    the record it hands to the cart store, and what becomes of that record in
    the cart page and at checkout. */
module ProductCardComponent {
  import opened Common
  import Shopify
  import CartPage

  /** `handleQuickAdd`: one unit at the product's base price with its
      default variant, and none of the customizer's fields. */
  function QuickAdd(p: Product): (item: ItemData)
    ensures item.productId == p.id && item.name == p.name && item.image == p.image
    ensures item.quantity == 1
    ensures item.price == p.price
    ensures item.variantId == p.defaultVariantId
    ensures item.slug.None? && item.size.None? && item.inkColor.None? && item.stampPad.None?
    ensures item.priorityProcessing.None? && item.logo == NoLogo
  {
    ItemData(p.id, None, p.name, p.image, p.price, 1, None, None, None, None, NoLogo, p.defaultVariantId)
  }

  /** The request the button sends. */
  function QuickAddRequest(p: Product): (r: CartRequest)
    ensures r.AddItem? && r.item.quantity == 1 && r.item.variantId == p.defaultVariantId
  {
    AddItem(QuickAdd(p))
  }

  /** The price ignores the sizes: two products differing only in their
      sizes give the same record. */
  lemma QuickAddIgnoresSizes(p: Product, sizes: Option<seq<Size>>)
    ensures QuickAdd(p.(sizes := sizes)) == QuickAdd(p)
  {
  }

  /** In the cart a quick-added line never waits for a design, its edit
      link falls back to the tail of the product id, and at checkout it has
      no custom attributes and passes the variant check exactly when the
      product has a default variant id. */
  lemma QuickAddInCart(p: Product, id: string)
    ensures var line := CartItem(id, QuickAdd(p));
      !CartPage.IsSkipped(line) &&
      CartPage.EditTarget(line) == CartPage.LastSegment(p.id) &&
      Shopify.Attributes(CartPage.ToCheckoutItem(line)) == [] &&
      (Shopify.HasVariant(CartPage.ToCheckoutItem(line)) <==> Truthy(p.defaultVariantId))
  {
  }

  /** A product without a default variant id yields a line that makes
      `createShopifyCheckout` refuse the whole cart. */
  lemma QuickAddWithoutVariantRefused(p: Product, id: string, others: seq<CartItem>,
                                      fetch: seq<Shopify.CartLine> -> Shopify.Response)
    requires !Truthy(p.defaultVariantId)
    ensures var items := CartPage.ToCheckoutItems(others + [CartItem(id, QuickAdd(p))]);
      Shopify.CreateCheckout(items, fetch) == Failure(Shopify.MissingVariantData)
  {
    var items := CartPage.ToCheckoutItems(others + [CartItem(id, QuickAdd(p))]);
    assert !Shopify.HasVariant(items[|others|]);
  }
}
