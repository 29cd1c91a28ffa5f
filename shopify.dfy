/** `createShopifyCheckout` of src/utils/shopify.ts: it refuses items without a
    variant id, turns the remaining items into Storefront cart lines with
    custom attributes, sends them through `shopifyFetch` (an oracle here) and
    reads the checkout URL out of the response. */
module Shopify {
  import opened Common

  /** An item handed to `createShopifyCheckout`: a cart line, or one of the
      builder's line items. `inkColor` and `logoUrl` are set by the builder
      only; the function never reads them. */
  datatype CheckoutItem = CheckoutItem(
    variantId: Option<string>,
    quantity: int,
    stampPad: Option<string>,
    priorityProcessing: Option<bool>,
    logo: Logo,
    inkColor: Option<string>,
    logoUrl: Option<string>)

  datatype Attribute = Attribute(key: string, value: string)

  /** One line of the `cartCreate` mutation input. */
  datatype CartLine = CartLine(merchandiseId: string, quantity: int, attributes: seq<Attribute>)

  /** What `shopifyFetch` answered: the HTTP status and
      `body.data.cartCreate.cart.checkoutUrl`, when present. */
  datatype Response = Response(status: int, checkoutUrl: Option<string>)

  datatype CheckoutError = MissingVariantData | CheckoutFailed

  /** The message of the `Error` thrown for each failure. */
  function Message(e: CheckoutError): (m: string)
    ensures m != ""
  {
    match e
    case MissingVariantData =>
      "Some items in your cart are missing Shopify variant data. Please remove them and add them again to update your cart session."
    case CheckoutFailed => "Failed to initialize checkout."
  }

  const StampPadKey := "Stamp Pad"
  const PriorityKey := "Priority Processing"
  const LogoKey := "Logo"

  /** Position of each attribute key in the fixed order the attributes are pushed in. */
  function KeyRank(key: string): int {
    if key == StampPadKey then 0 else if key == PriorityKey then 1 else if key == LogoKey then 2 else 3
  }

  /** `!item.variantId` is false: the id is present and non-empty. */
  predicate HasVariant(item: CheckoutItem) {
    Truthy(item.variantId)
  }

  /** The custom attributes of one item, pushed in a fixed order. */
  function Attributes(item: CheckoutItem): (r: seq<Attribute>)
    ensures forall i, j :: 0 <= i < j < |r| ==> KeyRank(r[i].key) < KeyRank(r[j].key)
    ensures forall a :: a in r ==> 0 <= KeyRank(a.key) <= 2
    ensures |r| <= 3
    ensures Attribute(StampPadKey, item.stampPad.GetOr("")) in r <==> Truthy(item.stampPad)
    ensures Attribute(PriorityKey, "Yes") in r <==> item.priorityProcessing == Some(true)
    ensures Attribute(LogoKey, "Uploaded") in r <==> item.logo.TextLogo? && item.logo.text != ""
    ensures forall a :: a in r ==> a in [Attribute(StampPadKey, item.stampPad.GetOr("")),
                                         Attribute(PriorityKey, "Yes"), Attribute(LogoKey, "Uploaded")]
  {
    (if Truthy(item.stampPad) then [Attribute(StampPadKey, item.stampPad.value)] else [])
    + (if item.priorityProcessing == Some(true) then [Attribute(PriorityKey, "Yes")] else [])
    + (if item.logo.TextLogo? && item.logo.text != "" then [Attribute(LogoKey, "Uploaded")] else [])
  }

  /** Only a non-empty string logo is reported: a logo file or no logo
      gives no "Logo" attribute. */
  lemma LogoAttributeOnlyForText(item: CheckoutItem)
    ensures (exists a :: a in Attributes(item) && a.key == LogoKey) <==>
      item.logo.TextLogo? && item.logo.text != ""
  {
    if item.logo.TextLogo? && item.logo.text != "" {
      assert Attribute(LogoKey, "Uploaded") in Attributes(item);
    }
  }

  /** The builder's ink colour and logo URL never reach the checkout: the
      attributes do not depend on them. */
  lemma InkAndLogoUrlDropped(item: CheckoutItem, ink: Option<string>, url: Option<string>)
    ensures Attributes(item.(inkColor := ink, logoUrl := url)) == Attributes(item)
  {
  }

  /** Every item passes the variant check. */
  predicate AllHaveVariant(items: seq<CheckoutItem>) {
    forall i | 0 <= i < |items| :: HasVariant(items[i])
  }

  /** The `lineItems` map: one cart line per item, in order. */
  function ToLines(items: seq<CheckoutItem>): (r: seq<CartLine>)
    requires AllHaveVariant(items)
    ensures |r| == |items|
    ensures forall i :: 0 <= i < |items| ==>
      r[i].merchandiseId == items[i].variantId.value && r[i].merchandiseId != "" &&
      r[i].quantity == items[i].quantity &&
      r[i].attributes == Attributes(items[i])
  {
    seq(|items|, i requires 0 <= i < |items| =>
      CartLine(items[i].variantId.value, items[i].quantity, Attributes(items[i])))
  }

  /** How the response is read: a URL only on status 200 with a non-empty checkout URL. */
  function InterpretResponse(resp: Response): (r: Result<string, CheckoutError>)
    ensures r.Success? <==> resp.status == 200 && Truthy(resp.checkoutUrl)
    ensures r.Success? ==> Some(r.value) == resp.checkoutUrl
    ensures r.Failure? ==> r.error == CheckoutFailed
  {
    if resp.status == 200 && Truthy(resp.checkoutUrl) then Success(resp.checkoutUrl.value)
    else Failure(CheckoutFailed)
  }

  /** `createShopifyCheckout(items)` with `fetch` standing for `shopifyFetch`. */
  function CreateCheckout(items: seq<CheckoutItem>, fetch: seq<CartLine> -> Response): (r: Result<string, CheckoutError>)
    ensures !AllHaveVariant(items) ==> r == Failure(MissingVariantData)
    ensures AllHaveVariant(items) ==> r == InterpretResponse(fetch(ToLines(items)))
    ensures r.Success? ==> r.value != "" && AllHaveVariant(items)
  {
    if !AllHaveVariant(items) then Failure(MissingVariantData)
    else InterpretResponse(fetch(ToLines(items)))
  }

  /** The variant check comes before any request: with an invalid item the
      answer is the same whatever the network would have said. */
  lemma InvalidItemsNeverFetch(items: seq<CheckoutItem>, f: seq<CartLine> -> Response, g: seq<CartLine> -> Response)
    requires exists i :: 0 <= i < |items| && !HasVariant(items[i])
    ensures CreateCheckout(items, f) == CreateCheckout(items, g) == Failure(MissingVariantData)
  {
  }
}
