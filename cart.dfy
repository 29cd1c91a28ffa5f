/** The cart page (src/pages/Cart.tsx): the order summary it derives from the
    store's subtotal, the free-shipping hint, the panel asking for designs of
    items whose logo was skipped, the gating of the checkout button, the
    requests its buttons send to the cart store, and the edit link of a line.
    The store's lines, subtotal and item count are inputs here. */
module CartPage {
  import opened Common
  import Shopify
  import OrderSummary

  /** The logo value a customizer stores when the shopper skipped the upload. */
  const SkippedMarker := "skipped"

  predicate IsSkipped(item: CartItem) {
    item.data.logo == TextLogo(SkippedMarker)
  }

  /** `items.some(item => item.logo === 'skipped')` */
  predicate AnySkipped(items: seq<CartItem>) {
    exists i :: 0 <= i < |items| && IsSkipped(items[i])
  }

  /** The lines listed in the upload panel: the skipped ones, in cart order. */
  function SkippedItems(items: seq<CartItem>): (r: seq<CartItem>)
    ensures |r| <= |items|
    ensures |r| > 0 <==> AnySkipped(items)
  {
    if items == [] then []
    else
      var rest := SkippedItems(items[1..]);
      assert AnySkipped(items) <==> IsSkipped(items[0]) || AnySkipped(items[1..]) by {
        if AnySkipped(items[1..]) {
          var i :| 0 <= i < |items[1..]| && IsSkipped(items[1..][i]);
          assert items[i + 1] == items[1..][i];
        }
        if AnySkipped(items) && !IsSkipped(items[0]) {
          var i :| 0 <= i < |items| && IsSkipped(items[i]);
          assert items[1..][i - 1] == items[i];
        }
      }
      (if IsSkipped(items[0]) then [items[0]] else []) + rest
  }

  /** The panel lists every skipped line as often as the cart holds it, and
      nothing else. */
  lemma {:induction false} SkippedItemsCount(items: seq<CartItem>, x: CartItem)
    ensures multiset(SkippedItems(items))[x] == if IsSkipped(x) then multiset(items)[x] else 0
  {
    if items != [] {
      assert items == [items[0]] + items[1..];
      SkippedItemsCount(items[1..], x);
    }
  }

  /** Listing keeps cart order: the panel of two carts put together is the
      panel of the first followed by the panel of the second. */
  lemma {:induction false} SkippedItemsAppend(a: seq<CartItem>, b: seq<CartItem>)
    ensures SkippedItems(a + b) == SkippedItems(a) + SkippedItems(b)
  {
    if a == [] {
      assert a + b == b;
    } else {
      var ab := a + b;
      assert ab[0] == a[0];
      assert ab[1..] == a[1..] + b;
      SkippedItemsAppend(a[1..], b);
      if IsSkipped(a[0]) {
        assert SkippedItems(ab) == [a[0]] + SkippedItems(a[1..] + b);
        assert SkippedItems(a) == [a[0]] + SkippedItems(a[1..]);
      } else {
        assert SkippedItems(ab) == SkippedItems(a[1..] + b);
        assert SkippedItems(a) == SkippedItems(a[1..]);
      }
    }
  }

  /** Checkout is disabled while a request is in flight, for an empty cart,
      and while some line still waits for its design. */
  predicate CheckoutDisabled(isCheckingOut: bool, items: seq<CartItem>) {
    isCheckingOut || |items| == 0 || AnySkipped(items)
  }

  datatype ButtonLabel = PreparingCheckout | UploadAllDesigns | ProceedToCheckout

  /** The checkout button's caption. */
  function Label(isCheckingOut: bool, items: seq<CartItem>): (l: ButtonLabel)
    ensures l == PreparingCheckout <==> isCheckingOut
    ensures l == UploadAllDesigns <==> !isCheckingOut && AnySkipped(items)
    ensures l == ProceedToCheckout ==> (CheckoutDisabled(isCheckingOut, items) <==> |items| == 0)
    ensures l != ProceedToCheckout ==> CheckoutDisabled(isCheckingOut, items)
  {
    if isCheckingOut then PreparingCheckout
    else if AnySkipped(items) then UploadAllDesigns
    else ProceedToCheckout
  }

  /** How far the cart is from free shipping, and the progress bar's width in percent. */
  datatype Hint = Hint(remaining: real, width: real)

  function MinReal(a: real, b: real): real { if a <= b then a else b }

  /** The hint is shown only while shipping is charged. */
  function FreeShippingHint(subtotal: real): (h: Option<Hint>)
    ensures h.Some? <==> OrderSummary.Shipping(OrderSummary.CartFreeShippingFrom, subtotal) > 0.0
    ensures h.Some? ==> h.value.remaining > 0.0 &&
                        subtotal + h.value.remaining == OrderSummary.CartFreeShippingFrom
    ensures h.Some? ==> h.value.width < 100.0 && h.value.width * 150.0 == subtotal * 100.0
    ensures h.Some? && subtotal >= 0.0 ==> 0.0 <= h.value.width
  {
    var shipping := OrderSummary.Shipping(OrderSummary.CartFreeShippingFrom, subtotal);
    if shipping > 0.0 then
      Some(Hint(OrderSummary.CartFreeShippingFrom - subtotal,
                MinReal((subtotal / OrderSummary.CartFreeShippingFrom) * 100.0, 100.0)))
    else None
  }

  /** The figures of the order-summary box. */
  datatype Summary = Summary(subtotal: real, shipping: real, tax: real, orderTotal: real)

  /** What the page shows: the empty-cart view, or the lines with the upload
      panel, the hint, the summary and the checkout button. */
  datatype View =
    | EmptyCart
    | Lines(uploadPanel: seq<CartItem>, hint: Option<Hint>, summary: Summary,
            checkoutDisabled: bool, caption: ButtonLabel)

  /** The page for the store's lines, subtotal and item count. */
  function PageView(items: seq<CartItem>, subtotal: real, itemCount: int, isCheckingOut: bool): (v: View)
    ensures v.EmptyCart? <==> itemCount == 0
    ensures v.Lines? ==>
      (v.summary.shipping == 0.0 <==> subtotal >= OrderSummary.CartFreeShippingFrom) &&
      v.summary.orderTotal == OrderSummary.OrderTotal(OrderSummary.CartFreeShippingFrom, subtotal) &&
      v.summary.orderTotal == v.summary.subtotal + v.summary.shipping + v.summary.tax &&
      (v.hint.Some? <==> v.summary.shipping > 0.0) &&
      (|v.uploadPanel| > 0 <==> AnySkipped(items)) &&
      (v.checkoutDisabled <==> CheckoutDisabled(isCheckingOut, items))
    ensures v.Lines? ==>
      v.uploadPanel == SkippedItems(items) &&
      v.hint == FreeShippingHint(subtotal) &&
      v.summary == Summary(subtotal, OrderSummary.Shipping(OrderSummary.CartFreeShippingFrom, subtotal),
                           OrderSummary.Tax(subtotal),
                           OrderSummary.OrderTotal(OrderSummary.CartFreeShippingFrom, subtotal)) &&
      v.caption == Label(isCheckingOut, items)
  {
    if itemCount == 0 then EmptyCart
    else
      var shipping := OrderSummary.Shipping(OrderSummary.CartFreeShippingFrom, subtotal);
      Lines(SkippedItems(items), FreeShippingHint(subtotal),
            Summary(subtotal, shipping, OrderSummary.Tax(subtotal),
                    OrderSummary.OrderTotal(OrderSummary.CartFreeShippingFrom, subtotal)),
            CheckoutDisabled(isCheckingOut, items), Label(isCheckingOut, items))
  }

  /** The request of the minus (`up` false) or plus (`up` true) button of a line. */
  function QuantityStep(item: CartItem, up: bool): (r: CartRequest)
    ensures r.UpdateQuantity? && r.id == item.id
    ensures r.quantity - item.data.quantity == if up then 1 else -1
  {
    UpdateQuantity(item.id, if up then item.data.quantity + 1 else item.data.quantity - 1)
  }

  /** `item.price * item.quantity` */
  function LineAmount(item: CartItem): real {
    item.data.price * item.data.quantity as real
  }

  /** Once the store applies a minus request, the plus button asks for the
      original quantity again; each unit more adds exactly one unit price to
      the line's amount. */
  lemma QuantityStepsUndo(item: CartItem)
    ensures var fewer := CartItem(item.id, item.data.(quantity := QuantityStep(item, false).quantity));
      QuantityStep(fewer, true) == UpdateQuantity(item.id, item.data.quantity) &&
      LineAmount(item) == LineAmount(fewer) + item.data.price
  {
  }

  /** The request of a line's Upload input: nothing without a picked file. */
  function UploadRequest(item: CartItem, picked: Option<FileRef>): (r: Option<CartRequest>)
    ensures r.None? <==> picked.None?
    ensures r.Some? ==> r.value == UpdateLogo(item.id, picked.value)
  {
    match picked
    case None => None
    case Some(f) => Some(UpdateLogo(item.id, f))
  }

  /** The request of a line's remove button. */
  function RemoveRequest(item: CartItem): CartRequest {
    RemoveItem(item.id)
  }

  /** Each button of a line asks about that line alone: every request names its id. */
  lemma LineRequestsNameTheLine(item: CartItem, up: bool, f: FileRef)
    ensures QuantityStep(item, up).id == item.id
    ensures RemoveRequest(item).RemoveItem? && RemoveRequest(item).id == item.id
    ensures UploadRequest(item, Some(f)) == Some(UpdateLogo(item.id, f))
  {
  }

  /** A line whose logo the store has replaced by the uploaded file leaves the
      upload panel, and when it was the last skipped line, checkout opens for
      a cart with no request in flight. */
  lemma UploadLeavesPanel(items: seq<CartItem>, i: int, f: FileRef)
    requires 0 <= i < |items| && IsSkipped(items[i])
    ensures var after := items[i := CartItem(items[i].id, items[i].data.(logo := FileLogo(f)))];
      |SkippedItems(after)| == |SkippedItems(items)| - 1 &&
      (|SkippedItems(items)| == 1 ==> !CheckoutDisabled(false, after))
  {
    var after := items[i := CartItem(items[i].id, items[i].data.(logo := FileLogo(f)))];
    assert items == items[..i] + [items[i]] + items[i + 1..];
    assert after == items[..i] + [after[i]] + items[i + 1..];
    SkippedItemsAppend(items[..i] + [items[i]], items[i + 1..]);
    SkippedItemsAppend(items[..i], [items[i]]);
    SkippedItemsAppend(items[..i] + [after[i]], items[i + 1..]);
    SkippedItemsAppend(items[..i], [after[i]]);
    assert SkippedItems([after[i]]) == [];
    assert SkippedItems([items[i]]) == [items[i]];
  }

  /** `productId.split('/').pop()`: the part after the last '/', or all of it. */
  function LastSegment(s: string): (r: string)
    ensures '/' !in r
    ensures |r| <= |s| && r == s[|s| - |r|..]
    ensures |r| < |s| ==> s[|s| - |r| - 1] == '/'
  {
    if s == [] || s[|s| - 1] == '/' then []
    else LastSegment(s[..|s| - 1]) + [s[|s| - 1]]
  }

  /** The product path segment of a line's edit link: its slug, or the
      numeric tail of a Storefront id such as `gid://shopify/Product/42`. */
  function EditTarget(item: CartItem): (r: string)
    ensures Truthy(item.data.slug) ==> r == item.data.slug.value
    ensures !Truthy(item.data.slug) ==> '/' !in r && |r| <= |item.data.productId| &&
                                        r == item.data.productId[|item.data.productId| - |r|..]
  {
    if Truthy(item.data.slug) then item.data.slug.value else LastSegment(item.data.productId)
  }

  /** The edit link's target. */
  function EditHref(item: CartItem): string {
    "/products/" + EditTarget(item) + "?editId=" + item.id
  }

  /** The link's path, up to its query, names the product page of the line's
      target whenever the target holds no '?'. */
  lemma EditHrefPath(item: CartItem)
    requires '?' !in EditTarget(item)
    ensures PrefixBefore(EditHref(item), '?') == "/products/" + EditTarget(item)
  {
    var a := "/products/" + EditTarget(item);
    assert EditHref(item) == a + ['?'] + ("editId=" + item.id);
    PrefixBeforeSplit(a, '?', "editId=" + item.id);
  }

  /** How the store's line is handed to `createShopifyCheckout`. */
  function ToCheckoutItem(item: CartItem): (r: Shopify.CheckoutItem)
    ensures Shopify.HasVariant(r) <==> Truthy(item.data.variantId)
    ensures r.quantity == item.data.quantity
  {
    Shopify.CheckoutItem(item.data.variantId, item.data.quantity, item.data.stampPad,
                         item.data.priorityProcessing, item.data.logo, item.data.inkColor, None)
  }

  function ToCheckoutItems(items: seq<CartItem>): (r: seq<Shopify.CheckoutItem>)
    ensures |r| == |items|
    ensures forall i :: 0 <= i < |items| ==> r[i] == ToCheckoutItem(items[i])
  {
    seq(|items|, i requires 0 <= i < |items| => ToCheckoutItem(items[i]))
  }

  /** A logo file uploaded from the cart is a file, not a string, so its line
      never carries the Logo attribute; only a string logo does. */
  lemma UploadedFileNotFlagged(item: CartItem, f: FileRef)
    ensures var c := ToCheckoutItem(CartItem(item.id, item.data.(logo := FileLogo(f))));
      forall a :: a in Shopify.Attributes(c) ==> a.key != Shopify.LogoKey
  {
  }

  /** What a press of the checkout button leads to. */
  datatype Outcome = Ignored | Redirect(url: string) | Refused(error: Shopify.CheckoutError)

  /** The default alert text, used only for an error without a message. */
  const DefaultAlert := "Failed to create checkout session. Please try again."

  /** `alert(e.message || ...)` for a refused checkout. */
  function AlertOf(o: Outcome): (t: Option<string>)
    ensures t.Some? <==> o.Refused?
    ensures o.Refused? ==> t == Some(Shopify.Message(o.error))
  {
    match o
    case Refused(e) => Some(if Shopify.Message(e) != "" then Shopify.Message(e) else DefaultAlert)
    case _ => None
  }

  /** The click handler with the in-flight flag it leaves behind: a disabled
      button does nothing; otherwise the lines go to `createShopifyCheckout`
      and the flag stays set only on the way to the checkout URL. */
  function CheckoutClick(isCheckingOut: bool, items: seq<CartItem>,
                         fetch: seq<Shopify.CartLine> -> Shopify.Response): (r: (Outcome, bool))
    ensures r.0.Ignored? <==> CheckoutDisabled(isCheckingOut, items)
    ensures r.0.Ignored? ==> r.1 == isCheckingOut
    ensures !r.0.Ignored? ==> (r.1 <==> r.0.Redirect?)
    ensures r.0.Redirect? ==> r.0.url != "" && forall i :: 0 <= i < |items| ==> Truthy(items[i].data.variantId)
    ensures r.0.Refused? && r.0.error == Shopify.CheckoutFailed ==>
      forall i :: 0 <= i < |items| ==> Truthy(items[i].data.variantId)
    ensures !CheckoutDisabled(isCheckingOut, items) ==>
      match Shopify.CreateCheckout(ToCheckoutItems(items), fetch)
      case Success(u) => r.0 == Redirect(u)
      case Failure(e) => r.0 == Refused(e)
  {
    if CheckoutDisabled(isCheckingOut, items) then (Ignored, isCheckingOut)
    else
      var checkoutItems := ToCheckoutItems(items);
      assert Shopify.AllHaveVariant(checkoutItems) <==>
             forall i :: 0 <= i < |items| ==> Truthy(items[i].data.variantId) by {
        assert forall i :: 0 <= i < |items| ==> checkoutItems[i] == ToCheckoutItem(items[i]);
      }
      match Shopify.CreateCheckout(checkoutItems, fetch)
      case Success(url) => (Redirect(url), true)
      case Failure(e) => (Refused(e), false)
  }

  /** A line without a variant id (a quick-added product without one, say)
      blocks the checkout whatever the network would answer. */
  lemma LineWithoutVariantBlocksCheckout(items: seq<CartItem>, i: int,
                                         fetch: seq<Shopify.CartLine> -> Shopify.Response)
    requires 0 <= i < |items| && !Truthy(items[i].data.variantId)
    requires !AnySkipped(items)
    ensures CheckoutClick(false, items, fetch) == (Refused(Shopify.MissingVariantData), false)
  {
    var c := ToCheckoutItems(items);
    assert !Shopify.HasVariant(c[i]);
  }
}
