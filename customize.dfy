/** The six-step stamp builder of src/pages/Customize.tsx (Size, Logo, Pad,
    Ink, Speed, Review): the options it derives from the catalogue, the
    shopper's selections and the step they are on, the gate on each step, the
    review rows, and the checkout that uploads the logo, builds the line items
    and hands them to `createShopifyCheckout`. The upload and the Storefront
    request are oracles passed in by the caller. */
module CustomizePage {
  import opened Common
  import ProductsPage
  import Shopify
  import StampBuilderPage

  const StepLabels: seq<string> := ["Size", "Logo", "Pad", "Ink", "Speed", "Review"]
  const ReviewStep := 5

  const InkColors: seq<string> := ["Black", "Blue", "Red", "Green", "Purple"]

  const StampPadCategory := "stamp-pad"
  const PriorityKeyword := "priority processing"
  const DefaultPriorityPrice: real := 4.99
  const DefaultCheckoutAlert := "Failed to create checkout. Please try again."

  /** A size the shopper can pick (`Variant`). */
  datatype Variant = Variant(id: string, title: string, price: real, available: bool)

  /** A stamp-pad add-on (`StampPadOption`). */
  datatype PadOption = PadOption(name: string, price: real, variantId: string)

  /** `BuilderSelections` */
  datatype Selections = Selections(
    variant: Option<Variant>,
    logoFile: Option<FileRef>,
    logoPreview: Option<string>,
    stampPad: Option<PadOption>,
    inkColor: string,
    priorityProcessing: bool,
    priorityVariantId: Option<string>,
    priorityPrice: real)

  /** The pad option built from one stamp-pad product. */
  function PadOf(p: Product): PadOption {
    PadOption(p.name, p.price, p.defaultVariantId.GetOr(""))
  }

  /** The options of a list of products, one per product, in order. */
  function PadsOf(products: seq<Product>): (r: seq<PadOption>)
    ensures |r| == |products|
    ensures forall i :: 0 <= i < |products| ==> r[i] == PadOf(products[i])
  {
    if products == [] then [] else [PadOf(products[0])] + PadsOf(products[1..])
  }

  lemma {:induction false} PadsOfAppend(a: seq<Product>, b: seq<Product>)
    ensures PadsOf(a + b) == PadsOf(a) + PadsOf(b)
  {
    assert |PadsOf(a + b)| == |PadsOf(a) + PadsOf(b)|;
    forall i | 0 <= i < |a| + |b|
      ensures PadsOf(a + b)[i] == (PadsOf(a) + PadsOf(b))[i]
    {
      if i < |a| {
        assert (a + b)[i] == a[i];
      } else {
        assert (a + b)[i] == b[i - |a|];
      }
    }
  }

  /** Two lists holding the same products give the same options, as often. */
  lemma {:induction false} PadsOfPermutation(a: seq<Product>, b: seq<Product>)
    requires multiset(a) == multiset(b)
    ensures multiset(PadsOf(a)) == multiset(PadsOf(b))
    decreases |a|
  {
    if a == [] {
      assert |multiset(b)| == 0;
      assert b == [];
    } else {
      assert a[0] in multiset(b);
      var j :| 0 <= j < |b| && b[j] == a[0];
      var rest := b[..j] + b[j + 1..];
      assert b == b[..j] + [b[j]] + b[j + 1..];
      assert a == [a[0]] + a[1..];
      calc {
        multiset(rest);
        multiset(b[..j]) + multiset(b[j + 1..]);
        multiset(b) - multiset{a[0]};
        multiset(a) - multiset{a[0]};
        multiset(a[1..]);
      }
      PadsOfPermutation(a[1..], rest);
      PadsOfAppend(b[..j] + [b[j]], b[j + 1..]);
      PadsOfAppend(b[..j], [b[j]]);
      PadsOfAppend(b[..j], b[j + 1..]);
      PadsOfAppend([a[0]], a[1..]);
    }
  }

  /** The stamp-pad products of the full catalogue, cheapest first, as options:
      one option for each pad product, as many times as the catalogue lists it. */
  function StampPadOptions(all: seq<Product>): (r: seq<PadOption>)
    ensures |r| == |ProductsPage.OfCategory(all, StampPadCategory)|
    ensures forall i, j :: 0 <= i < j < |r| ==> r[i].price <= r[j].price
    ensures forall o :: o in r ==>
      exists p :: p in all && p.category == StampPadCategory && o == PadOf(p)
    ensures forall p :: p in all && p.category == StampPadCategory ==> PadOf(p) in r
    ensures multiset(r) == multiset(PadsOf(ProductsPage.OfCategory(all, StampPadCategory)))
  {
    var sorted := SortedPads(all);
    SortedPadsMembers(all);
    var r := PadsOf(sorted);
    PadsOfMembers(sorted, r);
    PadsOfPermutation(sorted, ProductsPage.OfCategory(all, StampPadCategory));
    r
  }

  /** Options built one per product are the options of those products. */
  lemma PadsOfMembers(products: seq<Product>, r: seq<PadOption>)
    requires |r| == |products| && forall i :: 0 <= i < |r| ==> r[i] == PadOf(products[i])
    ensures forall o :: o in r ==> exists p :: p in products && o == PadOf(p)
    ensures forall p :: p in products ==> PadOf(p) in r
  {
    forall o | o in r
      ensures exists p :: p in products && o == PadOf(p)
    {
      var i :| 0 <= i < |r| && r[i] == o;
      assert products[i] in products;
    }
    forall p | p in products
      ensures PadOf(p) in r
    {
      var i :| 0 <= i < |products| && products[i] == p;
      assert r[i] == PadOf(p);
    }
  }

  /** The stamp-pad products, sorted by ascending price. */
  function SortedPads(all: seq<Product>): (r: seq<Product>)
    ensures |r| == |ProductsPage.OfCategory(all, StampPadCategory)|
    ensures forall i, j :: 0 <= i < j < |r| ==> r[i].price <= r[j].price
    ensures multiset(r) == multiset(ProductsPage.OfCategory(all, StampPadCategory))
  {
    var r := ProductsPage.SortBy(ProductsPage.ByPriceAsc, ProductsPage.OfCategory(all, StampPadCategory));
    assert forall i, j :: 0 <= i < j < |r| ==>
      ProductsPage.Key(ProductsPage.ByPriceAsc, r[i]) <= ProductsPage.Key(ProductsPage.ByPriceAsc, r[j]);
    r
  }

  lemma SortedPadsMembers(all: seq<Product>)
    ensures forall p :: p in SortedPads(all) <==> p in all && p.category == StampPadCategory
  {
    var pads := ProductsPage.OfCategory(all, StampPadCategory);
    var sorted := SortedPads(all);
    assert multiset(sorted) == multiset(pads);
    forall p ensures p in sorted <==> p in all && p.category == StampPadCategory {
      assert p in sorted <==> p in multiset(sorted);
      assert p in all <==> p in multiset(all);
      assert multiset(pads)[p] == if p.category == StampPadCategory then multiset(all)[p] else 0;
    }
  }

  predicate IsPriorityProduct(p: Product) {
    Contains(ToLower(p.name), PriorityKeyword)
  }

  /** The first product whose lower-cased name mentions priority processing. */
  function PriorityProduct(all: seq<Product>): Option<Product> {
    FindFirst(all, IsPriorityProduct)
  }

  /** The catalogue price of priority processing, 4.99 when it is not listed. */
  function PriorityPriceOf(priority: Option<Product>): real {
    if priority.Some? then priority.value.price else DefaultPriorityPrice
  }

  /** The selections the page starts from. */
  function InitialSelections(priority: Option<Product>): (s: Selections)
    ensures s.variant.None? && s.logoFile.None? && s.logoPreview.None? && s.stampPad.None?
    ensures s.inkColor == InkColors[0] && !s.priorityProcessing
    ensures s.priorityPrice == PriorityPriceOf(priority)
    ensures s.priorityVariantId == if priority.Some? then priority.value.defaultVariantId else None
  {
    Selections(None, None, None, None, "Black", false,
      if priority.Some? then priority.value.defaultVariantId else None,
      PriorityPriceOf(priority))
  }

  /** The product's sizes as selectable variants, every one available. */
  function Variants(product: Option<Product>): (r: seq<Variant>)
    ensures product.None? || product.value.sizes.None? ==> r == []
    ensures product.Some? && product.value.sizes.Some? ==>
      |r| == |product.value.sizes.value| &&
      forall i :: 0 <= i < |r| ==>
        var s := product.value.sizes.value[i];
        r[i] == Variant(s.variantId.GetOr(""), s.caption, s.price, true)
  {
    var sizes := if product.Some? && product.value.sizes.Some? then product.value.sizes.value else [];
    seq(|sizes|, i requires 0 <= i < |sizes| =>
      Variant(sizes[i].variantId.GetOr(""), sizes[i].caption, sizes[i].price, true))
  }

  /** `totalPrice`, with the page's priority price. */
  function TotalPrice(sel: Selections, priorityPrice: real): real {
    (if sel.variant.Some? then sel.variant.value.price else 0.0)
      + (if sel.stampPad.Some? then sel.stampPad.value.price else 0.0)
      + (if sel.priorityProcessing then priorityPrice else 0.0)
  }

  /** `canContinue()`: the Size and Logo steps need a choice; Ink needs a
      non-empty colour; every other step may always be left. */
  predicate CanContinue(step: int, sel: Selections) {
    if step == 0 then sel.variant.Some?
    else if step == 1 then sel.logoFile.Some?
    else if step == 3 then sel.inkColor != ""
    else true
  }

  /** One row of the review table: the step its Edit button returns to. */
  datatype ReviewRow = ReviewRow(caption: string, value: string, price: real, step: int)

  function ReviewRows(sel: Selections): (r: seq<ReviewRow>)
    ensures |r| == 5
    ensures forall i :: 0 <= i < 5 ==> r[i].step == i && r[i].caption != ""
  {
    [ ReviewRow("Stamp Size", if sel.variant.Some? then sel.variant.value.title else "—",
                if sel.variant.Some? then sel.variant.value.price else 0.0, 0),
      ReviewRow("Your Design", if sel.logoFile.Some? then sel.logoFile.value.name else "No file uploaded", 0.0, 1),
      ReviewRow("Stamp Pad", if sel.stampPad.Some? then sel.stampPad.value.name else "None",
                if sel.stampPad.Some? then sel.stampPad.value.price else 0.0, 2),
      ReviewRow("Ink Color", sel.inkColor, 0.0, 3),
      ReviewRow("Processing", if sel.priorityProcessing then "Priority (24h)" else "Standard (1–3 days)",
                if sel.priorityProcessing then sel.priorityPrice else 0.0, 4) ]
  }

  function RowsTotal(rows: seq<ReviewRow>): real {
    if rows == [] then 0.0 else rows[0].price + RowsTotal(rows[1..])
  }

  /** The prices in the review rows against the total shown under them: the
      Processing row prices the priority price the selections saved, the total
      the page's current one, and nothing else separates the two. */
  lemma ReviewRowsAgainstTotal(sel: Selections, priorityPrice: real)
    ensures RowsTotal(ReviewRows(sel)) ==
      TotalPrice(sel, priorityPrice) + (if sel.priorityProcessing then sel.priorityPrice - priorityPrice else 0.0)
    ensures RowsTotal(ReviewRows(sel)) != TotalPrice(sel, priorityPrice) <==>
      sel.priorityProcessing && sel.priorityPrice != priorityPrice
  {
    var r := ReviewRows(sel);
    assert RowsTotal(r[4..]) == r[4].price by { assert r[4..][1..] == []; }
    assert RowsTotal(r[3..]) == r[3].price + RowsTotal(r[4..]) by { assert r[3..][1..] == r[4..]; }
    assert RowsTotal(r[2..]) == r[2].price + RowsTotal(r[3..]) by { assert r[2..][1..] == r[3..]; }
    assert RowsTotal(r[1..]) == r[1].price + RowsTotal(r[2..]) by { assert r[1..][1..] == r[2..]; }
  }

  /** The prices in the review rows add up to the total shown under them,
      as long as the selections carry the page's priority price. */
  lemma ReviewRowsAddUpToTotal(sel: Selections, priorityPrice: real)
    requires sel.priorityPrice == priorityPrice
    ensures RowsTotal(ReviewRows(sel)) == TotalPrice(sel, priorityPrice)
  {
    ReviewRowsAgainstTotal(sel, priorityPrice);
  }

  /** Dropping the pad lowers the total by the pad's price; priority adds its price. */
  lemma TotalPriceParts(sel: Selections, priorityPrice: real)
    ensures TotalPrice(sel.(stampPad := None), priorityPrice) ==
      TotalPrice(sel, priorityPrice) - (if sel.stampPad.Some? then sel.stampPad.value.price else 0.0)
    ensures TotalPrice(sel.(priorityProcessing := true), priorityPrice) ==
      TotalPrice(sel.(priorityProcessing := false), priorityPrice) + priorityPrice
    ensures sel.stampPad.None? && !sel.priorityProcessing && sel.variant.Some? ==>
      TotalPrice(sel, priorityPrice) == sel.variant.value.price
  {
  }

  /** The priority line is added only when priority is chosen and the
      catalogue's priority product has a non-empty variant id. */
  predicate AddsPriorityLine(sel: Selections, priority: Option<Product>) {
    sel.priorityProcessing && priority.Some? && Truthy(priority.value.defaultVariantId)
  }

  /** The line items `handleCheckout` builds, in push order. */
  function LineItems(sel: Selections, logoUrl: Option<string>, priority: Option<Product>): seq<Shopify.CheckoutItem>
    requires sel.variant.Some?
  {
    [Shopify.CheckoutItem(Some(sel.variant.value.id), 1,
       if sel.stampPad.Some? then Some(sel.stampPad.value.name) else None,
       Some(sel.priorityProcessing), NoLogo, Some(sel.inkColor), logoUrl)]
    + (if sel.stampPad.Some?
       then [Shopify.CheckoutItem(Some(sel.stampPad.value.variantId), 1, None, None, NoLogo, None, None)]
       else [])
    + (if AddsPriorityLine(sel, priority)
       then [Shopify.CheckoutItem(priority.value.defaultVariantId, 1, None, None, NoLogo, None, None)]
       else [])
  }

  /** The stamp line comes first; a pad line follows exactly when a pad is
      chosen; the priority line is last; every quantity is 1. */
  lemma LineItemsShape(sel: Selections, logoUrl: Option<string>, priority: Option<Product>)
    requires sel.variant.Some?
    ensures var r := LineItems(sel, logoUrl, priority);
      |r| == 1 + (if sel.stampPad.Some? then 1 else 0) + (if AddsPriorityLine(sel, priority) then 1 else 0) &&
      (forall i :: 0 <= i < |r| ==> r[i].quantity == 1) &&
      r[0].variantId == Some(sel.variant.value.id) && r[0].logoUrl == logoUrl &&
      (sel.stampPad.Some? ==> r[1].variantId == Some(sel.stampPad.value.variantId)) &&
      (AddsPriorityLine(sel, priority) ==> r[|r| - 1].variantId == priority.value.defaultVariantId)
  {
  }

  /** The checkout accepts the line items exactly when the chosen size and
      the chosen pad both carry a non-empty variant id. */
  lemma LineItemsHaveVariants(sel: Selections, logoUrl: Option<string>, priority: Option<Product>)
    requires sel.variant.Some?
    ensures Shopify.AllHaveVariant(LineItems(sel, logoUrl, priority)) <==>
      sel.variant.value.id != "" && (sel.stampPad.Some? ==> sel.stampPad.value.variantId != "")
  {
    var r := LineItems(sel, logoUrl, priority);
    assert Shopify.HasVariant(r[0]) <==> sel.variant.value.id != "";
    if sel.stampPad.Some? {
      assert Shopify.HasVariant(r[1]) <==> sel.stampPad.value.variantId != "";
    }
    if AddsPriorityLine(sel, priority) {
      assert Shopify.HasVariant(r[|r| - 1]);
    }
  }

  /** Of the builder's extras only the pad name and the priority flag become
      cart attributes: the logo URL and the ink colour are not sent, so no
      line ever carries the "Logo" attribute. */
  lemma LineItemAttributes(sel: Selections, logoUrl: Option<string>, priority: Option<Product>)
    requires sel.variant.Some?
    ensures var r := LineItems(sel, logoUrl, priority);
      (forall i, a :: 0 <= i < |r| && a in Shopify.Attributes(r[i]) ==> a.key != Shopify.LogoKey) &&
      (forall i :: 1 <= i < |r| ==> Shopify.Attributes(r[i]) == []) &&
      (Shopify.Attribute(Shopify.PriorityKey, "Yes") in Shopify.Attributes(r[0]) <==> sel.priorityProcessing) &&
      ((Shopify.Attribute(Shopify.StampPadKey, if sel.stampPad.Some? then sel.stampPad.value.name else "")
          in Shopify.Attributes(r[0])) <==> sel.stampPad.Some? && sel.stampPad.value.name != "")
  {
    var r := LineItems(sel, logoUrl, priority);
    forall i | 0 <= i < |r|
      ensures forall a :: a in Shopify.Attributes(r[i]) ==> a.key != Shopify.LogoKey
    {
      assert r[i].logo == NoLogo;
      Shopify.LogoAttributeOnlyForText(r[i]);
    }
    forall i | 1 <= i < |r|
      ensures Shopify.Attributes(r[i]) == []
    {
      assert r[i].stampPad.None? && r[i].priorityProcessing.None? && r[i].logo == NoLogo;
    }
  }

  /** `handleCheckout` pushing onto a fresh array. */
  method BuildLineItems(sel: Selections, logoUrl: Option<string>, priority: Option<Product>)
    returns (items: seq<Shopify.CheckoutItem>)
    requires sel.variant.Some?
    ensures items == LineItems(sel, logoUrl, priority)
  {
    items := [];
    items := items + [Shopify.CheckoutItem(Some(sel.variant.value.id), 1,
      if sel.stampPad.Some? then Some(sel.stampPad.value.name) else None,
      Some(sel.priorityProcessing), NoLogo, Some(sel.inkColor), logoUrl)];
    if sel.stampPad.Some? {
      items := items + [Shopify.CheckoutItem(Some(sel.stampPad.value.variantId), 1, None, None, NoLogo, None, None)];
    }
    if sel.priorityProcessing && priority.Some? && Truthy(priority.value.defaultVariantId) {
      items := items + [Shopify.CheckoutItem(priority.value.defaultVariantId, 1, None, None, NoLogo, None, None)];
    }
  }

  /** What follows a press of Checkout: nothing, a redirect, or an alert
      for a failed upload (with the error's message) or a failed checkout. */
  datatype CheckoutOutcome =
    | Ignored
    | Redirect(url: string)
    | UploadFailed(message: string)
    | CheckoutRefused(error: Shopify.CheckoutError)

  /** `alert(err.message || "...")` */
  function AlertText(message: string): (t: string)
    ensures t != ""
    ensures message != "" ==> t == message
  {
    if message != "" then message else DefaultCheckoutAlert
  }

  /** The text of the alert an outcome shows, if it shows one. */
  function AlertOf(o: CheckoutOutcome): (t: Option<string>)
    ensures t.Some? <==> o.UploadFailed? || o.CheckoutRefused?
    ensures t.Some? ==> t.value != ""
    ensures o.CheckoutRefused? ==> t == Some(Shopify.Message(o.error))
  {
    match o
    case UploadFailed(m) => Some(AlertText(m))
    case CheckoutRefused(e) => Some(AlertText(Shopify.Message(e)))
    case _ => None
  }

  /** The outcome of `handleCheckout` given what the upload and the Storefront
      request answer; `upload` is only consulted when a logo was chosen. */
  function CheckoutResult(sel: Selections, priority: Option<Product>, upload: Result<string, string>,
                          fetch: seq<Shopify.CartLine> -> Shopify.Response): CheckoutOutcome
  {
    if sel.variant.None? then Ignored
    else if sel.logoFile.Some? && upload.Failure? then UploadFailed(upload.error)
    else SubmitLines(sel, priority, if sel.logoFile.Some? then Some(upload.value) else None, fetch)
  }

  /** The part of `handleCheckout` after the upload: build the lines, request
      a checkout, and redirect or alert. */
  function SubmitLines(sel: Selections, priority: Option<Product>, logoUrl: Option<string>,
                       fetch: seq<Shopify.CartLine> -> Shopify.Response): CheckoutOutcome
    requires sel.variant.Some?
  {
    match Shopify.CreateCheckout(LineItems(sel, logoUrl, priority), fetch)
    case Success(url) => Redirect(url)
    case Failure(e) => CheckoutRefused(e)
  }

  /** A redirect needs a size, a successful upload of any chosen logo, variant
      ids on every line, and a non-empty checkout URL; an upload alert only
      follows a chosen logo whose upload failed; without a size nothing happens. */
  lemma CheckoutRedirectsOnlyWhenComplete(sel: Selections, priority: Option<Product>,
                                          upload: Result<string, string>,
                                          fetch: seq<Shopify.CartLine> -> Shopify.Response)
    ensures var o := CheckoutResult(sel, priority, upload, fetch);
      (o.Redirect? ==> sel.variant.Some? && sel.variant.value.id != "" && o.url != "" &&
                       (sel.logoFile.Some? ==> upload.Success?) &&
                       (sel.stampPad.Some? ==> sel.stampPad.value.variantId != "")) &&
      (o.UploadFailed? ==> sel.logoFile.Some? && upload == Failure(o.message)) &&
      (o.Ignored? <==> sel.variant.None?)
  {
    if sel.variant.Some? && !(sel.logoFile.Some? && upload.Failure?) {
      var logoUrl := if sel.logoFile.Some? then Some(upload.value) else None;
      LineItemsHaveVariants(sel, logoUrl, priority);
    }
  }

  /** A chosen pad whose product had no variant id stops the checkout with
      the missing-variant message, whatever the network would answer. */
  lemma PadWithoutVariantBlocksCheckout(sel: Selections, priority: Option<Product>,
                                        upload: Result<string, string>,
                                        fetch: seq<Shopify.CartLine> -> Shopify.Response)
    requires sel.variant.Some? && sel.stampPad.Some? && sel.stampPad.value.variantId == ""
    requires sel.logoFile.None? || upload.Success?
    ensures CheckoutResult(sel, priority, upload, fetch) == CheckoutRefused(Shopify.MissingVariantData)
  {
    var logoUrl := if sel.logoFile.Some? then Some(upload.value) else None;
    LineItemsHaveVariants(sel, logoUrl, priority);
  }

  /** The builder page: the options derived from the catalogues, and the
      step, selections and submitting flag it holds. */
  class Customize {
    const product: Option<Product>
    const padOptions: seq<PadOption>
    const priority: Option<Product>
    const priorityPrice: real
    var step: int
    var selections: Selections
    var isSubmitting: bool

    /** The step is one of the six; the selections carry the page's priority
        price and an offered ink; and no step after Size is reached without a
        size, none after Logo without a logo file. */
    ghost predicate Valid()
      reads this
    {
      0 <= step <= ReviewStep &&
      selections.priorityPrice == priorityPrice &&
      selections.inkColor in InkColors &&
      (step > 0 ==> selections.variant.Some?) &&
      (step > 1 ==> selections.logoFile.Some?)
    }

    /** The page over the catalogue's display list and full list. */
    constructor (display: seq<Product>, all: seq<Product>)
      ensures product == StampBuilderPage.FeaturedProduct(display)
      ensures padOptions == StampPadOptions(all)
      ensures priority == PriorityProduct(all)
      ensures priorityPrice == PriorityPriceOf(priority)
      ensures step == 0 && selections == InitialSelections(priority) && !isSubmitting
      ensures Valid()
    {
      product := StampBuilderPage.FeaturedProduct(display);
      padOptions := StampPadOptions(all);
      priority := PriorityProduct(all);
      priorityPrice := PriorityPriceOf(PriorityProduct(all));
      step := 0;
      selections := InitialSelections(PriorityProduct(all));
      isSubmitting := false;
    }

    function Total(): real
      reads this
    {
      TotalPrice(selections, priorityPrice)
    }

    /** The Back button of the bottom bar, disabled on the first step. */
    method Back()
      requires Valid() && step < ReviewStep
      modifies this
      ensures step == Max(0, old(step) - 1) && selections == old(selections)
      ensures Valid()
    {
      if step != 0 {
        step := Max(0, step - 1);
      }
    }

    /** The Continue button, disabled while `canContinue()` is false. */
    method Continue()
      requires Valid() && step < ReviewStep
      modifies this
      ensures step == if CanContinue(old(step), old(selections)) then old(step) + 1 else old(step)
      ensures selections == old(selections)
      ensures Valid()
    {
      if CanContinue(step, selections) {
        step := Min(ReviewStep, step + 1);
      }
    }

    /** A progress-bar circle: only steps already passed can be clicked. */
    method ProgressClick(i: int)
      requires Valid() && 0 <= i < |StepLabels|
      modifies this
      ensures step == if i < old(step) then i else old(step)
      ensures selections == old(selections)
      ensures Valid()
    {
      if i < step {
        step := i;
      }
    }

    /** The Edit button of review row `row` returns to that row's step. */
    method Edit(row: int)
      requires Valid() && step == ReviewStep && 0 <= row < 5
      modifies this
      ensures step == ReviewRows(old(selections))[row].step == row
      ensures selections == old(selections)
      ensures Valid()
    {
      step := ReviewRows(selections)[row].step;
    }

    method SelectVariant(v: Variant)
      requires Valid() && step == 0
      modifies this
      ensures selections == old(selections).(variant := Some(v)) && step == old(step)
      ensures CanContinue(step, selections) && Valid()
    {
      selections := selections.(variant := Some(v));
    }

    /** A picked file replaces the logo; `preview` stands for the object URL made for it. */
    method UploadLogo(file: FileRef, preview: string)
      requires Valid() && step == 1
      modifies this
      ensures selections == old(selections).(logoFile := Some(file), logoPreview := Some(preview))
      ensures step == old(step) && CanContinue(step, selections) && Valid()
    {
      selections := selections.(logoFile := Some(file), logoPreview := Some(preview));
    }

    method RemoveLogo()
      requires Valid() && step == 1
      modifies this
      ensures selections == old(selections).(logoFile := None, logoPreview := None)
      ensures step == old(step) && !CanContinue(step, selections) && Valid()
    {
      selections := selections.(logoFile := None, logoPreview := None);
    }

    /** A pad button selects that option; "Already have a stamp pad" clears it. */
    method SelectPad(opt: Option<PadOption>)
      requires Valid() && step == 2
      modifies this
      ensures selections == old(selections).(stampPad := opt) && step == old(step)
      ensures Total() == TotalPrice(old(selections).(stampPad := None), priorityPrice)
                         + (if opt.Some? then opt.value.price else 0.0)
      ensures Valid()
    {
      selections := selections.(stampPad := opt);
    }

    method SelectInk(color: string)
      requires Valid() && step == 3 && color in InkColors
      modifies this
      ensures selections == old(selections).(inkColor := color) && step == old(step)
      ensures CanContinue(step, selections) && Valid()
    {
      selections := selections.(inkColor := color);
    }

    /** Standard only switches priority off, Priority only switches it on. */
    method ChooseSpeed(wantPriority: bool)
      requires Valid() && step == 4
      modifies this
      ensures selections == old(selections).(priorityProcessing := wantPriority) && step == old(step)
      ensures Total() == TotalPrice(old(selections).(priorityProcessing := false), priorityPrice)
                         + (if wantPriority then priorityPrice else 0.0)
      ensures Valid()
    {
      if selections.priorityProcessing != wantPriority {
        selections := selections.(priorityProcessing := !selections.priorityProcessing);
      }
    }

    /** The Checkout button is enabled unless a request is in flight or no size is chosen. */
    predicate CheckoutEnabled()
      reads this
    {
      !isSubmitting && selections.variant.Some?
    }

    /** `handleCheckout`: `upload` is what uploading the logo file yields (a URL
        or the error's message), `fetch` what the Storefront answers. The flag
        stays set once the browser is sent to the checkout URL. */
    method HandleCheckout(upload: Result<string, string>, fetch: seq<Shopify.CartLine> -> Shopify.Response)
      returns (outcome: CheckoutOutcome, uploaded: bool)
      requires Valid()
      modifies this
      ensures outcome == CheckoutResult(old(selections), priority, upload, fetch)
      ensures uploaded <==> old(selections).variant.Some? && old(selections).logoFile.Some?
      ensures isSubmitting == if outcome.Ignored? then old(isSubmitting) else outcome.Redirect?
      ensures step == old(step) && selections == old(selections)
      ensures Valid()
      ensures old(step) == ReviewStep ==> !outcome.Ignored?
    {
      uploaded := false;
      if selections.variant.None? {
        outcome := Ignored;
        return;
      }
      isSubmitting := true;
      var logoUrl: Option<string> := None;
      if selections.logoFile.Some? {
        uploaded := true;
        if upload.Failure? {
          outcome := UploadFailed(upload.error);
          isSubmitting := false;
          return;
        }
        logoUrl := Some(upload.value);
      }
      var items := BuildLineItems(selections, logoUrl, priority);
      var result := Shopify.CreateCheckout(items, fetch);
      match result {
        case Success(url) =>
          outcome := Redirect(url);
        case Failure(e) =>
          outcome := CheckoutRefused(e);
          isSubmitting := false;
      }
    }
  }

  /** On the review step of a valid page a size and a logo are always chosen,
      so Checkout is enabled whenever no request is in flight. */
  lemma ReviewStepIsComplete(page: Customize)
    requires page.Valid() && page.step == ReviewStep && !page.isSubmitting
    ensures page.CheckoutEnabled()
    ensures page.selections.logoFile.Some?
    ensures CanContinue(3, page.selections)
  {
  }
}
