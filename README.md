# SleekStamp storefront: a Dafny model of its decision logic

SleekStamp is a React storefront for custom rubber stamps backed by Shopify. Most of
the code is markup; this project models the logic underneath it and proves what that
logic promises. The modelled parts are:

- **The two stamp customizers.**
  - The six-step builder page (`Customize`, with the clamping `BuilderProvider` context).
  - The category-dependent step list of the product page (`Customizer`).
  - For each: the held step and selections, the per-step gate on Continue, the running
    price, and the checkout line items or the cart record each builds.
- **`createShopifyCheckout`.** The variant check, the cart lines with their ordered
  custom attributes, and how the Storefront response is read.
- **`mapShopifyProduct`.** How a Storefront product node becomes a catalogue record:
  category keywords in a fixed order, sizes, default variant, stock flag and short
  description.
- **The cart page.** Order summary with a free-shipping threshold of 150, the
  free-shipping hint, the "skipped logo" panel and checkout gating, the requests its
  buttons send to the cart store, and the edit link.
- **The legacy checkout page.** A four-step wizard, the form and its threshold of 50,
  and placing the order.
- **Smaller pages.**
  - The catalogue's category filter, sort modes and sidebar counts.
  - The stamp builder landing page's featured product and price range.
  - The product card's quick-add record.
  - The header's active-link test and mobile menu.

Pure parts are functions with lemmas. State a page holds and updates in handlers is a
`class` whose methods state the new state: `Customize`, `Customizer`, `BuilderProvider`,
`Checkout` and `Navbar`. `handleCheckout`'s successive pushes are a method proved equal
to the `LineItems` function.

Money is an exact `real`. The upload to the image host and the Storefront request are
oracles passed in by the caller. The upload is a `Result` holding a URL or an error
message. The request is a function from cart lines to a response (status and checkout
URL).

One module per source file:

| module | file |
|---|---|
| `Common` | shared records and string helpers |
| `OrderSummary` | the shipping, tax and total formula |
| `CustomizePage` | customize.dfy |
| `ProductDetailPage` | product_detail.dfy |
| `BuilderContext` | builder_context.dfy |
| `Shopify` | shopify.dfy |
| `ShopifyCatalogue` | shopify_catalogue.dfy |
| `CartPage` | cart.dfy |
| `CheckoutPage` | checkout.dfy |
| `ProductsPage` | products_page.dfy |
| `StampBuilderPage` | stamp_builder.dfy |
| `ProductCardComponent` | product_card.dfy |
| `NavbarComponent` | navbar.dfy |

## Model

| member | source | states |
|---|---|---|
| Common.FindFirst | src/pages/StampBuilder.tsx:15 | `find` returns nothing iff no element satisfies the test, else an element that satisfies it with none before it that does |
| Common.ContainsIff | src/hooks/useShopify.ts:72-79 | `includes` holds exactly when the substring occurs at some offset |
| Common.ToLower | src/hooks/useShopify.ts:71 | lower-casing keeps the length and maps each character through the ASCII lower-case map |
| Common.PrefixBefore | src/components/Navbar.tsx:50 | `split(c)[0]` has no `c`, is a prefix of the string, and is followed by `c` when shorter |
| Common.PrefixBeforeSplit | src/components/Navbar.tsx:50 | whatever follows the first `c` does not affect `split(c)[0]` |
| OrderSummary.Shipping | src/pages/Cart.tsx:40 | shipping is 0 exactly when the subtotal reaches the threshold, and is otherwise 5.99 |
| OrderSummary.Tax | src/pages/Cart.tsx:41 | computes 8% of the subtotal; its place in the total is stated by OrderSummary.OrderTotalShape |
| OrderSummary.OrderTotal | src/pages/Cart.tsx:42 | computes subtotal + shipping + tax; stated by OrderSummary.OrderTotalShape and OrderSummary.ThresholdsDisagree |
| OrderSummary.OrderTotalShape | src/pages/Cart.tsx:40-42 | the order total is 1.08 times the subtotal plus 5.99 below the threshold, and is at least the subtotal |
| OrderSummary.ThresholdsDisagree | src/pages/Checkout.tsx:41-43 | the cart (150) and the checkout form (50) disagree on shipping exactly for subtotals in [50, 150), and the cart's total is then 5.99 higher |
| OrderSummary.SampleOrder | src/pages/Cart.tsx:40-42 | a 117.97 subtotal totals 133.3976 in the cart and 127.4076 at the checkout form |
| CartPage.SkippedItems | src/pages/Cart.tsx:150-160 | the upload panel is non-empty exactly when some line's logo is "skipped" |
| CartPage.SkippedItemsCount | src/pages/Cart.tsx:160 | the panel lists every skipped line as many times as the cart holds it, and nothing else |
| CartPage.SkippedItemsAppend | src/pages/Cart.tsx:160 | the panel keeps cart order |
| CartPage.CheckoutDisabled | src/pages/Cart.tsx:239 | the disabled test of the checkout button; stated by CartPage.Label, CartPage.CheckoutClick and CartPage.UploadLeavesPanel |
| CartPage.Label | src/pages/Cart.tsx:239-248 | "Preparing" iff a checkout is in flight, "Upload all designs" iff otherwise some line is skipped; every other caption than "Proceed" goes with a disabled button |
| CartPage.FreeShippingHint | src/pages/Cart.tsx:186-194 | the hint shows iff shipping is charged; the amount left is positive and completes the subtotal to 150; the bar's width is below 100, equals subtotal/150·100, and is non-negative for a non-negative subtotal |
| CartPage.PageView | src/pages/Cart.tsx:14-248 | the empty view iff the item count is 0; otherwise the panel is exactly the skipped lines in cart order (CartPage.SkippedItems), the hint is CartPage.FreeShippingHint of the subtotal, the summary shows the subtotal, the 5.99-or-0 shipping at the 150 threshold, the 8% tax and their sum, and the button's state and caption are CartPage.CheckoutDisabled and CartPage.Label |
| CartPage.QuantityStep | src/pages/Cart.tsx:111-118 | minus and plus ask the store for one less or one more of that line |
| CartPage.QuantityStepsUndo | src/pages/Cart.tsx:111-127 | plus after minus asks for the original quantity, and one unit more adds one unit price to the line amount |
| CartPage.UploadRequest | src/pages/Cart.tsx:173-176 | a picked file asks the store to replace that line's logo; no file, no request |
| CartPage.LineRequestsNameTheLine | src/pages/Cart.tsx:111-137 | the minus, plus, remove and upload requests all name the line's own id |
| CartPage.RemoveRequest | src/pages/Cart.tsx:137 | the remove button's request; stated by CartPage.LineRequestsNameTheLine |
| CartPage.UploadLeavesPanel | src/pages/Cart.tsx:160-176 | replacing a skipped logo by a file removes exactly one line from the panel, and removing the last one enables checkout |
| CartPage.LastSegment | src/pages/Cart.tsx:130 | `split('/').pop()` is a '/'-free suffix of the id that is preceded by '/' when shorter |
| CartPage.EditTarget | src/pages/Cart.tsx:130 | the edit link targets the slug when non-empty, else the last '/'-segment of the product id |
| CartPage.EditHref | src/pages/Cart.tsx:130 | the edit link; its path is stated by CartPage.EditHrefPath |
| CartPage.EditHrefPath | src/pages/Cart.tsx:130 | the edit link's path before its query is `/products/` followed by the target |
| CartPage.ToCheckoutItem | src/pages/Cart.tsx:231 | a cart line passes the variant check iff its variant id is truthy, and keeps its quantity |
| CartPage.ToCheckoutItems | src/pages/Cart.tsx:231 | the cart's lines are handed over one for one, in order |
| CartPage.UploadedFileNotFlagged | src/pages/Cart.tsx:175 | a line whose logo was replaced by an uploaded file carries no "Logo" attribute |
| CartPage.AlertOf | src/pages/Cart.tsx:233-236 | an alert is shown only for a refused checkout, with the error's message |
| CartPage.CheckoutClick | src/pages/Cart.tsx:227-239 | a disabled button does nothing; otherwise the lines go through CartPage.ToCheckoutItems to Shopify.CreateCheckout, the page redirects to the URL it returns or alerts with the error it fails with, the in-flight flag stays set iff the page redirects, and a redirect (or a failed request) means every line had a variant id |
| CartPage.LineWithoutVariantBlocksCheckout | src/pages/Cart.tsx:231 | a line without a variant id makes the checkout refuse with the missing-variant error whatever the network answers |
| CheckoutPage.StepIndex | src/pages/Checkout.tsx:10-15 | each step has one index in 0..3, and the step list holds it there |
| CheckoutPage.NextStep | src/pages/Checkout.tsx:345-347 | Continue moves one step forward |
| CheckoutPage.PrevStep | src/pages/Checkout.tsx:337-339 | Back moves one step back |
| CheckoutPage.BackUndoesContinue | src/pages/Checkout.tsx:337-347 | Back after Continue, and Continue after Back, return to the starting step |
| CheckoutPage.InitialForm | src/pages/Checkout.tsx:23-36 | the form has the twelve fields, all empty except country "US" |
| CheckoutPage.IndicatorOf | src/pages/Checkout.tsx:99-103 | a step before the current one is drawn done, the current one current |
| CheckoutPage.PageView | src/pages/Checkout.tsx:41-84 | the confirmation wins over the empty-cart redirect; the wizard's summary follows the threshold of 50 |
| CheckoutPage.Checkout.constructor | src/pages/Checkout.tsx:20-36 | the page starts on Contact with the initial form, not ordered |
| CheckoutPage.Checkout.Back | src/pages/Checkout.tsx:337-339 | Back, offered past the first step, moves one step back and changes nothing else |
| CheckoutPage.Checkout.Continue | src/pages/Checkout.tsx:345-347 | Continue, offered before Confirm, moves one step forward and changes nothing else |
| CheckoutPage.Checkout.Update | src/pages/Checkout.tsx:38-39 | `update` sets that field and leaves every other field, the step and the flag alone |
| CheckoutPage.Checkout.PlaceOrder | src/pages/Checkout.tsx:47-50 | placing the order sets `ordered` and asks the store to clear the cart |
| NavbarComponent.HrefPath | src/components/Navbar.tsx:50 | a link's path has no query, and is the href itself when the href has none |
| NavbarComponent.IsActive | src/components/Navbar.tsx:50-54 | the active-link test; stated by NavbarComponent.OnlyHomeActiveAtRoot, NavbarComponent.ActiveAwayFromRoot and NavbarComponent.AtMostOneActive |
| NavbarComponent.OnlyHomeActiveAtRoot | src/components/Navbar.tsx:6-12 | on "/" exactly the Home link is active |
| NavbarComponent.ActiveAwayFromRoot | src/components/Navbar.tsx:50-54 | off "/" a link is active iff the path equals its href without the query, so Home never is |
| NavbarComponent.AtMostOneActive | src/components/Navbar.tsx:6-54 | at most one link is active on any path |
| NavbarComponent.Navbar.constructor | src/components/Navbar.tsx:15 | the mobile menu starts closed |
| NavbarComponent.Navbar.Toggle | src/components/Navbar.tsx:65 | the menu button flips the flag |
| NavbarComponent.Navbar.FollowMobileLink | src/components/Navbar.tsx:84 | following a mobile link closes the menu |
| ProductCardComponent.QuickAdd | src/components/ProductCard.tsx:13-23 | quick add is one unit at the base price with the default variant, and sets none of the customizer's fields |
| ProductCardComponent.QuickAddRequest | src/components/ProductCard.tsx:15-22 | the button asks the store to add one unit with the default variant |
| ProductCardComponent.QuickAddIgnoresSizes | src/components/ProductCard.tsx:19 | the record does not depend on the product's sizes |
| ProductCardComponent.QuickAddInCart | src/components/ProductCard.tsx:13-23 | a quick-added line is never skipped, edits via the product id's tail, carries no attributes, and passes the variant check iff the product has a default variant |
| ProductCardComponent.QuickAddWithoutVariantRefused | src/components/ProductCard.tsx:21 | a product without a default variant gives a line that makes the checkout refuse the whole cart |
| Shopify.Message | src/utils/shopify.ts:48 | each thrown error has a non-empty message |
| Shopify.Attributes | src/utils/shopify.ts:54-57 | at most three attributes in the fixed order; "Stamp Pad" iff the pad is truthy, "Priority Processing" iff priority, "Logo" iff the logo is a non-empty string |
| Shopify.LogoAttributeOnlyForText | src/utils/shopify.ts:57 | a "Logo" attribute exists iff the logo is a non-empty string |
| Shopify.InkAndLogoUrlDropped | src/utils/shopify.ts:54-57 | ink colour and logo URL never affect the attributes |
| Shopify.ToLines | src/utils/shopify.ts:52-64 | one line per item in order, copying variant id and quantity, with the item's attributes |
| Shopify.InterpretResponse | src/utils/shopify.ts:89-94 | a URL iff status 200 with a non-empty checkout URL, else "Failed to initialize checkout." |
| Shopify.CreateCheckout | src/utils/shopify.ts:44-95 | any item without a variant id fails with the missing-variant error; otherwise the result is the response read from the request for the lines |
| Shopify.InvalidItemsNeverFetch | src/utils/shopify.ts:46-49 | with an invalid item, the result does not depend on the network |
| ShopifyCatalogue.Slug | src/hooks/useShopify.ts:81 | the slug has the type's length, no spaces, and the lower-cased type's other characters |
| ShopifyCatalogue.InferCategory | src/hooks/useShopify.ts:70-82 | the category chain; stated by ShopifyCatalogue.InferCategoryIsFirstMatch and ShopifyCatalogue.RefillRuleComesFirst |
| ShopifyCatalogue.InferCategoryIsFirstMatch | src/hooks/useShopify.ts:70-82 | the category is that of the first keyword rule matching the lower-cased title, else the type's slug, else custom-stamps |
| ShopifyCatalogue.RefillRuleComesFirst | src/hooks/useShopify.ts:72-75 | a title naming both refill ink and a stamp pad is refill ink |
| ShopifyCatalogue.ShortDescription | src/hooks/useShopify.ts:110 | at most the first 100 characters of the description, followed by "..." |
| ShopifyCatalogue.SizesOf | src/hooks/useShopify.ts:58-66 | one size per variant in order, caption and size the variant title, with its price and id |
| ShopifyCatalogue.MapShopifyProduct | src/hooks/useShopify.ts:53-120 | every field of the record: sizes only for two or more variants, the first variant's id or "", in stock iff some variant is available, the Big Custom Stamps overrides, the short description and turnaround |
| ProductsPage.OfCategory | src/pages/Products.tsx:27 | the filter keeps exactly the products of the category, each as often as in the input |
| ProductsPage.FilterByCategory | src/pages/Products.tsx:26-28 | no active category lists everything; one lists that category's products |
| ProductsPage.Insert | src/pages/Products.tsx:30-32 | insertion adds exactly the one element |
| ProductsPage.InsertSorted | src/pages/Products.tsx:30-32 | insertion keeps a sorted list sorted |
| ProductsPage.ConsSorted | src/pages/Products.tsx:30-32 | a sorted list stays sorted under a head whose key is no larger |
| ProductsPage.SortBy | src/pages/Products.tsx:30-32 | sorting gives a sorted permutation of the list |
| ProductsPage.SortProducts | src/pages/Products.tsx:30-34 | a permutation; non-decreasing price, non-increasing price or non-increasing rating for the three modes; unchanged for any other |
| ProductsPage.FilteredProducts | src/pages/Products.tsx:25-35 | the listing holds exactly the active category's products (all without one), in catalogue order for "popular" |
| ProductsPage.CategoryCount | src/pages/Products.tsx:81-82 | a sidebar count is the length of the listing that category's link shows |
| ProductsPage.CountsPartitionAll | src/pages/Products.tsx:79-82 | distinct categories' counts plus the uncategorised products make the "All" count |
| ProductsPage.CountsOfEmpty | src/pages/Products.tsx:82 | no products, no counts |
| ProductsPage.CountsStep | src/pages/Products.tsx:82 | dropping one product lowers the total count by one iff its category is listed |
| ProductsPage.CategoryIdsDistinct | src/data/products.ts:22 | the sidebar's category ids are distinct |
| ProductsPage.SidebarCountsBounded | src/pages/Products.tsx:79-82 | the five counts never exceed the "All" count, and reach it iff every product has a sidebar category |
| ProductsPage.UncategorisedZero | src/pages/Products.tsx:79-82 | no uncategorised products iff every category is listed |
| StampBuilderPage.FeaturedProduct | src/pages/StampBuilder.tsx:15 | the first product with the featured slug, else the first custom stamp, else none |
| StampBuilderPage.PageView | src/pages/StampBuilder.tsx:17-39 | loading wins, then not-found when no product qualifies, else the featured product |
| StampBuilderPage.MinPrice | src/pages/StampBuilder.tsx:92 | the lowest size price, which is some size's price |
| StampBuilderPage.MaxPrice | src/pages/StampBuilder.tsx:96 | the highest size price, which is some size's price |
| StampBuilderPage.PriceRange | src/pages/StampBuilder.tsx:89-96 | shown iff sizes are non-empty; min ≤ max, both size prices, bounding every size |
| StampBuilderPage.FilledStars | src/pages/StampBuilder.tsx:104 | between 0 and 5 stars; star i is filled iff i is below the rating's floor |
| BuilderContext.NavigationStaysInRange | src/context/BuilderContext.tsx:52-62 | from a step in 0..5 next and prev stay in 0..5, and any jump lands in 0..5 |
| BuilderContext.GoToStepExactAndIdempotent | src/context/BuilderContext.tsx:60-62 | a jump to 0..5 lands there, jumps clamp outside, and a repeated jump changes nothing |
| BuilderContext.PrevUndoesNext | src/context/BuilderContext.tsx:52-58 | prev after next restores every step below 5 |
| BuilderContext.InitialStateIsEmpty | src/context/BuilderContext.tsx:20-35 | the initial state is step 0, black ink, nothing selected, total 0 |
| BuilderContext.TotalPriceComponents | src/context/BuilderContext.tsx:64-67 | the total is the variant price plus the selected pad and priority prices |
| BuilderContext.NextStepOf | src/context/BuilderContext.tsx:53 | `Math.min(s + 1, 5)`; stated by BuilderContext.NavigationStaysInRange and BuilderContext.PrevUndoesNext |
| BuilderContext.PrevStepOf | src/context/BuilderContext.tsx:57 | `Math.max(s - 1, 0)`; stated by BuilderContext.NavigationStaysInRange and BuilderContext.PrevUndoesNext |
| BuilderContext.GoToStepOf | src/context/BuilderContext.tsx:61 | `Math.max(0, Math.min(k, 5))`; stated by BuilderContext.GoToStepExactAndIdempotent |
| BuilderContext.TotalPrice | src/context/BuilderContext.tsx:64-67 | the total price; stated by BuilderContext.TotalPriceComponents and BuilderContext.InitialStateIsEmpty |
| BuilderContext.BuilderProvider.constructor | src/context/BuilderContext.tsx:50 | the provider starts from the initial state |
| BuilderContext.BuilderProvider.SetState | src/context/BuilderContext.tsx:50 | the raw setter replaces the record |
| BuilderContext.BuilderProvider.NextStep | src/context/BuilderContext.tsx:52-54 | only the step changes, to min(step+1, 5) |
| BuilderContext.BuilderProvider.PrevStep | src/context/BuilderContext.tsx:56-58 | only the step changes, to max(step−1, 0) |
| BuilderContext.BuilderProvider.GoToStep | src/context/BuilderContext.tsx:60-62 | only the step changes, clamped into 0..5 |
| BuilderContext.BuilderProvider.Reset | src/context/BuilderContext.tsx:69 | the state returns to the initial state, total 0 |
| CustomizePage.StampPadOptions | src/pages/Customize.tsx:574-579 | one option per stamp-pad product, cheapest first: the options are, as a multiset, those of the pad products; every option is a pad product's (missing variant id as "") and every pad product has its option |
| CustomizePage.PadsOfPermutation | src/pages/Customize.tsx:574-579 | sorting the pad products before mapping them to options does not change which options appear, nor how often |
| CustomizePage.PadsOfMembers | src/pages/Customize.tsx:579 | options built one per product are exactly those products' options |
| CustomizePage.SortedPads | src/pages/Customize.tsx:574-578 | the stamp-pad products sorted by ascending price |
| CustomizePage.SortedPadsMembers | src/pages/Customize.tsx:574-578 | the sorted list holds exactly the stamp-pad products |
| CustomizePage.InitialSelections | src/pages/Customize.tsx:584-593 | nothing selected, black ink, standard speed, and the priority product's variant and price |
| CustomizePage.Variants | src/pages/Customize.tsx:598-603 | one available variant per size, a missing variant id as "" |
| CustomizePage.TotalPrice | src/pages/Customize.tsx:605-608 | the running total; stated by CustomizePage.TotalPriceParts and CustomizePage.ReviewRowsAddUpToTotal |
| CustomizePage.CanContinue | src/pages/Customize.tsx:610-619 | the per-step gate; stated by CustomizePage.Customize.Continue and CustomizePage.ReviewStepIsComplete |
| CustomizePage.ReviewRows | src/pages/Customize.tsx:476-482 | five rows whose Edit buttons return to steps 0..4 |
| CustomizePage.ReviewRowsAgainstTotal | src/pages/Customize.tsx:476-482 | the row prices differ from the total shown exactly when priority is chosen and the saved priority price is not the page's current one, and then by their difference |
| CustomizePage.ReviewRowsAddUpToTotal | src/pages/Customize.tsx:476-482 | the row prices add up to the total shown when the selections carry the page's priority price |
| CustomizePage.TotalPriceParts | src/pages/Customize.tsx:605-608 | dropping the pad lowers the total by its price; priority adds its price; with no add-ons the total is the size's price |
| CustomizePage.LineItems | src/pages/Customize.tsx:633-656 | the line items of `handleCheckout`; stated by CustomizePage.LineItemsShape, CustomizePage.LineItemsHaveVariants, CustomizePage.LineItemAttributes and CustomizePage.BuildLineItems |
| CustomizePage.LineItemsShape | src/pages/Customize.tsx:633-656 | 1 to 3 lines of quantity 1: the stamp with its logo URL first, a pad line iff a pad is chosen, a priority line last iff priority is on and the product has a variant id |
| CustomizePage.LineItemsHaveVariants | src/pages/Customize.tsx:635-656 | the lines pass the variant check iff the size and any chosen pad have non-empty variant ids |
| CustomizePage.LineItemAttributes | src/pages/Customize.tsx:635-656 | no line carries "Logo"; only the stamp line has attributes: priority iff chosen, the pad name iff a named pad |
| CustomizePage.BuildLineItems | src/pages/Customize.tsx:633-656 | the successive pushes build exactly the line items |
| CustomizePage.AlertText | src/pages/Customize.tsx:662 | the alert shows the error's message, or the default when it has none |
| CustomizePage.AlertOf | src/pages/Customize.tsx:660-664 | an alert only for a failed upload or checkout, never empty, with the checkout error's message |
| CustomizePage.CheckoutResult | src/pages/Customize.tsx:621-665 | the outcome of `handleCheckout`; stated by CustomizePage.CheckoutRedirectsOnlyWhenComplete, CustomizePage.PadWithoutVariantBlocksCheckout and CustomizePage.Customize.HandleCheckout |
| CustomizePage.CheckoutRedirectsOnlyWhenComplete | src/pages/Customize.tsx:621-665 | nothing happens iff no size; a redirect needs a size id, a successful upload of any logo, a pad id and a URL; an upload alert needs a logo whose upload failed |
| CustomizePage.PadWithoutVariantBlocksCheckout | src/pages/Customize.tsx:644-658 | a pad without a variant id makes the checkout refuse with the missing-variant error |
| CustomizePage.Customize.constructor | src/pages/Customize.tsx:569-594 | featured product, pad options, priority product and price from the catalogues; step 0 with the initial selections |
| CustomizePage.Customize.Back | src/pages/Customize.tsx:758-759 | Back lowers the step, floored at 0, and keeps the selections |
| CustomizePage.Customize.Continue | src/pages/Customize.tsx:773-777 | Continue advances one step iff the step's gate passes: a size on 0, a logo on 1, a non-empty ink on 3 |
| CustomizePage.Customize.ProgressClick | src/pages/Customize.tsx:63 | a progress circle jumps only to a strictly earlier step |
| CustomizePage.Customize.Edit | src/pages/Customize.tsx:746 | a review row's Edit returns to that row's step, in 0..4 |
| CustomizePage.Customize.SelectVariant | src/pages/Customize.tsx:708 | choosing a size changes only the size and opens the gate |
| CustomizePage.Customize.UploadLogo | src/pages/Customize.tsx:715-717 | a picked file sets the logo and its preview only |
| CustomizePage.Customize.RemoveLogo | src/pages/Customize.tsx:719 | removing the logo clears it and its preview and closes the gate |
| CustomizePage.Customize.SelectPad | src/pages/Customize.tsx:726 | choosing a pad changes only the pad; the total moves by exactly its price |
| CustomizePage.Customize.SelectInk | src/pages/Customize.tsx:732 | choosing an ink changes only the ink |
| CustomizePage.Customize.ChooseSpeed | src/pages/Customize.tsx:409-426 | Standard and Priority set the flag; the total moves by exactly the priority price |
| CustomizePage.Customize.HandleCheckout | src/pages/Customize.tsx:621-665 | the outcome follows the upload and request results; the upload is tried only with a logo; the submitting flag stays set only on a redirect |
| CustomizePage.ReviewStepIsComplete | src/pages/Customize.tsx:533 | on the review step a size and a logo are chosen, so Checkout is enabled unless submitting |
| ProductDetailPage.Without | src/pages/ProductDetail.tsx:51 | the filter removes exactly the given step |
| ProductDetailPage.Steps | src/pages/ProductDetail.tsx:42-52 | the step list; stated by ProductDetailPage.StepsShape |
| ProductDetailPage.StepsShape | src/pages/ProductDetail.tsx:42-52 | each step list ends on review with no step twice; stamp pads get size, color, review; custom stamps get all six, without size when sizeless; others get review alone |
| ProductDetailPage.WithoutAbsent | src/pages/ProductDetail.tsx:51 | filtering out an absent step changes nothing |
| ProductDetailPage.StartState | src/pages/ProductDetail.tsx:55-61 | each preset field, else the second size, the first ink, no pad, no logo, standard speed |
| ProductDetailPage.Total | src/pages/ProductDetail.tsx:82-85 | the running total; stated by ProductDetailPage.TotalParts and ProductDetailPage.ItemOf |
| ProductDetailPage.CanNext | src/pages/ProductDetail.tsx:87-90 | the Continue gate; stated by ProductDetailPage.Customizer.Continue and ProductDetailPage.StampPadWithoutSizesIsStuck |
| ProductDetailPage.AddToCartEnabled | src/pages/ProductDetail.tsx:402 | the Add-to-Cart gate; stated by ProductDetailPage.Customizer.AddToCart, ProductDetailPage.Customizer.UploadLogo and ProductDetailPage.Customizer.RemoveLogo |
| ProductDetailPage.TotalParts | src/pages/ProductDetail.tsx:82-85 | priority adds 4.99, a pad adds its price, and with nothing chosen the total is the product's price |
| ProductDetailPage.StampPadWithoutSizesIsStuck | src/pages/ProductDetail.tsx:42-90 | a stamp pad without sizes or a preset size starts on a Size step it can never leave |
| ProductDetailPage.PadPriceFromLabel | src/pages/ProductDetail.tsx:588 | the pad price read from a stored label; stated by ProductDetailPage.PadPriceRoundTrip |
| ProductDetailPage.SmallPadPrice | src/pages/ProductDetail.tsx:588 | the small pad's label reads back as 7.99 |
| ProductDetailPage.MediumPadPrice | src/pages/ProductDetail.tsx:588 | the medium pad's label reads back as 9.99 |
| ProductDetailPage.LargePadPrice | src/pages/ProductDetail.tsx:588 | the large pad's label reads back as 12.99 |
| ProductDetailPage.LargeLabelNoSmall | src/pages/ProductDetail.tsx:69 | the large pad's label does not contain "Small" |
| ProductDetailPage.LargeLabelNoMedium | src/pages/ProductDetail.tsx:69 | the large pad's label does not contain "Medium" |
| ProductDetailPage.PadPriceRoundTrip | src/pages/ProductDetail.tsx:66-70 | every offered pad's label reads back as its price |
| ProductDetailPage.EditingItem | src/pages/ProductDetail.tsx:426 | the edited line has the editId and is in the cart, and is found whenever the cart holds that id |
| ProductDetailPage.ItemOf | src/pages/ProductDetail.tsx:457-477 | the cart record's price is the customizer's total; its variant is the size's, else the default; its quantity is the edited line's, else 1 |
| ProductDetailPage.CompleteRequest | src/pages/ProductDetail.tsx:479-483 | the edited line is updated when found, otherwise a new line of one unit is added |
| ProductDetailPage.EditPreset | src/pages/ProductDetail.tsx:582-592 | the rebuilt preset's size is one of the product's with the stored size, its pad price is read from the label, the rest is copied |
| ProductDetailPage.EditRoundTrip | src/pages/ProductDetail.tsx:457-592 | editing a line gives back the pad, logo, speed and size exactly, and the ink when one was chosen |
| ProductDetailPage.EditWithoutSizeTakesDefault | src/pages/ProductDetail.tsx:583-585 | a line without a size comes back with the product's second size |
| ProductDetailPage.Customizer.constructor | src/pages/ProductDetail.tsx:44-61 | the step list for the category, index 0, the start state |
| ProductDetailPage.Customizer.Next | src/pages/ProductDetail.tsx:92-95 | `next` advances before the last step and completes on it |
| ProductDetailPage.Customizer.Back | src/pages/ProductDetail.tsx:97 | `back` lowers the index, floored at 0 |
| ProductDetailPage.Customizer.Continue | src/pages/ProductDetail.tsx:391-398 | Continue advances iff `canNext`, which only the size step can refuse |
| ProductDetailPage.Customizer.SelectSize | src/pages/ProductDetail.tsx:135 | choosing a size changes only the size and opens the gate |
| ProductDetailPage.Customizer.TogglePad | src/pages/ProductDetail.tsx:175-179 | the selected pad is cleared, any other pad selected |
| ProductDetailPage.Customizer.Skip | src/pages/ProductDetail.tsx:196-283 | a skip clears its own step's field and advances |
| ProductDetailPage.Customizer.SelectInk | src/pages/ProductDetail.tsx:213 | choosing an ink changes only the ink |
| ProductDetailPage.Customizer.UploadLogo | src/pages/ProductDetail.tsx:254-378 | a picked file becomes the logo and enables Add to Cart |
| ProductDetailPage.Customizer.RemoveLogo | src/pages/ProductDetail.tsx:270-272 | removing the logo disables Add to Cart for a custom stamp |
| ProductDetailPage.Customizer.SetPriority | src/pages/ProductDetail.tsx:299-311 | the speed buttons set only the priority flag |
| ProductDetailPage.Customizer.AddToCart | src/pages/ProductDetail.tsx:400-402 | Add to Cart completes with the state iff the button is enabled: not a custom stamp without a logo |

## Left out

- The cart store (`CartContext`) is not part of this model. Its `addItem`, `updateItem`, `updateQuantity`, `removeItem` and `clearCart` appear only as `CartRequest` values the pages send.
  - Its line list, subtotal and item count are inputs to the cart page.
  - `UploadLeavesPanel` assumes the store's `updateItem` replaces only that line's logo.
  - `QuantityStep` does not clamp a quantity of 0 or below; what the store does with one is not seen.
- The network is not modelled. The bodies of `shopifyFetch` and `uploadToCloudinary` stand as oracles, and `useShopifyProducts` with its query cache is absent.
- `parseFloat` of price strings is left out; prices arrive as numbers.
- Money is exact. IEEE double rounding and `toFixed` display formatting are left out.
- Lower-casing maps ASCII letters only. Other scripts' case folding is not modelled.
- Browser effects are left out: `alert`, `window.location`, `URL.createObjectURL`, `navigate`, `scrollTo` and drag-and-drop. Outcomes carry what would be shown or followed instead.
- Async timing is not modelled. `isSubmitting` is set before and reset after in one step.
- StampBuilderPage.PageView: the product list is a parameter, although the page reads `data?.display ?? []` off the hook's result, which is a plain array; as written that list is always empty and the page shows "Product not found" after loading. The model states what the page shows for the list it is meant to get.
- ShopifyCatalogue.ShortDescription: `substring(0, 100)` counts UTF-16 code units, while the model counts Dafny characters; they differ only for text outside the Basic Multilingual Plane.
- `Customize.constructor` takes the display and full catalogues as parameters. The page reads `data.display` / `data.all` off the hook's result, which is a plain array.
- ProductDetailPage: the page-level product lookup by slug, the related products and the loading and not-found views are left out. Only the customizer, the completion record and the edit preset are modelled.
- CustomizePage.ReviewRowsAddUpToTotal: the selections keep the priority price of the first render (Customize.tsx:584-593), while the total reads the catalogue on every render (Customize.tsx:581, 605-608). On a cold load the first render comes before the catalogue, so the saved price is 4.99, and for a priority product at another price the Processing row disagrees with the total. The `Customize` class builds its selections from the loaded catalogue, so its invariant equates the two prices and it never shows this. CustomizePage.ReviewRowsAgainstTotal states the disagreement for any saved price.
- ProductsPage.FilteredProducts: `products` is missing from the memo's dependencies (Products.tsx:35). After a cold load the listing stays empty until the shopper changes the sort or the category. The model computes the listing from the current products.
- `useBuilder`'s provider check and the markup are left out.
- The checkout form's values are not validated by the page, and the model does not validate them either.
- The static catalogue in src/data/products.ts is left out beyond its sidebar category ids.
- ProductsPage.SortBy: the sort is proved to give a sorted permutation. The stability of the browser's sort (equal keys keep catalogue order) is not stated.
- CustomizePage.AlertOf: an upload error's own message is what the image host's client throws. That client is not part of this model, so the message is any string.
