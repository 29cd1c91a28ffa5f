/** The landing page of the stamp builder (src/pages/StampBuilder.tsx): which
    catalogue product it features, what it shows while the catalogue loads or
    when no product qualifies, and the price range and star row it displays.
    The featured-product lookup is shared with the builder page. */
module StampBuilderPage {
  import opened Common

  const FeaturedSlug := "big-custom-stamps-by-sleekstamp"
  const CustomCategory := "custom-stamps"

  predicate HasFeaturedSlug(p: Product) { p.slug == FeaturedSlug }
  predicate IsCustomStamp(p: Product) { p.category == CustomCategory }

  /** The product with the featured slug, else the first custom stamp. */
  function FeaturedProduct(display: seq<Product>): (r: Option<Product>)
    ensures r.None? <==> forall i :: 0 <= i < |display| ==> !HasFeaturedSlug(display[i]) && !IsCustomStamp(display[i])
    ensures (exists i :: 0 <= i < |display| && HasFeaturedSlug(display[i])) ==>
      r.Some? && r.value.slug == FeaturedSlug &&
      exists i :: 0 <= i < |display| && display[i] == r.value &&
                  forall j :: 0 <= j < i ==> !HasFeaturedSlug(display[j])
    ensures (forall i :: 0 <= i < |display| ==> !HasFeaturedSlug(display[i])) && r.Some? ==>
      r.value.category == CustomCategory &&
      exists i :: 0 <= i < |display| && display[i] == r.value &&
                  forall j :: 0 <= j < i ==> !IsCustomStamp(display[j])
  {
    match FindFirst(display, HasFeaturedSlug)
    case Some(p) => Some(p)
    case None => FindFirst(display, IsCustomStamp)
  }

  datatype View = Loading | NotFound | Featured(product: Product)

  /** The spinner wins over everything; then a missing product shows the
      not-found message; otherwise the product is featured. */
  function PageView(isLoading: bool, display: seq<Product>): (v: View)
    ensures isLoading <==> v.Loading?
    ensures v.NotFound? <==> !isLoading && FeaturedProduct(display).None?
    ensures v.Featured? ==> Some(v.product) == FeaturedProduct(display)
  {
    if isLoading then Loading
    else match FeaturedProduct(display)
      case None => NotFound
      case Some(p) => Featured(p)
  }

  /** `Math.min(...sizes.map(s => s.price))` */
  function MinPrice(sizes: seq<Size>): (m: real)
    requires |sizes| > 0
    ensures forall i :: 0 <= i < |sizes| ==> m <= sizes[i].price
    ensures exists i :: 0 <= i < |sizes| && m == sizes[i].price
  {
    if |sizes| == 1 then sizes[0].price
    else
      var rest := MinPrice(sizes[1..]);
      assert forall i :: 1 <= i < |sizes| ==> sizes[i] == sizes[1..][i - 1];
      if sizes[0].price <= rest then sizes[0].price else rest
  }

  /** `Math.max(...sizes.map(s => s.price))` */
  function MaxPrice(sizes: seq<Size>): (m: real)
    requires |sizes| > 0
    ensures forall i :: 0 <= i < |sizes| ==> sizes[i].price <= m
    ensures exists i :: 0 <= i < |sizes| && m == sizes[i].price
  {
    if |sizes| == 1 then sizes[0].price
    else
      var rest := MaxPrice(sizes[1..]);
      assert forall i :: 1 <= i < |sizes| ==> sizes[i] == sizes[1..][i - 1];
      if sizes[0].price >= rest then sizes[0].price else rest
  }

  /** The "from – to" price range, shown only for a non-empty size list. */
  function PriceRange(p: Product): (r: Option<(real, real)>)
    ensures r.Some? <==> p.sizes.Some? && |p.sizes.value| > 0
    ensures r.Some? ==> r.value.0 <= r.value.1
    ensures r.Some? ==> forall i :: 0 <= i < |p.sizes.value| ==>
      r.value.0 <= p.sizes.value[i].price <= r.value.1
    ensures r.Some? ==> exists i :: 0 <= i < |p.sizes.value| && r.value.0 == p.sizes.value[i].price
    ensures r.Some? ==> exists j :: 0 <= j < |p.sizes.value| && r.value.1 == p.sizes.value[j].price
  {
    if p.sizes.Some? && |p.sizes.value| > 0 then Some((MinPrice(p.sizes.value), MaxPrice(p.sizes.value)))
    else None
  }

  /** Star `i` of the five is filled when `i < Math.floor(rating)`. */
  predicate StarFilled(i: int, rating: real) { i < rating.Floor }

  /** How many of the five stars are filled. */
  function FilledStars(rating: real): (n: int)
    ensures 0 <= n <= 5
    ensures forall i :: 0 <= i < 5 ==> (StarFilled(i, rating) <==> i < n)
  {
    Max(0, Min(5, rating.Floor))
  }
}
