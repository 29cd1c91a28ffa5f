/** `mapShopifyProduct` of src/hooks/useShopify.ts: how one Storefront product
    node becomes a catalogue record. The category is guessed from keywords in
    the lower-cased title, checked in a fixed order, with the product type
    turned into a slug as the fallback. The query itself is not modelled; the
    price strings arrive already parsed. */
module ShopifyCatalogue {
  import opened Common

  /** One variant edge of the product query. */
  datatype VariantNode = VariantNode(id: string, title: string, price: real, availableForSale: bool)

  /** One product node of the query; `imageUrl` is the first image's URL, if any. */
  datatype ProductNode = ProductNode(
    id: string,
    title: string,
    handle: string,
    productType: string,
    description: string,
    minPrice: real,
    imageUrl: Option<string>,
    variants: seq<VariantNode>)

  /** The keyword table of the category guess, in the order it is consulted. */
  datatype Rule = Rule(keywords: seq<string>, category: string)

  const CategoryRules: seq<Rule> := [
    Rule(["refill ink", "textile ink"], "refill-ink"),
    Rule(["stamp pad", "ink pad"], "stamp-pad"),
    Rule(["face"], "face-stamps"),
    Rule(["wood"], "wooden-stamps")
  ]

  const DefaultCategory := "custom-stamps"
  const BigStampTitle := "Big Custom Stamps"
  const DefaultTurnaround := "1-3 business days"
  const ShortDescriptionLength := 100

  const BigStampDescription := "Just upload your logo, art, or any design you love! Our advanced engraving gives sharp, detailed impressions every time. Perfect for businesses, artists, crafters, and anyone who wants to leave a lasting mark. Available in three sizes: 4x4\", 6x6\", and 8x8\". We print only once you're happy with your proof â€” satisfaction guaranteed."

  const BigStampFeatures: seq<string> := [
    "Upload any logo, art, or design",
    "Advanced laser engraving for sharp detail",
    "3 sizes: 4x4, 6x6, 8x8 inch",
    "Free digital proof before printing",
    "We redo it free if you're not happy",
    "Water-based, eco-friendly ink"
  ]

  /** Some keyword of the list occurs in `low`. */
  predicate AnyKeyword(keywords: seq<string>, low: string) {
    keywords != [] && (Contains(low, keywords[0]) || AnyKeyword(keywords[1..], low))
  }

  /** Reference reading of the keyword table: the category of the first rule
      one of whose keywords occurs in `low`. */
  function FirstMatch(rules: seq<Rule>, low: string): Option<string> {
    if rules == [] then None
    else if AnyKeyword(rules[0].keywords, low) then Some(rules[0].category)
    else FirstMatch(rules[1..], low)
  }

  /** `productType.toLowerCase().replace(/ /g, '-')` */
  function Slug(t: string): (r: string)
    ensures |r| == |t|
    ensures ' ' !in r
    ensures forall i :: 0 <= i < |t| && t[i] != ' ' ==> r[i] == LowerChar(t[i])
    ensures forall i :: 0 <= i < |t| && t[i] == ' ' ==> r[i] == '-'
  {
    seq(|t|, i requires 0 <= i < |t| => if LowerChar(t[i]) == ' ' then '-' else LowerChar(t[i]))
  }

  /** The if/else chain that assigns `category`. */
  function InferCategory(title: string, productType: string): string {
    var low := ToLower(title);
    if Contains(low, "refill ink") || Contains(low, "textile ink") then "refill-ink"
    else if Contains(low, "stamp pad") || Contains(low, "ink pad") then "stamp-pad"
    else if Contains(low, "face") then "face-stamps"
    else if Contains(low, "wood") then "wooden-stamps"
    else if productType != "" then Slug(productType)
    else DefaultCategory
  }

  lemma AnyKeywordPair(a: string, b: string, low: string)
    ensures AnyKeyword([a, b], low) <==> Contains(low, a) || Contains(low, b)
  {
    assert [a, b][0] == a && [a, b][1..] == [b];
    AnyKeywordSingle(b, low);
  }

  lemma AnyKeywordSingle(a: string, low: string)
    ensures AnyKeyword([a], low) <==> Contains(low, a)
  {
    assert [a][1..] == [];
  }

  /** The keyword table read on an already lower-cased title gives the
      chain's four keyword branches. */
  lemma FirstMatchUnfolded(low: string)
    ensures FirstMatch(CategoryRules, low) ==
      if Contains(low, "refill ink") || Contains(low, "textile ink") then Some("refill-ink")
      else if Contains(low, "stamp pad") || Contains(low, "ink pad") then Some("stamp-pad")
      else if Contains(low, "face") then Some("face-stamps")
      else if Contains(low, "wood") then Some("wooden-stamps")
      else None
  {
    var r := CategoryRules;
    var r1 := [Rule(["stamp pad", "ink pad"], "stamp-pad"), Rule(["face"], "face-stamps"), Rule(["wood"], "wooden-stamps")];
    var r2 := [Rule(["face"], "face-stamps"), Rule(["wood"], "wooden-stamps")];
    var r3 := [Rule(["wood"], "wooden-stamps")];
    assert r[1..] == r1 && r1[1..] == r2 && r2[1..] == r3 && r3[1..] == [];
    AnyKeywordPair("refill ink", "textile ink", low);
    AnyKeywordPair("stamp pad", "ink pad", low);
    AnyKeywordSingle("face", low);
    AnyKeywordSingle("wood", low);
    assert FirstMatch(r3, low) == if Contains(low, "wood") then Some("wooden-stamps") else None;
    assert FirstMatch(r2, low) == if Contains(low, "face") then Some("face-stamps") else FirstMatch(r3, low);
    assert FirstMatch(r1, low) ==
      if Contains(low, "stamp pad") || Contains(low, "ink pad") then Some("stamp-pad") else FirstMatch(r2, low);
  }

  /** The chain agrees with the keyword table read first-match-first, and
      falls back to the type's slug, then to custom-stamps. */
  lemma InferCategoryIsFirstMatch(title: string, productType: string)
    ensures FirstMatch(CategoryRules, ToLower(title)).Some? ==>
      InferCategory(title, productType) == FirstMatch(CategoryRules, ToLower(title)).value
    ensures FirstMatch(CategoryRules, ToLower(title)).None? ==>
      InferCategory(title, productType) == (if productType != "" then Slug(productType) else DefaultCategory)
  {
    FirstMatchUnfolded(ToLower(title));
  }

  /** A title naming both refill ink and a stamp pad is refill ink: that rule comes first. */
  lemma RefillRuleComesFirst()
    ensures InferCategory("Stamp Pad Refill Ink – 3 Pcs", "") == "refill-ink"
  {
    var a := ToLower("Stamp Pad Refill Ink – 3 Pcs");
    assert a == "stamp pad refill ink – 3 pcs";
    ContainsAt(a, "refill ink", 10);
  }

  /** `description.substring(0, 100) + '...'` */
  function ShortDescription(d: string): (r: string)
    ensures 3 <= |r| <= ShortDescriptionLength + 3
    ensures r[..|r| - 3] <= d && r[|r| - 3..] == "..."
    ensures |r| == Min(|d|, ShortDescriptionLength) + 3
  {
    (if |d| <= ShortDescriptionLength then d else d[..ShortDescriptionLength]) + "..."
  }

  /** `node.variants.edges.some(v => v.node.availableForSale)` */
  predicate AnyAvailable(vs: seq<VariantNode>) {
    exists i | 0 <= i < |vs| :: vs[i].availableForSale
  }

  /** The size list built from the variants, one entry per variant. */
  function SizesOf(vs: seq<VariantNode>): (r: seq<Size>)
    ensures |r| == |vs|
    ensures forall i :: 0 <= i < |vs| ==>
      r[i].caption == vs[i].title && r[i].size == vs[i].title &&
      r[i].price == vs[i].price && r[i].variantId == Some(vs[i].id)
  {
    seq(|vs|, i requires 0 <= i < |vs| => Size(vs[i].title, vs[i].title, vs[i].price, Some(vs[i].id)))
  }

  /** `mapShopifyProduct(node)` */
  function MapShopifyProduct(node: ProductNode): (p: Product)
    ensures p.id == node.id && p.name == node.title && p.slug == node.handle && p.price == node.minPrice
    ensures p.category == InferCategory(node.title, node.productType)
    ensures p.image == node.imageUrl.GetOr("")
    ensures p.sizes.None? <==> |node.variants| <= 1
    ensures p.sizes.Some? ==> |p.sizes.value| == |node.variants| >= 2 && p.sizes.value == SizesOf(node.variants)
    ensures p.defaultVariantId == Some(if node.variants == [] then "" else node.variants[0].id)
    ensures p.inStock <==> exists v :: v in node.variants && v.availableForSale
    ensures |p.shortDescription| <= 103
    ensures Contains(node.title, BigStampTitle) ==>
      p.rating == 4.9 && p.reviewCount == 2341 && p.description == BigStampDescription && p.features == BigStampFeatures
    ensures !Contains(node.title, BigStampTitle) ==>
      p.rating == 5.0 && p.reviewCount == 0 && p.description == node.description && p.features == []
    ensures p.shortDescription == ShortDescription(p.description)
    ensures p.turnaround == DefaultTurnaround && p.inkColors.None?
  {
    var big := Contains(node.title, BigStampTitle);
    var description := if big then BigStampDescription else node.description;
    var sizes := SizesOf(node.variants);
    assert AnyAvailable(node.variants) <==> exists v :: v in node.variants && v.availableForSale;
    Product(
      node.id,
      node.title,
      node.handle,
      InferCategory(node.title, node.productType),
      node.minPrice,
      description,
      ShortDescription(description),
      node.imageUrl.GetOr(""),
      if big then 4.9 else 5.0,
      if big then 2341 else 0,
      AnyAvailable(node.variants),
      Some(if node.variants == [] then "" else node.variants[0].id),
      if |sizes| > 1 then Some(sizes) else None,
      None,
      if big then BigStampFeatures else [],
      DefaultTurnaround)
  }
}
