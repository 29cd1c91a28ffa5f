/** The catalogue listing (src/pages/Products.tsx): the category filter taken
    from the `?category=` search parameter, the four sort modes of the sort
    menu, and the product counts of the category sidebar. */
module ProductsPage {
  import opened Common

  /** The category ids of the sidebar, in their display order. */
  const CategoryIds: seq<string> :=
    ["custom-stamps", "wooden-stamps", "face-stamps", "stamp-pad", "refill-ink"]

  /** The products of one category, in catalogue order. */
  function OfCategory(products: seq<Product>, category: string): (r: seq<Product>)
    ensures |r| <= |products|
    ensures forall p :: p in r ==> p.category == category
    ensures forall p :: multiset(r)[p] == if p.category == category then multiset(products)[p] else 0
  {
    if products == [] then []
    else
      var rest := OfCategory(products[1..], category);
      assert products == [products[0]] + products[1..];
      if products[0].category == category then [products[0]] + rest else rest
  }

  /** `activeCategory ? products.filter(...) : products`: a missing or empty
      category parameter lists everything. */
  function FilterByCategory(products: seq<Product>, active: Option<string>): (r: seq<Product>)
    ensures !Truthy(active) ==> r == products
    ensures Truthy(active) ==> r == OfCategory(products, active.value)
  {
    if Truthy(active) then OfCategory(products, active.value) else products
  }

  /** The three orderings the sort menu offers besides "popular". */
  datatype SortKey = ByPriceAsc | ByPriceDesc | ByRatingDesc

  /** Sorting ascending by this key is sorting by the source's comparator. */
  function Key(k: SortKey, p: Product): real {
    match k
    case ByPriceAsc => p.price
    case ByPriceDesc => -p.price
    case ByRatingDesc => -p.rating
  }

  ghost predicate SortedBy(k: SortKey, s: seq<Product>) {
    forall i, j :: 0 <= i < j < |s| ==> Key(k, s[i]) <= Key(k, s[j])
  }

  /** Places `x` in front of the first element whose key is not smaller, so
      that an element inserted from the front stays ahead of its equals. */
  function Insert(k: SortKey, x: Product, s: seq<Product>): (r: seq<Product>)
    ensures multiset(r) == multiset(s) + multiset{x}
    ensures |r| == |s| + 1
  {
    if s == [] then [x]
    else if Key(k, x) <= Key(k, s[0]) then [x] + s
    else
      assert s == [s[0]] + s[1..];
      [s[0]] + Insert(k, x, s[1..])
  }

  /** Insertion keeps a sorted list sorted. */
  lemma {:induction false} InsertSorted(k: SortKey, x: Product, s: seq<Product>)
    requires SortedBy(k, s)
    ensures SortedBy(k, Insert(k, x, s))
  {
    if s != [] && Key(k, x) <= Key(k, s[0]) {
      ConsSorted(k, x, s);
    } else if s != [] {
      var tail := s[1..];
      assert SortedBy(k, tail) by {
        forall i, j | 0 <= i < j < |tail| ensures Key(k, tail[i]) <= Key(k, tail[j]) {
          assert tail[i] == s[i + 1] && tail[j] == s[j + 1];
        }
      }
      InsertSorted(k, x, tail);
      var rest := Insert(k, x, tail);
      // The head of `rest` is `x` or the second element of `s`; either way
      // its key is at least that of `s[0]`.
      assert Key(k, s[0]) <= Key(k, rest[0]) by {
        if tail != [] {
          assert tail[0] == s[1];
        }
      }
      ConsSorted(k, s[0], rest);
    }
  }

  /** A sorted list stays sorted under a new head whose key is not larger. */
  lemma ConsSorted(k: SortKey, y: Product, s: seq<Product>)
    requires SortedBy(k, s)
    requires s != [] ==> Key(k, y) <= Key(k, s[0])
    ensures SortedBy(k, [y] + s)
  {
    var r := [y] + s;
    forall i, j | 0 <= i < j < |r| ensures Key(k, r[i]) <= Key(k, r[j]) {
      assert r[j] == s[j - 1];
      if i > 0 {
        assert r[i] == s[i - 1];
      } else if j > 1 {
        assert Key(k, s[0]) <= Key(k, s[j - 1]);
      }
    }
  }

  /** A stable insertion sort, standing for `[...list].sort(cmp)` on a copy. */
  function SortBy(k: SortKey, s: seq<Product>): (r: seq<Product>)
    ensures multiset(r) == multiset(s)
    ensures |r| == |s|
    ensures SortedBy(k, r)
  {
    if s == [] then []
    else
      assert s == [s[0]] + s[1..];
      InsertSorted(k, s[0], SortBy(k, s[1..]));
      Insert(k, s[0], SortBy(k, s[1..]))
  }

  /** The sort step of `filteredProducts` for the sort menu's value. */
  function SortProducts(list: seq<Product>, sort: string): (r: seq<Product>)
    ensures multiset(r) == multiset(list)
    ensures sort == "price-asc" ==> forall i, j :: 0 <= i < j < |r| ==> r[i].price <= r[j].price
    ensures sort == "price-desc" ==> forall i, j :: 0 <= i < j < |r| ==> r[i].price >= r[j].price
    ensures sort == "rating" ==> forall i, j :: 0 <= i < j < |r| ==> r[i].rating >= r[j].rating
    ensures sort != "price-asc" && sort != "price-desc" && sort != "rating" ==> r == list
  {
    if sort == "price-asc" then
      var r := SortBy(ByPriceAsc, list);
      assert forall i, j :: 0 <= i < j < |r| ==> Key(ByPriceAsc, r[i]) <= Key(ByPriceAsc, r[j]);
      r
    else if sort == "price-desc" then
      var r := SortBy(ByPriceDesc, list);
      assert forall i, j :: 0 <= i < j < |r| ==> Key(ByPriceDesc, r[i]) <= Key(ByPriceDesc, r[j]);
      r
    else if sort == "rating" then
      var r := SortBy(ByRatingDesc, list);
      assert forall i, j :: 0 <= i < j < |r| ==> Key(ByRatingDesc, r[i]) <= Key(ByRatingDesc, r[j]);
      r
    else list
  }

  /** `filteredProducts`: filter by the active category, then sort a copy. */
  function FilteredProducts(products: seq<Product>, active: Option<string>, sort: string): (r: seq<Product>)
    ensures Truthy(active) ==>
      forall p :: multiset(r)[p] == if p.category == active.value then multiset(products)[p] else 0
    ensures !Truthy(active) ==> multiset(r) == multiset(products)
    ensures sort != "price-asc" && sort != "price-desc" && sort != "rating" ==>
      r == FilterByCategory(products, active)
  {
    SortProducts(FilterByCategory(products, active), sort)
  }

  /** The sidebar's count for one category: as many products as the listing
      shows once that category's link is followed. */
  function CategoryCount(products: seq<Product>, id: string): (n: nat)
    ensures n <= |products|
    ensures id != "" ==> n == |FilteredProducts(products, Some(id), "popular")|
  {
    |OfCategory(products, id)|
  }

  /** The sum of the counts of distinct categories. */
  function CountsTotal(products: seq<Product>, ids: seq<string>): nat {
    if ids == [] then 0 else CategoryCount(products, ids[0]) + CountsTotal(products, ids[1..])
  }

  /** How many products have a category outside `ids`. */
  function Uncategorised(products: seq<Product>, ids: seq<string>): nat {
    if products == [] then 0
    else (if products[0].category in ids then 0 else 1) + Uncategorised(products[1..], ids)
  }

  /** The per-category counts of distinct ids and the uncategorised products
      together make up the "All Products" count. */
  lemma {:induction false} CountsPartitionAll(products: seq<Product>, ids: seq<string>)
    requires forall i, j :: 0 <= i < j < |ids| ==> ids[i] != ids[j]
    ensures CountsTotal(products, ids) + Uncategorised(products, ids) == |products|
    decreases |products|
  {
    if products != [] {
      CountsPartitionAll(products[1..], ids);
      CountsStep(products, ids);
    } else {
      CountsOfEmpty(ids);
    }
  }

  lemma {:induction false} CountsOfEmpty(ids: seq<string>)
    ensures CountsTotal([], ids) == 0
  {
    if ids != [] {
      CountsOfEmpty(ids[1..]);
    }
  }

  /** Removing the first product lowers the total by one exactly when its category is listed. */
  lemma {:induction false} CountsStep(products: seq<Product>, ids: seq<string>)
    requires products != []
    requires forall i, j :: 0 <= i < j < |ids| ==> ids[i] != ids[j]
    ensures CountsTotal(products, ids) ==
      CountsTotal(products[1..], ids) + (if products[0].category in ids then 1 else 0)
  {
    if ids != [] {
      CountsStep(products, ids[1..]);
      assert products == [products[0]] + products[1..];
      assert products[0].category in ids <==> products[0].category == ids[0] || products[0].category in ids[1..];
    }
  }

  lemma CategoryIdsDistinct()
    ensures forall i, j :: 0 <= i < j < |CategoryIds| ==> CategoryIds[i] != CategoryIds[j]
  {
    var c := CategoryIds;
    assert c[0][0] == 'c' && c[1][0] == 'w' && c[2][0] == 'f' && c[3][0] == 's' && c[4][0] == 'r';
    assert forall i :: 0 <= i < 5 ==> c[i][0] == ['c', 'w', 'f', 's', 'r'][i];
  }

  /** The sidebar's five counts never add up to more than the "All" count. */
  lemma SidebarCountsBounded(products: seq<Product>)
    ensures CountsTotal(products, CategoryIds) <= |products|
    ensures CountsTotal(products, CategoryIds) == |products| <==>
      forall p :: p in products ==> p.category in CategoryIds
  {
    CategoryIdsDistinct();
    CountsPartitionAll(products, CategoryIds);
    UncategorisedZero(products, CategoryIds);
  }

  lemma {:induction false} UncategorisedZero(products: seq<Product>, ids: seq<string>)
    ensures Uncategorised(products, ids) == 0 <==> forall p :: p in products ==> p.category in ids
  {
    if products != [] {
      UncategorisedZero(products[1..], ids);
      assert products == [products[0]] + products[1..];
    }
  }
}
