/** Records shared by the storefront's pages, and the few string operations the
    pages perform on them (substring search, ASCII lower-casing, JavaScript
    truthiness of optional strings). Money is an exact `real`. */
module Common {

  datatype Option<+T> = None | Some(value: T) {
    function GetOr(default: T): T {
      match this
      case Some(v) => v
      case None => default
    }
  }

  datatype Result<+R, +E> = Success(value: R) | Failure(error: E)

  /** A file the shopper picked; only its name is observable here. */
  datatype FileRef = FileRef(name: string)

  /** A cart or customizer logo: `File | string | null` in the source. */
  datatype Logo = NoLogo | FileLogo(file: FileRef) | TextLogo(text: string)

  /** JavaScript truthiness of a logo value: a file is truthy, a string only when non-empty. */
  predicate LogoTruthy(l: Logo) {
    l.FileLogo? || (l.TextLogo? && l.text != "")
  }

  /** JavaScript truthiness of an optional string. */
  predicate Truthy(o: Option<string>) {
    o.Some? && o.value != ""
  }

  /** One purchasable size of a product (`caption` is the source's `label`, a Dafny keyword). */
  datatype Size = Size(caption: string, size: string, price: real, variantId: Option<string>)

  /** A catalogue record as the pages consume it. */
  datatype Product = Product(
    id: string,
    name: string,
    slug: string,
    category: string,
    price: real,
    description: string,
    shortDescription: string,
    image: string,
    rating: real,
    reviewCount: int,
    inStock: bool,
    defaultVariantId: Option<string>,
    sizes: Option<seq<Size>>,
    inkColors: Option<seq<string>>,
    features: seq<string>,
    turnaround: string)

  /** The record a page hands to the cart store's `addItem` / `updateItem`. */
  datatype ItemData = ItemData(
    productId: string,
    slug: Option<string>,
    name: string,
    image: string,
    price: real,
    quantity: int,
    size: Option<string>,
    inkColor: Option<string>,
    stampPad: Option<string>,
    priorityProcessing: Option<bool>,
    logo: Logo,
    variantId: Option<string>)

  /** A line held by the cart store: its locally generated id and its data. */
  datatype CartItem = CartItem(id: string, data: ItemData)

  /** What a page asks of the cart store; the store itself is not part of this model. */
  datatype CartRequest =
    | AddItem(item: ItemData)
    | UpdateItem(id: string, item: ItemData)
    | UpdateLogo(id: string, logo: FileRef)
    | UpdateQuantity(id: string, quantity: int)
    | RemoveItem(id: string)
    | ClearCart

  function Min(a: int, b: int): int { if a <= b then a else b }
  function Max(a: int, b: int): int { if a >= b then a else b }

  /** `s.find(f)`: the first element satisfying `f`, if any. */
  function FindFirst<T>(s: seq<T>, f: T -> bool): (r: Option<T>)
    ensures r.None? <==> forall i :: 0 <= i < |s| ==> !f(s[i])
    ensures r.Some? ==> exists i :: 0 <= i < |s| && s[i] == r.value && f(s[i]) &&
                                    forall j :: 0 <= j < i ==> !f(s[j])
  {
    if s == [] then None
    else if f(s[0]) then Some(s[0])
    else
      var r := FindFirst(s[1..], f);
      assert forall j :: 0 < j < |s| ==> s[j] == s[1..][j - 1];
      assert r.Some? ==> exists i :: 0 <= i < |s| && s[i] == r.value && f(s[i]) &&
                                     forall j :: 0 <= j < i ==> !f(s[j]) by {
        if r.Some? {
          var i :| 0 <= i < |s[1..]| && s[1..][i] == r.value && f(s[1..][i]) &&
                   forall j :: 0 <= j < i ==> !f(s[1..][j]);
          assert s[i + 1] == r.value;
          assert forall j :: 0 <= j < i + 1 ==> !f(s[j]) by {
            forall j | 0 <= j < i + 1 ensures !f(s[j]) {
              if j > 0 { assert s[j] == s[1..][j - 1]; }
            }
          }
        }
      }
      r
  }

  /** `s.includes(sub)`: some window of `s` equals `sub`. */
  predicate Contains(s: string, sub: string)
    decreases |s|
  {
    |sub| <= |s| && (s[..|sub|] == sub || (|s| > 0 && Contains(s[1..], sub)))
  }

  /** `sub` occurs in `s` starting at offset `i`. */
  predicate OccursAt(s: string, sub: string, i: int) {
    0 <= i <= |s| - |sub| && s[i..i + |sub|] == sub
  }

  /** An occurrence past the first character is an occurrence in the tail. */
  lemma OccursAtTail(s: string, sub: string, i: int)
    requires |s| > 0 && 1 <= i
    ensures OccursAt(s, sub, i) <==> OccursAt(s[1..], sub, i - 1)
  {
    if 0 <= i - 1 <= |s[1..]| - |sub| {
      assert s[1..][i - 1..i - 1 + |sub|] == s[i..i + |sub|];
    }
  }

  /** `Contains` finds exactly the occurrences at some offset. */
  lemma {:induction false} ContainsIff(s: string, sub: string)
    ensures Contains(s, sub) <==> exists i :: OccursAt(s, sub, i)
    decreases |s|
  {
    if |sub| <= |s| && s[..|sub|] == sub {
      assert OccursAt(s, sub, 0);
    } else if |sub| <= |s| && |s| > 0 {
      ContainsIff(s[1..], sub);
      forall i | 1 <= i
        ensures OccursAt(s, sub, i) <==> OccursAt(s[1..], sub, i - 1)
      {
        OccursAtTail(s, sub, i);
      }
      if Contains(s[1..], sub) {
        var j :| OccursAt(s[1..], sub, j);
        assert OccursAt(s, sub, j + 1);
      }
    }
  }

  /** An occurrence at a known offset is found. */
  lemma ContainsAt(s: string, sub: string, i: int)
    requires OccursAt(s, sub, i)
    ensures Contains(s, sub)
  {
    ContainsIff(s, sub);
  }

  /** `sub` does not occur in `s` when its `k`-th character is missing from
      every place of `s` an occurrence would put it. */
  lemma NotContainsCharAbsent(s: string, sub: string, k: int)
    requires 0 <= k < |sub|
    requires |sub| > |s| || sub[k] !in s[k..|s| - |sub| + k + 1]
    ensures !Contains(s, sub)
  {
    ContainsIff(s, sub);
  }

  /** Lower-cases the ASCII letters A-Z and leaves every other character alone. */
  function LowerChar(c: char): char {
    if 'A' <= c <= 'Z' then (c as int + 32) as char else c
  }

  function ToLower(s: string): (r: string)
    ensures |r| == |s|
    ensures forall i :: 0 <= i < |s| ==> r[i] == LowerChar(s[i])
  {
    seq(|s|, i requires 0 <= i < |s| => LowerChar(s[i]))
  }

  /** `s.split(c)[0]`: the part of `s` before the first `c`, or all of `s`. */
  function PrefixBefore(s: string, c: char): (r: string)
    ensures c !in r
    ensures |r| <= |s| && r == s[..|r|]
    ensures |r| < |s| ==> s[|r|] == c
  {
    if s == [] || s[0] == c then []
    else [s[0]] + PrefixBefore(s[1..], c)
  }

  /** Whatever follows the first `c` does not matter. */
  lemma {:induction false} PrefixBeforeSplit(a: string, c: char, b: string)
    requires c !in a
    ensures PrefixBefore(a + [c] + b, c) == a
  {
    if a != [] {
      assert (a + [c] + b)[1..] == a[1..] + [c] + b;
      PrefixBeforeSplit(a[1..], c, b);
    }
  }
}
