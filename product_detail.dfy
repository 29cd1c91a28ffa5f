/** The product page's customizer (src/pages/ProductDetail.tsx): a step list
    chosen by the product's category, the shopper's state and the step they are
    on, the running total, the Continue and Add-to-Cart gates, the cart record
    built on completion, and the state rebuilt from a cart line when an item is
    edited. The cart store that receives the record is not part of this model. */
module ProductDetailPage {
  import opened Common

  /** `Step` */
  datatype Step = SizeStep | UploadStep | PadStep | ColorStep | PriorityStep | ReviewStep

  const StampPadCategory := "stamp-pad"
  const CustomCategory := "custom-stamps"
  const PriorityPrice: real := 4.99

  /** The steps without any occurrence of `x`, in order (`STEPS.filter(s => s !== x)`). */
  function Without(steps: seq<Step>, x: Step): (r: seq<Step>)
    ensures forall s :: s in r <==> s in steps && s != x
    ensures |r| <= |steps|
  {
    if steps == [] then []
    else if steps[0] == x then Without(steps[1..], x)
    else [steps[0]] + Without(steps[1..], x)
  }

  /** `STEPS`: `hasSizes` is the truthiness of `product.sizes`. */
  function Steps(category: string, hasSizes: bool): seq<Step> {
    var base :=
      if category == StampPadCategory then [SizeStep, ColorStep, ReviewStep]
      else if category == CustomCategory then [SizeStep, UploadStep, PadStep, ColorStep, PriorityStep, ReviewStep]
      else [ReviewStep];
    if !hasSizes && category == CustomCategory then Without(base, SizeStep) else base
  }

  /** Every list ends on Review, holds no step twice, and has a Size step
      exactly for stamp pads and for custom stamps that come in sizes; only
      custom stamps ask for a logo, a pad and a speed. */
  lemma StepsShape(category: string, hasSizes: bool)
    ensures var r := Steps(category, hasSizes);
      |r| >= 1 && r[|r| - 1] == ReviewStep &&
      (forall i, j :: 0 <= i < j < |r| ==> r[i] != r[j]) &&
      (SizeStep in r <==> category == StampPadCategory || (category == CustomCategory && hasSizes)) &&
      (UploadStep in r <==> category == CustomCategory) &&
      (PadStep in r <==> category == CustomCategory) &&
      (PriorityStep in r <==> category == CustomCategory) &&
      (ColorStep in r <==> category == StampPadCategory || category == CustomCategory) &&
      (category != StampPadCategory && category != CustomCategory ==> r == [ReviewStep]) &&
      (SizeStep in r ==> r[0] == SizeStep)
  {
    var r := Steps(category, hasSizes);
    var full := [SizeStep, UploadStep, PadStep, ColorStep, PriorityStep, ReviewStep];
    if category == StampPadCategory {
      assert r == [SizeStep, ColorStep, ReviewStep];
    } else if category == CustomCategory && hasSizes {
      assert r == full;
    } else if category == CustomCategory {
      var w := [UploadStep, PadStep, ColorStep, PriorityStep, ReviewStep];
      assert full[1..] == w && w[1..] == [PadStep, ColorStep, PriorityStep, ReviewStep];
      assert Without(w, SizeStep) == [UploadStep] + Without(w[1..], SizeStep);
      assert Without(full, SizeStep) == Without(w, SizeStep);
      WithoutAbsent(w, SizeStep);
      assert r == w;
    } else {
      assert r == [ReviewStep];
    }
  }

  lemma {:induction false} WithoutAbsent(steps: seq<Step>, x: Step)
    requires x !in steps
    ensures Without(steps, x) == steps
  {
    if steps != [] {
      WithoutAbsent(steps[1..], x);
    }
  }

  /** A stamp-pad option (`label` and `price`; `caption` stands for `label`). */
  datatype PadChoice = PadChoice(caption: string, price: real)

  const PadOptions: seq<PadChoice> := [
    PadChoice("Small Pad (for 1\"–2\" stamps)", 7.99),
    PadChoice("Medium Pad (for 2\"–3\" stamps)", 9.99),
    PadChoice("Large Pad (for 3\"+ stamps)", 12.99)
  ]

  /** `CustomizerState` */
  datatype CustomizerState = CustomizerState(
    size: Option<Size>,
    stampPad: Option<PadChoice>,
    inkColor: Option<string>,
    logo: Logo,
    priority: bool)

  /** A `Partial<CustomizerState>`: `None` is a missing, undefined or null field. */
  datatype Preset = Preset(
    size: Option<Size>,
    stampPad: Option<PadChoice>,
    inkColor: Option<string>,
    logo: Logo,
    priority: Option<bool>)

  /** No preset at all (a new item rather than an edit). */
  const NoPreset := Preset(None, None, None, NoLogo, None)

  /** `product.sizes?.[1]`: the second size, when there is one. */
  function SecondSize(p: Product): Option<Size> {
    if p.sizes.Some? && |p.sizes.value| > 1 then Some(p.sizes.value[1]) else None
  }

  /** `product.inkColors?.[0]`: the first offered colour, when there is one. */
  function FirstInk(p: Product): Option<string> {
    if p.inkColors.Some? && |p.inkColors.value| > 0 then Some(p.inkColors.value[0]) else None
  }

  /** The state the customizer starts in: each preset field, else its default. */
  function StartState(p: Product, preset: Preset): (s: CustomizerState)
    ensures s.size == if preset.size.Some? then preset.size else SecondSize(p)
    ensures s.stampPad == preset.stampPad && s.logo == preset.logo
    ensures s.inkColor == if preset.inkColor.Some? then preset.inkColor else FirstInk(p)
    ensures s.priority <==> preset.priority == Some(true)
  {
    CustomizerState(
      if preset.size.Some? then preset.size else SecondSize(p),
      preset.stampPad,
      if preset.inkColor.Some? then preset.inkColor else FirstInk(p),
      preset.logo,
      preset.priority.GetOr(false))
  }

  /** `total`: the size's price (the product's when no size is chosen), plus
      the pad, plus 4.99 for priority. */
  function Total(p: Product, s: CustomizerState): real {
    (if s.size.Some? then s.size.value.price else p.price)
      + (if s.stampPad.Some? then s.stampPad.value.price else 0.0)
      + (if s.priority then PriorityPrice else 0.0)
  }

  /** Switching priority on always adds 4.99, and a pad adds exactly its price. */
  lemma TotalParts(p: Product, s: CustomizerState)
    ensures Total(p, s.(priority := true)) == Total(p, s.(priority := false)) + PriorityPrice
    ensures s.stampPad.Some? ==> Total(p, s) == Total(p, s.(stampPad := None)) + s.stampPad.value.price
    ensures s.size.None? && s.stampPad.None? && !s.priority ==> Total(p, s) == p.price
  {
  }

  /** `canNext()`: only the size step holds the shopper back, until a size is chosen. */
  predicate CanNext(step: Step, s: CustomizerState) {
    step == SizeStep ==> s.size.Some?
  }

  /** The Add-to-Cart button is enabled unless a custom stamp has no logo. */
  predicate AddToCartEnabled(category: string, s: CustomizerState) {
    !(!LogoTruthy(s.logo) && category == CustomCategory)
  }

  /** A stamp pad sold without sizes, opened without a preset size, starts on a
      Size step it can never leave: there is no size to pick. */
  lemma StampPadWithoutSizesIsStuck(p: Product, preset: Preset)
    requires p.category == StampPadCategory && p.sizes.None? && preset.size.None?
    ensures Steps(p.category, p.sizes.Some?)[0] == SizeStep
    ensures StartState(p, preset).size.None?
    ensures !CanNext(Steps(p.category, p.sizes.Some?)[0], StartState(p, preset))
  {
  }

  /** The price the edit form gives a stored pad label. */
  function PadPriceFromLabel(caption: string): real {
    if Contains(caption, "Small") then 7.99
    else if Contains(caption, "Medium") then 9.99
    else 12.99
  }

  lemma SmallPadPrice()
    ensures PadPriceFromLabel(PadOptions[0].caption) == PadOptions[0].price
  {
    var c := PadOptions[0].caption;
    assert c[..5] == "Small";
    ContainsAt(c, "Small", 0);
  }

  lemma MediumPadPrice()
    ensures PadPriceFromLabel(PadOptions[1].caption) == PadOptions[1].price
  {
    var c := PadOptions[1].caption;
    assert c[..6] == "Medium";
    ContainsAt(c, "Medium", 0);
    assert c[0..|c| - 5 + 1] == "Medium Pad (for 2\"–3\" sta";
    NotContainsCharAbsent(c, "Small", 0);
  }

  lemma LargePadPrice()
    ensures PadPriceFromLabel(PadOptions[2].caption) == PadOptions[2].price
  {
    LargeLabelNoSmall();
    LargeLabelNoMedium();
  }

  lemma LargeLabelNoSmall()
    ensures !Contains(PadOptions[2].caption, "Small")
  {
    var c := PadOptions[2].caption;
    assert c[0..|c| - 5 + 1] == "Large Pad (for 3\"+ sta";
    NotContainsCharAbsent(c, "Small", 0);
  }

  lemma LargeLabelNoMedium()
    ensures !Contains(PadOptions[2].caption, "Medium")
  {
    var c := PadOptions[2].caption;
    assert c[0..|c| - 6 + 1] == "Large Pad (for 3\"+ st";
    NotContainsCharAbsent(c, "Medium", 0);
  }

  /** Reading a pad's price back from its label gives the price it was sold at,
      for each of the three pads. */
  lemma PadPriceRoundTrip()
    ensures forall i :: 0 <= i < |PadOptions| ==> PadPriceFromLabel(PadOptions[i].caption) == PadOptions[i].price
  {
    forall i | 0 <= i < |PadOptions|
      ensures PadPriceFromLabel(PadOptions[i].caption) == PadOptions[i].price
    {
      if i == 0 { SmallPadPrice(); }
      else if i == 1 { MediumPadPrice(); }
      else { LargePadPrice(); }
    }
  }

  /** The cart line being edited: `editId ? items.find(i => i.id === editId) : null`. */
  function EditingItem(items: seq<CartItem>, editId: Option<string>): (r: Option<CartItem>)
    ensures r.Some? ==> Truthy(editId) && r.value in items && r.value.id == editId.value
    ensures Truthy(editId) && (exists i :: 0 <= i < |items| && items[i].id == editId.value) ==> r.Some?
  {
    if Truthy(editId) then FindFirst(items, (c: CartItem) => c.id == editId.value) else None
  }

  /** The record `handleCustomizerComplete` builds. */
  function ItemOf(p: Product, s: CustomizerState, editing: Option<CartItem>): (d: ItemData)
    ensures d.price == Total(p, s)
    ensures d.quantity == if editing.Some? then editing.value.data.quantity else 1
    ensures d.variantId == if s.size.Some? && s.size.value.variantId.Some? then s.size.value.variantId else p.defaultVariantId
    ensures d.productId == p.id && d.slug == Some(p.slug) && d.name == p.name && d.image == p.image
    ensures d.size == (if s.size.Some? then Some(s.size.value.size) else None)
    ensures d.stampPad == (if s.stampPad.Some? then Some(s.stampPad.value.caption) else None)
    ensures d.inkColor == s.inkColor && d.logo == s.logo && d.priorityProcessing == Some(s.priority)
  {
    ItemData(
      p.id, Some(p.slug), p.name, p.image,
      Total(p, s),
      if editing.Some? then editing.value.data.quantity else 1,
      if s.size.Some? then Some(s.size.value.size) else None,
      s.inkColor,
      if s.stampPad.Some? then Some(s.stampPad.value.caption) else None,
      Some(s.priority),
      s.logo,
      if s.size.Some? && s.size.value.variantId.Some? then s.size.value.variantId else p.defaultVariantId)
  }

  /** `handleCustomizerComplete`: update the line being edited, else add a new one. */
  function CompleteRequest(p: Product, s: CustomizerState, items: seq<CartItem>, editId: Option<string>): (r: CartRequest)
    ensures r.UpdateItem? <==> EditingItem(items, editId).Some?
    ensures r.UpdateItem? ==> r.id == editId.value && r.item == ItemOf(p, s, EditingItem(items, editId))
    ensures r.AddItem? <==> !r.UpdateItem?
    ensures r.AddItem? ==> r.item == ItemOf(p, s, None) && r.item.quantity == 1
  {
    var editing := EditingItem(items, editId);
    if Truthy(editId) && editing.Some? then UpdateItem(editId.value, ItemOf(p, s, editing))
    else AddItem(ItemOf(p, s, None))
  }

  predicate SizeMatches(stored: string, s: Size) { s.size == stored }

  /** The preset rebuilt from a cart line when it is edited. */
  function EditPreset(p: Product, d: ItemData): (r: Preset)
    ensures r.size.Some? ==> Truthy(d.size) && p.sizes.Some? && r.size.value in p.sizes.value &&
                             r.size.value.size == d.size.value
    ensures r.stampPad == if Truthy(d.stampPad) then Some(PadChoice(d.stampPad.value, PadPriceFromLabel(d.stampPad.value))) else None
    ensures r.inkColor == d.inkColor && r.logo == d.logo
    ensures r.priority == Some(d.priorityProcessing == Some(true))
  {
    Preset(
      if Truthy(d.size) && p.sizes.Some? then FindFirst(p.sizes.value, (s: Size) => SizeMatches(d.size.value, s)) else None,
      if Truthy(d.stampPad) then Some(PadChoice(d.stampPad.value, PadPriceFromLabel(d.stampPad.value))) else None,
      d.inkColor,
      d.logo,
      Some(d.priorityProcessing == Some(true)))
  }

  /** Editing a line the customizer produced gives back its state: the pad
      (for the three offered pads), the logo and the speed exactly; a size
      that is the first of its name; an ink colour when one was chosen. A
      skipped ink colour comes back as the product's first colour, and an item
      without a size comes back with the default second size. */
  lemma EditRoundTrip(p: Product, s: CustomizerState, k: int)
    requires s.stampPad.None? || s.stampPad.value in PadOptions
    requires p.sizes.Some? && 0 <= k < |p.sizes.value| && s.size == Some(p.sizes.value[k])
    requires p.sizes.value[k].size != ""
    requires forall j :: 0 <= j < k ==> p.sizes.value[j].size != p.sizes.value[k].size
    ensures var e := StartState(p, EditPreset(p, ItemOf(p, s, None)));
      e.size == s.size && e.stampPad == s.stampPad && e.logo == s.logo && e.priority == s.priority &&
      e.inkColor == (if s.inkColor.Some? then s.inkColor else FirstInk(p))
  {
    var d := ItemOf(p, s, None);
    var sizes := p.sizes.value;
    var f := (sz: Size) => SizeMatches(d.size.value, sz);
    var found := FindFirst(sizes, f);
    assert f(sizes[k]);
    var i :| 0 <= i < |sizes| && sizes[i] == found.value && f(sizes[i]) && forall j :: 0 <= j < i ==> !f(sizes[j]);
    assert i == k;
    if s.stampPad.Some? {
      PadPriceRoundTrip();
      var n :| 0 <= n < |PadOptions| && PadOptions[n] == s.stampPad.value;
      assert PadOptions[n].caption != "";
    }
  }

  /** A line without a size, edited, comes back with the product's second size. */
  lemma EditWithoutSizeTakesDefault(p: Product, s: CustomizerState)
    requires s.size.None?
    ensures StartState(p, EditPreset(p, ItemOf(p, s, None))).size == SecondSize(p)
  {
  }

  /** `Customizer`: the product, its steps, and the step index and state it holds. */
  class Customizer {
    const product: Product
    const steps: seq<Step>
    var stepIdx: int
    var state: CustomizerState

    ghost predicate Valid()
      reads this
    {
      steps == Steps(product.category, product.sizes.Some?) && 0 <= stepIdx < |steps|
    }

    function CurrentStep(): Step
      reads this
      requires Valid()
    {
      steps[stepIdx]
    }

    constructor (p: Product, preset: Preset)
      ensures product == p && steps == Steps(p.category, p.sizes.Some?)
      ensures stepIdx == 0 && state == StartState(p, preset)
      ensures Valid()
    {
      product := p;
      steps := Steps(p.category, p.sizes.Some?);
      stepIdx := 0;
      state := StartState(p, preset);
      new;
      StepsShape(p.category, p.sizes.Some?);
    }

    /** `next`: the following step, or the finished state on the last step. */
    method Next() returns (completed: Option<CustomizerState>)
      requires Valid()
      modifies this
      ensures stepIdx == if old(stepIdx) < |steps| - 1 then old(stepIdx) + 1 else old(stepIdx)
      ensures completed == if old(stepIdx) < |steps| - 1 then None else Some(state)
      ensures state == old(state) && Valid()
    {
      if stepIdx < |steps| - 1 {
        stepIdx := stepIdx + 1;
        completed := None;
      } else {
        completed := Some(state);
      }
    }

    /** `back`, offered only past the first step. */
    method Back()
      requires Valid() && stepIdx > 0
      modifies this
      ensures stepIdx == Max(0, old(stepIdx) - 1) && state == old(state) && Valid()
    {
      stepIdx := Max(0, stepIdx - 1);
    }

    /** The Continue button of every step but Review, disabled while `canNext()` is false. */
    method Continue() returns (completed: Option<CustomizerState>)
      requires Valid() && CurrentStep() != ReviewStep
      modifies this
      ensures stepIdx == if CanNext(old(CurrentStep()), old(state)) then old(stepIdx) + 1 else old(stepIdx)
      ensures completed.None? && state == old(state) && Valid()
    {
      StepsShape(product.category, product.sizes.Some?);
      completed := None;
      if CanNext(steps[stepIdx], state) {
        completed := Next();
      }
    }

    method SelectSize(sz: Size)
      requires Valid() && CurrentStep() == SizeStep && product.sizes.Some? && sz in product.sizes.value
      modifies this
      ensures state == old(state).(size := Some(sz)) && stepIdx == old(stepIdx)
      ensures CanNext(CurrentStep(), state) && Valid()
    {
      state := state.(size := Some(sz));
    }

    /** A pad button: the selected pad is cleared, any other pad is selected. */
    method TogglePad(pad: PadChoice)
      requires Valid() && CurrentStep() == PadStep && pad in PadOptions
      modifies this
      ensures old(state).stampPad.Some? && old(state).stampPad.value.caption == pad.caption ==>
        state == old(state).(stampPad := None)
      ensures !(old(state).stampPad.Some? && old(state).stampPad.value.caption == pad.caption) ==>
        state == old(state).(stampPad := Some(pad))
      ensures stepIdx == old(stepIdx) && Valid()
    {
      if state.stampPad.Some? && state.stampPad.value.caption == pad.caption {
        state := state.(stampPad := None);
      } else {
        state := state.(stampPad := Some(pad));
      }
    }

    /** A skip button: clear the step's own field, then `next`. */
    method Skip() returns (completed: Option<CustomizerState>)
      requires Valid() && CurrentStep() in {PadStep, ColorStep, UploadStep}
      modifies this
      ensures old(CurrentStep()) == PadStep ==> state == old(state).(stampPad := None)
      ensures old(CurrentStep()) == ColorStep ==> state == old(state).(inkColor := None)
      ensures old(CurrentStep()) == UploadStep ==> state == old(state).(logo := NoLogo)
      ensures stepIdx == old(stepIdx) + 1 && completed.None? && Valid()
    {
      StepsShape(product.category, product.sizes.Some?);
      assert stepIdx < |steps| - 1;
      if steps[stepIdx] == PadStep {
        state := state.(stampPad := None);
      } else if steps[stepIdx] == ColorStep {
        state := state.(inkColor := None);
      } else {
        state := state.(logo := NoLogo);
      }
      completed := Next();
    }

    method SelectInk(color: string)
      requires Valid() && CurrentStep() == ColorStep
      modifies this
      ensures state == old(state).(inkColor := Some(color)) && stepIdx == old(stepIdx) && Valid()
    {
      state := state.(inkColor := Some(color));
    }

    /** A picked file (on the upload step or on the review step) becomes the logo. */
    method UploadLogo(file: FileRef)
      requires Valid() && CurrentStep() in {UploadStep, ReviewStep}
      modifies this
      ensures state == old(state).(logo := FileLogo(file)) && stepIdx == old(stepIdx) && Valid()
      ensures AddToCartEnabled(product.category, state)
    {
      state := state.(logo := FileLogo(file));
    }

    method RemoveLogo()
      requires Valid() && CurrentStep() == UploadStep
      modifies this
      ensures state == old(state).(logo := NoLogo) && stepIdx == old(stepIdx) && Valid()
      ensures product.category == CustomCategory ==> !AddToCartEnabled(product.category, state)
    {
      state := state.(logo := NoLogo);
    }

    method SetPriority(on: bool)
      requires Valid() && CurrentStep() == PriorityStep
      modifies this
      ensures state == old(state).(priority := on) && stepIdx == old(stepIdx) && Valid()
    {
      state := state.(priority := on);
    }

    /** The Review step's Add-to-Cart button, disabled for a custom stamp without a logo. */
    method AddToCart() returns (completed: Option<CustomizerState>)
      requires Valid() && CurrentStep() == ReviewStep
      ensures completed.Some? <==> AddToCartEnabled(product.category, state)
      ensures completed.Some? ==> completed.value == state
    {
      completed := if AddToCartEnabled(product.category, state) then Some(state) else None;
    }
  }
}
