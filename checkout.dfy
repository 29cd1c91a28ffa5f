/** The legacy four-step checkout form (src/pages/Checkout.tsx): contact,
    shipping, payment and confirmation steps walked in a fixed order, a form
    of twelve text fields, the order summary with its own free-shipping
    threshold, and placing the order, which clears the cart. */
module CheckoutPage {
  import opened Common
  import OrderSummary

  datatype CheckoutStep = Contact | ShippingStep | Payment | Confirm

  /** The steps in the order the form walks them. */
  const Steps: seq<CheckoutStep> := [Contact, ShippingStep, Payment, Confirm]

  /** `steps.findIndex(s => s.id === step)` */
  function StepIndex(s: CheckoutStep): (i: int)
    ensures 0 <= i < |Steps| && Steps[i] == s
    ensures forall j :: 0 <= j < |Steps| && Steps[j] == s ==> j == i
  {
    match s
    case Contact => 0
    case ShippingStep => 1
    case Payment => 2
    case Confirm => 3
  }

  /** The step Continue moves to; there is no Continue on the last step. */
  function NextStep(s: CheckoutStep): (r: CheckoutStep)
    requires s != Confirm
    ensures StepIndex(r) == StepIndex(s) + 1
  {
    Steps[StepIndex(s) + 1]
  }

  /** The step Back moves to; there is no Back on the first step. */
  function PrevStep(s: CheckoutStep): (r: CheckoutStep)
    requires StepIndex(s) > 0
    ensures StepIndex(r) == StepIndex(s) - 1
  {
    Steps[StepIndex(s) - 1]
  }

  /** Back after Continue returns to where the shopper was, and the other way round. */
  lemma BackUndoesContinue(s: CheckoutStep)
    ensures s != Confirm ==> StepIndex(NextStep(s)) > 0 && PrevStep(NextStep(s)) == s
    ensures StepIndex(s) > 0 ==> PrevStep(s) != Confirm && NextStep(PrevStep(s)) == s
  {
  }

  /** The names of the form's fields. */
  const FormFields: seq<string> :=
    ["email", "firstName", "lastName", "address", "city", "state", "zip", "country",
     "cardNumber", "expiry", "cvv", "cardName"]

  const DefaultCountry := "US"

  /** The form as the page starts it: every field empty except the country. */
  function InitialForm(): (form: map<string, string>)
    ensures form.Keys == set f | f in FormFields
    ensures forall f :: f in form && f != "country" ==> form[f] == ""
    ensures "country" in form && form["country"] == DefaultCountry
  {
    map f | f in FormFields :: if f == "country" then DefaultCountry else ""
  }

  /** How the progress row draws step `i`. */
  datatype Indicator = Done | Current | Upcoming

  function IndicatorOf(i: int, current: CheckoutStep): (d: Indicator)
    ensures d == Done <==> i < StepIndex(current)
    ensures d == Current <==> i == StepIndex(current)
  {
    if i < StepIndex(current) then Done
    else if i == StepIndex(current) then Current
    else Upcoming
  }

  /** What the page shows: the confirmation once ordered, a redirect to the
      catalogue for an empty cart, or the wizard with its order summary. */
  datatype View =
    | Confirmation
    | RedirectToProducts
    | Wizard(step: CheckoutStep, shipping: real, tax: real, orderTotal: real)

  function PageView(ordered: bool, itemCount: int, step: CheckoutStep, subtotal: real): (v: View)
    ensures v.Confirmation? <==> ordered
    ensures v.RedirectToProducts? <==> !ordered && itemCount == 0
    ensures v.Wizard? ==> (
      v.step == step &&
      (v.shipping == 0.0 <==> subtotal >= OrderSummary.CheckoutFreeShippingFrom) &&
      v.orderTotal == subtotal + v.shipping + v.tax &&
      v.orderTotal == OrderSummary.OrderTotal(OrderSummary.CheckoutFreeShippingFrom, subtotal))
  {
    if ordered then Confirmation
    else if itemCount == 0 then RedirectToProducts
    else
      Wizard(step, OrderSummary.Shipping(OrderSummary.CheckoutFreeShippingFrom, subtotal),
             OrderSummary.Tax(subtotal),
             OrderSummary.OrderTotal(OrderSummary.CheckoutFreeShippingFrom, subtotal))
  }

  /** The checkout form's state. */
  class Checkout {
    var step: CheckoutStep
    var form: map<string, string>
    var ordered: bool

    /** Every field of the form is present. */
    predicate Valid()
      reads this
    {
      forall f :: f in FormFields ==> f in form
    }

    constructor ()
      ensures step == Contact && form == InitialForm() && !ordered
      ensures Valid()
    {
      step := Contact;
      form := InitialForm();
      ordered := false;
    }

    /** Back is offered past the first step. */
    predicate BackOffered()
      reads this
    {
      StepIndex(step) > 0
    }

    /** Continue is offered before the confirmation step; Place Order on it. */
    predicate ContinueOffered()
      reads this
    {
      step != Confirm
    }

    method Back()
      requires BackOffered()
      modifies this
      ensures step == PrevStep(old(step))
      ensures form == old(form) && ordered == old(ordered)
    {
      step := Steps[StepIndex(step) - 1];
    }

    method Continue()
      requires ContinueOffered()
      modifies this
      ensures step == NextStep(old(step))
      ensures form == old(form) && ordered == old(ordered)
    {
      step := Steps[StepIndex(step) + 1];
    }

    /** `update(field, value)`: that field takes the value and no other changes. */
    method Update(field: string, value: string)
      modifies this
      ensures form == old(form)[field := value]
      ensures form[field] == value
      ensures forall g :: g in old(form) && g != field ==> g in form && form[g] == old(form)[g]
      ensures step == old(step) && ordered == old(ordered)
      ensures old(Valid()) ==> Valid()
    {
      form := form[field := value];
    }

    /** `handlePlaceOrder`: marks the order placed and asks the store to empty the cart. */
    method PlaceOrder() returns (request: CartRequest)
      requires step == Confirm
      modifies this
      ensures ordered && request == ClearCart
      ensures step == old(step) && form == old(form)
    {
      ordered := true;
      request := ClearCart;
    }
  }
}
