/** The shared builder state of src/context/BuilderContext.tsx: a record held
    by the provider whose `step` the navigation callbacks clamp to the six
    builder steps 0..5, the derived total price, and `reset`. */
module BuilderContext {
  import opened Common

  /** The provider's state record (`BuilderState`). */
  datatype BuilderState = BuilderState(
    step: int,
    selectedVariantId: Option<string>,
    selectedVariantTitle: string,
    selectedVariantPrice: real,
    logoFile: Option<FileRef>,
    logoPreviewUrl: Option<string>,
    stampPadSelected: bool,
    stampPadVariantId: Option<string>,
    stampPadName: string,
    stampPadPrice: real,
    inkColor: string,
    prioritySelected: bool,
    priorityVariantId: Option<string>,
    priorityPrice: real)

  /** The index of the last builder step (Review). */
  const LastStep: int := 5

  /** `initialState`: step 0, black ink, nothing selected, every price 0. */
  const InitialState: BuilderState :=
    BuilderState(0, None, "", 0.0, None, None, false, None, "", 0.0, "Black", false, None, 0.0)

  /** `Math.min(s + 1, 5)` */
  function NextStepOf(s: int): int { Min(s + 1, LastStep) }

  /** `Math.max(s - 1, 0)` */
  function PrevStepOf(s: int): int { Max(s - 1, 0) }

  /** `Math.max(0, Math.min(k, 5))` */
  function GoToStepOf(k: int): int { Max(0, Min(k, LastStep)) }

  /** `totalPrice`: the variant price, plus the pad and priority prices when selected. */
  function TotalPrice(s: BuilderState): real {
    s.selectedVariantPrice
      + (if s.stampPadSelected then s.stampPadPrice else 0.0)
      + (if s.prioritySelected then s.priorityPrice else 0.0)
  }

  /** From a step in range every navigation callback lands in range; a jump
      lands in range from anywhere. */
  lemma NavigationStaysInRange(s: int, k: int)
    requires 0 <= s <= LastStep
    ensures 0 <= NextStepOf(s) <= LastStep
    ensures 0 <= PrevStepOf(s) <= LastStep
    ensures 0 <= GoToStepOf(k) <= LastStep
    ensures NextStepOf(s) >= s && PrevStepOf(s) <= s
  {
  }

  /** A jump to an existing step goes exactly there, and repeating a jump changes nothing. */
  lemma GoToStepExactAndIdempotent(k: int)
    ensures 0 <= k <= LastStep ==> GoToStepOf(k) == k
    ensures GoToStepOf(GoToStepOf(k)) == GoToStepOf(k)
    ensures k < 0 ==> GoToStepOf(k) == 0
    ensures k > LastStep ==> GoToStepOf(k) == LastStep
  {
  }

  /** Back undoes Continue on every step before Review; on Review, Continue stays put. */
  lemma PrevUndoesNext(s: int)
    requires 0 <= s <= LastStep
    ensures s < LastStep ==> PrevStepOf(NextStepOf(s)) == s
    ensures s == LastStep ==> NextStepOf(s) == s && PrevStepOf(NextStepOf(s)) == s - 1
  {
  }

  /** The initial state costs nothing and starts on step 0 with black ink. */
  lemma InitialStateIsEmpty()
    ensures TotalPrice(InitialState) == 0.0
    ensures InitialState.step == 0 && InitialState.inkColor == "Black"
    ensures !InitialState.stampPadSelected && !InitialState.prioritySelected
    ensures InitialState.selectedVariantId.None? && InitialState.logoFile.None?
  {
  }

  /** Deselecting the pad lowers the total by exactly the pad's price, and
      the total is the variant price when no add-on is selected. */
  lemma TotalPriceComponents(s: BuilderState)
    ensures TotalPrice(s.(stampPadSelected := false)) ==
      TotalPrice(s) - (if s.stampPadSelected then s.stampPadPrice else 0.0)
    ensures TotalPrice(s.(prioritySelected := false)) ==
      TotalPrice(s) - (if s.prioritySelected then s.priorityPrice else 0.0)
    ensures !s.stampPadSelected && !s.prioritySelected ==> TotalPrice(s) == s.selectedVariantPrice
  {
  }

  /** `BuilderProvider`: the held state and the callbacks it hands to its children. */
  class BuilderProvider {
    var state: BuilderState

    ghost predicate Valid()
      reads this
    {
      0 <= state.step <= LastStep
    }

    constructor ()
      ensures Valid() && state == InitialState
    {
      state := InitialState;
    }

    /** The raw `setState` the context also exposes: any record, step included. */
    method SetState(s: BuilderState)
      modifies this
      ensures state == s
    {
      state := s;
    }

    method NextStep()
      modifies this
      ensures state == old(state).(step := NextStepOf(old(state).step))
      ensures old(Valid()) ==> Valid()
    {
      state := state.(step := NextStepOf(state.step));
    }

    method PrevStep()
      modifies this
      ensures state == old(state).(step := PrevStepOf(old(state).step))
      ensures old(Valid()) ==> Valid()
    {
      state := state.(step := PrevStepOf(state.step));
    }

    method GoToStep(k: int)
      modifies this
      ensures state == old(state).(step := GoToStepOf(k))
      ensures Valid()
      ensures 0 <= k <= LastStep ==> state.step == k
    {
      state := state.(step := GoToStepOf(k));
    }

    method Reset()
      modifies this
      ensures state == InitialState && Valid()
      ensures TotalPrice(state) == 0.0
    {
      state := InitialState;
    }
  }
}
