/** The onboarding walkthrough (components/OnboardingModal.tsx): four steps and a
    button that advances one step at a time and, on the last step, reports
    completion to the app. */
module OnboardingModal {

  /** `steps.length`. */
  const StepCount: nat := 4

  /** The button's label: "next" or, on the last step, "get started". */
  datatype ButtonLabel = Next | GetStarted

  /** `handleNext` from a step: the step after the press and whether `onComplete`
      was called. */
  function Advance(step: int): (r: (int, bool))
    ensures r.1 <==> step >= StepCount - 1
    ensures r.1 ==> r.0 == step
    ensures !r.1 ==> r.0 == step + 1
  {
    if step < StepCount - 1 then (step + 1, false) else (step, true)
  }

  /** The number of `onComplete` calls among `presses` presses starting at `step`. */
  function CompletionsWithin(step: int, presses: nat): nat
    decreases presses
  {
    if presses == 0 then 0
    else
      var (next, completes) := Advance(step);
      (if completes then 1 else 0) + CompletionsWithin(next, presses - 1)
  }

  /** From step `step` in 0..3, the first `3 - step` presses only advance and
      every later press calls `onComplete`; from the first step, that is the
      fourth press and on. */
  lemma {:induction false} CompletionsCount(step: int, presses: nat)
    requires 0 <= step < StepCount
    ensures CompletionsWithin(step, presses) ==
              if presses <= StepCount - 1 - step then 0 else presses - (StepCount - 1 - step)
    decreases presses
  {
    if presses > 0 {
      CompletionsCount(Advance(step).0, presses - 1);
    }
  }

  /** Three presses from the first step only advance; the fourth calls `onComplete`. */
  lemma FirstCompletionOnFourthPress()
    ensures CompletionsWithin(0, 3) == 0
    ensures CompletionsWithin(0, 4) == 1
  {
  }

  class Onboarding {
    var step: int

    /** `0 <= step <= 3`: the current step always indexes `steps`. */
    ghost predicate Valid()
      reads this
    {
      0 <= step < StepCount
    }

    constructor ()
      ensures Valid() && step == 0
    {
      step := 0;
    }

    /** `handleNext`; `completed` says whether `onComplete` was called. */
    method HandleNext() returns (completed: bool)
      requires Valid()
      modifies this
      ensures Valid()
      ensures (step, completed) == Advance(old(step))
      ensures completed <==> old(step) == StepCount - 1
    {
      if step < StepCount - 1 {
        step := step + 1;
        completed := false;
      } else {
        completed := true;
      }
    }

    function Label(): (l: ButtonLabel)
      reads this
      ensures l == GetStarted <==> step == StepCount - 1
    {
      if step == StepCount - 1 then GetStarted else Next
    }
  }
}
