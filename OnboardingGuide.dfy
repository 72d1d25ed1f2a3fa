/** The getting-started guide: six steps walked with Next and Previous.
    Next on the last step asks the host to close the guide instead of
    moving on. */
module OnboardingGuide {

  /** The guide has six steps, numbered 0 to 5. */
  const StepCount: nat := 6

  const LastStep: nat := StepCount - 1

  predicate ValidStep(step: int)
  {
    0 <= step < StepCount
  }

  /** Where `nextStep` leaves the step: one further, except on the last step. */
  function NextOf(step: int): (r: int)
    requires ValidStep(step)
    ensures ValidStep(r)
    ensures step < LastStep ==> r == step + 1
    ensures step == LastStep ==> r == step
  {
    if step < StepCount - 1 then step + 1 else step
  }

  /** Whether `nextStep` calls `onClose`: only on the last step. */
  function NextCloses(step: int): (r: bool)
    requires ValidStep(step)
    ensures r <==> NextOf(step) == step
  {
    !(step < StepCount - 1)
  }

  /** Where `prevStep` leaves the step: one back, except on the first step. */
  function PrevOf(step: int): (r: int)
    requires ValidStep(step)
    ensures ValidStep(r)
    ensures step > 0 ==> r == step - 1
    ensures step == 0 ==> r == 0
  {
    if step > 0 then step - 1 else step
  }

  /** The forward button's label. */
  function NextLabel(step: int): (r: string)
    requires ValidStep(step)
    ensures r == "Finish" <==> NextCloses(step)
  {
    if step == StepCount - 1 then "Finish" else "Next"
  }

  /** Previous undoes Next on every step but the last. */
  lemma PrevUndoesNext(step: int)
    requires ValidStep(step) && step < LastStep
    ensures PrevOf(NextOf(step)) == step
  {
  }

  /** Next undoes Previous on every step but the first. */
  lemma NextUndoesPrev(step: int)
    requires ValidStep(step) && step > 0
    ensures NextOf(PrevOf(step)) == step
  {
  }

  /** The step after pressing Next `n` times. */
  function AfterNexts(step: int, n: nat): (r: int)
    requires ValidStep(step)
    ensures ValidStep(r)
    decreases n
  {
    if n == 0 then step else AfterNexts(NextOf(step), n - 1)
  }

  /** Pressing Next `n` times moves `n` steps on, stopping at the last step. */
  lemma {:induction false} NextsStopAtLast(step: int, n: nat)
    requires ValidStep(step)
    ensures AfterNexts(step, n) == if step + n < LastStep then step + n else LastStep
    decreases n
  {
    if n > 0 {
      NextsStopAtLast(NextOf(step), n - 1);
    }
  }

  /** The guide's state: the current step, and how many times it has asked
      its host to close it (the `onClose` callback, counted). */
  class Guide {
    var currentStep: int
    var closeRequests: nat

    predicate Valid()
      reads this
    {
      ValidStep(currentStep)
    }

    constructor ()
      ensures Valid() && currentStep == 0 && closeRequests == 0
    {
      currentStep := 0;
      closeRequests := 0;
    }

    /** `nextStep`. */
    method NextStep()
      requires Valid()
      modifies this
      ensures Valid()
      ensures currentStep == NextOf(old(currentStep))
      ensures closeRequests == old(closeRequests) + (if NextCloses(old(currentStep)) then 1 else 0)
    {
      if currentStep < StepCount - 1 {
        currentStep := currentStep + 1;
      } else {
        closeRequests := closeRequests + 1;
      }
    }

    /** `prevStep`. */
    method PrevStep()
      requires Valid()
      modifies this
      ensures Valid()
      ensures currentStep == PrevOf(old(currentStep))
      ensures closeRequests == old(closeRequests)
    {
      if currentStep > 0 {
        currentStep := currentStep - 1;
      }
    }

    /** The close button in the header: asks to close from any step. */
    method Close()
      requires Valid()
      modifies this
      ensures Valid()
      ensures currentStep == old(currentStep) && closeRequests == old(closeRequests) + 1
    {
      closeRequests := closeRequests + 1;
    }
  }
}
