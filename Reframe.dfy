/**
 * The two-step cognitive-reframing flow (components/generative/CognitiveReframe): write the
 * thought, continue only with a non-blank thought, write a reframe, start over.
 */
module Reframe {
  import opened Strings

  class CognitiveReframe {
    var negativeThought: string
    var reframe: string
    var step: int

    /** The step is 1 or 2, and step 2 is reached only with a thought that is not blank. */
    predicate Valid()
      reads this
    {
      (step == 1 || step == 2) && (step == 2 ==> !Blank(negativeThought))
    }

    /** Step 1 with both texts empty. */
    constructor()
      ensures negativeThought == "" && reframe == "" && step == 1 && Valid()
    {
      negativeThought := "";
      reframe := "";
      step := 1;
    }

    /** The thought's text area, shown only at step 1. */
    method EditThought(text: string)
      requires step == 1
      modifies this
      ensures negativeThought == text && reframe == old(reframe) && step == 1
      ensures Valid()
    {
      negativeThought := text;
    }

    /** The reframe's text area, shown only at step 2. */
    method EditReframe(text: string)
      requires step == 2
      modifies this
      ensures reframe == text && negativeThought == old(negativeThought) && step == 2
      ensures old(Valid()) ==> Valid()
    {
      reframe := text;
    }

    /** The Continue button is enabled exactly when the thought is not blank. */
    predicate ContinueEnabled()
      reads this
      ensures ContinueEnabled() <==> !Blank(negativeThought)
    {
      TrimEmptyIffBlank(negativeThought);
      Trim(negativeThought) != ""
    }

    /** `handleContinue`: moves to step 2 only from step 1 with a non-blank thought. */
    method HandleContinue()
      modifies this
      ensures old(step) == 1 && !Blank(old(negativeThought)) ==> step == 2
      ensures !(old(step) == 1 && !Blank(old(negativeThought))) ==> step == old(step)
      ensures negativeThought == old(negativeThought) && reframe == old(reframe)
      ensures old(Valid()) ==> Valid()
    {
      TrimEmptyIffBlank(negativeThought);
      if step == 1 && Trim(negativeThought) != "" {
        step := 2;
      }
    }

    /** Start Over, shown only at step 2: back to step 1 with both texts cleared. */
    method StartOver()
      requires step == 2
      modifies this
      ensures step == 1 && negativeThought == "" && reframe == ""
      ensures Valid()
    {
      step := 1;
      negativeThought := "";
      reframe := "";
    }

    /** The success note appears at step 2 exactly when the reframe is not blank. */
    predicate ShowsSuccessNote()
      reads this
      ensures ShowsSuccessNote() <==> step == 2 && !Blank(reframe)
    {
      TrimEmptyIffBlank(reframe);
      step == 2 && Trim(reframe) != ""
    }
  }
}
