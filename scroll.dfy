/**
  The bounded scroll loop of the listing page (index.js lines 46-52).  Each step
  reads `document.body.scrollHeight`, scrolls to the bottom, waits, and reads the
  height again; the loop stops after the first step whose two readings are equal,
  and after `adsScroll` steps at the latest.

  The page is abstracted as a height oracle: `reading(k)` is the value the k-th
  height read of the run returns (reads number 2i and 2i+1 belong to step i).  The
  two-second settle delay is not modelled.
*/
module Scroll {

  /** The number of steps the loop may take at most: `adsScroll` when positive, else none. */
  function Budget(adsScroll: int): nat {
    if adsScroll > 0 then adsScroll else 0
  }

  /** Step `i` saw the same height before and after its scroll. */
  predicate Unchanged(reading: nat -> int, i: nat) {
    reading(2 * i + 1) == reading(2 * i)
  }

  /** The number of scroll steps taken in all, when step `i` is about to start. */
  function StepsFrom(reading: nat -> int, adsScroll: int, i: nat): nat
    decreases adsScroll - i
  {
    if i >= adsScroll then i
    else if Unchanged(reading, i) then i + 1
    else StepsFrom(reading, adsScroll, i + 1)
  }

  /** The number of scroll steps the loop takes. */
  function StepsTaken(reading: nat -> int, adsScroll: int): nat {
    StepsFrom(reading, adsScroll, 0)
  }

  /**
    What the number of steps says about the readings: the loop stays within its
    budget, every step but the last saw the height change, and it stops short of the
    budget only right after a step that saw no change.
  */
  predicate StopsAtFirstUnchanged(reading: nat -> int, adsScroll: int, steps: nat) {
    && steps <= Budget(adsScroll)
    && (forall k: nat :: k + 1 < steps ==> !Unchanged(reading, k))
    && (steps < Budget(adsScroll) ==> steps > 0 && Unchanged(reading, steps - 1))
  }

  lemma {:induction false} StepsFromCharacterised(reading: nat -> int, adsScroll: int, i: nat)
    requires i <= Budget(adsScroll)
    requires forall k: nat :: k < i ==> !Unchanged(reading, k)
    ensures StopsAtFirstUnchanged(reading, adsScroll, StepsFrom(reading, adsScroll, i))
    decreases adsScroll - i
  {
    if i < adsScroll && !Unchanged(reading, i) {
      StepsFromCharacterised(reading, adsScroll, i + 1);
    }
  }

  /** The loop never exceeds its budget and stops at the first step that left the height unchanged. */
  lemma StepsTakenCharacterised(reading: nat -> int, adsScroll: int)
    ensures StopsAtFirstUnchanged(reading, adsScroll, StepsTaken(reading, adsScroll))
  {
    StepsFromCharacterised(reading, adsScroll, 0);
  }

  /** A budget of zero or less scrolls not at all; a page that never grows uses the whole budget. */
  lemma {:induction false} StepsTakenExtremes(reading: nat -> int, adsScroll: int)
    ensures adsScroll <= 0 ==> StepsTaken(reading, adsScroll) == 0
    ensures (forall k: nat :: !Unchanged(reading, k)) ==> StepsTaken(reading, adsScroll) == Budget(adsScroll)
  {
    StepsTakenCharacterised(reading, adsScroll);
  }

  /**
    The `for` loop itself: it returns the number of scroll steps it performed, and
    the number of height readings it took, which is two per step.
  */
  method ScrollListing(reading: nat -> int, adsScroll: int) returns (steps: nat, heightReads: nat)
    ensures steps == StepsTaken(reading, adsScroll)
    ensures StopsAtFirstUnchanged(reading, adsScroll, steps)
    ensures heightReads == 2 * steps
  {
    steps, heightReads := 0, 0;
    var i := 0;
    while i < adsScroll
      invariant 0 <= i <= Budget(adsScroll)
      invariant steps == i && heightReads == 2 * i
      invariant forall k: nat :: k < i ==> !Unchanged(reading, k)
      invariant StepsFrom(reading, adsScroll, i) == StepsTaken(reading, adsScroll)
      decreases adsScroll - i
    {
      var previousHeight := reading(heightReads);
      // window.scrollTo(0, document.body.scrollHeight), then the settle delay
      var newHeight := reading(heightReads + 1);
      steps, heightReads := steps + 1, heightReads + 2;
      if newHeight == previousHeight {
        break;
      }
      i := i + 1;
    }
    StepsTakenCharacterised(reading, adsScroll);
  }
}
