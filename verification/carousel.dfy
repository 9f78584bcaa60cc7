/**
 * The home-page carousel: an index into a fixed list of slides, moved by
 * the arrows, the dots and a five-second timer, always modulo the number
 * of slides.
 */
module Carousel {

  /** The carousel shows eight slides. */
  const SlideCount := 8

  type SlideIndex = i: int | 0 <= i < SlideCount

  const InitialSlide: SlideIndex := 0

  /** `goToNext` and the timer step: `(prev + 1) % slides.length`. */
  function Next(i: SlideIndex): (r: SlideIndex)
    ensures i < SlideCount - 1 ==> r == i + 1
    ensures i == SlideCount - 1 ==> r == 0
  {
    (i + 1) % SlideCount
  }

  /** `goToPrevious`: `(prev - 1 + slides.length) % slides.length`; the operand is never negative. */
  function Previous(i: SlideIndex): (r: SlideIndex)
    ensures i > 0 ==> r == i - 1
    ensures i == 0 ==> r == SlideCount - 1
  {
    (i - 1 + SlideCount) % SlideCount
  }

  /** The dots: one per slide, each offering its own position to `goToSlide`. */
  function DotTargets(): (ds: seq<SlideIndex>)
    ensures |ds| == SlideCount
    ensures forall k :: 0 <= k < |ds| ==> ds[k] == k
  {
    seq(SlideCount, k requires 0 <= k < SlideCount => k)
  }

  function GoToSlide(target: SlideIndex): SlideIndex {
    target
  }

  /** Every slide can be reached with one click on its dot. */
  lemma DotsReachEverySlide(i: SlideIndex)
    ensures GoToSlide(DotTargets()[i]) == i
  {
  }

  lemma PreviousUndoesNext(i: SlideIndex)
    ensures Previous(Next(i)) == i
    ensures Next(Previous(i)) == i
  {
  }

  /** `k` steps forward. */
  function Advance(i: SlideIndex, k: nat): SlideIndex
    decreases k
  {
    if k == 0 then i else Next(Advance(i, k - 1))
  }

  lemma {:induction false} AdvanceIsModular(i: SlideIndex, k: nat)
    ensures Advance(i, k) == (i + k) % SlideCount
    decreases k
  {
    if k > 0 {
      AdvanceIsModular(i, k - 1);
    }
  }

  /** From the initial slide, `k` timer ticks show slide `k mod 8`. */
  lemma TicksFromStart(k: nat)
    ensures Advance(InitialSlide, k) == k % SlideCount
  {
    AdvanceIsModular(InitialSlide, k);
  }

  /** A full round of timer ticks comes back to the slide it started on. */
  lemma FullRoundReturns(i: SlideIndex)
    ensures Advance(i, SlideCount) == i
  {
    AdvanceIsModular(i, SlideCount);
    assert (i + SlideCount) % SlideCount == i;
  }
}
