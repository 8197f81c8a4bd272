/**
 * The hero banner's carousel: a slide index advanced by an interval timer
 * and set directly by the dots under the slides. The timer is modelled as
 * a tick event.
 */
module Hero {
  /** Three slides. */
  const SlideCount: nat := 3

  /** The timer's update: after the last slide comes the first, otherwise the next one. */
  function NextSlide(prev: nat): (next: nat)
    ensures prev < SlideCount ==> next < SlideCount
    ensures prev < SlideCount ==> next == (prev + 1) % SlideCount
  {
    if prev == SlideCount - 1 then 0 else prev + 1
  }

  /** The index after `k` ticks. */
  function Advanced(s: nat, k: nat): nat {
    if k == 0 then s else NextSlide(Advanced(s, k - 1))
  }

  /** After `k` ticks the carousel shows slide `(s + k) mod 3`. */
  lemma {:induction false} AdvancedIsModular(s: nat, k: nat)
    requires s < SlideCount
    ensures Advanced(s, k) == (s + k) % SlideCount
  {
    if k > 0 {
      AdvancedIsModular(s, k - 1);
      assert (((s + k - 1) % SlideCount) + 1) % SlideCount == (s + k) % SlideCount;
    }
  }

  /** Three ticks bring the carousel back to the slide it started on. */
  lemma ThreeTicksReturn(s: nat)
    requires s < SlideCount
    ensures Advanced(s, 3) == s
  {
    AdvancedIsModular(s, 3);
  }

  class HeroBanner {
    var currentSlide: nat

    predicate Valid()
      reads this
    {
      currentSlide < SlideCount
    }

    constructor()
      ensures Valid() && currentSlide == 0
    {
      currentSlide := 0;
    }

    /** One tick of the five-second interval. */
    method Advance()
      requires Valid()
      modifies this
      ensures Valid()
      ensures currentSlide == NextSlide(old(currentSlide)) == (old(currentSlide) + 1) % SlideCount
    {
      currentSlide := if currentSlide == SlideCount - 1 then 0 else currentSlide + 1;
    }

    /** A click on dot `index` shows exactly that slide. */
    method SelectDot(index: nat)
      requires index < SlideCount
      modifies this
      ensures Valid()
      ensures currentSlide == index
    {
      currentSlide := index;
    }
  }
}
