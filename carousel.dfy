/**
 * The before/after carousel: which slide is shown, the wrap-around of the
 * previous and next arrows, the dots, and the reset of the comparison
 * slider whenever the slide changes. Dragging the slider is not modelled.
 */
module Carousel {

  datatype Slide = Slide(before: string, after: string, description: string)

  /** The slider position, in percent of the width, after a slide change. */
  const InitialSliderPosition: real := 50.0

  /** The next slide: from the last back to the first, otherwise one on. */
  function NextIndex(current: int, length: int): (r: int)
    ensures 0 <= current < length ==> 0 <= r < length && r == (current + 1) % length
  {
    if current == length - 1 then 0 else current + 1
  }

  /** The previous slide: from the first round to the last, otherwise one back. */
  function PrevIndex(current: int, length: int): (r: int)
    ensures 0 <= current < length ==> 0 <= r < length && r == (current + length - 1) % length
  {
    if current == 0 then length - 1 else current - 1
  }

  /** The arrows undo each other. */
  lemma PrevNextInverse(current: int, length: int)
    requires 0 <= current < length
    ensures PrevIndex(NextIndex(current, length), length) == current
    ensures NextIndex(PrevIndex(current, length), length) == current
  {
  }

  class Carousel {
    const items: seq<Slide>
    var currentIndex: int
    var sliderPosition: real

    /** The slide shown exists. */
    ghost predicate Valid()
      reads this
    {
      0 <= currentIndex < |items|
    }

    /** The carousel renders `items[0]` at once, so it needs at least one slide. */
    constructor (slides: seq<Slide>)
      requires |slides| > 0
      ensures items == slides && currentIndex == 0 && sliderPosition == InitialSliderPosition
      ensures Valid()
    {
      items := slides;
      currentIndex := 0;
      sliderPosition := InitialSliderPosition;
    }

    function CurrentItem(): (s: Slide)
      reads this
      requires Valid()
      ensures s in items
    {
      items[currentIndex]
    }

    /**
     * Setting the index. The slider goes back to the middle only when the
     * index really changes, since the reset runs on a change of its value.
     */
    method SetCurrentIndex(newIndex: int)
      modifies this
      ensures currentIndex == newIndex
      ensures sliderPosition == if newIndex != old(currentIndex) then InitialSliderPosition else old(sliderPosition)
    {
      if newIndex != currentIndex {
        sliderPosition := InitialSliderPosition;
      }
      currentIndex := newIndex;
    }

    method GoToPrev()
      requires Valid()
      modifies this
      ensures Valid() && currentIndex == PrevIndex(old(currentIndex), |items|)
      ensures sliderPosition == if currentIndex != old(currentIndex) then InitialSliderPosition else old(sliderPosition)
    {
      SetCurrentIndex(PrevIndex(currentIndex, |items|));
    }

    method GoToNext()
      requires Valid()
      modifies this
      ensures Valid() && currentIndex == NextIndex(old(currentIndex), |items|)
      ensures sliderPosition == if currentIndex != old(currentIndex) then InitialSliderPosition else old(sliderPosition)
    {
      SetCurrentIndex(NextIndex(currentIndex, |items|));
    }

    /** A dot: the index becomes its argument; the dots only pass indices of existing slides. */
    method GoToSlide(slideIndex: int)
      modifies this
      ensures currentIndex == slideIndex
      ensures 0 <= slideIndex < |items| ==> Valid()
      ensures sliderPosition == if slideIndex != old(currentIndex) then InitialSliderPosition else old(sliderPosition)
    {
      SetCurrentIndex(slideIndex);
    }
  }
}
