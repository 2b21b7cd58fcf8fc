/** The hero carousel: three slides advanced by a timer tick or chosen by an
    indicator click, and the audio on/off button. */
module Hero {

  datatype Slide = Slide(image: string, title: string)

  /** `heroSlides.length`. */
  const SlideCount: nat := 3

  function HeroSlides(): (slides: seq<Slide>)
    ensures |slides| == SlideCount
  {
    [ Slide("/farm.jpg", "Managed Farmland Excellence"),
      Slide("/IMG-20250428-WA0080.jpg", "Sandalwood & High-Value Crops"),
      Slide("/IMG-20250428-WA0081.jpg", "Your Agriculture Investment Partner") ]
  }

  /** The timer's successor `(prev + 1) % heroSlides.length`: always a valid
      slide index, the next one, or the first after the last. */
  function NextSlide(prev: nat, count: nat): (r: nat)
    requires count > 0
    ensures r < count
    ensures prev < count ==> r == (if prev + 1 == count then 0 else prev + 1)
  {
    (prev + 1) % count
  }

  /** The slide shown after n timer ticks. */
  function Ticks(start: nat, n: nat, count: nat): (r: nat)
    requires count > 0
    ensures start < count ==> r < count
  {
    if n == 0 then start else NextSlide(Ticks(start, n - 1, count), count)
  }

  /** Within one lap, k ticks move the carousel k places forward, wrapping
      past the last slide to the first. */
  lemma {:induction false} TicksAdvance(start: nat, k: nat, count: nat)
    requires count > 0 && start < count && k <= count
    ensures Ticks(start, k, count) == if start + k < count then start + k else start + k - count
  {
    if k > 0 {
      TicksAdvance(start, k - 1, count);
    }
  }

  /** As many ticks as there are slides bring the carousel back to where it
      started, and no fewer do: every slide is shown once per lap. */
  lemma FullCycleReturns(start: nat)
    requires start < |HeroSlides()|
    ensures Ticks(start, |HeroSlides()|, |HeroSlides()|) == start
    ensures forall k :: 0 < k < |HeroSlides()| ==> Ticks(start, k, |HeroSlides()|) != start
  {
    forall k | 0 < k < |HeroSlides()|
      ensures Ticks(start, k, |HeroSlides()|) != start
    {
      TicksAdvance(start, k, |HeroSlides()|);
    }
    TicksAdvance(start, |HeroSlides()|, |HeroSlides()|);
  }

  /** The animation target of slide `index`: opacity 1 and scale 1 for the
      current slide, opacity 0 and scale 1.1 for the others. */
  function SlideStyle(index: nat, current: nat): (style: (real, real))
    ensures style.0 == 1.0 <==> index == current
    ensures style.1 == 1.0 <==> index == current
    ensures style.0 == 0.0 || style.0 == 1.0
  {
    if index == current then (1.0, 1.0) else (0.0, 1.1)
  }

  /** The indicator of slide `index` is drawn in the active style. */
  predicate IndicatorActive(index: nat, current: nat)
    ensures IndicatorActive(index, current) <==> SlideStyle(index, current) == (1.0, 1.0)
  {
    index == current
  }

  /** Exactly one slide is visible, at its natural scale, and exactly one
      indicator is active: both for the current slide. */
  lemma ExactlyOneSlideVisible(current: nat)
    requires current < |HeroSlides()|
    ensures SlideStyle(current, current) == (1.0, 1.0)
    ensures forall i :: 0 <= i < |HeroSlides()| && i != current ==> SlideStyle(i, current) == (0.0, 1.1)
    ensures forall i :: 0 <= i < |HeroSlides()| ==> (IndicatorActive(i, current) <==> SlideStyle(i, current).0 == 1.0)
  {
  }

  class Carousel {
    var currentSlide: nat
    var audioEnabled: bool

    ghost predicate Valid()
      reads this
    {
      currentSlide < SlideCount
    }

    constructor ()
      ensures Valid() && currentSlide == 0 && !audioEnabled
    {
      currentSlide, audioEnabled := 0, false;
    }

    /** `heroSlides[currentSlide].title`: always defined, and the title of the
        current slide and of no other, so the headline tells the slides apart. */
    function CurrentTitle(): (title: string)
      reads this
      requires Valid()
      ensures forall i :: 0 <= i < |HeroSlides()| ==> (HeroSlides()[i].title == title <==> i == currentSlide)
    {
      HeroSlides()[currentSlide].title
    }

    /** The 6-second interval's callback. */
    method Tick()
      requires Valid()
      modifies this
      ensures Valid()
      ensures currentSlide == NextSlide(old(currentSlide), SlideCount)
      ensures audioEnabled == old(audioEnabled)
    {
      currentSlide := (currentSlide + 1) % SlideCount;
    }

    /** A click on indicator `index` (one indicator per slide). */
    method SelectSlide(index: nat)
      requires Valid() && index < SlideCount
      modifies this
      ensures Valid() && currentSlide == index
      ensures audioEnabled == old(audioEnabled)
    {
      currentSlide := index;
    }

    /** The audio button. */
    method ToggleAudio()
      requires Valid()
      modifies this
      ensures Valid()
      ensures audioEnabled == !old(audioEnabled)
      ensures currentSlide == old(currentSlide)
    {
      audioEnabled := !audioEnabled;
    }
  }
}
