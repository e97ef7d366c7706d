/** The testimonial carousel (src/sections/Testimonial.jsx): four cards
    shown one or two per slide depending on the window width, a slide index
    that the arrows, a 3-second timer and a resize clamp move, a pause flag,
    and the entry/exit offsets of each card's animation. */
module Testimonial {

  /** `testmonialData.length`. */
  const CardCount: int := 4

  /** `getCardsPerSlide`: one card below 768 pixels, two from there on. */
  function CardsPerSlide(width: int): (c: int)
    ensures c == 1 || c == 2
    ensures c == 1 <==> width < 768
  {
    if width < 768 then 1 else 2
  }

  /** `Math.ceil(testmonialData.length / cardsPerSlide)`. */
  function TotalSlides(cardsPerSlide: int): (n: int)
    requires cardsPerSlide > 0
    ensures (n - 1) * cardsPerSlide < CardCount <= n * cardsPerSlide
  {
    var q := CardCount / cardsPerSlide;
    if q * cardsPerSlide == CardCount then q else q + 1
  }

  /** Four slides on a narrow window, two on a wide one. */
  lemma SlidesByWidth(width: int)
    ensures TotalSlides(CardsPerSlide(width)) == if width < 768 then 4 else 2
  {
  }

  /** The updater of `handleNext` and of the timer: the last slide wraps to the first. */
  function Next(i: int, total: int): (r: int)
    ensures 0 <= i < total ==> 0 <= r < total && r == (i + 1) % total
  {
    if i == total - 1 then 0 else i + 1
  }

  /** The updater of `handlePrev`: the first slide wraps to the last. */
  function Prev(i: int, total: int): (r: int)
    ensures 0 <= i < total ==> 0 <= r < total && r == (i + total - 1) % total
  {
    if i == 0 then total - 1 else i - 1
  }

  /** On the slides that exist, Next and Prev undo each other. */
  lemma NextPrevInverse(i: int, total: int)
    requires 0 <= i < total
    ensures Prev(Next(i, total), total) == i
    ensures Next(Prev(i, total), total) == i
  {
  }

  /** The effect that runs after `totalSlides` changes: an index past the
      last slide moves to the last slide. */
  function Clamp(i: int, total: int): (r: int)
    ensures 0 <= i && 0 < total ==> 0 <= r < total
    ensures i < total ==> r == i
    ensures i >= total ==> r == total - 1
  {
    if i >= total then total - 1 else i
  }

  datatype Offset = Offset(x: int, y: int)

  /** `cardVariants(index).hidden`: left, right or below, by `index % 3`. */
  function HiddenOffset(index: nat): (o: Offset)
    ensures o == HiddenOffset(index % 3)
    ensures (o.x == 0) != (o.y == 0)
  {
    var m := index % 3;
    Offset(if m == 0 then -100 else if m == 1 then 100 else 0, if m == 2 then 100 else 0)
  }

  /** `cardVariants(index).exit`. */
  function ExitOffset(index: nat): (o: Offset)
    ensures o == ExitOffset(index % 3)
    ensures (o.x == 0) != (o.y == 0)
  {
    var m := index % 3;
    Offset(if m == 0 then 100 else if m == 1 then -100 else 0, if m == 2 then -100 else 0)
  }

  /** A card leaves the way it came in, mirrored: its exit offset is its
      hidden offset negated. */
  lemma ExitMirrorsHidden(index: nat)
    ensures ExitOffset(index) == Offset(-HiddenOffset(index).x, -HiddenOffset(index).y)
  {
  }

  /** The component's state. */
  class Carousel {
    var currentIndex: int
    var isPaused: bool
    var cardsPerSlide: int

    /** The index names a slide that exists. */
    ghost predicate Valid()
      reads this
    {
      (cardsPerSlide == 1 || cardsPerSlide == 2) && 0 <= currentIndex < TotalSlides(cardsPerSlide)
    }

    function Total(): (n: int)
      reads this
      requires cardsPerSlide > 0
    {
      TotalSlides(cardsPerSlide)
    }

    /** First render at a given window width. */
    constructor (width: int)
      ensures Valid()
      ensures currentIndex == 0 && !isPaused && cardsPerSlide == CardsPerSlide(width)
    {
      currentIndex := 0;
      isPaused := false;
      cardsPerSlide := CardsPerSlide(width);
    }

    /** The left arrow: previous slide, and the timer stops. */
    method HandlePrev()
      requires Valid()
      modifies this
      ensures Valid()
      ensures currentIndex == Prev(old(currentIndex), Total()) && isPaused
      ensures cardsPerSlide == old(cardsPerSlide)
    {
      currentIndex := Prev(currentIndex, Total());
      isPaused := true;
    }

    /** The right arrow: next slide, and the timer stops. */
    method HandleNext()
      requires Valid()
      modifies this
      ensures Valid()
      ensures currentIndex == Next(old(currentIndex), Total()) && isPaused
      ensures cardsPerSlide == old(cardsPerSlide)
    {
      currentIndex := Next(currentIndex, Total());
      isPaused := true;
    }

    /** One firing of the 3-second interval, which only runs while not paused. */
    method Tick()
      requires Valid()
      modifies this
      ensures Valid()
      ensures old(isPaused) ==> currentIndex == old(currentIndex)
      ensures !old(isPaused) ==> currentIndex == Next(old(currentIndex), Total())
      ensures isPaused == old(isPaused) && cardsPerSlide == old(cardsPerSlide)
    {
      if !isPaused {
        currentIndex := Next(currentIndex, Total());
      }
    }

    method MouseEnter()
      requires Valid()
      modifies this`isPaused
      ensures Valid() && isPaused
    {
      isPaused := true;
    }

    method MouseLeave()
      requires Valid()
      modifies this`isPaused
      ensures Valid() && !isPaused
    {
      isPaused := false;
    }

    /** A resize event: `setCardsPerSlide(getCardsPerSlide())`, then the
        clamp effect on the new slide count. */
    method Resize(width: int)
      requires Valid()
      modifies this
      ensures Valid()
      ensures cardsPerSlide == CardsPerSlide(width)
      ensures currentIndex == Clamp(old(currentIndex), Total())
      ensures isPaused == old(isPaused)
    {
      cardsPerSlide := CardsPerSlide(width);
      if currentIndex >= Total() {
        currentIndex := Total() - 1;
      }
    }
  }
}
