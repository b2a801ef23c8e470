/** The homepage hero carousel: three fixed slides and the index of the one shown. */
module HeroCarousel {
  import WrapIndex

  datatype HeroSlide = HeroSlide(id: int, image: string, title: string, subtitle: string)

  const SlideImage := "/placeholder.svg?height=600&width=1600"

  const Slides: seq<HeroSlide> := [
    HeroSlide(1, SlideImage, "Vende o compra tu próximo vehículo", "La mejor selección de autos y embarcaciones"),
    HeroSlide(2, SlideImage, "Embarcaciones de lujo", "Descubre nuestra colección exclusiva"),
    HeroSlide(3, SlideImage, "Vehículos premium", "Calidad y confort garantizados")
  ]

  /** The user's controls: the arrows and the indicator dots (one dot per slide). */
  datatype Control = NextSlide | PrevSlide | Indicator(index: int)

  predicate IsDot(c: Control)
  {
    c.Indicator? ==> 0 <= c.index < |Slides|
  }

  /** The slide shown after one control: a dot shows its own slide, and no control leaves the three slides. */
  function Step(current: int, c: Control): (r: int)
    ensures c.Indicator? ==> r == c.index
    ensures 0 <= current < |Slides| && IsDot(c) ==> 0 <= r < |Slides|
  {
    match c
    case NextSlide => WrapIndex.Next(current, |Slides|)
    case PrevSlide => WrapIndex.Prev(current, |Slides|)
    case Indicator(i) => i
  }

  /** The slide shown after a sequence of controls: after a dot click, the last one clicked. */
  function Run(current: int, controls: seq<Control>): (r: int)
    ensures controls == [] ==> r == current
    ensures controls != [] && controls[|controls| - 1].Indicator? ==> r == controls[|controls| - 1].index
    decreases |controls|
  {
    if controls == [] then current else Run(Step(current, controls[0]), controls[1..])
  }

  /** Whatever the user presses, the shown slide is one of the three. */
  lemma {:induction false} RunStaysInRange(current: int, controls: seq<Control>)
    requires 0 <= current < |Slides|
    requires forall c :: c in controls ==> IsDot(c)
    ensures 0 <= Run(current, controls) < |Slides|
    decreases |controls|
  {
    if controls != [] {
      assert controls[0] in controls;
      assert forall c :: c in controls[1..] ==> c in controls;
      RunStaysInRange(Step(current, controls[0]), controls[1..]);
    }
  }

  /** `nextSlide` wraps from the last slide to the first, `prevSlide` from the first to the last. */
  lemma StepsWrap()
    ensures Step(2, NextSlide) == 0 && Step(0, PrevSlide) == 2
  {
  }

  /** Three presses of `nextSlide` come back to the start. */
  lemma ThreeNextsReturn(current: int)
    requires 0 <= current < |Slides|
    ensures Run(current, [NextSlide, NextSlide, NextSlide]) == current
  {
    WrapIndex.FullCycle(current, |Slides|);
    assert [NextSlide, NextSlide, NextSlide][1..] == [NextSlide, NextSlide];
    assert [NextSlide, NextSlide][1..] == [NextSlide];
  }

  /** `prevSlide` then `nextSlide`, or the other way round, shows the same slide again. */
  lemma PrevNextCancel(current: int)
    requires 0 <= current < |Slides|
    ensures Run(current, [PrevSlide, NextSlide]) == current
    ensures Run(current, [NextSlide, PrevSlide]) == current
  {
    WrapIndex.PrevUndoesNext(current, |Slides|);
    assert [PrevSlide, NextSlide][1..] == [NextSlide];
    assert [NextSlide, PrevSlide][1..] == [PrevSlide];
  }

  /** `currentSlide` of `HeroCarousel`. */
  class Carousel {
    var currentSlide: int

    predicate Valid()
      reads this
    {
      0 <= currentSlide < |Slides|
    }

    constructor ()
      ensures currentSlide == 0 && Valid()
    {
      currentSlide := 0;
    }

    method Next()
      requires Valid()
      modifies this
      ensures currentSlide == Step(old(currentSlide), NextSlide) && Valid()
    {
      currentSlide := WrapIndex.Next(currentSlide, |Slides|);
    }

    method Prev()
      requires Valid()
      modifies this
      ensures currentSlide == Step(old(currentSlide), PrevSlide) && Valid()
    {
      currentSlide := WrapIndex.Prev(currentSlide, |Slides|);
    }

    /** An indicator dot: `setCurrentSlide(index)`. */
    method GoTo(index: int)
      requires Valid() && 0 <= index < |Slides|
      modifies this
      ensures currentSlide == Step(old(currentSlide), Indicator(index)) && Valid()
    {
      currentSlide := index;
    }
  }
}
