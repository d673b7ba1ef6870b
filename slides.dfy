/**
 * The presentation window of ndi-app/src/components/apps/Impress.tsx: a fixed
 * deck of slides, the slide shown and whether the deck is being presented.
 * The editor's thumbnails and arrow buttons jump to a slide; in presentation
 * mode a click or a key moves one slide, and leaving the last slide or
 * Escape ends the presentation.
 *
 * The slides' titles and texts are left out: the deck is its number of
 * slides, `slides.length`, passed to every step. `ImpressWindow` holds the two
 * state fields and rewrites them in place.
 */
module Slides {
  /** `currentSlide` and `isPresenting`. */
  datatype Deck = Deck(current: int, presenting: bool)

  /** The window opens on the first slide, not presenting. */
  const InitialDeck: Deck := Deck(0, false)

  /** The four slides the window ships with. */
  const ShippedCount: nat := 4

  /** The keys the presentation reacts to, and any other. */
  datatype SlideKey = EscapeKey | ArrowRight | Space | ArrowLeft | OtherKey

  /** `goToSlide`: only an index of an existing slide is accepted. */
  function GoToStep(d: Deck, count: nat, index: int): (r: Deck)
    ensures r.presenting == d.presenting
    ensures 0 <= index < count ==> r.current == index
    ensures !(0 <= index < count) ==> r == d
  {
    if index >= 0 && index < count then d.(current := index) else d
  }

  /** `startPresentation`. */
  function StartStep(d: Deck): (r: Deck)
    ensures r.presenting && r.current == d.current
  {
    d.(presenting := true)
  }

  /** `exitPresentation`. */
  function ExitStep(d: Deck): (r: Deck)
    ensures !r.presenting && r.current == d.current
  {
    d.(presenting := false)
  }

  /**
   * A click on the presented slide: on the right half the next slide, or the
   * end of the presentation on the last one; on the left half the previous
   * slide, if any.
   */
  function ClickStep(d: Deck, count: nat, rightHalf: bool): (r: Deck)
    ensures rightHalf && d.current < count - 1 ==> r == d.(current := d.current + 1)
    ensures rightHalf && d.current >= count - 1 ==> r == d.(presenting := false)
    ensures !rightHalf && d.current > 0 ==> r == d.(current := d.current - 1)
    ensures !rightHalf && d.current <= 0 ==> r == d
  {
    if rightHalf then
      if d.current < count - 1 then d.(current := d.current + 1) else ExitStep(d)
    else if d.current > 0 then d.(current := d.current - 1)
    else d
  }

  /** `e.clientX > window.innerWidth / 2`. */
  predicate RightHalf(clientX: int, innerWidth: int) {
    2 * clientX > innerWidth
  }

  /**
   * A key on the presented slide: Escape ends the presentation; the right
   * arrow and space move to the next slide but never past the last one and
   * never end it; the left arrow moves to the previous slide, if any.
   */
  function KeyStep(d: Deck, count: nat, key: SlideKey): (r: Deck)
    ensures key == EscapeKey ==> r == ExitStep(d)
    ensures (key == ArrowRight || key == Space) ==> r.presenting == d.presenting
    ensures (key == ArrowRight || key == Space) && d.current < count - 1 ==> r.current == d.current + 1
    ensures (key == ArrowRight || key == Space) && d.current >= count - 1 ==> r == d
    ensures key == ArrowLeft ==> r.presenting == d.presenting
    ensures key == ArrowLeft && d.current > 0 ==> r.current == d.current - 1
    ensures key == ArrowLeft && d.current <= 0 ==> r == d
    ensures key == OtherKey ==> r == d
  {
    match key
    case EscapeKey => ExitStep(d)
    case ArrowRight => if d.current < count - 1 then d.(current := d.current + 1) else d
    case Space => if d.current < count - 1 then d.(current := d.current + 1) else d
    case ArrowLeft => if d.current > 0 then d.(current := d.current - 1) else d
    case OtherKey => d
  }

  /** The presentation window's state. */
  class ImpressWindow {
    const count: nat
    var currentSlide: int
    var isPresenting: bool

    function State(): Deck
      reads this
    {
      Deck(currentSlide, isPresenting)
    }

    constructor ()
      ensures count == ShippedCount && State() == InitialDeck
    {
      count := ShippedCount;
      currentSlide := 0;
      isPresenting := false;
    }

    method GoToSlide(index: int)
      modifies this
      ensures State() == GoToStep(old(State()), count, index)
    {
      if index >= 0 && index < count {
        currentSlide := index;
      }
    }

    method StartPresentation()
      modifies this
      ensures State() == StartStep(old(State()))
    {
      isPresenting := true;
    }

    method ExitPresentation()
      modifies this
      ensures State() == ExitStep(old(State()))
    {
      isPresenting := false;
    }

    method PresentationClick(clientX: int, innerWidth: int)
      modifies this
      ensures State() == ClickStep(old(State()), count, RightHalf(clientX, innerWidth))
    {
      if 2 * clientX > innerWidth {
        if currentSlide < count - 1 {
          currentSlide := currentSlide + 1;
        } else {
          ExitPresentation();
        }
      } else if currentSlide > 0 {
        currentSlide := currentSlide - 1;
      }
    }

    method PresentationKeyDown(key: SlideKey)
      modifies this
      ensures State() == KeyStep(old(State()), count, key)
    {
      if key == EscapeKey {
        ExitPresentation();
      }
      if key == ArrowRight || key == Space {
        if currentSlide < count - 1 {
          currentSlide := currentSlide + 1;
        }
      }
      if key == ArrowLeft {
        if currentSlide > 0 {
          currentSlide := currentSlide - 1;
        }
      }
    }
  }
}
