/**
 * The testimonial carousel: one testimonial at a time, previous/next buttons
 * that wrap around, and a dot per testimonial that selects it directly.
 */
module TestimonialCard {
  import opened Carousel

  datatype Testimonial = Testimonial(name: string, testimonial: string)

  /** What the card body shows. */
  datatype Body<T> = Skeleton | NoTestimonials | Showing(item: T, controls: bool)

  /**
   * The body for a list and an active index: the skeleton while loading, the
   * message for an empty list (without indexing it), otherwise the active
   * testimonial with controls and dots when there is more than one.
   */
  function CardBody(testimonials: seq<Testimonial>, activeIndex: int, loading: bool): (b: Body<Testimonial>)
    requires |testimonials| > 0 ==> 0 <= activeIndex < |testimonials|
    ensures b.Skeleton? <==> loading
    ensures b.NoTestimonials? <==> !loading && testimonials == []
    ensures b.Showing? ==> b.item == testimonials[activeIndex] && (b.controls <==> |testimonials| > 1)
  {
    if loading then Skeleton
    else if |testimonials| == 0 then NoTestimonials
    else Showing(testimonials[activeIndex], |testimonials| > 1)
  }

  /** The dot of `index` is highlighted when it is the active one. */
  predicate DotActive(index: int, activeIndex: int) {
    index == activeIndex
  }

  /** The card's `activeIndex` state over its list of testimonials. */
  class TestimonialCarousel {
    const testimonials: seq<Testimonial>
    var activeIndex: int

    ghost predicate Valid()
      reads this
    {
      |testimonials| > 0 ==> 0 <= activeIndex < |testimonials|
    }

    constructor (testimonials: seq<Testimonial>)
      ensures this.testimonials == testimonials && activeIndex == 0 && Valid()
    {
      this.testimonials := testimonials;
      activeIndex := 0;
    }

    function Shown(loading: bool): Body<Testimonial>
      requires Valid()
      reads this
    {
      CardBody(testimonials, activeIndex, loading)
    }

    /** `nextTestimonial`. */
    method Next()
      requires Valid()
      modifies this
      ensures Valid()
      ensures activeIndex == NextWrap(old(activeIndex), |testimonials|)
    {
      if activeIndex == |testimonials| - 1 {
        activeIndex := 0;
      } else {
        activeIndex := activeIndex + 1;
      }
    }

    /** `prevTestimonial`. */
    method Prev()
      requires Valid()
      modifies this
      ensures Valid()
      ensures activeIndex == PrevWrap(old(activeIndex), |testimonials|)
    {
      if activeIndex == 0 {
        activeIndex := |testimonials| - 1;
      } else {
        activeIndex := activeIndex - 1;
      }
    }

    /** A click on the dot of `index`. */
    method Select(index: int)
      requires 0 <= index < |testimonials|
      modifies this
      ensures Valid() && activeIndex == index
    {
      activeIndex := index;
    }
  }
}
