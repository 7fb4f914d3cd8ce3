/**
 * The volunteer-work card: a carousel whose index is normalised by
 * `safeIndex`, moved by buttons, by the arrow keys and by the role chips,
 * and the content of the shown work (documents link, bullet points).
 */
module VolunteerCard {
  import opened Wrappers
  import Carousel

  datatype VolunteerWork = VolunteerWork(
    title: string,
    organization: string,
    period: string,
    points: seq<string>,
    documentUrl: string,
    certificateUrl: string)

  /** JavaScript's `a % n`: truncated division, so the remainder has the sign of `a`. */
  function JsRem(a: int, n: int): (r: int)
    requires n > 0
    ensures a >= 0 ==> r == a % n
    ensures a < 0 ==> -n < r <= 0
    ensures (a - r) % n == 0
  {
    if a >= 0 then
      var r := a % n;
      LessRemainder(a, n, r);
      r
    else
      var m := -a;
      var r := m % n;
      NegatedRemainder(m, n, r);
      -r
  }

  /** A dividend less its remainder is a multiple of `n`. */
  lemma LessRemainder(a: int, n: int, r: int)
    requires n > 0 && r == a % n
    ensures (a - r) % n == 0
  {
    var q := a / n;
    assert a == n * q + r;
    assert a - r == n * q;
    Carousel.ModUnique(a - r, n, q, 0);
  }

  /** Negating a dividend and its remainder leaves a multiple of `n`. */
  lemma NegatedRemainder(m: int, n: int, r: int)
    requires n > 0 && r == m % n
    ensures 0 <= r < n
    ensures (-m + r) % n == 0
  {
    var q := m / n;
    assert m == n * q + r;
    assert -m + r == n * (-q);
    Carousel.ModUnique(-m + r, n, -q, 0);
  }

  /** `safeIndex(i)`: 0 for an empty list, otherwise `(i + count) % count`. */
  function SafeIndex(i: int, count: int): (r: int)
    requires count >= 0
    ensures count == 0 ==> r == 0
    ensures count > 0 && i >= -count ==> 0 <= r < count && r == i % count
    ensures 0 <= i < count ==> r == i
  {
    if count == 0 then 0
    else
      ModShift(i, count);
      JsRem(i + count, count)
  }

  lemma ModShift(i: int, n: int)
    requires n > 0
    ensures (i + n) % n == i % n
  {
    Carousel.ModUnique(i + n, n, i / n + 1, i % n);
  }

  /** Below `-count` the index leaves the range, so the card would show its empty message. */
  lemma SafeIndexBelowRange()
    ensures SafeIndex(-4, 3) == -1
  {
  }

  /** From a valid index, next and previous stay in range and undo each other. */
  lemma NextPrevInverse(i: int, count: int)
    requires 0 <= i < count
    ensures 0 <= SafeIndex(i + 1, count) < count && 0 <= SafeIndex(i - 1, count) < count
    ensures SafeIndex(SafeIndex(i + 1, count) - 1, count) == i
    ensures SafeIndex(SafeIndex(i - 1, count) + 1, count) == i
  {
    if i + 1 < count {
      assert SafeIndex(i + 1, count) == i + 1;
    } else {
      Carousel.ModUnique(i + 1, count, 1, 0);
      assert SafeIndex(i + 1, count) == 0;
      Carousel.ModUnique(-1, count, -1, count - 1);
      assert SafeIndex(-1, count) == i;
    }
    if i > 0 {
      assert SafeIndex(i - 1, count) == i - 1;
    } else {
      Carousel.ModUnique(-1, count, -1, count - 1);
      assert SafeIndex(i - 1, count) == count - 1;
      Carousel.ModUnique(count, count, 1, 0);
      assert SafeIndex(count, count) == 0;
    }
  }

  /** The index after a key press: ArrowRight is next, ArrowLeft is previous, any other key changes nothing. */
  function KeyStep(i: int, count: int, key: string): (r: int)
    requires count >= 0
    ensures key == "ArrowRight" ==> r == SafeIndex(i + 1, count)
    ensures key == "ArrowLeft" ==> r == SafeIndex(i - 1, count)
    ensures key != "ArrowRight" && key != "ArrowLeft" ==> r == i
  {
    if key == "ArrowRight" then SafeIndex(i + 1, count)
    else if key == "ArrowLeft" then SafeIndex(i - 1, count)
    else i
  }

  /** `volunteerWorks?.[safeIndex(activeIndex)]`. */
  function Work(works: seq<VolunteerWork>, activeIndex: int): (r: Option<VolunteerWork>)
    ensures works == [] ==> r == None
    ensures 0 <= activeIndex < |works| ==> r == Some(works[activeIndex])
    ensures r.Some? ==> r.value in works
  {
    var k := SafeIndex(activeIndex, |works|);
    if 0 <= k < |works| then Some(works[k]) else None
  }

  /** `work?.documentUrl || work?.certificateUrl || undefined`. */
  function ViewDocsHref(work: Option<VolunteerWork>): (r: Option<string>)
    ensures r.Some? ==> r.value != ""
    ensures work.Some? && work.value.documentUrl != "" ==> r == Some(work.value.documentUrl)
    ensures work.Some? && work.value.documentUrl == "" && work.value.certificateUrl != "" ==> r == Some(work.value.certificateUrl)
    ensures r.None? <==> work.None? || (work.value.documentUrl == "" && work.value.certificateUrl == "")
  {
    if work.None? then None
    else if work.value.documentUrl != "" then Some(work.value.documentUrl)
    else if work.value.certificateUrl != "" then Some(work.value.certificateUrl)
    else None
  }

  const Placeholder := "Details coming soon."

  /** The bullet list: the points, or the placeholder alone when there are none. */
  function PointLines(work: VolunteerWork): (r: seq<string>)
    ensures r != []
    ensures work.points != [] ==> r == work.points
    ensures work.points == [] ==> r == [Placeholder]
  {
    work.points + (if |work.points| == 0 then [Placeholder] else [])
  }

  datatype Body = Skeleton | NoVolunteerWork | Showing(work: VolunteerWork, controls: bool)

  function CardBody(works: seq<VolunteerWork>, activeIndex: int, loading: bool): (b: Body)
    ensures b.Skeleton? <==> loading
    ensures !loading && works == [] ==> b == NoVolunteerWork
    ensures !loading && 0 <= activeIndex < |works| ==> b == Showing(works[activeIndex], |works| > 1)
  {
    if loading then Skeleton
    else
      match Work(works, activeIndex)
      case None => NoVolunteerWork
      case Some(w) => Showing(w, |works| > 1)
  }

  /** The card's `activeIndex` state over its volunteer works. */
  class VolunteerCarousel {
    const volunteerWorks: seq<VolunteerWork>
    var activeIndex: int

    ghost predicate Valid()
      reads this
    {
      0 <= activeIndex < |volunteerWorks| || (volunteerWorks == [] && activeIndex == 0)
    }

    constructor (volunteerWorks: seq<VolunteerWork>)
      ensures this.volunteerWorks == volunteerWorks && activeIndex == 0 && Valid()
    {
      this.volunteerWorks := volunteerWorks;
      activeIndex := 0;
    }

    function Shown(loading: bool): Body
      reads this
    {
      CardBody(volunteerWorks, activeIndex, loading)
    }

    /** The next button and each autoplay tick. */
    method Next()
      requires Valid()
      modifies this
      ensures Valid()
      ensures activeIndex == SafeIndex(old(activeIndex) + 1, |volunteerWorks|)
    {
      activeIndex := SafeIndex(activeIndex + 1, |volunteerWorks|);
    }

    method Prev()
      requires Valid()
      modifies this
      ensures Valid()
      ensures activeIndex == SafeIndex(old(activeIndex) - 1, |volunteerWorks|)
    {
      activeIndex := SafeIndex(activeIndex - 1, |volunteerWorks|);
    }

    /** `onKey`. */
    method OnKey(key: string)
      requires Valid()
      modifies this
      ensures Valid()
      ensures activeIndex == KeyStep(old(activeIndex), |volunteerWorks|, key)
    {
      if key == "ArrowRight" {
        Next();
      }
      if key == "ArrowLeft" {
        Prev();
      }
    }

    /** A click on the role chip of `index`. */
    method Select(index: int)
      requires 0 <= index < |volunteerWorks|
      modifies this
      ensures Valid() && activeIndex == index
    {
      activeIndex := index;
    }
  }
}
