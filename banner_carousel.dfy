/** The home page's rotating banner (BannerCarousel): an index into the
    slide list, advanced with wrap-around or set directly from a dot, and a
    slide title shown as a first word and the remaining words. */
module BannerCarousel {
  import opened Types
  import Text

  /** `goToNext`: the last slide goes back to the first, any other index moves up by one. */
  function Next(current: int, count: int): int
  {
    if current == count - 1 then 0 else current + 1
  }

  /** Inside the list, `goToNext` is a step modulo the number of slides. */
  lemma NextIsModular(current: int, count: int)
    requires 0 <= current < count
    ensures Next(current, count) == (current + 1) % count
    ensures 0 <= Next(current, count) < count
  {
  }

  /** An index left past the end by a shrunken list keeps counting up. */
  lemma NextPastEndDoesNotWrap(current: int, count: int)
    requires current >= count
    ensures Next(current, count) == current + 1
  {
  }

  /** The index after `steps` calls of `goToNext`. */
  function Advance(current: int, count: int, steps: nat): int
    decreases steps
  {
    if steps == 0 then current else Advance(Next(current, count), count, steps - 1)
  }

  /** Advancing `a` steps and then `b` steps is advancing `a + b` steps. */
  lemma {:induction false} AdvanceCompose(current: int, count: int, a: nat, b: nat)
    ensures Advance(Advance(current, count, a), count, b) == Advance(current, count, a + b)
    decreases a
  {
    if a > 0 {
      AdvanceCompose(Next(current, count), count, a - 1, b);
    }
  }

  /** Before the last slide is reached, each step moves the index up by one. */
  lemma {:induction false} AdvanceBeforeLast(current: int, count: int, steps: nat)
    requires 0 <= current && current + steps < count
    ensures Advance(current, count, steps) == current + steps
    decreases steps
  {
    if steps > 0 {
      AdvanceBeforeLast(current + 1, count, steps - 1);
    }
  }

  /** As many `goToNext` calls as there are slides return to the starting slide. */
  lemma FullCycleReturns(current: int, count: int)
    requires 0 <= current < count
    ensures Advance(current, count, count) == current
  {
    var toLast := count - 1 - current;
    AdvanceBeforeLast(current, count, toLast);
    AdvanceCompose(current, count, toLast, 1);
    assert Advance(current, count, toLast + 1) == 0;
    AdvanceBeforeLast(0, count, current);
    AdvanceCompose(current, count, toLast + 1, current);
  }

  /** What changes the index: the timer or arrow (`goToNext`) and the dots (`goToSlide`). */
  datatype Event = GoToNext | GoToSlide(slideIndex: int)

  function Run(current: int, count: int, events: seq<Event>): int
    decreases |events|
  {
    if events == [] then current
    else
      var next := match events[0]
        case GoToNext => Next(current, count)
        case GoToSlide(k) => k;
      Run(next, count, events[1..])
  }

  predicate JumpsInRange(events: seq<Event>, count: int)
  {
    forall k :: 0 <= k < |events| && events[k].GoToSlide? ==> 0 <= events[k].slideIndex < count
  }

  /** With a fixed slide list, an index that starts inside it stays inside it
      under any mix of `goToNext` and dot clicks on existing slides. */
  lemma {:induction false} RunStaysInRange(current: int, count: int, events: seq<Event>)
    requires 0 <= current < count
    requires JumpsInRange(events, count)
    ensures 0 <= Run(current, count, events) < count
    decreases |events|
  {
    if events != [] {
      if events[0].GoToNext? {
        NextIsModular(current, count);
      } else {
        assert 0 <= events[0].slideIndex < count;
      }
      assert JumpsInRange(events[1..], count) by {
        forall k | 0 <= k < |events[1..]| && events[1..][k].GoToSlide?
          ensures 0 <= events[1..][k].slideIndex < count
        {
          assert events[1..][k] == events[k + 1];
        }
      }
      var next := match events[0]
        case GoToNext => Next(current, count)
        case GoToSlide(k) => k;
      RunStaysInRange(next, count, events[1..]);
    }
  }

  /** The heading: the title up to its first space. */
  function Heading(title: string): string
  {
    Text.Split(title, ' ')[0]
  }

  /** The subheading: the words after the first, joined again by single spaces. */
  function Subheading(title: string): string
  {
    Text.Join(Text.Split(title, ' ')[1..], ' ')
  }

  /** The heading holds no space; with a space in the title, heading, one
      space and subheading spell the title; without one, the heading is the
      whole title and the subheading is empty. */
  lemma TitleSplit(title: string)
    ensures ' ' !in Heading(title)
    ensures ' ' in title ==> Heading(title) + " " + Subheading(title) == title
    ensures ' ' !in title ==> Heading(title) == title && Subheading(title) == ""
  {
    var parts := Text.Split(title, ' ');
    Text.JoinSplit(title, ' ');
    if ' ' in title {
      assert Text.Join(parts, ' ') == parts[0] + [' '] + Text.Join(parts[1..], ' ');
    }
  }

  /** What the carousel renders: nothing for an empty list, the current slide
      with its split title, or a fault where the page reads a slide that is
      not there (an index left behind by a shrunken list). */
  datatype View =
    | Hidden
    | Showing(slide: BannerSlide, heading: string, subheading: string, activeDot: nat)
    | Fault

  function ViewOf(slides: seq<BannerSlide>, currentIndex: int): (v: View)
    ensures v.Hidden? <==> |slides| == 0
    ensures v.Showing? <==> 0 <= currentIndex < |slides|
    ensures v.Showing? ==>
      && v.slide == slides[currentIndex] && v.activeDot == currentIndex
      && v.heading == Heading(v.slide.title) && v.subheading == Subheading(v.slide.title)
  {
    if |slides| == 0 then Hidden
    else if 0 <= currentIndex < |slides| then
      var s := slides[currentIndex];
      Showing(s, Heading(s.title), Subheading(s.title), currentIndex)
    else Fault
  }

  class Carousel {
    var slides: seq<BannerSlide>
    var currentIndex: int

    constructor (slides: seq<BannerSlide>)
      ensures this.slides == slides && currentIndex == 0
    {
      this.slides := slides;
      currentIndex := 0;
    }

    /** New slides from the parent; the index is not reset. */
    method SetSlides(newSlides: seq<BannerSlide>)
      modifies this
      ensures slides == newSlides && currentIndex == old(currentIndex)
    {
      slides := newSlides;
    }

    method GoToNext()
      modifies this
      ensures slides == old(slides)
      ensures currentIndex == Next(old(currentIndex), |slides|)
      ensures 0 <= old(currentIndex) < |slides| ==> currentIndex == (old(currentIndex) + 1) % |slides|
    {
      if 0 <= currentIndex < |slides| {
        NextIsModular(currentIndex, |slides|);
      }
      currentIndex := if currentIndex == |slides| - 1 then 0 else currentIndex + 1;
    }

    method GoToSlide(slideIndex: int)
      modifies this
      ensures slides == old(slides) && currentIndex == slideIndex
    {
      currentIndex := slideIndex;
    }

    method Render() returns (v: View)
      ensures v == ViewOf(slides, currentIndex)
      ensures v.Hidden? <==> |slides| == 0
      ensures v.Showing? <==> 0 <= currentIndex < |slides|
    {
      v := ViewOf(slides, currentIndex);
    }
  }
}
