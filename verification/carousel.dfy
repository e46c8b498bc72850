/** The home-page banner carousel (frontend/src/components/BannerCarousel.jsx):
    one index into a fixed list of four banners. */
module Carousel {
  /** The number of banners. */
  const BannerCount: int := 4

  predicate InRange(i: int) {
    0 <= i < BannerCount
  }

  /** The `nextSlide` update: the last banner wraps round to the first. */
  function Next(i: int): (j: int)
    ensures InRange(i) ==> InRange(j)
    ensures i == BannerCount - 1 ==> j == 0
    ensures i != BannerCount - 1 ==> j == i + 1
  {
    if i == BannerCount - 1 then 0 else i + 1
  }

  /** The `prevSlide` update: the first banner wraps round to the last. */
  function Prev(i: int): (j: int)
    ensures InRange(i) ==> InRange(j)
    ensures i == 0 ==> j == BannerCount - 1
    ensures i != 0 ==> j == i - 1
  {
    if i == 0 then BannerCount - 1 else i - 1
  }

  /** On the four banners, next and previous undo each other. */
  lemma {:induction false} NextPrevInverse(i: int)
    requires InRange(i)
    ensures Next(Prev(i)) == i
    ensures Prev(Next(i)) == i
  {
  }

  /** Four steps in either direction come back to the same banner. */
  lemma {:induction false} FullCycle(i: int)
    requires InRange(i)
    ensures Next(Next(Next(Next(i)))) == i
    ensures Prev(Prev(Prev(Prev(i)))) == i
  {
  }

  class BannerCarousel {
    var currentIndex: int

    constructor()
      ensures currentIndex == 0
    {
      currentIndex := 0;
    }

    method NextSlide()
      modifies this
      ensures currentIndex == Next(old(currentIndex))
      ensures InRange(old(currentIndex)) ==> InRange(currentIndex)
    {
      currentIndex := Next(currentIndex);
    }

    method PrevSlide()
      modifies this
      ensures currentIndex == Prev(old(currentIndex))
      ensures InRange(old(currentIndex)) ==> InRange(currentIndex)
    {
      currentIndex := Prev(currentIndex);
    }

    /** The five-second timer applies the same update as the next button. */
    method Tick()
      modifies this
      ensures currentIndex == Next(old(currentIndex))
    {
      currentIndex := if currentIndex == BannerCount - 1 then 0 else currentIndex + 1;
    }

    /** A dot sets the index with no bounds check. */
    method GoToSlide(index: int)
      modifies this
      ensures currentIndex == index
    {
      currentIndex := index;
    }
  }

  /** Any sequence of button presses, timer ticks and dot clicks (each dot
      passing its own position) keeps the index on a banner. */
  datatype Event = NextPressed | PrevPressed | Ticked | DotClicked(index: int)

  function Step(i: int, e: Event): int {
    match e
    case NextPressed => Next(i)
    case PrevPressed => Prev(i)
    case Ticked => Next(i)
    case DotClicked(index) => index
  }

  predicate FromDots(events: seq<Event>) {
    forall k :: 0 <= k < |events| && events[k].DotClicked? ==> InRange(events[k].index)
  }

  function Run(i: int, events: seq<Event>): int
    decreases |events|
  {
    if events == [] then i else Run(Step(i, events[0]), events[1..])
  }

  lemma {:induction false} IndexStaysOnBanner(events: seq<Event>)
    requires FromDots(events)
    ensures InRange(Run(0, events))
  {
    RunInRange(0, events);
  }

  lemma {:induction false} RunInRange(i: int, events: seq<Event>)
    requires InRange(i) && FromDots(events)
    ensures InRange(Run(i, events))
    decreases |events|
  {
    if events != [] {
      assert events[0].DotClicked? ==> InRange(events[0].index);
      assert FromDots(events[1..]) by {
        forall k | 0 <= k < |events[1..]| && events[1..][k].DotClicked?
          ensures InRange(events[1..][k].index)
        {
          assert events[1..][k] == events[k + 1];
        }
      }
      RunInRange(Step(i, events[0]), events[1..]);
    }
  }
}
