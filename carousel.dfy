/** The slide carousel: a current index over `count` slides, moved by the
    previous/next buttons and the dots (`scrollToIndex`, which clamps), and
    by the visitor's own scrolling (`handleScroll`, which reports only a
    change). Calls of the optional `onSlideChange` callback are recorded in
    `notified`, in order. The pixel arithmetic is left to the caller: a
    scroll target is computed from a given slide width, and the index a
    scroll position rounds to is an input. */
module Carousel {
  import opened Optional

  /** What a carousel is rendered with: the number of slides, whether its
      scroll container is attached, and whether a callback was given. */
  datatype Config = Config(count: nat, attached: bool, hasListener: bool)

  datatype CarouselState = CarouselState(currentIndex: int, notified: seq<int>)

  /** The first render. */
  function Initial(): CarouselState {
    CarouselState(0, [])
  }

  /** `Math.max(0, Math.min(index, count - 1))` */
  function Clamp(index: int, count: nat): (r: int)
    ensures r >= 0
    ensures count >= 1 ==> r <= count - 1
    ensures count >= 1 ==> (r == index <==> 0 <= index < count)
    ensures index < 0 ==> r == 0
    ensures count >= 1 && index >= count ==> r == count - 1
  {
    var upper := if index < count - 1 then index else count - 1;
    if upper > 0 then upper else 0
  }

  /** The callback, when there is one. */
  function Notify(log: seq<int>, hasListener: bool, index: int): (r: seq<int>)
    ensures hasListener ==> r == log + [index]
    ensures !hasListener ==> r == log
  {
    if hasListener then log + [index] else log
  }

  /** `scrollToIndex`: move to the clamped index and report it, whether or
      not it changed; nothing happens before the container is attached. */
  function ScrollTo(s: CarouselState, c: Config, index: int): CarouselState {
    if !c.attached then s
    else
      var newIndex := Clamp(index, c.count);
      CarouselState(newIndex, Notify(s.notified, c.hasListener, newIndex))
  }

  function Next(s: CarouselState, c: Config): CarouselState {
    ScrollTo(s, c, s.currentIndex + 1)
  }

  function Previous(s: CarouselState, c: Config): CarouselState {
    ScrollTo(s, c, s.currentIndex - 1)
  }

  /** `handleScroll`, given the index the scroll position rounds to: only
      a change is taken over and reported. */
  function Scrolled(s: CarouselState, c: Config, newIndex: int): CarouselState {
    if !c.attached || newIndex == s.currentIndex then s
    else CarouselState(newIndex, Notify(s.notified, c.hasListener, newIndex))
  }

  /** The end of a swipe, given its horizontal distance and the index the
      scroll position rounds to a moment later: a swipe longer than 50
      pixels is reported, and the current index does not change. */
  function SwipeEnded(s: CarouselState, c: Config, distance: int, newIndex: int): CarouselState {
    var length := if distance < 0 then -distance else distance;
    if c.attached && length > 50 && c.hasListener then s.(notified := s.notified + [newIndex]) else s
  }

  predicate PreviousDisabled(s: CarouselState) {
    s.currentIndex <= 0
  }

  predicate NextDisabled(s: CarouselState, c: Config) {
    s.currentIndex >= c.count - 1
  }

  /** The dot of slide `index` is the highlighted one. */
  predicate DotActive(s: CarouselState, index: int) {
    index == s.currentIndex
  }

  class Carousel {
    const count: nat
    const attached: bool
    const hasListener: bool
    var currentIndex: int
    var notified: seq<int>

    function Settings(): Config {
      Config(count, attached, hasListener)
    }

    function State(): CarouselState
      reads this
    {
      CarouselState(currentIndex, notified)
    }

    constructor(slides: nat, containerAttached: bool, callbackGiven: bool)
      ensures Settings() == Config(slides, containerAttached, callbackGiven)
      ensures State() == Initial()
    {
      count, attached, hasListener := slides, containerAttached, callbackGiven;
      currentIndex, notified := 0, [];
    }

    /** `scrollToIndex`; `target` is where the container is scrolled to,
        `slideWidth` times the new index, or None when it is not attached. */
    method ScrollToIndex(index: int, slideWidth: nat) returns (target: Option<int>)
      modifies this
      ensures State() == ScrollTo(old(State()), Settings(), index)
      ensures attached ==> target == Some(slideWidth * currentIndex)
      ensures !attached ==> target == None
    {
      if !attached {
        return None;
      }
      var newIndex := index;
      if count - 1 < newIndex {
        newIndex := count - 1;
      }
      if newIndex < 0 {
        newIndex := 0;
      }
      currentIndex := newIndex;
      target := Some(slideWidth * newIndex);
      if hasListener {
        notified := notified + [newIndex];
      }
    }

    method HandleNext(slideWidth: nat) returns (target: Option<int>)
      modifies this
      ensures State() == Next(old(State()), Settings())
    {
      target := ScrollToIndex(currentIndex + 1, slideWidth);
    }

    method HandlePrevious(slideWidth: nat) returns (target: Option<int>)
      modifies this
      ensures State() == Previous(old(State()), Settings())
    {
      target := ScrollToIndex(currentIndex - 1, slideWidth);
    }

    method HandleScroll(newIndex: int)
      modifies this
      ensures State() == Scrolled(old(State()), Settings(), newIndex)
    {
      if attached && newIndex != currentIndex {
        currentIndex := newIndex;
        if hasListener {
          notified := notified + [newIndex];
        }
      }
    }

    method HandleTouchEnd(distance: int, newIndex: int)
      modifies this
      ensures State() == SwipeEnded(old(State()), Settings(), distance, newIndex)
    {
      if attached && (distance > 50 || distance < -50) && hasListener {
        notified := notified + [newIndex];
      }
    }
  }

  // ---- properties ----

  /** The index is a slide's. */
  predicate InRange(s: CarouselState, c: Config) {
    0 <= s.currentIndex < c.count
  }

  /** Clamping an index twice is clamping it once. */
  lemma ClampIdempotent(index: int, count: nat)
    ensures Clamp(Clamp(index, count), count) == Clamp(index, count)
  {
  }

  /** With at least one slide, `scrollToIndex` lands on a slide, reports
      exactly where it landed, and lands on the index asked for whenever
      that is a slide's. */
  lemma ScrollToLandsOnSlide(s: CarouselState, c: Config, index: int)
    requires c.attached && c.count >= 1
    ensures InRange(ScrollTo(s, c, index), c)
    ensures c.hasListener ==> ScrollTo(s, c, index).notified == s.notified + [ScrollTo(s, c, index).currentIndex]
    ensures 0 <= index < c.count ==> ScrollTo(s, c, index).currentIndex == index
  {
  }

  /** A dot click moves to its slide. */
  lemma DotClick(s: CarouselState, c: Config, k: int)
    requires c.attached && 0 <= k < c.count
    ensures DotActive(ScrollTo(s, c, k), k)
  {
  }

  /** With no slides the index is 0, which is not a slide. */
  lemma NoSlides(s: CarouselState, c: Config, index: int)
    requires c.attached && c.count == 0
    ensures ScrollTo(s, c, index).currentIndex == 0
    ensures !InRange(ScrollTo(s, c, index), c)
  {
  }

  /** The previous button is disabled exactly where it would not move the
      index, and so is the next button: at the first and the last slide. */
  lemma {:induction false} ButtonsDisabledWhereStuck(s: CarouselState, c: Config)
    requires c.attached && InRange(s, c)
    ensures PreviousDisabled(s) <==> Previous(s, c).currentIndex == s.currentIndex
    ensures NextDisabled(s, c) <==> Next(s, c).currentIndex == s.currentIndex
    ensures !PreviousDisabled(s) ==> Previous(s, c).currentIndex == s.currentIndex - 1
    ensures !NextDisabled(s, c) ==> Next(s, c).currentIndex == s.currentIndex + 1
  {
    assert Previous(s, c).currentIndex == Clamp(s.currentIndex - 1, c.count);
    assert Next(s, c).currentIndex == Clamp(s.currentIndex + 1, c.count);
  }

  /** Next after previous, from any slide but the first, returns to it. */
  lemma NextUndoesPrevious(s: CarouselState, c: Config)
    requires c.attached && InRange(s, c) && !PreviousDisabled(s)
    ensures Next(Previous(s, c), c).currentIndex == s.currentIndex
  {
    ButtonsDisabledWhereStuck(s, c);
  }

  /** The buttons keep the index on a slide, from the first render on. */
  lemma {:induction false} ButtonsKeepInRange(s: CarouselState, c: Config)
    requires c.attached && c.count >= 1 && InRange(s, c)
    ensures InRange(Next(s, c), c) && InRange(Previous(s, c), c)
    ensures InRange(Initial(), c)
  {
    ScrollToLandsOnSlide(s, c, s.currentIndex + 1);
    ScrollToLandsOnSlide(s, c, s.currentIndex - 1);
  }

  /** A scroll reports exactly the changes: the callback is called, with
      the new index, if and only if the index changed. */
  lemma ScrollReportsChanges(s: CarouselState, c: Config, newIndex: int)
    requires c.attached && c.hasListener
    ensures Scrolled(s, c, newIndex).notified != s.notified <==> newIndex != s.currentIndex
    ensures newIndex != s.currentIndex ==>
              Scrolled(s, c, newIndex) == CarouselState(newIndex, s.notified + [newIndex])
    ensures Scrolled(Scrolled(s, c, newIndex), c, newIndex) == Scrolled(s, c, newIndex)
  {
  }

  /** A swipe never moves the index itself, and a short one reports
      nothing. */
  lemma SwipeKeepsIndex(s: CarouselState, c: Config, distance: int, newIndex: int)
    ensures SwipeEnded(s, c, distance, newIndex).currentIndex == s.currentIndex
    ensures -50 <= distance <= 50 ==> SwipeEnded(s, c, distance, newIndex) == s
  {
  }
}
