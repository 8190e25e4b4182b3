/** The compact projects section: one strict threshold test, re-evaluated on
    every scroll and resize, that decides whether the section's content is
    faded in. Offsets and heights are exact reals. */
module Compact {
  import opened Common

  /** How far past the section's top the viewport's bottom edge must be. */
  const LeadInPx: real := 200.0

  /** `isInView`; the section's height is read by `updateVisibility` but plays no
      part in the decision. */
  predicate InView(scrollY: real, viewportHeight: real, section: Box)
  {
    scrollY + viewportHeight > section.offsetTop + LeadInPx
  }

  /** The comparison is strict: a viewport whose bottom edge is exactly 200
      pixels past the section's top is not in view, one pixel further is. */
  lemma InViewIsStrict(viewportHeight: real, section: Box)
    ensures !InView(section.offsetTop + LeadInPx - viewportHeight, viewportHeight, section)
    ensures InView(section.offsetTop + LeadInPx - viewportHeight + 1.0, viewportHeight, section)
  {
  }

  /** Scrolling further down keeps the section in view. */
  lemma InViewMonotone(y1: real, y2: real, viewportHeight: real, section: Box)
    requires y1 <= y2
    ensures InView(y1, viewportHeight, section) ==> InView(y2, viewportHeight, section)
  {
  }

  /** The decision ignores the section's height. */
  lemma InViewIgnoresHeight(scrollY: real, viewportHeight: real, top: real, h1: real, h2: real)
    ensures InView(scrollY, viewportHeight, Box(top, h1)) == InView(scrollY, viewportHeight, Box(top, h2))
  {
  }

  /** `updateVisibility`: unchanged while the section is unmeasured,
      otherwise the in-view test alone decides. */
  function UpdatedVisibility(previous: bool, section: Option<Box>, scrollY: real, viewportHeight: real): (r: bool)
    ensures section.None? ==> r == previous
    ensures section.Some? ==> (r <==> InView(scrollY, viewportHeight, section.value))
  {
    if section.None? then previous else InView(scrollY, viewportHeight, section.value)
  }

  /** `isVisible` is not a latch: scrolling back up hides the section again. */
  lemma VisibilityIsNotLatched()
    ensures var section := Some(Box(1000.0, 600.0));
      var shown := UpdatedVisibility(false, section, 500.0, 800.0);
      shown && !UpdatedVisibility(shown, section, 100.0, 800.0)
  {
  }

  /** The component's state and its handlers. */
  class CompactProjectsSection {
    var scrollY: real
    var isVisible: bool

    constructor ()
      ensures scrollY == 0.0 && !isVisible
    {
      scrollY, isVisible := 0.0, false;
    }

    /** The scroll listener that records `window.scrollY`. */
    method HandleScroll(windowScrollY: real)
      modifies this
      ensures scrollY == windowScrollY && isVisible == old(isVisible)
    {
      scrollY := windowScrollY;
    }

    /** `updateVisibility`: unchanged while the section is unmeasured,
        otherwise overwritten by the test on the `scrollY` state. */
    method UpdateVisibility(section: Option<Box>, viewportHeight: real)
      modifies this
      ensures scrollY == old(scrollY)
      ensures isVisible == UpdatedVisibility(old(isVisible), section, scrollY, viewportHeight)
    {
      if section.None? {
        return;
      }
      var sectionTop := section.value.offsetTop;
      isVisible := scrollY + viewportHeight > sectionTop + LeadInPx;
    }
  }
}
