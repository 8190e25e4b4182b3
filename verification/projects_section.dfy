/** The projects section: a carousel index that cycles through the four
    projects, and a per-card visibility list recomputed from a clamped scroll
    progress on every scroll and resize. Offsets and heights are exact reals. */
module Projects {
  import opened Common

  /** `projects.length`: four project cards. */
  const ProjectCount: nat := 4

  /** `nextProject`. */
  function NextProject(p: nat): (r: nat)
    requires p < ProjectCount
    ensures r < ProjectCount
    ensures r == if p == ProjectCount - 1 then 0 else p + 1
  {
    (p + 1) % ProjectCount
  }

  /** `prevProject`; the operand of `%` is never negative, so JavaScript's
      truncating remainder and Dafny's agree. */
  function PrevProject(p: nat): (r: nat)
    requires p < ProjectCount
    ensures r < ProjectCount
    ensures r == if p == 0 then ProjectCount - 1 else p - 1
  {
    (p - 1 + ProjectCount) % ProjectCount
  }

  /** Previous undoes next and next undoes previous. */
  lemma PrevNextInverse(p: nat)
    requires p < ProjectCount
    ensures PrevProject(NextProject(p)) == p
    ensures NextProject(PrevProject(p)) == p
  {
  }

  /** The index after `k` presses of the next button. */
  function NextTimes(p: nat, k: nat): (r: nat)
    requires p < ProjectCount
    ensures r < ProjectCount
  {
    if k == 0 then p else NextProject(NextTimes(p, k - 1))
  }

  /** `k` presses of next advance the index by `k` modulo four; in particular
      four presses return to the starting project. */
  lemma {:induction false} NextTimesCycles(p: nat, k: nat)
    requires p < ProjectCount
    ensures NextTimes(p, k) == (p + k) % ProjectCount
  {
    if k > 0 {
      NextTimesCycles(p, k - 1);
      ModSucc(p + k - 1, ProjectCount);
    }
  }

  /** `scrollProgress`: how far the middle of the viewport has travelled
      through the section, clamped to [0, 1]. */
  function ScrollProgress(scrollY: real, section: Box, viewportHeight: real): (p: real)
    requires section.offsetHeight > 0.0
    ensures 0.0 <= p <= 1.0
    ensures scrollY + viewportHeight * 0.5 <= section.offsetTop ==> p == 0.0
    ensures scrollY + viewportHeight * 0.5 >= section.offsetTop + section.offsetHeight ==> p == 1.0
  {
    RatioBounds(scrollY - section.offsetTop + viewportHeight * 0.5, section.offsetHeight);
    Clamp((scrollY - section.offsetTop + viewportHeight * 0.5) / section.offsetHeight, 0.0, 1.0)
  }

  /** Where the middle of a card lies within the section, as a fraction of the
      section's height. */
  function CenterRatio(card: Box, section: Box): real
    requires section.offsetHeight > 0.0
  {
    ((card.offsetTop - section.offsetTop) + card.offsetHeight / 2.0) / section.offsetHeight
  }

  /** Whether one card slot is visible at the given progress; an unmeasured
      (null) slot is not. */
  predicate CardVisible(progress: real, section: Box, slot: Option<Box>)
    requires section.offsetHeight > 0.0
  {
    slot.Some? && progress >= CenterRatio(slot.value, section)
  }

  /** The `projectRefs.current.map(...)` of `updateProjectVisibility`. */
  function ProjectVisibility(refs: seq<Option<Box>>, section: Box, scrollY: real, viewportHeight: real): (r: seq<bool>)
    requires section.offsetHeight > 0.0
    ensures |r| == |refs|
    ensures forall k :: 0 <= k < |refs| ==>
      (r[k] <==> refs[k].Some? && ScrollProgress(scrollY, section, viewportHeight) >= CenterRatio(refs[k].value, section))
  {
    var progress := ScrollProgress(scrollY, section, viewportHeight);
    seq(|refs|, k requires 0 <= k < |refs| => CardVisible(progress, section, refs[k]))
  }

  /** `updateProjectVisibility`: no change while the section is unmeasured,
      otherwise the whole list is replaced. */
  function UpdatedVisibility(previous: seq<bool>, section: Option<Box>, refs: seq<Option<Box>>, scrollY: real, viewportHeight: real): (r: seq<bool>)
    requires section.Some? ==> section.value.offsetHeight > 0.0
    ensures section.None? ==> r == previous
    ensures section.Some? ==> r == ProjectVisibility(refs, section.value, scrollY, viewportHeight)
  {
    if section.None? then previous else ProjectVisibility(refs, section.value, scrollY, viewportHeight)
  }

  /** Once the section is measured the previous list plays no part: the list
      is overwritten, not merged. */
  lemma UpdateIgnoresPrevious(p1: seq<bool>, p2: seq<bool>, section: Box, refs: seq<Option<Box>>, scrollY: real, viewportHeight: real)
    requires section.offsetHeight > 0.0
    ensures UpdatedVisibility(p1, Some(section), refs, scrollY, viewportHeight)
         == UpdatedVisibility(p2, Some(section), refs, scrollY, viewportHeight)
  {
  }

  /** Scrolling further down never hides a card that was visible. */
  lemma VisibilityMonotoneInScroll(refs: seq<Option<Box>>, section: Box, y1: real, y2: real, viewportHeight: real, k: nat)
    requires section.offsetHeight > 0.0 && y1 <= y2 && k < |refs|
    ensures ProjectVisibility(refs, section, y1, viewportHeight)[k] ==> ProjectVisibility(refs, section, y2, viewportHeight)[k]
  {
    var h := section.offsetHeight;
    var a := y1 - section.offsetTop + viewportHeight * 0.5;
    var b := y2 - section.offsetTop + viewportHeight * 0.5;
    assert b / h - a / h == (b - a) / h;
    assert ScrollProgress(y1, section, viewportHeight) <= ScrollProgress(y2, section, viewportHeight);
  }

  /** The list is not a latch: a card that is visible at one offset is hidden
      again at a smaller one, whatever was shown before. */
  lemma VisibilityIsNotLatched()
    ensures var section := Box(1000.0, 2000.0);
      var refs := [Some(Box(1400.0, 400.0))];
      var previous := [true];
      UpdatedVisibility(previous, Some(section), refs, 1500.0, 800.0)[0] &&
      !UpdatedVisibility(previous, Some(section), refs, 0.0, 800.0)[0]
  {
    var section := Box(1000.0, 2000.0);
    assert ScrollProgress(1500.0, section, 800.0) == 0.45;
    assert ScrollProgress(0.0, section, 800.0) == 0.0;
    assert CenterRatio(Box(1400.0, 400.0), section) == 0.3;
  }

  /** Recomputing with an unchanged snapshot gives the same list. */
  lemma UpdateIdempotent(previous: seq<bool>, section: Option<Box>, refs: seq<Option<Box>>, scrollY: real, viewportHeight: real)
    requires section.Some? ==> section.value.offsetHeight > 0.0
    ensures var once := UpdatedVisibility(previous, section, refs, scrollY, viewportHeight);
      UpdatedVisibility(once, section, refs, scrollY, viewportHeight) == once
  {
  }

  /** The component's state and its handlers. */
  class ProjectsSection {
    var scrollY: real
    var visibleProjects: seq<bool>
    var currentProject: nat

    predicate Valid()
      reads this
    {
      currentProject < ProjectCount
    }

    constructor ()
      ensures Valid()
      ensures scrollY == 0.0 && visibleProjects == [] && currentProject == 0
    {
      scrollY, visibleProjects, currentProject := 0.0, [], 0;
    }

    /** The mount effects, in declaration order: the visibility update runs
        first, then `new Array(projects.length).fill(false)` overwrites it. */
    method Mount(section: Option<Box>, refs: seq<Option<Box>>, viewportHeight: real)
      requires section.Some? ==> section.value.offsetHeight > 0.0
      modifies this
      ensures visibleProjects == Repeat(false, ProjectCount)
      ensures scrollY == old(scrollY) && currentProject == old(currentProject)
    {
      UpdateProjectVisibility(section, refs, viewportHeight);
      visibleProjects := Repeat(false, ProjectCount);
    }

    /** The scroll listener that records `window.scrollY`. */
    method HandleScroll(windowScrollY: real)
      modifies this
      ensures scrollY == windowScrollY
      ensures visibleProjects == old(visibleProjects) && currentProject == old(currentProject)
    {
      scrollY := windowScrollY;
    }

    /** `updateProjectVisibility`, which reads the `scrollY` state rather than
        the window. */
    method UpdateProjectVisibility(section: Option<Box>, refs: seq<Option<Box>>, viewportHeight: real)
      requires section.Some? ==> section.value.offsetHeight > 0.0
      modifies this
      ensures visibleProjects == UpdatedVisibility(old(visibleProjects), section, refs, scrollY, viewportHeight)
      ensures scrollY == old(scrollY) && currentProject == old(currentProject)
    {
      if section.None? {
        return;
      }
      var s := section.value;
      var raw := (scrollY - s.offsetTop + viewportHeight * 0.5) / s.offsetHeight;
      var capped := if raw > 1.0 then 1.0 else raw;
      var progress := if capped < 0.0 then 0.0 else capped;
      assert progress == ScrollProgress(scrollY, s, viewportHeight);
      visibleProjects := seq(|refs|, k requires 0 <= k < |refs| => CardVisible(progress, s, refs[k]));
    }

    method Next()
      requires Valid()
      modifies this
      ensures Valid() && currentProject == NextProject(old(currentProject))
      ensures scrollY == old(scrollY) && visibleProjects == old(visibleProjects)
    {
      currentProject := (currentProject + 1) % ProjectCount;
    }

    method Prev()
      requires Valid()
      modifies this
      ensures Valid() && currentProject == PrevProject(old(currentProject))
      ensures scrollY == old(scrollY) && visibleProjects == old(visibleProjects)
    {
      currentProject := (currentProject - 1 + ProjectCount) % ProjectCount;
    }
  }
}
