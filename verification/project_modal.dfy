/** The full-page project modal: a render guard, three image galleries cut
    from the project's image list, the carousel handles registered by those
    galleries, a user-interaction flag, and the auto-advance tick that, while
    auto-advance is active, moves each carousel with more than one slide on
    by one slide per slot that holds it. The timers
    (4000 ms interval, 5000 ms reset) are modelled as discrete events. */
module Modal {
  import opened Common

  datatype Project = Project(
    title: string,
    description: string,
    images: seq<string>,
    technologies: seq<string>,
    liveUrl: string,
    githubUrl: string)

  /** The part of the carousel library's API the modal uses: the selected
      slide (`selectedScrollSnap()`), the slide count (`scrollSnapList().length`)
      and `scrollTo`. */
  class CarouselApi {
    var selected: nat
    var total: nat

    constructor (total: nat)
      ensures this.selected == 0 && this.total == total
    {
      this.selected := 0;
      this.total := total;
    }

    method ScrollTo(index: nat)
      requires index < total
      modifies this
      ensures selected == index && total == old(total)
    {
      selected := index;
    }
  }

  /** `if (!project || !isOpen) return null`: the modal renders only with a
      project and while open. */
  predicate ShouldRender(project: Option<Project>, isOpen: bool)
  {
    project.Some? && isOpen
  }

  /** The slide a carousel moves to on one auto-advance tick: the next one,
      wrapping around, and no move at all with fewer than two slides. */
  function Advanced(selected: nat, total: nat): (r: nat)
    ensures total > 1 ==> r < total
    ensures total > 1 && selected < total ==> r == if selected == total - 1 then 0 else selected + 1
    ensures total <= 1 ==> r == selected
  {
    if total > 1 then (selected + 1) % total else selected
  }

  /** The slide after `n` ticks. */
  function AdvancedTimes(selected: nat, total: nat, n: nat): nat
  {
    if n == 0 then selected else Advanced(AdvancedTimes(selected, total, n - 1), total)
  }

  /** `n` ticks move a carousel of more than one slide `n` slides on,
      wrapping; after `total` ticks it is back where it started. */
  lemma {:induction false} AdvancedTimesWraps(selected: nat, total: nat, n: nat)
    requires 1 < total && selected < total
    ensures AdvancedTimes(selected, total, n) == (selected + n) % total
  {
    if n > 0 {
      AdvancedTimesWraps(selected, total, n - 1);
      ModSucc(selected + n - 1, total);
    }
  }

  /** A carousel with fewer than two slides never moves. */
  lemma {:induction false} AdvancedTimesStays(selected: nat, total: nat, n: nat)
    requires total <= 1
    ensures AdvancedTimes(selected, total, n) == selected
  {
    if n > 0 {
      AdvancedTimesStays(selected, total, n - 1);
    }
  }

  /** The slot `index` of the handle list; a slot past the end reads as
      undefined (null). */
  function SlotAt(apis: seq<CarouselApi?>, index: nat): CarouselApi?
  {
    if index < |apis| then apis[index] else null
  }

  /** The state updater of `setCarouselApi(index)(api)`: the same list when
      the slot already holds `api`, otherwise a copy with only that slot
      changed (writing past the end leaves undefined holes). */
  function WithCarouselApi(prev: seq<CarouselApi?>, index: nat, api: CarouselApi?): (r: seq<CarouselApi?>)
    ensures SlotAt(prev, index) == api ==> r == prev
    ensures SlotAt(r, index) == api
    ensures forall j: nat :: j != index ==> SlotAt(r, j) == SlotAt(prev, j)
    ensures |r| == if SlotAt(prev, index) == api || index < |prev| then |prev| else index + 1
  {
    if SlotAt(prev, index) == api then prev
    else if index < |prev| then prev[index := api]
    else prev + Repeat(null, index - |prev|) + [api]
  }

  /** How many slots hold the handle `c`. */
  function Occurrences(apis: seq<CarouselApi?>, c: CarouselApi): nat
  {
    if apis == [] then 0
    else Occurrences(apis[..|apis| - 1], c) + (if apis[|apis| - 1] == c then 1 else 0)
  }

  /** The galleries: Desktop Interface, Mobile Experience, Design Process. */
  const GalleryCount: nat := 3
  /** Each gallery shows a slice of at most four images. */
  const GallerySize: nat := 4

  /** JavaScript's `s.slice(start, end)` for `0 <= start <= end`: both bounds
      are cut back to the length. */
  function Slice<T>(s: seq<T>, start: nat, end: nat): (r: seq<T>)
    requires start <= end
    ensures |r| == Min(end, |s|) - Min(start, |s|)
    ensures forall k :: 0 <= k < |r| ==> r[k] == s[start + k]
  {
    s[Min(start, |s|)..Min(end, |s|)]
  }

  /** `project.images.slice(4 * g, 4 * g + 4)`. */
  function Gallery(images: seq<string>, g: nat): (r: seq<string>)
    requires g < GalleryCount
    ensures |r| <= GallerySize
    ensures forall k :: 0 <= k < |r| ==> GallerySize * g + k < |images| && r[k] == images[GallerySize * g + k]
  {
    Slice(images, GallerySize * g, GallerySize * g + GallerySize)
  }

  /** The previous and next arrows of gallery `g` are shown. */
  predicate ShowArrows(images: seq<string>, g: nat)
    requires g < GalleryCount
  {
    |Gallery(images, g)| > 1
  }

  /** The three galleries, one after the other, are exactly the first
      `min(12, |images|)` images: they are disjoint, in order, and no image
      among the first twelve is left out. */
  lemma GalleriesPartitionImages(images: seq<string>)
    ensures Gallery(images, 0) + Gallery(images, 1) + Gallery(images, 2)
         == images[..Min(GalleryCount * GallerySize, |images|)]
  {
    var all := Gallery(images, 0) + Gallery(images, 1) + Gallery(images, 2);
    var n := Min(GalleryCount * GallerySize, |images|);
    assert |all| == n;
    forall k | 0 <= k < n
      ensures all[k] == images[k]
    {
      if k < 4 {
      } else if k < 8 {
        assert all[k] == Gallery(images, 1)[k - 4];
      } else {
        assert all[k] == Gallery(images, 2)[k - 8];
      }
    }
  }

  /** A gallery's carousel (whose slides are the gallery's images) is moved
      by an auto-advance tick exactly when its arrows are shown. */
  lemma TickMovesExactlyArrowGalleries(images: seq<string>, g: nat, selected: nat)
    requires g < GalleryCount
    requires selected < |Gallery(images, g)|
    ensures Advanced(selected, |Gallery(images, g)|) != selected <==> ShowArrows(images, g)
  {
    var t := |Gallery(images, g)|;
    if t > 1 {
      assert selected + 1 <= t;
      if selected + 1 < t {
        assert (selected + 1) % t == selected + 1;
      } else {
        assert (selected + 1) % t == 0;
      }
    }
  }

  /** The modal's props and state. */
  class ProjectModal {
    var project: Option<Project>
    var isOpen: bool
    var carouselApis: seq<CarouselApi?>
    var isUserInteracting: bool

    /** The carousel handles currently registered. */
    ghost function Apis(): set<CarouselApi>
      reads this
    {
      set c: CarouselApi | c in carouselApis
    }

    /** The auto-advance interval runs only while open, with a project, and
        while the user is not interacting. */
    predicate AutoAdvanceActive()
      reads this
      ensures AutoAdvanceActive() ==> ShouldRender(project, isOpen)
    {
      isOpen && !isUserInteracting && project.Some?
    }

    constructor (project: Option<Project>, isOpen: bool)
      ensures this.project == project && this.isOpen == isOpen
      ensures carouselApis == [] && !isUserInteracting
    {
      this.project := project;
      this.isOpen := isOpen;
      carouselApis := [];
      isUserInteracting := false;
    }

    /** The parent re-renders the modal with new props. */
    method SetProps(project: Option<Project>, isOpen: bool)
      modifies this
      ensures this.project == project && this.isOpen == isOpen
      ensures carouselApis == old(carouselApis) && isUserInteracting == old(isUserInteracting)
    {
      this.project := project;
      this.isOpen := isOpen;
    }

    /** `handleCarouselInteraction`: a slide selection or an arrow click. */
    method HandleCarouselInteraction()
      modifies this
      ensures isUserInteracting
      ensures !AutoAdvanceActive()
      ensures project == old(project) && isOpen == old(isOpen) && carouselApis == old(carouselApis)
    {
      isUserInteracting := true;
    }

    /** The reset timeout; it is only armed while the flag is set, and then
        clears it. */
    method InteractionTimeout()
      requires isUserInteracting
      modifies this
      ensures !isUserInteracting
      ensures AutoAdvanceActive() <==> ShouldRender(project, isOpen)
      ensures project == old(project) && isOpen == old(isOpen) && carouselApis == old(carouselApis)
    {
      isUserInteracting := false;
    }

    /** `setCarouselApi(index)(api)`. */
    method SetCarouselApi(index: nat, api: CarouselApi?)
      modifies this
      ensures carouselApis == WithCarouselApi(old(carouselApis), index, api)
      ensures project == old(project) && isOpen == old(isOpen) && isUserInteracting == old(isUserInteracting)
    {
      if SlotAt(carouselApis, index) == api {
        return;
      }
      var newApis := carouselApis;
      if index < |newApis| {
        newApis := newApis[index := api];
      } else {
        newApis := newApis + Repeat(null, index - |newApis|) + [api];
      }
      carouselApis := newApis;
    }

    /** One firing of the auto-advance interval: each registered carousel
        with more than one slide is scrolled to the next slide, once per slot
        that holds it. Nothing happens while auto-advance is inactive. */
    method AutoAdvanceTick()
      modifies Apis()
      ensures forall c :: c in Apis() ==> c.total == old(c.total)
      ensures forall c :: c in Apis() ==>
        c.selected == if AutoAdvanceActive()
                      then AdvancedTimes(old(c.selected), old(c.total), Occurrences(carouselApis, c))
                      else old(c.selected)
    {
      if !AutoAdvanceActive() {
        return;
      }
      var i := 0;
      while i < |carouselApis|
        invariant 0 <= i <= |carouselApis|
        invariant forall c :: c in Apis() ==> c.total == old(c.total)
        invariant forall c :: c in Apis() ==>
          c.selected == AdvancedTimes(old(c.selected), old(c.total), Occurrences(carouselApis[..i], c))
      {
        var api := carouselApis[i];
        OccurrencesStep(carouselApis, i);
        if api != null {
          var currentIndex := api.selected;
          var totalSlides := api.total;
          if totalSlides > 1 {
            var nextIndex := (currentIndex + 1) % totalSlides;
            api.ScrollTo(nextIndex);
          }
        }
        i := i + 1;
      }
      assert carouselApis[..i] == carouselApis;
    }
  }

  /** When every carousel has its own slot, each registered handle occurs
      once, so a tick moves each carousel exactly one slide on. */
  lemma {:induction false} DistinctSlotsOccurOnce(apis: seq<CarouselApi?>, c: CarouselApi)
    requires forall i, j :: 0 <= i < j < |apis| ==> apis[i] == null || apis[i] != apis[j]
    requires c in apis
    ensures Occurrences(apis, c) == 1
  {
    var last := apis[|apis| - 1];
    var init := apis[..|apis| - 1];
    if last == c {
      assert c !in init;
      OccurrencesAbsent(init, c);
    } else {
      assert c in init;
      DistinctSlotsOccurOnce(init, c);
    }
  }

  /** Extending a prefix of the slots by one slot adds that slot's handle. */
  lemma OccurrencesStep(apis: seq<CarouselApi?>, i: nat)
    requires i < |apis|
    ensures forall c: CarouselApi ::
              Occurrences(apis[..i + 1], c) == Occurrences(apis[..i], c) + (if apis[i] == c then 1 else 0)
  {
    assert apis[..i + 1][..i] == apis[..i];
  }

  lemma {:induction false} OccurrencesAbsent(apis: seq<CarouselApi?>, c: CarouselApi)
    requires c !in apis
    ensures Occurrences(apis, c) == 0
  {
    if apis != [] {
      assert apis[..|apis| - 1] <= apis;
      OccurrencesAbsent(apis[..|apis| - 1], c);
    }
  }
}
