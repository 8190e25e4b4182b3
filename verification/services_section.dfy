/** The services section: a scroll handler that shows or hides the services,
    latches the section visible and moves a thread-progress value in [0, 1];
    service `i` of six is revealed once the progress reaches `(i + 1) / 6`
    less a lead of 0.05. Scroll offsets and heights are exact reals. */
module Services {
  import opened Common

  /** `services.length`: Branding, Strategy, Social Media, Paid Ads,
      Content Creation, Web Development & Maintenance. */
  const ServiceCount: nat := 6
  /** Services appear once the page is scrolled past 0.8 viewport heights. */
  const ShowFraction: real := 0.8
  /** The thread grows over 1.5 viewport heights past that point. */
  const SpanFraction: real := 1.5
  /** A service is revealed "just before" the thread reaches it. */
  const RevealLead: real := 0.05
  /** Stagger between consecutive revealed services, in milliseconds. */
  const DelayStepMs: nat := 150

  datatype ServicesState = ServicesState(
    scrollY: real,
    showServices: bool,
    sectionVisible: bool,
    threadProgress: real)

  /** The `useState` initial values. */
  const Initial := ServicesState(0.0, false, false, 0.0)

  /** What the handlers keep true: the progress stays in [0, 1] and is 0
      whenever the services are hidden. */
  predicate Valid(st: ServicesState)
  {
    0.0 <= st.threadProgress <= 1.0 && (!st.showServices ==> st.threadProgress == 0.0)
  }

  /** The progress through the services span for a scroll offset. */
  function ThreadProgress(scrollY: real, innerHeight: real): (p: real)
    requires innerHeight > 0.0
    ensures 0.0 <= p <= 1.0
    ensures scrollY <= innerHeight * ShowFraction ==> p == 0.0
    ensures scrollY >= innerHeight * (ShowFraction + SpanFraction) ==> p == 1.0
  {
    var servicesStart := innerHeight * ShowFraction;
    var servicesEnd := servicesStart + innerHeight * SpanFraction;
    RatioBounds(scrollY - servicesStart, servicesEnd - servicesStart);
    Clamp((scrollY - servicesStart) / (servicesEnd - servicesStart), 0.0, 1.0)
  }

  /** `handleScroll`. */
  function OnScroll(st: ServicesState, scrollY: real, innerHeight: real): (r: ServicesState)
    requires innerHeight > 0.0
    ensures r.scrollY == scrollY
    ensures r.showServices <==> scrollY > innerHeight * ShowFraction
    ensures r.sectionVisible <==> st.sectionVisible || r.showServices
    ensures r.showServices ==> r.threadProgress == ThreadProgress(scrollY, innerHeight)
    ensures Valid(r)
  {
    if scrollY > innerHeight * ShowFraction then
      st.(scrollY := scrollY, showServices := true, sectionVisible := true,
          threadProgress := ThreadProgress(scrollY, innerHeight))
    else
      st.(scrollY := scrollY, showServices := false, threadProgress := 0.0)
  }

  /** The mount effect that marks the section visible. */
  function OnMount(st: ServicesState): (r: ServicesState)
    ensures r.sectionVisible
    ensures r.(sectionVisible := st.sectionVisible) == st
  {
    st.(sectionVisible := true)
  }

  /** `handleScrollToServices`, without the smooth scroll it requests. */
  function OnScrollToServices(st: ServicesState): (r: ServicesState)
    ensures r.showServices
    ensures r.(showServices := st.showServices) == st
  {
    st.(showServices := true)
  }

  /** The events the section reacts to. */
  datatype Event = Scroll(scrollY: real, innerHeight: real) | Mount | ScrollToServices

  predicate WellFormed(events: seq<Event>)
  {
    forall k :: 0 <= k < |events| && events[k].Scroll? ==> events[k].innerHeight > 0.0
  }

  function Step(st: ServicesState, e: Event): ServicesState
    requires e.Scroll? ==> e.innerHeight > 0.0
  {
    match e
    case Scroll(y, h) => OnScroll(st, y, h)
    case Mount => OnMount(st)
    case ScrollToServices => OnScrollToServices(st)
  }

  /** The state after a run of events, oldest first. */
  function Run(st: ServicesState, events: seq<Event>): ServicesState
    requires WellFormed(events)
    decreases |events|
  {
    if events == [] then st else Run(Step(st, events[0]), events[1..])
  }

  /** Every event keeps the progress in [0, 1] and zero while hidden. */
  lemma {:induction false} RunKeepsValid(st: ServicesState, events: seq<Event>)
    requires WellFormed(events)
    requires Valid(st)
    ensures Valid(Run(st, events))
    decreases |events|
  {
    if events != [] {
      RunKeepsValid(Step(st, events[0]), events[1..]);
    }
  }

  /** `sectionVisible` is only ever set to true: once it is true, no run of
      events makes it false again. */
  lemma {:induction false} SectionVisibleLatches(st: ServicesState, events: seq<Event>)
    requires WellFormed(events)
    requires st.sectionVisible
    ensures Run(st, events).sectionVisible
    decreases |events|
  {
    if events != [] {
      SectionVisibleLatches(Step(st, events[0]), events[1..]);
    }
  }

  /** Handling the same scroll snapshot twice is the same as handling it once. */
  lemma OnScrollIdempotent(st: ServicesState, scrollY: real, innerHeight: real)
    requires innerHeight > 0.0
    ensures OnScroll(OnScroll(st, scrollY, innerHeight), scrollY, innerHeight) == OnScroll(st, scrollY, innerHeight)
  {
  }

  /** The progress point at which service `index` appears. */
  function RevealThreshold(index: nat): real
  {
    (index + 1) as real / ServiceCount as real - RevealLead
  }

  /** `isServiceRevealed(index)`. */
  predicate IsServiceRevealed(st: ServicesState, index: nat)
  {
    st.showServices && st.threadProgress >= RevealThreshold(index)
  }

  /** Nothing is revealed while the services are hidden; otherwise service
      `j` is revealed whenever a later service `i` is. */
  lemma RevealedIsPrefix(st: ServicesState, i: nat, j: nat)
    requires j <= i
    ensures !st.showServices ==> !IsServiceRevealed(st, i)
    ensures IsServiceRevealed(st, i) ==> IsServiceRevealed(st, j)
  {
    assert RevealThreshold(j) <= RevealThreshold(i);
  }

  /** More progress never hides a revealed service. */
  lemma RevealMonotoneInProgress(st: ServicesState, p: real, index: nat)
    requires st.threadProgress <= p
    ensures IsServiceRevealed(st, index) ==> IsServiceRevealed(st.(threadProgress := p), index)
  {
  }

  /** With the services shown, full progress reveals all six and zero
      progress reveals none. */
  lemma RevealAtEnds(st: ServicesState, index: nat)
    requires st.showServices && index < ServiceCount
    ensures IsServiceRevealed(st.(threadProgress := 1.0), index)
    ensures !IsServiceRevealed(st.(threadProgress := 0.0), index)
  {
  }

  /** Progress only grows with the scroll offset once the services are shown. */
  lemma ThreadProgressMonotone(y1: real, y2: real, innerHeight: real)
    requires innerHeight > 0.0 && y1 <= y2
    ensures ThreadProgress(y1, innerHeight) <= ThreadProgress(y2, innerHeight)
  {
    var start := innerHeight * ShowFraction;
    var span := (start + innerHeight * SpanFraction) - start;
    assert span > 0.0;
    assert (y2 - start) / span - (y1 - start) / span == (y2 - y1) / span;
  }

  /** Scrolling further down never hides a service that the handler revealed
      at a smaller offset, whatever the state before each event. */
  lemma ScrollRevealMonotone(st1: ServicesState, st2: ServicesState, y1: real, y2: real, innerHeight: real, index: nat)
    requires innerHeight > 0.0 && y1 <= y2
    ensures IsServiceRevealed(OnScroll(st1, y1, innerHeight), index) ==>
            IsServiceRevealed(OnScroll(st2, y2, innerHeight), index)
  {
    if IsServiceRevealed(OnScroll(st1, y1, innerHeight), index) {
      ThreadProgressMonotone(y1, y2, innerHeight);
    }
  }

  /** At most 0.8 viewport heights down no service is revealed; from 2.3
      viewport heights down all six are. */
  lemma ScrollRevealEnds(st: ServicesState, scrollY: real, innerHeight: real, index: nat)
    requires innerHeight > 0.0 && index < ServiceCount
    ensures scrollY <= innerHeight * ShowFraction ==> !IsServiceRevealed(OnScroll(st, scrollY, innerHeight), index)
    ensures scrollY >= innerHeight * (ShowFraction + SpanFraction) ==> IsServiceRevealed(OnScroll(st, scrollY, innerHeight), index)
  {
  }

  /** With six services the thresholds are 1/6 - 0.05, 2/6 - 0.05, ...: at
      progress 0.30 the first two services are revealed and the third is not;
      at 0.70 the first four are and the fifth is not. */
  lemma RevealScenario(st: ServicesState)
    requires st.showServices
    ensures var a := st.(threadProgress := 0.30);
      IsServiceRevealed(a, 0) && IsServiceRevealed(a, 1) && !IsServiceRevealed(a, 2)
    ensures var b := st.(threadProgress := 0.70);
      IsServiceRevealed(b, 0) && IsServiceRevealed(b, 1) && IsServiceRevealed(b, 2) &&
      IsServiceRevealed(b, 3) && !IsServiceRevealed(b, 4)
  {
  }

  /** The `transitionDelay` of a service card, in milliseconds. */
  function TransitionDelayMs(st: ServicesState, index: nat): nat
  {
    if IsServiceRevealed(st, index) then index * DelayStepMs else 0
  }

  /** Revealed cards come in one after another, 150 ms apart; hidden cards
      have no delay. */
  lemma DelaysStagger(st: ServicesState, i: nat, j: nat)
    requires i < j
    ensures !IsServiceRevealed(st, i) ==> TransitionDelayMs(st, i) == 0
    ensures IsServiceRevealed(st, i) ==> TransitionDelayMs(st, i) == i * DelayStepMs
    ensures IsServiceRevealed(st, j) ==>
      TransitionDelayMs(st, j) - TransitionDelayMs(st, i) == (j - i) * DelayStepMs
  {
    RevealedIsPrefix(st, j, i);
  }

  /** The number label `String(index + 1).padStart(2, '0')`. */
  function NumberLabel(index: nat): string
  {
    PadStart(Decimal(index + 1), 2, '0')
  }

  /** Labels have at least two characters, read back as `index + 1`, and for
      the six services are "01" to "06". */
  lemma NumberLabelRoundTrip(index: nat)
    ensures |NumberLabel(index)| >= 2
    ensures ParseDecimal(NumberLabel(index)) == index + 1
    ensures index < 9 ==> NumberLabel(index) == ['0', Digit(index + 1)]
  {
    var d := Decimal(index + 1);
    ParseDecimalOfDecimal(index + 1);
    if |d| < 2 {
      ParseDecimalSkipsLeadingZeros(2 - |d|, d);
    }
  }

  /** The component's state and its handlers. */
  class ServicesSection {
    var scrollY: real
    var showServices: bool
    var sectionVisible: bool
    var threadProgress: real

    function State(): ServicesState
      reads this
    {
      ServicesState(scrollY, showServices, sectionVisible, threadProgress)
    }

    constructor ()
      ensures State() == Initial
    {
      scrollY, showServices, sectionVisible, threadProgress := 0.0, false, false, 0.0;
    }

    method Mount()
      modifies this
      ensures State() == OnMount(old(State()))
    {
      sectionVisible := true;
    }

    method HandleScroll(windowScrollY: real, innerHeight: real)
      requires innerHeight > 0.0
      modifies this
      ensures State() == OnScroll(old(State()), windowScrollY, innerHeight)
    {
      scrollY := windowScrollY;
      if windowScrollY > innerHeight * ShowFraction {
        showServices := true;
        sectionVisible := true;
        var servicesStart := innerHeight * ShowFraction;
        var servicesEnd := servicesStart + innerHeight * SpanFraction;
        var ratio := (windowScrollY - servicesStart) / (servicesEnd - servicesStart);
        var atLeastZero := if ratio < 0.0 then 0.0 else ratio;
        threadProgress := if atLeastZero > 1.0 then 1.0 else atLeastZero;
      } else {
        showServices := false;
        threadProgress := 0.0;
      }
    }

    method HandleScrollToServices()
      modifies this
      ensures State() == OnScrollToServices(old(State()))
    {
      showServices := true;
    }
  }
}
