/**
 * The journey timeline next to the map (src/components/LeafletMap.tsx).
 *
 * `MapComponent` keeps three pieces of React state: the selected entry (-1 for none), whether
 * the timeline list is open, and whether the viewport is narrow. The class below holds them
 * as fields and its methods are the event handlers that set them. Everything the component
 * renders from that state (the fly-to command, the active item, the list, the "Open timeline"
 * button) is a function of a `MapState` value.
 */
module LeafletMap {
  import opened Wrappers

  // ---------------------------------------------------------------------------------------------
  // The timeline entries

  /** A geographic position, [latitude, longitude]; it is only copied, never computed with. */
  datatype LatLng = LatLng(lat: real, lng: real)

  datatype TimelineEntry = TimelineEntry(
    id: int,
    title: string,
    date: string,
    description: string,
    location: LatLng,
    locationName: string,
    popupTitle: string,
    popupDescription: string,
    imageUrl: string)

  /** Number of timeline entries. */
  const EntryCount: nat := 3

  /**
   * The fixed journey, in display order. Long texts are written as concatenations of shorter
   * literals, which the verifier handles far more cheaply than one long literal.
   */
  function TimelineData(): (r: seq<TimelineEntry>)
    ensures |r| == EntryCount
  {
    [InnCircles(), SwaranSoft(), ManavRachna()]
  }

  function InnCircles(): TimelineEntry {
    TimelineEntry(
      1,
      "SDE Intern @InnCircles",
      "Aug-2025 - Present",
      "Developing web and "
      + "mobile applications "
      + "using Angular and "
      + "React Native, with "
      + "robust backend "
      + "systems.",
      LatLng(17.445, 78.3915),
      "Hyderabad, India",
      "InnCircles",
      "Worked on scalable "
      + "web, mobile, and "
      + "backend solutions "
      + "using Angular, React "
      + "Native, and modern "
      + "server technologies.",
      "/inncircles.png")
  }

  function SwaranSoft(): TimelineEntry {
    TimelineEntry(
      2,
      "Web Developer Intern "
      + "@SwaranSoft",
      "June - Aug-2025",
      "Building interactive "
      + "UI using React and "
      + "Tailwind CSS.",
      LatLng(28.415281, 77.041833),
      "Gurugram, India",
      "SwaranSoft",
      "Worked on scalable "
      + "frontend solutions "
      + "using modern tech "
      + "stack.",
      "/swaranSoft.png")
  }

  function ManavRachna(): TimelineEntry {
    TimelineEntry(
      3,
      "Student @ Manav Rachna "
      + "University",
      "2022 - Present",
      "Pursued B.Tech in "
      + "Computer Science in "
      + "Specilization with "
      + "AIML.",
      LatLng(28.45, 77.2856),
      "Haryana, India",
      "Manav Rachna University",
      "Academic foundation in "
      + "programming and "
      + "systems design.",
      "/MR.png")
  }

  /** Every entry has its own id, so `key={entry.id}` tells the rendered items apart. */
  lemma TimelineIdsDistinct()
    ensures forall i, j :: 0 <= i < j < |TimelineData()| ==> TimelineData()[i].id != TimelineData()[j].id
  {
  }

  // ---------------------------------------------------------------------------------------------
  // Constants

  /** Viewports narrower than this many pixels are mobile. */
  const MobileBreakpoint: int := 768
  const FlyZoom: int := 15
  /** Seconds the fly-to animation lasts. */
  const FlyDuration: real := 1.5

  // ---------------------------------------------------------------------------------------------
  // State and the views derived from it

  /** A snapshot of the component's three state cells. */
  datatype MapState = MapState(selectedIndex: int, isTimelineOpen: bool, isMobile: bool)

  /** The state before any event: nothing selected, list open, not mobile. */
  const Initial: MapState := MapState(-1, true, false)

  /** The selection is -1 (none) or an index into the timeline. */
  predicate ValidSelection(selectedIndex: int) {
    selectedIndex == -1 || 0 <= selectedIndex < EntryCount
  }

  /** The parameters of `map.flyTo(position, zoom, { duration })`. */
  datatype FlyTo = FlyTo(position: LatLng, zoom: int, duration: real)

  /**
   * `selectedLocation`: the selected entry's position, or null when nothing is selected. The
   * component passes `TimelineData()` as `entries`; the properties below hold for any list.
   */
  function SelectedLocation(entries: seq<TimelineEntry>, selectedIndex: int): (r: Option<LatLng>)
    requires selectedIndex < |entries|
    ensures r.None? <==> selectedIndex < 0
    ensures r.Some? ==> exists k :: 0 <= k < |entries| && entries[k].location == r.value
  {
    if selectedIndex >= 0 then Some(entries[selectedIndex].location) else None
  }

  /**
   * The `FlyToLocation` child is rendered exactly when a location is selected; the map then
   * flies to the position of one of the entries, at zoom 15 over 1.5 seconds.
   */
  function FlyToCommand(entries: seq<TimelineEntry>, s: MapState): (r: Option<FlyTo>)
    requires s.selectedIndex < |entries|
    ensures r.Some? <==> s.selectedIndex >= 0
    ensures r.Some? ==> r.value.zoom == 15 && r.value.duration == 1.5
    ensures r.Some? ==> exists k :: 0 <= k < |entries| && entries[k].location == r.value.position
  {
    match SelectedLocation(entries, s.selectedIndex)
    case Some(position) => Some(FlyTo(position, FlyZoom, FlyDuration))
    case None => None
  }

  /**
   * The `isActive` flag of every item `entries.map` renders, in order: the item whose position
   * equals `activeIndex` is active, and no other.
   */
  function ActiveFlags(activeIndex: int): (flags: seq<bool>)
    ensures |flags| == EntryCount
    ensures forall k :: 0 <= k < EntryCount ==> (flags[k] <==> k == activeIndex)
  {
    seq(EntryCount, k => k == activeIndex)
  }

  /** What the resize handler stores: `innerWidth < 768`. */
  predicate IsMobileWidth(width: int) {
    width < MobileBreakpoint
  }

  /** Which of the two controls the component renders. */
  datatype Controls = Controls(timelineList: bool, openButton: bool)

  /**
   * The timeline list is rendered while it is open; the "Open timeline" button is rendered on
   * mobile while the list is closed. So the two never show together.
   */
  function RenderedControls(s: MapState): (c: Controls)
    ensures !(c.timelineList && c.openButton)
  {
    Controls(s.isTimelineOpen, s.isMobile && !s.isTimelineOpen)
  }

  // ---------------------------------------------------------------------------------------------
  // Events

  /**
   * What the user or the browser can do: click a timeline item, resize the window (the
   * component also runs this handler once when it mounts), click the "Open timeline" button.
   */
  datatype Event = ItemClick(index: int) | WindowResize(width: int) | OpenButtonClick

  /**
   * The event can happen in state `s`: only rendered controls can be clicked. So the open
   * button is clicked only while the list is hidden, and an item only while the button is.
   */
  predicate Enabled(s: MapState, e: Event)
    ensures Enabled(s, e) && e.OpenButtonClick? ==> !RenderedControls(s).timelineList
    ensures Enabled(s, e) && e.ItemClick? ==> !RenderedControls(s).openButton
  {
    match e
    case ItemClick(i) => RenderedControls(s).timelineList && 0 <= i < EntryCount
    case WindowResize(_) => true
    case OpenButtonClick => RenderedControls(s).openButton
  }

  /**
   * The state after the event's handler: each handler sets one state cell. An enabled event
   * keeps the selection valid, and only the open button changes whether the list is open.
   */
  function Step(s: MapState, e: Event): (r: MapState)
    ensures ValidSelection(s.selectedIndex) && Enabled(s, e) ==> ValidSelection(r.selectedIndex)
    ensures r.isTimelineOpen != s.isTimelineOpen ==> e.OpenButtonClick?
  {
    match e
    case ItemClick(i) => s.(selectedIndex := i)
    case WindowResize(w) => s.(isMobile := IsMobileWidth(w))
    case OpenButtonClick => s.(isTimelineOpen := !s.isTimelineOpen)
  }

  /** The events happen one after the other, each enabled when it happens. */
  predicate ValidTrace(s: MapState, events: seq<Event>)
    decreases |events|
  {
    events == [] || (Enabled(s, events[0]) && ValidTrace(Step(s, events[0]), events[1..]))
  }

  /** The state after all the events. */
  function Run(s: MapState, events: seq<Event>): MapState
    decreases |events|
  {
    if events == [] then s else Run(Step(s, events[0]), events[1..])
  }

  // ---------------------------------------------------------------------------------------------
  // The component

  class MapComponent {
    var selectedIndex: int
    var isTimelineOpen: bool
    var isMobile: bool

    ghost predicate Valid()
      reads this
    {
      ValidSelection(selectedIndex)
    }

    /** The current values of the three state cells. */
    function State(): MapState
      reads this
    {
      MapState(selectedIndex, isTimelineOpen, isMobile)
    }

    /** The `flyTo` the component issues in its current state; none while nothing is selected. */
    function FlyTarget(): Option<FlyTo>
      reads this
      requires Valid()
    {
      FlyToCommand(TimelineData(), State())
    }

    /** The `useState` initial values. */
    constructor ()
      ensures Valid()
      ensures selectedIndex == -1 && isTimelineOpen && !isMobile
      ensures State() == Initial
    {
      selectedIndex := -1;
      isTimelineOpen := true;
      isMobile := false;
    }

    /** `onSelect(index)` from a timeline item: `setSelectedIndex(index)`. */
    method Select(index: int)
      requires Valid()
      requires 0 <= index < EntryCount
      modifies this
      ensures Valid()
      ensures selectedIndex == index
      ensures isTimelineOpen == old(isTimelineOpen) && isMobile == old(isMobile)
      ensures State() == Step(old(State()), ItemClick(index))
      ensures FlyTarget() == Some(FlyTo(TimelineData()[index].location, 15, 1.5))
    {
      selectedIndex := index;
    }

    /** `toggleTimeline`: `setIsTimelineOpen(prev => !prev)`. */
    method ToggleTimeline()
      requires Valid()
      modifies this
      ensures Valid()
      ensures isTimelineOpen == !old(isTimelineOpen)
      ensures selectedIndex == old(selectedIndex) && isMobile == old(isMobile)
      ensures State() == Step(old(State()), OpenButtonClick)
    {
      isTimelineOpen := !isTimelineOpen;
    }

    /** `handleResize` with `window.innerWidth == innerWidth`: `setIsMobile(innerWidth < 768)`. */
    method HandleResize(innerWidth: int)
      requires Valid()
      modifies this
      ensures Valid()
      ensures isMobile == (innerWidth < 768)
      ensures selectedIndex == old(selectedIndex) && isTimelineOpen == old(isTimelineOpen)
      ensures State() == Step(old(State()), WindowResize(innerWidth))
    {
      isMobile := innerWidth < MobileBreakpoint;
    }
  }

  // ---------------------------------------------------------------------------------------------
  // Properties

  /** Initially nothing is selected, so there is nothing to fly to and no item is active. */
  lemma InitialState(entries: seq<TimelineEntry>)
    ensures Initial.selectedIndex == -1 && Initial.isTimelineOpen && !Initial.isMobile
    ensures FlyToCommand(entries, Initial) == None
    ensures forall k :: 0 <= k < EntryCount ==> !ActiveFlags(Initial.selectedIndex)[k]
    ensures RenderedControls(Initial) == Controls(true, false)
  {
  }

  /** Selecting entry `i` flies to that entry's location at zoom 15 over 1.5 seconds. */
  lemma SelectFliesToEntry(entries: seq<TimelineEntry>, s: MapState, i: int)
    requires 0 <= i < |entries|
    ensures Step(s, ItemClick(i)).selectedIndex == i
    ensures FlyToCommand(entries, Step(s, ItemClick(i))) == Some(FlyTo(entries[i].location, 15, 1.5))
  {
  }

  /** There is a fly-to command exactly when an entry is selected. */
  lemma FlyToOnlyWhenSelected(entries: seq<TimelineEntry>, s: MapState)
    requires s.selectedIndex == -1 || 0 <= s.selectedIndex < |entries|
    ensures FlyToCommand(entries, s).Some? <==> s.selectedIndex != -1
    ensures FlyToCommand(entries, s).Some? ==> FlyToCommand(entries, s).value.position == entries[s.selectedIndex].location
  {
  }

  /** Item `k` is active exactly when it is the selected one: one item at most, none for -1. */
  lemma SingleActiveItem(activeIndex: int)
    ensures forall j, k :: 0 <= j < k < EntryCount ==> !(ActiveFlags(activeIndex)[j] && ActiveFlags(activeIndex)[k])
    ensures activeIndex == -1 ==> forall k :: 0 <= k < EntryCount ==> !ActiveFlags(activeIndex)[k]
    ensures 0 <= activeIndex < EntryCount ==> ActiveFlags(activeIndex)[activeIndex]
  {
  }

  /** The width threshold: 767 is mobile, 768 and 1024 are not, and narrower stays mobile. */
  lemma MobileThreshold(narrow: int, wide: int)
    requires narrow <= wide
    ensures IsMobileWidth(767) && !IsMobileWidth(768) && !IsMobileWidth(1024) && IsMobileWidth(320)
    ensures IsMobileWidth(wide) ==> IsMobileWidth(narrow)
  {
  }

  /** Toggling twice gives back the original state. */
  lemma ToggleInvolution(s: MapState)
    ensures Step(Step(s, OpenButtonClick), OpenButtonClick) == s
    ensures Step(s, OpenButtonClick).isTimelineOpen == !s.isTimelineOpen
  {
  }

  /** Each handler changes its own state cell and leaves the other two as they were. */
  lemma StepFrames(s: MapState, e: Event)
    ensures e.ItemClick? ==> Step(s, e).isTimelineOpen == s.isTimelineOpen && Step(s, e).isMobile == s.isMobile
    ensures e.WindowResize? ==> Step(s, e).selectedIndex == s.selectedIndex && Step(s, e).isTimelineOpen == s.isTimelineOpen
    ensures e.OpenButtonClick? ==> Step(s, e).selectedIndex == s.selectedIndex && Step(s, e).isMobile == s.isMobile
  {
  }

  /** What holds in every state the component can reach. */
  predicate Reachable(s: MapState) {
    ValidSelection(s.selectedIndex) && s.isTimelineOpen
  }

  /**
   * Nothing closes the timeline: the only handler that flips it is behind the "Open timeline"
   * button, which is rendered only while the list is closed. So along every sequence of events
   * the list stays open, the button never appears and the selection stays valid.
   */
  lemma {:induction false} ReachableInvariant(s: MapState, events: seq<Event>)
    requires Reachable(s) && ValidTrace(s, events)
    ensures Reachable(Run(s, events))
    ensures !RenderedControls(Run(s, events)).openButton
    decreases |events|
  {
    if events != [] {
      ReachableInvariant(Step(s, events[0]), events[1..]);
    }
  }

  /** A sequence of events that reaches `s` from the initial state. */
  function WitnessTrace(s: MapState): seq<Event> {
    [WindowResize(if s.isMobile then 320 else 1024)]
      + (if s.selectedIndex >= 0 then [ItemClick(s.selectedIndex)] else [])
  }

  /** Conversely, every state with the list open and a valid selection is reached by some events. */
  lemma {:induction false} EveryReachableStateOccurs(s: MapState)
    requires Reachable(s)
    ensures ValidTrace(Initial, WitnessTrace(s)) && Run(Initial, WitnessTrace(s)) == s
  {
    var mounted := Step(Initial, WindowResize(if s.isMobile then 320 else 1024));
    assert mounted == MapState(-1, true, s.isMobile);
    var w := WitnessTrace(s);
    assert w[1..] == (if s.selectedIndex >= 0 then [ItemClick(s.selectedIndex)] else []);
    if s.selectedIndex >= 0 {
      assert w[1..][1..] == [];
      assert Run(mounted, w[1..]) == Run(Step(mounted, ItemClick(s.selectedIndex)), []);
    }
  }
}
