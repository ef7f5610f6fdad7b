/** The dashboard of `frontend/pages/Dashboard.tsx`: the action dispatcher that turns one
    reply descriptor into new versions of the active tab, the chart list and the map state,
    and the page object that holds those three together with the chat remount key and the
    prompt box. */
module Dashboard {
  import opened Gemini
  import opened InteractiveMap
  import opened Speech

  /** A chart request the analytics view renders. `id` comes from the clock, so two charts
      may share one; `chartType` is copied from the reply unchecked. */
  datatype Chart = Chart(id: string, chartType: string, location: string, title: string)

  /** The state the dispatcher owns. */
  datatype DashState = DashState(activeTab: string, charts: seq<Chart>, mapState: MapState)

  /** The four actions the dispatcher acts on; `text_only` and anything else fall through. */
  const UiActions: set<string> := Actions - {"text_only"}

  predicate IsAction(d: Descriptor, name: string) {
    d.action == Some(name)
  }

  /** A `create_chart` reply carrying a truthy title, chart type and location. */
  predicate IsCompleteChart(d: Descriptor) {
    IsAction(d, "create_chart") && Present(d.title) && Present(d.chartType) && Present(d.location)
  }

  /** An `add_marker` reply carrying truthy coordinates and popup text (a zero coordinate is
      falsy and rejects the marker). */
  predicate IsCompleteMarker(d: Descriptor) {
    IsAction(d, "add_marker") && NonZero(d.lat) && NonZero(d.lng) && Present(d.popup)
  }

  function ChartOf(d: Descriptor, id: string): Chart
    requires IsCompleteChart(d)
  {
    Chart(id, d.chartType.value, d.location.value, d.title.value)
  }

  function MarkerOf(d: Descriptor): Marker
    requires IsCompleteMarker(d)
  {
    Marker(d.lat.value, d.lng.value, d.popup.value)
  }

  /** `handleAiAction`, with the clock reading a new chart would take as its id. */
  function Dispatch(s: DashState, d: Descriptor, chartId: string): (r: DashState)
    // navigate: the tab, when one is given, and nothing else
    ensures IsAction(d, "navigate") ==> r.charts == s.charts && r.mapState == s.mapState
    ensures IsAction(d, "navigate") ==> r.activeTab == if Present(d.tab) then d.tab.value else s.activeTab
    // show_on_map: layer (default stress), highlight (default none), markers kept, map tab
    ensures IsAction(d, "show_on_map") ==>
              && r.activeTab == "map" && r.charts == s.charts
              && r.mapState.activeLayer == (if Present(d.layer) then d.layer.value else "stress")
              && r.mapState.highlightedLocation == (if Present(d.location) then d.location else None)
              && r.mapState.markers == s.mapState.markers
    // create_chart: at most one chart appended at the end, analytics tab either way
    ensures IsAction(d, "create_chart") ==> r.activeTab == "analytics" && r.mapState == s.mapState
    ensures IsCompleteChart(d) ==> r.charts == s.charts + [ChartOf(d, chartId)]
    ensures IsAction(d, "create_chart") && !IsCompleteChart(d) ==> r.charts == s.charts
    // add_marker: at most one marker appended at the end, layer and highlight kept, map tab
    ensures IsAction(d, "add_marker") ==>
              && r.activeTab == "map" && r.charts == s.charts
              && r.mapState.activeLayer == s.mapState.activeLayer
              && r.mapState.highlightedLocation == s.mapState.highlightedLocation
    ensures IsCompleteMarker(d) ==> r.mapState.markers == s.mapState.markers + [MarkerOf(d)]
    ensures IsAction(d, "add_marker") && !IsCompleteMarker(d) ==> r.mapState.markers == s.mapState.markers
    // text_only and every unknown or absent action: no change
    ensures !(d.action.Some? && d.action.value in UiActions) ==> r == s
  {
    match d.action
    case Some("navigate") =>
      if Present(d.tab) then s.(activeTab := d.tab.value) else s
    case Some("show_on_map") =>
      var layer := if Present(d.layer) then d.layer.value else "stress";
      var location := if Present(d.location) then d.location else None;
      s.(mapState := MapState(layer, location, s.mapState.markers), activeTab := "map")
    case Some("create_chart") =>
      var charts := if IsCompleteChart(d) then s.charts + [ChartOf(d, chartId)] else s.charts;
      s.(charts := charts, activeTab := "analytics")
    case Some("add_marker") =>
      var markers := if IsCompleteMarker(d) then s.mapState.markers + [MarkerOf(d)] else s.mapState.markers;
      s.(mapState := s.mapState.(markers := markers), activeTab := "map")
    case _ => s
  }

  /** The client's own fallback reply changes nothing on the dashboard. */
  lemma FallbackIsInert(s: DashState, chartId: string)
    ensures Dispatch(s, Fallback(), chartId) == s
  {
  }

  /** One reply, with the clock reading its chart would take. */
  datatype Step = Step(d: Descriptor, chartId: string)

  /** A run of replies, dispatched in order. */
  function DispatchAll(s: DashState, steps: seq<Step>): DashState
    decreases |steps|
  {
    if steps == [] then s
    else DispatchAll(Dispatch(s, steps[0].d, steps[0].chartId), steps[1..])
  }

  /** The number of complete chart requests in a run. */
  function ChartRequests(steps: seq<Step>): nat
    decreases |steps|
  {
    if steps == [] then 0
    else (if IsCompleteChart(steps[0].d) then 1 else 0) + ChartRequests(steps[1..])
  }

  /** The number of complete marker requests in a run. */
  function MarkerRequests(steps: seq<Step>): nat
    decreases |steps|
  {
    if steps == [] then 0
    else (if IsCompleteMarker(steps[0].d) then 1 else 0) + MarkerRequests(steps[1..])
  }

  /** Charts and markers are append-only over any run of replies: the earlier lists survive
      as prefixes, and each grows by exactly the number of complete requests for it, with no
      deduplication. */
  lemma {:induction false} RunIsAppendOnly(s: DashState, steps: seq<Step>)
    ensures var r := DispatchAll(s, steps);
            && |r.charts| == |s.charts| + ChartRequests(steps)
            && r.charts[..|s.charts|] == s.charts
            && |r.mapState.markers| == |s.mapState.markers| + MarkerRequests(steps)
            && r.mapState.markers[..|s.mapState.markers|] == s.mapState.markers
    decreases |steps|
  {
    if steps != [] {
      var t := Dispatch(s, steps[0].d, steps[0].chartId);
      RunIsAppendOnly(t, steps[1..]);
      var r := DispatchAll(s, steps);
      assert r == DispatchAll(t, steps[1..]);
      assert t.charts[..|s.charts|] == s.charts;
      assert r.charts[..|s.charts|] == r.charts[..|t.charts|][..|s.charts|];
      assert t.mapState.markers[..|s.mapState.markers|] == s.mapState.markers;
      assert r.mapState.markers[..|s.mapState.markers|]
          == r.mapState.markers[..|t.mapState.markers|][..|s.mapState.markers|];
    }
  }

  /** Repeating one complete chart request adds two entries that differ at most in their
      ids: the same request is not recognised as a duplicate. */
  lemma RepeatedChartIsNotDeduplicated(s: DashState, d: Descriptor, id1: string, id2: string)
    requires IsCompleteChart(d)
    ensures var r := Dispatch(Dispatch(s, d, id1), d, id2);
            && r.charts == s.charts + [ChartOf(d, id1), ChartOf(d, id2)]
            && r.activeTab == "analytics"
  {
  }

  /** Under replies that conform to the schema, the active tab stays one of the three tabs
      and the active layer one of the four layers. */
  lemma {:induction false} SchemaRepliesKeepVocabulary(s: DashState, steps: seq<Step>)
    requires s.activeTab in Tabs && s.mapState.activeLayer in MapLayers
    requires forall i :: 0 <= i < |steps| ==> ConformsToSchema(steps[i].d)
    ensures DispatchAll(s, steps).activeTab in Tabs
    ensures DispatchAll(s, steps).mapState.activeLayer in MapLayers
    decreases |steps|
  {
    if steps != [] {
      var t := Dispatch(s, steps[0].d, steps[0].chartId);
      assert ConformsToSchema(steps[0].d);
      assert t.activeTab in Tabs && t.mapState.activeLayer in MapLayers;
      SchemaRepliesKeepVocabulary(t, steps[1..]);
    }
  }

  /** The reply is cast, not checked: a `navigate` reply naming a tab outside the schema
      moves the dashboard to a tab that renders no view. */
  lemma UncheckedTabIsApplied(s: DashState, chartId: string)
    ensures var d := Plain("navigate", "").(tab := Some("settings"));
            !ConformsToSchema(d) && Dispatch(s, d, chartId).activeTab !in Tabs
  {
  }

  /** A reply that acts on the map or the charts leaves the chat tab, so the chat that
      asked is unmounted before its transcript gains the reply's text. */
  lemma UiRepliesLeaveChat(s: DashState, d: Descriptor, chartId: string)
    requires IsAction(d, "show_on_map") || IsAction(d, "create_chart") || IsAction(d, "add_marker")
    ensures Dispatch(s, d, chartId).activeTab != "chat"
  {
  }

  /** A marker at latitude or longitude zero is dropped, yet the map tab is still shown. */
  lemma ZeroCoordinateMarkerIsDropped(s: DashState, lat: real, lng: real, popup: string, chartId: string)
    requires lat == 0.0 || lng == 0.0
    ensures var d := Plain("add_marker", "").(lat := Some(lat), lng := Some(lng), popup := Some(popup));
            var r := Dispatch(s, d, chartId);
            r.mapState.markers == s.mapState.markers && r.activeTab == "map"
  {
  }

  class Dashboard {
    var activeTab: string
    var charts: seq<Chart>
    var mapState: MapState
    /** The key that remounts the chat on every change. */
    var chatKey: int
    /** The floating prompt box and its voice button. */
    const prompt: PromptBox

    function State(): DashState
      reads this
    {
      DashState(activeTab, charts, mapState)
    }

    ghost predicate Valid()
      reads this, prompt
    {
      prompt.Valid()
    }

    /** The page as mounted: the chat tab, no charts, an empty map, and the clock reading as
        the first chat key. */
    constructor(hasRecognizer: bool, now: int)
      ensures Valid() && fresh(prompt)
      ensures State() == DashState("chat", [], InitialMapState()) && chatKey == now
      ensures prompt.inputValue == "" && !prompt.isListening && prompt.hasRecognizer == hasRecognizer
      ensures prompt.starts == 0
    {
      activeTab := "chat";
      charts := [];
      mapState := InitialMapState();
      chatKey := now;
      prompt := new PromptBox(hasRecognizer);
    }

    /** `handleAiAction` committed to the page: the three pieces of state become the
        dispatcher's result; the chat key and the prompt box are untouched. */
    method HandleAiAction(d: Descriptor, chartId: string)
      requires Valid()
      modifies this
      ensures Valid()
      ensures State() == Dispatch(old(State()), d, chartId)
      ensures chatKey == old(chatKey)
    {
      var r := Dispatch(State(), d, chartId);
      activeTab, charts, mapState := r.activeTab, r.charts, r.mapState;
    }

    /** The navigation effect: a truthy `initialPrompt` carried by the navigation fills the
        prompt box, remounts the chat and shows it; anything else changes nothing. */
    method ApplyInitialPrompt(initialPrompt: Option<string>, now: int)
      requires Valid()
      modifies this, prompt
      ensures Valid()
      ensures Present(initialPrompt) ==>
                && prompt.inputValue == initialPrompt.value && chatKey == now && activeTab == "chat"
      ensures !Present(initialPrompt) ==>
                prompt.inputValue == old(prompt.inputValue) && chatKey == old(chatKey) && activeTab == old(activeTab)
      ensures charts == old(charts) && mapState == old(mapState)
      ensures prompt.isListening == old(prompt.isListening) && prompt.starts == old(prompt.starts)
    {
      if Present(initialPrompt) {
        prompt.SetInput(initialPrompt.value);
        chatKey := now;
        activeTab := "chat";
      }
    }

    /** A sidebar button: shows its tab; the prompt box keeps its text, so a chat mounted
        again is handed the same initial prompt. */
    method SelectTab(tab: string)
      requires Valid() && tab in Tabs
      modifies this
      ensures Valid()
      ensures activeTab == tab
      ensures charts == old(charts) && mapState == old(mapState) && chatKey == old(chatKey)
    {
      activeTab := tab;
    }

    /** `handleGlobalSend`: remount the chat with the prompt box's text and show it. */
    method HandleGlobalSend(now: int)
      requires Valid()
      modifies this
      ensures Valid()
      ensures chatKey == now && activeTab == "chat"
      ensures charts == old(charts) && mapState == old(mapState)
    {
      chatKey := now;
      activeTab := "chat";
    }
  }
}
