/** The map view of `frontend/pages/Dashboard/_components/InteractiveMap.tsx`: the map state
    the dashboard hands down, and the view's own copy of it, which the search box and the
    layer buttons edit locally and which is overwritten whenever a new state comes down. */
module InteractiveMap {
  import opened Text
  import opened Gemini

  /** A map pin. Coordinates are numbers the reply supplied; nothing here computes with them. */
  datatype Marker = Marker(lat: real, lng: real, popup: string)

  /** `activeLayer` is typed as one of none/groundwater/rainfall/stress, but the dashboard
      copies it from an unchecked reply, so any string may arrive; `None` in
      `highlightedLocation` is `null`. */
  datatype MapState = MapState(activeLayer: string, highlightedLocation: Option<string>, markers: seq<Marker>)

  /** The layer values the buttons of the legend select. */
  const MapLayers: set<string> := {"none", "groundwater", "rainfall", "stress"}

  /** The state the dashboard starts with. */
  function InitialMapState(): (m: MapState)
    ensures m.activeLayer == "none" && m.activeLayer in MapLayers
    ensures m.highlightedLocation.None? && m.markers == []
  {
    MapState("none", None, [])
  }

  class MapView {
    /** The text of the search box. */
    var searchQuery: string
    /** The locally edited copy of the dashboard's map state. */
    var current: MapState

    /** Mounting: the local copy starts as the prop, and the synchronising effect then runs
        once, copying a truthy highlighted location into the search box. */
    constructor(prop: MapState)
      ensures current == prop
      ensures searchQuery == if Present(prop.highlightedLocation) then prop.highlightedLocation.value else ""
    {
      current := prop;
      searchQuery := if Present(prop.highlightedLocation) then prop.highlightedLocation.value else "";
    }

    /** A new state from the dashboard replaces the local copy entirely; the search box is
        overwritten only when the new state highlights something. */
    method Sync(prop: MapState)
      modifies this
      ensures current == prop
      ensures Present(prop.highlightedLocation) ==> searchQuery == prop.highlightedLocation.value
      ensures !Present(prop.highlightedLocation) ==> searchQuery == old(searchQuery)
    {
      current := prop;
      if Present(prop.highlightedLocation) {
        searchQuery := prop.highlightedLocation.value;
      }
    }

    /** Typing in the search box. */
    method SetSearchQuery(q: string)
      modifies this
      ensures searchQuery == q && current == old(current)
    {
      searchQuery := q;
    }

    /** The search button: a blank query clears the highlight; any other query, untrimmed,
        becomes the highlight. Layer and markers stay as they were. */
    method HandleSearch()
      modifies this
      ensures searchQuery == old(searchQuery)
      ensures current.activeLayer == old(current.activeLayer) && current.markers == old(current.markers)
      ensures IsBlank(searchQuery) ==> current.highlightedLocation.None?
      ensures !IsBlank(searchQuery) ==> current.highlightedLocation == Some(searchQuery)
    {
      if IsBlank(searchQuery) {
        current := current.(highlightedLocation := None);
        return;
      }
      current := current.(highlightedLocation := Some(searchQuery));
    }

    /** A layer button: only the active layer changes. */
    method SetActiveLayer(layer: string)
      modifies this
      ensures current == old(current).(activeLayer := layer)
      ensures searchQuery == old(searchQuery)
    {
      current := current.(activeLayer := layer);
    }
  }
}
