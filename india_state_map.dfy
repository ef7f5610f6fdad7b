/** The styling rule of `frontend/pages/Dashboard/_components/IndiaStateMap.tsx`: the fill
    colour a state gets from the active layer and its data, and the outline that marks the
    states matching the highlighted location. */
module IndiaStateMap {
  import opened Text
  import opened Gemini

  const Emerald: string := "#10b981"
  const Amber: string := "#f59e0b"
  const Red: string := "#ef4444"
  const Cyan: string := "#06b6d4"
  const Blue: string := "#3b82f6"
  const Yellow: string := "#eab308"
  /** The fill of a state with no colour of its own. */
  const Slate: string := "#64748b"
  /** The outline of a state that is not highlighted. */
  const Gray: string := "#374151"

  /** Every fill colour the map can show. */
  const FillPalette: set<string> := {Emerald, Amber, Red, Cyan, Blue, Yellow, Slate}

  /** Reference table: the good / warning / critical colours of each data layer. */
  const Scales: map<string, seq<string>> := map[
    "groundwater" := [Emerald, Amber, Red],
    "rainfall" := [Amber, Cyan, Blue],
    "stress" := [Emerald, Yellow, Red]]

  /** The per-state record of the groundwater data feed. */
  datatype StateData = StateData(groundwater: real, rainfall: real, stress: real)

  /** The GeoJSON properties a state's style reads. */
  datatype Feature = Feature(name1: Option<string>, name: Option<string>)

  /** The style handed to the map library for one state. */
  datatype PathStyle = PathStyle(fillColor: string, weight: int, opacity: real, color: string, fillOpacity: real)

  /** `data[activeLayer]`: the record's field of that name, `undefined` for any other name. */
  function LayerValue(data: StateData, layer: string): (v: Option<real>)
    ensures v.Some? <==> layer in Scales
  {
    if layer == "groundwater" then Some(data.groundwater)
    else if layer == "rainfall" then Some(data.rainfall)
    else if layer == "stress" then Some(data.stress)
    else None
  }

  /** Position in a colour scale: 0 and 1 are themselves; every other value, including an
      absent one, is critical. */
  function Level(value: Option<real>): (k: nat)
    ensures k < 3
  {
    if value == Some(0.0) then 0 else if value == Some(1.0) then 1 else 2
  }

  /** `getColor`: the colour of the value's level in the active layer's scale, or slate when
      the active layer has no scale. */
  function GetColor(layer: string, value: Option<real>): (c: string)
    ensures layer in Scales ==> c == Scales[layer][Level(value)]
    ensures layer !in Scales ==> c == Slate
    ensures c in FillPalette
  {
    if layer == "groundwater" then
      (if value == Some(0.0) then Emerald else if value == Some(1.0) then Amber else Red)
    else if layer == "rainfall" then
      (if value == Some(0.0) then Amber else if value == Some(1.0) then Cyan else Blue)
    else if layer == "stress" then
      (if value == Some(0.0) then Emerald else if value == Some(1.0) then Yellow else Red)
    else Slate
  }

  /** `NAME_1 || name`: `NAME_1` when it is a non-empty string, otherwise `name` as it is. */
  function StateName(f: Feature): (n: Option<string>)
    ensures Present(f.name1) ==> n == f.name1
    ensures !Present(f.name1) ==> n == f.name
  {
    if Present(f.name1) then f.name1 else f.name
  }

  /** The key under which the data is looked up: an absent name becomes the property key
      "undefined", as JavaScript converts it. */
  function DataKey(n: Option<string>): (k: string)
    ensures n.Some? ==> k == n.value
    ensures n.None? ==> k == "undefined"
  {
    match n
    case Some(s) => s
    case None => "undefined"
  }

  /** The highlight rule: a non-empty highlight and a non-empty state name, the lower-cased
      name containing the lower-cased highlight. */
  predicate IsHighlighted(highlighted: Option<string>, name: Option<string>) {
    Present(highlighted) && Present(name) && Includes(ToLower(name.value), ToLower(highlighted.value))
  }

  /** `style(feature)`. */
  function Style(layer: string, highlighted: Option<string>, stateData: map<string, StateData>, f: Feature): (s: PathStyle)
    ensures s.fillColor in FillPalette
    ensures layer == "none" || DataKey(StateName(f)) !in stateData ==> s.fillColor == Slate
    ensures layer != "none" && DataKey(StateName(f)) in stateData ==>
              s.fillColor == GetColor(layer, LayerValue(stateData[DataKey(StateName(f))], layer))
    ensures IsHighlighted(highlighted, StateName(f)) ==> s.weight == 4 && s.color == Cyan
    ensures !IsHighlighted(highlighted, StateName(f)) ==> s.weight == 2 && s.color == Gray
    ensures s.opacity == 1.0 && s.fillOpacity == 0.7
  {
    var name := StateName(f);
    var key := DataKey(name);
    var fill := if layer != "none" && key in stateData then GetColor(layer, LayerValue(stateData[key], layer)) else Slate;
    var lit := IsHighlighted(highlighted, name);
    PathStyle(fill, if lit then 4 else 2, 1.0, if lit then Cyan else Gray, 0.7)
  }

  /** Lower-casing commutes with taking a slice. */
  lemma ToLowerSlice(s: string, i: int, j: int)
    requires 0 <= i <= j <= |s|
    ensures ToLower(s[i..j]) == ToLower(s)[i..j]
  {
  }

  /** A non-empty highlight that occurs anywhere in the state name, as written, highlights
      the state, whatever layer is active and whatever data is loaded. */
  lemma HighlightsContainingState(layer: string, stateData: map<string, StateData>, highlight: string,
                                  f: Feature, k: int)
    requires highlight != [] && StateName(f).Some?
    requires OccursAt(StateName(f).value, highlight, k)
    ensures Style(layer, Some(highlight), stateData, f).weight == 4
    ensures Style(layer, Some(highlight), stateData, f).color == Cyan
  {
    var name := StateName(f).value;
    ToLowerSlice(name, k, k + |highlight|);
    assert OccursAt(ToLower(name), ToLower(highlight), k);
    IncludesIffOccurs(ToLower(name), ToLower(highlight));
  }

  /** Matching ignores ASCII case: a highlight equal to the name up to case selects it. */
  lemma HighlightIgnoresCase(highlight: string, f: Feature)
    requires highlight != [] && StateName(f).Some?
    requires ToLower(StateName(f).value) == ToLower(highlight)
    ensures IsHighlighted(Some(highlight), StateName(f))
  {
    IncludesSelfAndEmpty(ToLower(highlight));
  }

  /** Without a highlight, or with the empty one, no state is highlighted, on any layer and
      with any data. */
  lemma NoHighlightWithoutLocation(layer: string, stateData: map<string, StateData>,
                                   highlighted: Option<string>, f: Feature)
    requires !Present(highlighted)
    ensures Style(layer, highlighted, stateData, f).weight == 2
    ensures Style(layer, highlighted, stateData, f).color == Gray
  {
  }
}
