/**
 * The neighbourhood circle layer: which neighbourhoods become map features,
 * the GeoJSON point built for each, and the colour expression of the
 * circles.
 */
module NeighborhoodLayer {
  import opened JsArray
  import opened Optional
  import opened NeighborhoodData
  import NeighborhoodQueries
  import MapExpression

  /** A GeoJSON point geometry. */
  datatype Point = Point(coordinates: Coordinates)

  /** A GeoJSON feature. Its properties `{ name, ...data }` are the entry's
      name and data. */
  datatype Feature = Feature(properties: Entry, geometry: Point)

  /** No borough counts as selected when the value is null or the empty
      string (both are falsy). */
  predicate NoSelection(selected: Option<string>) {
    selected.None? || selected.value == ""
  }

  /** The first filter: any borough when none is selected, otherwise the
      selected one only. */
  function MatchesSelection(selected: Option<string>): Entry -> bool {
    (e: Entry) => NoSelection(selected) || e.data.borough == selected.value
  }

  /** The second filter: the borough is one of the filtered boroughs. */
  function InFiltered(filtered: seq<string>): Entry -> bool {
    (e: Entry) => e.data.borough in filtered
  }

  function ToFeature(e: Entry): (f: Feature)
    ensures f.properties == e && f.geometry.coordinates == e.data.coordinates
  {
    Feature(e, Point(e.data.coordinates))
  }

  function PropertiesOf(fs: seq<Feature>): seq<Entry> {
    MapSeq(fs, (f: Feature) => f.properties)
  }

  /** The features built from a table: the entries whose borough is
      filtered in and, if a borough is selected, is that borough, in table
      order, each as a point at the entry's own coordinates. */
  function SelectFeatures(table: seq<Entry>, selected: Option<string>, filtered: seq<string>): (fs: seq<Feature>)
    ensures |fs| <= |table|
    ensures forall i | 0 <= i < |fs| :: fs[i].geometry.coordinates == fs[i].properties.data.coordinates
    ensures forall e ::
              e in PropertiesOf(fs) <==>
                e in table && e.data.borough in filtered
                && (NoSelection(selected) || e.data.borough == selected.value)
    ensures IsSubsequence(PropertiesOf(fs), table)
  {
    var kept := Filter(Filter(table, MatchesSelection(selected)), InFiltered(filtered));
    var fs := MapSeq(kept, ToFeature);
    PropertiesOfFeatures(kept, fs);
    SubsequenceTrans(kept, Filter(table, MatchesSelection(selected)), table);
    fs
  }

  lemma PropertiesOfFeatures(kept: seq<Entry>, fs: seq<Feature>)
    requires fs == MapSeq(kept, ToFeature)
    ensures PropertiesOf(fs) == kept
  {
  }

  /** The layer's features, or nothing at all when the layer is hidden. */
  function NeighborhoodFeatures(visible: bool, selected: Option<string>, filtered: seq<string>): (r: Option<seq<Feature>>)
    ensures !visible ==> r.None?
    ensures visible ==> r.Some? && |r.value| <= |NeighborhoodEntries|
    ensures visible ==> forall i | 0 <= i < |r.value| ::
              r.value[i].geometry.coordinates == r.value[i].properties.data.coordinates
    ensures visible ==> forall e ::
              e in PropertiesOf(r.value) <==>
                e in NeighborhoodEntries && e.data.borough in filtered
                && (NoSelection(selected) || e.data.borough == selected.value)
    ensures visible ==> IsSubsequence(PropertiesOf(r.value), NeighborhoodEntries)
    ensures visible ==> r.value == SelectFeatures(NeighborhoodEntries, selected, filtered)
  {
    if !visible then None
    else Some(SelectFeatures(NeighborhoodEntries, selected, filtered))
  }

  /** The two filters act as one filter by both conditions: the features
      list the selected entries in table order. */
  lemma FeaturesInTableOrder(table: seq<Entry>, selected: Option<string>, filtered: seq<string>)
    ensures PropertiesOf(SelectFeatures(table, selected, filtered))
            == Filter(table, Both(MatchesSelection(selected), InFiltered(filtered)))
  {
    var kept := Filter(Filter(table, MatchesSelection(selected)), InFiltered(filtered));
    PropertiesOfFeatures(kept, MapSeq(kept, ToFeature));
    FilterFilter(table, MatchesSelection(selected), InFiltered(filtered));
  }

  /** With no borough selected, the features depend on the filtered
      boroughs alone: null and the empty string give the same layer, and it
      holds every entry of a filtered borough. */
  lemma NoSelectionUsesFilteredOnly(table: seq<Entry>, s1: Option<string>, s2: Option<string>, filtered: seq<string>)
    requires NoSelection(s1) && NoSelection(s2)
    ensures SelectFeatures(table, s1, filtered) == SelectFeatures(table, s2, filtered)
    ensures PropertiesOf(SelectFeatures(table, s1, filtered)) == Filter(table, InFiltered(filtered))
  {
    FilterAll(table, MatchesSelection(s1));
    FilterAll(table, MatchesSelection(s2));
    var kept := Filter(table, InFiltered(filtered));
    PropertiesOfFeatures(kept, MapSeq(kept, ToFeature));
  }

  /** `circle-color`: the `case` expression on `strategic_weight`. */
  const CircleColorSteps: seq<MapExpression.Step> := [
    MapExpression.Step(80, "#1f5f1f"),
    MapExpression.Step(60, "#4caf50"),
    MapExpression.Step(40, "#ff9800"),
    MapExpression.Step(20, "#f44336")
  ]
  const CircleColorFallback := "#9e9e9e"

  /** The colour of a circle: the expression evaluated on the feature's
      strategic weight. It is the neighbourhood colour of that weight. */
  function CircleColor(f: Feature): (c: string)
    ensures c == NeighborhoodQueries.GetNeighborhoodColor(f.properties.data.strategicWeight)
  {
    CircleColorIsBandScale(f.properties.data.strategicWeight);
    MapExpression.EvalSteps(CircleColorSteps, CircleColorFallback, f.properties.data.strategicWeight)
  }

  /** The circle thresholds and colours are the neighbourhood palette's,
      band for band. */
  lemma CircleColorIsBandScale(w: int)
    ensures CircleColorSteps == MapExpression.BandSteps(NeighborhoodQueries.NeighborhoodPalette)
    ensures MapExpression.EvalSteps(CircleColorSteps, CircleColorFallback, w)
            == NeighborhoodQueries.GetNeighborhoodColor(w)
  {
    MapExpression.BandStepsMatchPalette(NeighborhoodQueries.NeighborhoodPalette, w);
  }
}
