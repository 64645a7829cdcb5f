/**
 * The borough map: the enhancement of the loaded borough GeoJSON with the
 * table's data, the fill-colour expression of each view mode, and the
 * click and hover transitions.
 *
 * Loading the GeoJSON, the popup and the rest of the rendering are left
 * out; a feature's own geometry and properties other than `BoroName` are
 * carried through as an opaque value of type G.
 */
module NYCMap {
  import opened JsArray
  import opened Optional
  import opened BoroughData
  import MapExpression

  /** A loaded borough feature: its `BoroName` property and everything else
      it carries. */
  datatype GeoFeature<G> = GeoFeature(boroName: string, rest: G)

  /** A feature after enhancement: the original feature, the borough's
      table record when there is one, and the three computed properties. */
  datatype EnhancedFeature<G> = EnhancedFeature(
    boroName: string,
    rest: G,
    info: Option<Borough>,
    strategicWeight: int,
    strategicColor: string,
    isFiltered: bool)

  /** The record `boroughData[name]`, absent for a name that is no key. */
  function BoroughInfo(name: string): (r: Option<Borough>)
    ensures r.Some? <==> name in BoroughTable
    ensures r.Some? ==> r.value == BoroughTable[name]
  {
    if name in BoroughTable then Some(BoroughTable[name]) else None
  }

  function EnhanceFeature<G>(f: GeoFeature<G>, filtered: seq<string>, formula: Borough -> int): EnhancedFeature<G> {
    var w := CalculateStrategicWeight(f.boroName, formula);
    EnhancedFeature(f.boroName, f.rest, BoroughInfo(f.boroName), w, GetStrategicColor(w), f.boroName in filtered)
  }

  /** The enhancement keeps the features and their order, attaches the
      borough's record, marks each feature filtered exactly when its borough
      is one of the filtered boroughs, and colours it by its weight. */
  function EnhanceFeatures<G>(features: seq<GeoFeature<G>>, filtered: seq<string>, formula: Borough -> int): (r: seq<EnhancedFeature<G>>)
    ensures |r| == |features|
    ensures forall i | 0 <= i < |r| ::
              r[i].boroName == features[i].boroName && r[i].rest == features[i].rest
              && r[i].isFiltered == (features[i].boroName in filtered)
              && r[i].info == BoroughInfo(features[i].boroName)
              && r[i].strategicWeight == CalculateStrategicWeight(features[i].boroName, formula)
              && r[i].strategicColor == GetStrategicColor(r[i].strategicWeight)
  {
    MapSeq(features, (f: GeoFeature<G>) => EnhanceFeature(f, filtered, formula))
  }

  /** A feature whose borough is not in the table gets no record, weight 0
      and the lowest band's colour, whatever the formula. */
  lemma UnknownBoroughFeature<G>(features: seq<GeoFeature<G>>, filtered: seq<string>, formula: Borough -> int, i: int)
    requires 0 <= i < |features| && features[i].boroName !in BoroughTable
    ensures var r := EnhanceFeatures(features, filtered, formula)[i];
            r.info == None && r.strategicWeight == 0 && r.strategicColor == "#f5222d"
  {
  }

  /** Enhancing a concatenation enhances each part: every feature is
      enhanced on its own. */
  lemma EnhanceAppend<G>(a: seq<GeoFeature<G>>, b: seq<GeoFeature<G>>, filtered: seq<string>, formula: Borough -> int)
    ensures EnhanceFeatures(a + b, filtered, formula) == EnhanceFeatures(a, filtered, formula) + EnhanceFeatures(b, filtered, formula)
  {
    var r := EnhanceFeatures(a + b, filtered, formula);
    var s := EnhanceFeatures(a, filtered, formula) + EnhanceFeatures(b, filtered, formula);
    assert |r| == |s|;
    forall i | 0 <= i < |r| ensures r[i] == s[i] {
      if i < |a| {
        assert (a + b)[i] == a[i];
      } else {
        assert (a + b)[i] == b[i - |a|];
      }
    }
  }

  /** The view modes; any other mode name falls to the default branch. */
  datatype ViewMode = Strategic | Turnout | Demographics | OtherMode

  function ParseViewMode(mode: string): ViewMode {
    if mode == "strategic" then Strategic
    else if mode == "turnout" then Turnout
    else if mode == "demographics" then Demographics
    else OtherMode
  }

  /** The numeric feature property a colour expression reads. */
  datatype Field = WeightField | TurnoutField | Under30Field

  /** A fill colour: one colour for every feature, or a `case` that first
      colours unfiltered features and then steps on one property. */
  datatype ColorExpr =
    | Flat(color: string)
    | FilteredCase(unfiltered: string, field: Field, steps: seq<MapExpression.Step>, fallback: string)

  const UnfilteredColor := "#e5e5e5"
  const NoDataColor := "#cccccc"

  /** The strategic steps, on the weight. */
  const StrategicSteps: seq<MapExpression.Step> := [
    MapExpression.Step(80, "#2d5016"),
    MapExpression.Step(60, "#52c41a"),
    MapExpression.Step(40, "#faad14"),
    MapExpression.Step(20, "#fa8c16")
  ]

  /** The turnout steps: `turnout_rate * 100 >= 30` and so on, on the rate
      in thousandths. */
  const TurnoutSteps: seq<MapExpression.Step> := [
    MapExpression.Step(300, "#1890ff"),
    MapExpression.Step(250, "#40a9ff"),
    MapExpression.Step(200, "#69c0ff")
  ]

  /** The demographics steps: `under30_pct * 100 >= 30`, 28 and 26, on the
      share in thousandths. */
  const DemographicsSteps: seq<MapExpression.Step> := [
    MapExpression.Step(300, "#722ed1"),
    MapExpression.Step(280, "#9254de"),
    MapExpression.Step(260, "#b37feb")
  ]

  /** The fill colour for a view mode; a flat grey until the GeoJSON has
      loaded and for a mode with no branch of its own. */
  function GetColorExpression(geoLoaded: bool, mode: string): (e: ColorExpr)
    ensures !geoLoaded || ParseViewMode(mode) == OtherMode ==> e == Flat(NoDataColor)
    ensures geoLoaded && ParseViewMode(mode) != OtherMode ==> e.FilteredCase? && e.unfiltered == UnfilteredColor
  {
    if !geoLoaded then Flat(NoDataColor)
    else match ParseViewMode(mode)
      case Strategic => FilteredCase(UnfilteredColor, WeightField, StrategicSteps, "#f5222d")
      case Turnout => FilteredCase(UnfilteredColor, TurnoutField, TurnoutSteps, "#91d5ff")
      case Demographics => FilteredCase(UnfilteredColor, Under30Field, DemographicsSteps, "#d3adf7")
      case OtherMode => Flat(NoDataColor)
  }

  /** The three mode names select their own expressions. */
  lemma ModeExpressions()
    ensures GetColorExpression(true, "strategic") == FilteredCase(UnfilteredColor, WeightField, StrategicSteps, "#f5222d")
    ensures GetColorExpression(true, "turnout") == FilteredCase(UnfilteredColor, TurnoutField, TurnoutSteps, "#91d5ff")
    ensures GetColorExpression(true, "demographics") == FilteredCase(UnfilteredColor, Under30Field, DemographicsSteps, "#d3adf7")
  {
    assert ParseViewMode("strategic") == Strategic;
    assert ParseViewMode("turnout") == Turnout;
    assert ParseViewMode("demographics") == Demographics;
  }

  /** `['get', field]`: the weight is always set; the two rates exist only
      on a feature whose borough has a record. */
  function FieldValue<G>(field: Field, f: EnhancedFeature<G>): (v: Option<int>)
    ensures field == WeightField ==> v == Some(f.strategicWeight)
    ensures field != WeightField ==> (v.Some? <==> f.info.Some?)
    ensures field == TurnoutField && f.info.Some? ==> v.value == f.info.value.turnoutRate
    ensures field == Under30Field && f.info.Some? ==> v.value == f.info.value.under30Pct
  {
    match field
    case WeightField => Some(f.strategicWeight)
    case TurnoutField => if f.info.Some? then Some(f.info.value.turnoutRate) else None
    case Under30Field => if f.info.Some? then Some(f.info.value.under30Pct) else None
  }

  /** The colour an expression gives a feature. None stands for an
      expression that fails to evaluate (arithmetic on a missing property),
      for which the layer's default colour is used instead. */
  function EvalColor<G>(e: ColorExpr, f: EnhancedFeature<G>): (c: Option<string>)
    ensures e.Flat? ==> c == Some(e.color)
    ensures e.FilteredCase? && !f.isFiltered ==> c == Some(e.unfiltered)
    ensures e.FilteredCase? && f.isFiltered && FieldValue(e.field, f).None? ==> c.None?
  {
    match e
    case Flat(color) => Some(color)
    case FilteredCase(unfiltered, field, steps, fallback) =>
      if !f.isFiltered then Some(unfiltered)
      else match FieldValue(field, f)
        case None => None
        case Some(v) => Some(MapExpression.EvalSteps(steps, fallback, v))
  }

  /** In strategic mode an unfiltered feature is light grey whatever its
      weight, and a filtered one gets the borough colour of its weight, the
      same colour the enhancement stored on it. */
  lemma StrategicExpressionMatches<G>(f: EnhancedFeature<G>)
    ensures !f.isFiltered ==> EvalColor(GetColorExpression(true, "strategic"), f) == Some(UnfilteredColor)
    ensures f.isFiltered ==> EvalColor(GetColorExpression(true, "strategic"), f) == Some(GetStrategicColor(f.strategicWeight))
  {
    ModeExpressions();
    MapExpression.BandStepsMatchPalette(StrategicPalette, f.strategicWeight);
    assert StrategicSteps == MapExpression.BandSteps(StrategicPalette);
  }

  /** Enhanced features are drawn in their stored colour in strategic mode
      when they are filtered in. */
  lemma EnhancedStrategicColor<G>(features: seq<GeoFeature<G>>, filtered: seq<string>, formula: Borough -> int, i: int)
    requires 0 <= i < |features| && features[i].boroName in filtered
    ensures var r := EnhanceFeatures(features, filtered, formula)[i];
            EvalColor(GetColorExpression(true, "strategic"), r) == Some(r.strategicColor)
  {
    StrategicExpressionMatches(EnhanceFeatures(features, filtered, formula)[i]);
  }

  /** In turnout mode a filtered borough with a record is coloured by its
      turnout rate at 30%, 25% and 20%, inclusive; a filtered feature with
      no record cannot be evaluated. */
  lemma TurnoutExpressionBands<G>(f: EnhancedFeature<G>)
    requires f.isFiltered
    ensures f.info.None? ==> EvalColor(GetColorExpression(true, "turnout"), f).None?
    ensures f.info.Some? ==>
      var t := f.info.value.turnoutRate;
      EvalColor(GetColorExpression(true, "turnout"), f)
        == Some(if t >= 300 then "#1890ff" else if t >= 250 then "#40a9ff" else if t >= 200 then "#69c0ff" else "#91d5ff")
  {
    ModeExpressions();
    var e := GetColorExpression(true, "turnout");
    if f.info.Some? {
      var v := f.info.value.turnoutRate;
      assert FieldValue(TurnoutField, f) == Some(v);
      assert EvalColor(e, f) == Some(MapExpression.EvalSteps(TurnoutSteps, "#91d5ff", v));
      var a, b, c := MapExpression.Step(300, "#1890ff"), MapExpression.Step(250, "#40a9ff"), MapExpression.Step(200, "#69c0ff");
      assert TurnoutSteps == [a, b, c];
      MapExpression.EvalThreeSteps(a, b, c, "#91d5ff", v);
    }
  }

  /** In demographics mode a filtered borough with a record is coloured by
      its under-30 share at 30%, 28% and 26%, inclusive. */
  lemma DemographicsExpressionBands<G>(f: EnhancedFeature<G>)
    requires f.isFiltered
    ensures f.info.None? ==> EvalColor(GetColorExpression(true, "demographics"), f).None?
    ensures f.info.Some? ==>
      var u := f.info.value.under30Pct;
      EvalColor(GetColorExpression(true, "demographics"), f)
        == Some(if u >= 300 then "#722ed1" else if u >= 280 then "#9254de" else if u >= 260 then "#b37feb" else "#d3adf7")
  {
    ModeExpressions();
    var e := GetColorExpression(true, "demographics");
    if f.info.Some? {
      var v := f.info.value.under30Pct;
      assert FieldValue(Under30Field, f) == Some(v);
      assert EvalColor(e, f) == Some(MapExpression.EvalSteps(DemographicsSteps, "#d3adf7", v));
      var a, b, c := MapExpression.Step(300, "#722ed1"), MapExpression.Step(280, "#9254de"), MapExpression.Step(260, "#b37feb");
      assert DemographicsSteps == [a, b, c];
      MapExpression.EvalThreeSteps(a, b, c, "#d3adf7", v);
    }
  }

  /** The next selection after a click: nothing changes without a feature
      under the pointer; clicking the selected borough clears the
      selection; clicking any other borough selects it. */
  function HandleClick(selected: Option<string>, clicked: Option<string>): (r: Option<string>)
    ensures clicked.None? ==> r == selected
    ensures clicked.Some? && selected == clicked ==> r.None?
    ensures clicked.Some? && selected != clicked ==> r == clicked
  {
    match clicked
    case None => selected
    case Some(b) => if selected == Some(b) then None else Some(b)
  }

  /** Clicking the same borough twice returns to it being selected if it
      was, and to no selection otherwise. */
  lemma ClickTwice(selected: Option<string>, b: string)
    ensures HandleClick(HandleClick(selected, Some(b)), Some(b)) == if selected == Some(b) then Some(b) else None
  {
  }

  /** The hover state: where the pointer is and which borough feature is
      under it. */
  datatype HoverInfo<F> = HoverInfo(longitude: int, latitude: int, boroName: string, feature: F)

  /** The next hover state, given the hover the event would show (if a
      feature is under the pointer): cleared without a feature, kept while
      the pointer stays on the same borough, replaced otherwise. */
  function HandleHover<F>(hover: Option<HoverInfo<F>>, event: Option<HoverInfo<F>>): (r: Option<HoverInfo<F>>)
    ensures event.None? ==> r.None?
    ensures event.Some? && hover.Some? && hover.value.boroName == event.value.boroName ==> r == hover
    ensures event.Some? && (hover.None? || hover.value.boroName != event.value.boroName) ==> r == event
  {
    match event
    case None => None
    case Some(e) =>
      if hover.Some? && hover.value.boroName == e.boroName then hover else event
  }

  /** After a hover over a feature, the state shows that feature's borough,
      and the same event again changes nothing. */
  lemma HoverSettles<F>(hover: Option<HoverInfo<F>>, event: Option<HoverInfo<F>>)
    ensures event.Some? ==> HandleHover(hover, event).Some? && HandleHover(hover, event).value.boroName == event.value.boroName
    ensures HandleHover(HandleHover(hover, event), event) == HandleHover(hover, event)
  {
  }

  /** Leaving the map clears the hover state. */
  function HandleMouseLeave<F>(): (r: Option<HoverInfo<F>>)
    ensures r.None?
  {
    None
  }
}
