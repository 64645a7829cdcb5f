/**
 * The static per-borough table, the strategic-weight lookup and the
 * borough colour scale.
 *
 * Rates and percentages are stored in thousandths (0.191 is 191), so that
 * every comparison made on them elsewhere is exact integer arithmetic.
 */
module BoroughData {
  import opened JsArray
  import ColorBands

  datatype Borough = Borough(
    turnoutRate: int,       // thousandths
    unaffiliatedRate: int,  // thousandths
    under30Pct: int,        // thousandths
    collegeEduPct: int,     // thousandths
    avgIncomeK: int,        // thousands of dollars
    population: int,
    registeredVoters: int,
    color: string)

  /** The table's keys in declaration order, which is the order
      `Object.keys` and `Object.entries` produce. */
  const BoroughNames: seq<string> := ["Bronx", "Brooklyn", "Manhattan", "Queens", "Staten Island"]

  const BoroughTable: map<string, Borough> := map[
    "Bronx" := Borough(191, 210, 310, 300, 47, 1472654, 892000, "#ff6b6b"),
    "Brooklyn" := Borough(275, 190, 290, 450, 75, 2736074, 1654000, "#4ecdc4"),
    "Manhattan" := Borough(334, 220, 260, 650, 100, 1694251, 1241000, "#45b7d1"),
    "Queens" := Borough(250, 200, 280, 400, 82, 2405464, 1443000, "#96ceb4"),
    "Staten Island" := Borough(224, 180, 250, 380, 96, 495747, 362000, "#ffeaa7")
  ]

  /** The table has exactly the five boroughs as keys, and its key order
      lists each of them once. */
  lemma BoroughKeys()
    ensures BoroughTable.Keys == {"Bronx", "Brooklyn", "Manhattan", "Queens", "Staten Island"}
    ensures NoDup(BoroughNames) && |BoroughNames| == 5
    ensures forall b :: b in BoroughNames <==> b in BoroughTable
  {
  }

  /** The weight of a borough by name. The formula itself is floating-point
      arithmetic and is a parameter here (`formula`, applied to the
      borough's record); what is pinned down is the lookup around it: a
      name that is not a key of the table weighs 0. */
  function CalculateStrategicWeight(name: string, formula: Borough -> int): (w: int)
    ensures name !in BoroughTable ==> w == 0
    ensures name in BoroughTable ==> w == formula(BoroughTable[name])
  {
    if name !in BoroughTable then 0
    else formula(BoroughTable[name])
  }

  /** The borough palette, lowest band first: red, orange, yellow, green,
      dark green. */
  const StrategicPalette: ColorBands.Palette := ["#f5222d", "#fa8c16", "#faad14", "#52c41a", "#2d5016"]

  /** The colour of a weight: the palette colour of the weight's band. */
  function GetStrategicColor(w: int): (c: string)
    ensures c == ColorBands.ColorOf(StrategicPalette, w)
  {
    if w >= 80 then "#2d5016"
    else if w >= 60 then "#52c41a"
    else if w >= 40 then "#faad14"
    else if w >= 20 then "#fa8c16"
    else "#f5222d"
  }

  /** The thresholds are inclusive lower bounds, every weight below 20
      (negative ones too) is red, and no other colour ever comes out. */
  lemma StrategicColorThresholds(w: int)
    ensures w >= 80 ==> GetStrategicColor(w) == "#2d5016"
    ensures 60 <= w < 80 ==> GetStrategicColor(w) == "#52c41a"
    ensures 40 <= w < 60 ==> GetStrategicColor(w) == "#faad14"
    ensures 20 <= w < 40 ==> GetStrategicColor(w) == "#fa8c16"
    ensures w < 20 ==> GetStrategicColor(w) == "#f5222d"
    ensures GetStrategicColor(w) in StrategicPalette
  {
    ColorBands.BandThresholds(w);
  }

  /** The colours of two weights are equal exactly when the weights fall in
      the same band, and a heavier weight never gets a lower band's colour. */
  lemma StrategicColorSameBand(v: int, w: int)
    ensures GetStrategicColor(v) == GetStrategicColor(w) <==> ColorBands.Band(v) == ColorBands.Band(w)
    ensures v <= w ==> ColorBands.Band(v) <= ColorBands.Band(w)
  {
    if v <= w { ColorBands.BandMonotone(v, w); }
  }
}
