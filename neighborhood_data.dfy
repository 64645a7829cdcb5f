/**
 * The static neighbourhood table.
 *
 * Rates are stored in thousandths, ages in tenths of a year and
 * coordinates in ten-thousandths of a degree, so that every value of the
 * table is an exact integer.
 */
module NeighborhoodData {
  import opened JsArray
  import BoroughData

  /** A point as [longitude, latitude]. */
  datatype Coordinates = Coordinates(lng: int, lat: int)

  datatype Neighborhood = Neighborhood(
    borough: string,
    population: int,
    turnoutRate: int,       // thousandths
    strategicWeight: int,
    avgAge: int,            // tenths of a year
    medianIncome: int,
    collegeRate: int,       // thousandths
    unaffiliatedRate: int,  // thousandths
    coordinates: Coordinates)

  /** One `[name, data]` pair of `Object.entries`. It also stands for the
      record `{ name, ...data }` that the queries return: the data has no
      field called `name`, so that record holds exactly the same values. */
  datatype Entry = Entry(name: string, data: Neighborhood)

  /** The table, in declaration order. */
  const NeighborhoodEntries: seq<Entry> := [
    Entry("Upper East Side", Neighborhood("Manhattan", 220000, 385, 72, 392, 85000, 750, 230, Coordinates(-739542, 407736))),
    Entry("Greenwich Village", Neighborhood("Manhattan", 23000, 421, 89, 358, 95000, 820, 280, Coordinates(-740034, 407336))),
    Entry("Harlem", Neighborhood("Manhattan", 233000, 298, 65, 334, 45000, 420, 190, Coordinates(-739441, 408116))),
    Entry("Lower East Side", Neighborhood("Manhattan", 165000, 356, 78, 321, 72000, 680, 310, Coordinates(-739857, 407156))),
    Entry("Williamsburg", Neighborhood("Brooklyn", 153000, 289, 83, 315, 78000, 710, 350, Coordinates(-739442, 407081))),
    Entry("Park Slope", Neighborhood("Brooklyn", 65000, 456, 91, 387, 110000, 890, 240, Coordinates(-739709, 406736))),
    Entry("Bedford-Stuyvesant", Neighborhood("Brooklyn", 230000, 234, 58, 342, 52000, 380, 170, Coordinates(-739442, 406892))),
    Entry("Crown Heights", Neighborhood("Brooklyn", 160000, 267, 62, 338, 58000, 410, 210, Coordinates(-739442, 406678))),
    Entry("Astoria", Neighborhood("Queens", 95000, 298, 75, 341, 68000, 580, 290, Coordinates(-739196, 407648))),
    Entry("Long Island City", Neighborhood("Queens", 75000, 312, 81, 326, 89000, 720, 330, Coordinates(-739442, 407505))),
    Entry("Flushing", Neighborhood("Queens", 180000, 221, 54, 413, 62000, 450, 160, Coordinates(-738303, 407648))),
    Entry("Jackson Heights", Neighborhood("Queens", 110000, 198, 48, 389, 48000, 340, 130, Coordinates(-738830, 407505))),
    Entry("South Bronx", Neighborhood("Bronx", 340000, 176, 41, 321, 35000, 220, 180, Coordinates(-739196, 408176))),
    Entry("Riverdale", Neighborhood("Bronx", 48000, 334, 69, 428, 89000, 670, 250, Coordinates(-739065, 408958))),
    Entry("Fordham", Neighborhood("Bronx", 58000, 203, 47, 337, 42000, 310, 190, Coordinates(-738983, 408621))),
    Entry("St. George", Neighborhood("Staten Island", 13000, 289, 58, 364, 72000, 520, 220, Coordinates(-740776, 406436))),
    Entry("Stapleton", Neighborhood("Staten Island", 32000, 198, 44, 381, 58000, 380, 170, Coordinates(-740776, 406276)))
  ]

  lemma TableNamesDistinct()
    ensures forall i, j :: 0 <= i < j < |NeighborhoodEntries| ==> NeighborhoodEntries[i].name != NeighborhoodEntries[j].name
  {
  }

  lemma TableNoDup()
    ensures NoDup(NeighborhoodEntries) && |NeighborhoodEntries| == 17
  {
    TableNamesDistinct();
    forall i, j | 0 <= i < j < |NeighborhoodEntries|
      ensures NeighborhoodEntries[i] != NeighborhoodEntries[j]
    {
      assert NeighborhoodEntries[i].name != NeighborhoodEntries[j].name;
    }
  }

  lemma TableBoroughsKnown()
    ensures forall e | e in NeighborhoodEntries :: e.data.borough in BoroughData.BoroughTable
  {
    forall i | 0 <= i < |NeighborhoodEntries|
      ensures NeighborhoodEntries[i].data.borough in BoroughData.BoroughTable
    {
      BoroughData.BoroughKeys();
    }
    IndexedToMembers(NeighborhoodEntries);
  }

  lemma IndexedToMembers(s: seq<Entry>)
    requires forall i | 0 <= i < |s| :: s[i].data.borough in BoroughData.BoroughTable
    ensures forall e | e in s :: e.data.borough in BoroughData.BoroughTable
  {
  }
}

/**
 * The queries over the neighbourhood table: the neighbourhoods of one
 * borough, the top neighbourhoods by a metric, and the neighbourhood
 * colour scale.
 */
module NeighborhoodQueries {
  import opened JsArray
  import opened NeighborhoodData
  import BoroughData
  import ColorBands

  function InBorough(borough: string): Entry -> bool {
    (e: Entry) => e.data.borough == borough
  }

  /** The neighbourhoods of one borough: exactly the entries whose borough
      is the given one, in table order, without repeats. A name that is not
      a borough has no neighbourhoods. */
  function GetNeighborhoodsByBorough(borough: string): (r: seq<Entry>)
    ensures forall e | e in r :: e in NeighborhoodEntries && e.data.borough == borough
    ensures forall e | e in NeighborhoodEntries && e.data.borough == borough :: e in r
    ensures IsSubsequence(r, NeighborhoodEntries)
    ensures NoDup(r)
    ensures borough !in BoroughData.BoroughTable ==> r == []
  {
    ByBoroughFacts(borough);
    Filter(NeighborhoodEntries, InBorough(borough))
  }

  lemma ByBoroughFacts(borough: string)
    ensures var r := Filter(NeighborhoodEntries, InBorough(borough));
      IsSubsequence(r, NeighborhoodEntries) && NoDup(r)
      && (borough !in BoroughData.BoroughTable ==> r == [])
  {
    TableNoDup();
    TableBoroughsKnown();
    var r := EntriesOf(NeighborhoodEntries, borough);
  }

  /** The entries of one borough in any table of distinct entries whose
      boroughs are all known. */
  function EntriesOf(table: seq<Entry>, borough: string): (r: seq<Entry>)
    requires NoDup(table)
    requires forall e | e in table :: e.data.borough in BoroughData.BoroughTable
    ensures forall e | e in r :: e in table && e.data.borough == borough
    ensures forall e | e in table && e.data.borough == borough :: e in r
    ensures IsSubsequence(r, table)
    ensures NoDup(r)
    ensures borough !in BoroughData.BoroughTable ==> r == []
  {
    FilterNoDup(table, InBorough(borough));
    var r := Filter(table, InBorough(borough));
    if borough !in BoroughData.BoroughTable then FilterNone(table, InBorough(borough)); r else r
  }

  /** The fields a metric can name: the numeric ones, and everything else. */
  datatype Metric =
    | Population | TurnoutRate | StrategicWeight | AvgAge | MedianIncome | CollegeRate | UnaffiliatedRate
    | NotNumeric

  /** Reads a metric name as a field of the table. `b[metric] - a[metric]`
      is NaN for a field that is not a number (`borough`, `coordinates`, or
      a name that is no field at all), and a comparator result of NaN
      counts as "equal". */
  function ParseMetric(metric: string): (m: Metric)
    ensures m.NotNumeric? <==> metric !in NumericFields
  {
    if metric == "population" then Population
    else if metric == "turnout_rate" then TurnoutRate
    else if metric == "strategic_weight" then StrategicWeight
    else if metric == "avg_age" then AvgAge
    else if metric == "median_income" then MedianIncome
    else if metric == "college_rate" then CollegeRate
    else if metric == "unaffiliated_rate" then UnaffiliatedRate
    else NotNumeric
  }

  /** The names of the numeric fields of a neighbourhood record. */
  const NumericFields: seq<string> :=
    ["population", "turnout_rate", "strategic_weight", "avg_age", "median_income", "college_rate", "unaffiliated_rate"]

  /** The sort key of an entry; every entry has the same key, 0, under a
      metric that is not numeric, so that sorting by it changes nothing. */
  function MetricValue(m: Metric, n: Neighborhood): (v: int)
    ensures m.Population? ==> v == n.population
    ensures m.TurnoutRate? ==> v == n.turnoutRate
    ensures m.StrategicWeight? ==> v == n.strategicWeight
    ensures m.AvgAge? ==> v == n.avgAge
    ensures m.MedianIncome? ==> v == n.medianIncome
    ensures m.CollegeRate? ==> v == n.collegeRate
    ensures m.UnaffiliatedRate? ==> v == n.unaffiliatedRate
    ensures m.NotNumeric? ==> v == 0
  {
    match m
    case Population => n.population
    case TurnoutRate => n.turnoutRate
    case StrategicWeight => n.strategicWeight
    case AvgAge => n.avgAge
    case MedianIncome => n.medianIncome
    case CollegeRate => n.collegeRate
    case UnaffiliatedRate => n.unaffiliatedRate
    case NotNumeric => 0
  }

  function MetricKey(metric: string): Entry -> int {
    var m := ParseMetric(metric);
    (e: Entry) => MetricValue(m, e.data)
  }

  const DefaultTopCount := 10
  const DefaultTopMetric := "strategic_weight"

  /** The table sorted by the metric, largest first and stably, cut after
      `count` entries (`slice(0, count)`: a negative count drops that many
      from the end). The result is a list of distinct table entries in
      non-increasing metric order, nothing left out has a larger metric
      than anything kept, and entries with equal metrics keep their table
      order. */
  function GetTopNeighborhoods(count: int, metric: string): (r: seq<Entry>)
    ensures |r| == SliceEnd(17, count)
    ensures SortedDesc(r, MetricKey(metric))
    ensures NoDup(r)
    ensures forall e | e in r :: e in NeighborhoodEntries
    ensures KeepsLargest(NeighborhoodEntries, r, MetricKey(metric))
    ensures TiesInTableOrder(NeighborhoodEntries, r, MetricKey(metric))
  {
    TableNoDup();
    TopBy(NeighborhoodEntries, count, MetricKey(metric))
  }

  /** No entry of the table that r leaves out has a larger key than an
      entry r keeps. */
  ghost predicate KeepsLargest(table: seq<Entry>, r: seq<Entry>, key: Entry -> int) {
    forall e, f | e in table && e !in r && f in r :: key(e) <= key(f)
  }

  /** `table.sort(by key, descending).slice(0, count)` for any table of
      distinct entries. */
  function TopBy(table: seq<Entry>, count: int, key: Entry -> int): (r: seq<Entry>)
    requires NoDup(table)
    ensures |r| == SliceEnd(|table|, count)
    ensures SortedDesc(r, key) && NoDup(r)
    ensures forall e | e in r :: e in table
    ensures KeepsLargest(table, r, key)
    ensures TiesInTableOrder(table, r, key)
  {
    var sorted := SortDesc(table, key);
    assert |sorted| == |table| by { assert |multiset(sorted)| == |multiset(table)|; }
    var r := SliceTo(sorted, count);
    TopIsPrefixOfSorted(sorted, r, table, key);
    SortedPrefixStable(table, count, key);
    r
  }

  /** The facts that make a prefix of a sorted permutation a top list. */
  lemma TopIsPrefixOfSorted(sorted: seq<Entry>, r: seq<Entry>, table: seq<Entry>, key: Entry -> int)
    requires multiset(sorted) == multiset(table) && SortedDesc(sorted, key) && NoDup(table)
    requires |r| <= |sorted| && r == sorted[..|r|]
    ensures SortedDesc(r, key) && NoDup(r)
    ensures forall e | e in r :: e in table
    ensures forall e, f | e in table && e !in r && f in r :: key(e) <= key(f)
  {
    MultisetNoDup(table, sorted);
    PrefixMembers(sorted, r, table);
    PrefixDominates(sorted, r, table, key);
  }

  lemma PrefixMembers(sorted: seq<Entry>, r: seq<Entry>, table: seq<Entry>)
    requires multiset(sorted) == multiset(table)
    requires |r| <= |sorted| && r == sorted[..|r|]
    ensures forall e | e in r :: e in table
  {
    forall e | e in r ensures e in table {
      assert e in sorted;
      assert e in multiset(sorted);
    }
  }

  lemma PrefixDominates(sorted: seq<Entry>, r: seq<Entry>, table: seq<Entry>, key: Entry -> int)
    requires multiset(sorted) == multiset(table) && SortedDesc(sorted, key)
    requires |r| <= |sorted| && r == sorted[..|r|]
    ensures forall e, f | e in table && e !in r && f in r :: key(e) <= key(f)
  {
    forall e, f | e in table && e !in r && f in r ensures key(e) <= key(f) {
      assert e in multiset(table);
      var i :| 0 <= i < |sorted| && sorted[i] == e;
      var j :| 0 <= j < |r| && r[j] == f;
      assert forall k | 0 <= k < |r| :: sorted[k] == r[k] && r[k] in r;
      assert sorted[j] == f;
    }
  }

  /** Ties are kept in table order: for every key value, the entries of r
      with that value are the first entries of the table with that value,
      in table order. */
  ghost predicate TiesInTableOrder(table: seq<Entry>, r: seq<Entry>, key: Entry -> int) {
    forall k :: var q := Filter(r, KeyIs(key, k));
      |q| <= |Filter(table, KeyIs(key, k))| && q == Filter(table, KeyIs(key, k))[..|q|]
  }

  /** A prefix of the stable sort of a table keeps its ties in table order. */
  lemma {:induction false} SortedPrefixStable(table: seq<Entry>, count: int, key: Entry -> int)
    ensures TiesInTableOrder(table, SliceTo(SortDesc(table, key), count), key)
  {
    var sorted := SortDesc(table, key);
    assert |sorted| == |table| by { assert |multiset(sorted)| == |multiset(table)|; }
    var e := SliceEnd(|sorted|, count);
    assert sorted == sorted[..e] + sorted[e..];
    forall k
      ensures var q := Filter(sorted[..e], KeyIs(key, k));
        |q| <= |Filter(table, KeyIs(key, k))| && q == Filter(table, KeyIs(key, k))[..|q|]
    {
      FilterAppend(sorted[..e], sorted[e..], KeyIs(key, k));
      SortDescStable(table, key, k);
    }
  }

  /** Under a metric that is not a numeric field every comparison is a
      tie, so the query keeps the table order: the first entries of the
      table, as many as the slice keeps. */
  lemma NonNumericMetricKeepsTableOrder(count: int, metric: string)
    requires metric !in NumericFields
    ensures GetTopNeighborhoods(count, metric) == NeighborhoodEntries[..SliceEnd(17, count)]
  {
    TableNoDup();
    ConstantKeyTop(NeighborhoodEntries, count, MetricKey(metric), 0);
  }

  /** When every key is the same, sort-then-slice is just the slice. */
  lemma ConstantKeyTop(table: seq<Entry>, count: int, key: Entry -> int, k: int)
    requires NoDup(table)
    requires forall e | e in table :: key(e) == k
    ensures TopBy(table, count, key) == table[..SliceEnd(|table|, count)]
  {
    var sorted := SortDesc(table, key);
    SortDescStable(table, key, k);
    FilterAll(table, KeyIs(key, k));
    forall e | e in sorted ensures KeyIs(key, k)(e) {
      assert e in multiset(sorted);
      assert e in multiset(table);
    }
    FilterAll(sorted, KeyIs(key, k));
  }

  /** With no arguments the query returns the ten entries with the largest
      strategic weight. */
  lemma DefaultTopNeighborhoods()
    ensures |GetTopNeighborhoods(DefaultTopCount, DefaultTopMetric)| == 10
    ensures SortedDesc(GetTopNeighborhoods(DefaultTopCount, DefaultTopMetric), MetricKey("strategic_weight"))
  {
  }

  /** The neighbourhood palette, lowest band first: grey, red, orange,
      green, dark green. */
  const NeighborhoodPalette: ColorBands.Palette := ["#9e9e9e", "#f44336", "#ff9800", "#4caf50", "#1f5f1f"]

  /** The colour of a weight: the palette colour of the weight's band. */
  function GetNeighborhoodColor(w: int): (c: string)
    ensures c == ColorBands.ColorOf(NeighborhoodPalette, w)
  {
    if w >= 80 then "#1f5f1f"
    else if w >= 60 then "#4caf50"
    else if w >= 40 then "#ff9800"
    else if w >= 20 then "#f44336"
    else "#9e9e9e"
  }

  /** The thresholds are inclusive lower bounds and everything below 20 is
      grey. */
  lemma NeighborhoodColorThresholds(w: int)
    ensures w >= 80 ==> GetNeighborhoodColor(w) == "#1f5f1f"
    ensures 60 <= w < 80 ==> GetNeighborhoodColor(w) == "#4caf50"
    ensures 40 <= w < 60 ==> GetNeighborhoodColor(w) == "#ff9800"
    ensures 20 <= w < 40 ==> GetNeighborhoodColor(w) == "#f44336"
    ensures w < 20 ==> GetNeighborhoodColor(w) == "#9e9e9e"
    ensures GetNeighborhoodColor(w) in NeighborhoodPalette
  {
    ColorBands.BandThresholds(w);
  }

  /** The neighbourhood and borough scales band every weight alike: each
      colour sits at the weight's band in its palette, and two weights get
      the same neighbourhood colour exactly when they get the same borough
      colour. */
  lemma SameBandAsStrategic(v: int, w: int)
    ensures NeighborhoodPalette[ColorBands.Band(w)] == GetNeighborhoodColor(w)
    ensures BoroughData.StrategicPalette[ColorBands.Band(w)] == BoroughData.GetStrategicColor(w)
    ensures GetNeighborhoodColor(v) == GetNeighborhoodColor(w)
            <==> BoroughData.GetStrategicColor(v) == BoroughData.GetStrategicColor(w)
  {
  }
}
