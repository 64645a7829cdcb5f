# MapTheVote2025 core, modelled in Dafny

MapTheVote2025 is a map of New York City's five boroughs and seventeen
sample neighbourhoods, built to plan voter outreach. This project models
the logic under its user interface and proves properties of it:

- the static borough and neighbourhood tables;
- the five-band colour scale of a strategic weight, and the map-layer
  `case` expressions that repeat it;
- the list operations behind the controls:
  - the borough checkboxes, select all / none and the range filter;
  - the neighbourhood layer's feature selection;
  - the enhancement of the borough GeoJSON, the click and hover
    transitions;
  - the side panel's ranked borough list;
- the data service:
  - a key → `{data, timestamp}` cache with a 15-minute freshness window,
    and fallback data dated back 720000 ms when a fetch fails;
  - the fixed lookup tables and the stub transformers;
  - the endpoint status check.

Modules follow the source files. Shared pieces have modules of their own:

- `JsArray`: `filter`, `map`, a stable descending `sort` and `slice`, on
  sequences;
- `ColorBands`: the one band scale;
- `MapExpression`: the stepped colour expression;
- `Optional`: null next to a present value.

Everything the program computes on those tables is modelled in whole
numbers:

- rates and percentages are thousandths (0.191 is 191);
- ages are tenths of a year;
- coordinates are ten-thousandths of a degree.

A comparison `rate * 100 >= m` with a whole-number `m` becomes
`permille >= 10 * m`, which is exact.

The clock and the network are parameters:

- `now` is the time at which a call begins;
- an `HttpOutcome` is what the network answered, and when: an ok or
  failed status with a parsed body, or a transport error;
- a `ProbeOutcome` per endpoint stands for the status check's
  fetch-with-abort.

`DataService.DataService` is a class whose `cache` map and `order` key
list stand for the JavaScript `Map`. Its methods are tied to the pure
functions `NextCache`, `Answer` and `NextOrder`, and the lemmas are proved
about those functions.

The strategic-weight formula is floating-point arithmetic. It is a
parameter `formula: Borough -> int`. What is pinned down is the lookup
around it: a name that is not a key of the table weighs 0.

A fetch falls back on a non-success status, on a transport failure, and
also when an ok response's body is not JSON, because `response.json()`
throws inside the same `try` (map-ui/src/services/dataService.js:65-98).
In the model every outcome but "ok and the body parses" falls back.

## Model

| member | source | states |
|---|---|---|
| BoroughData.BoroughKeys | map-ui/src/data/boroughData.js:1-52 | the borough table has exactly the keys Bronx, Brooklyn, Manhattan, Queens and Staten Island, and its key order lists each once |
| BoroughData.CalculateStrategicWeight | map-ui/src/data/boroughData.js:54-56 | a name that is not a key of the table weighs 0; a key weighs the formula applied to its record |
| BoroughData.GetStrategicColor | map-ui/src/data/boroughData.js:72-78 | the colour of a weight is the borough palette's colour for the weight's band |
| BoroughData.StrategicColorThresholds | map-ui/src/data/boroughData.js:72-78 | ≥80 dark green, [60,80) green, [40,60) yellow, [20,40) orange, below 20 (negative weights too) red; the result is always one of the five |
| BoroughData.StrategicColorSameBand | map-ui/src/data/boroughData.js:72-78 | two weights get the same colour exactly when they fall in the same band, and the band index never decreases as the weight grows |
| ColorBands.BandThresholds | map-ui/src/data/boroughData.js:73-77 | each of the five bands is exactly the interval between its inclusive lower threshold and the next |
| ColorBands.BandMonotone | map-ui/src/data/boroughData.js:72-78 | a larger weight never has a lower band |
| NeighborhoodData.TableNoDup | map-ui/src/data/neighborhoodData.js:3-200 | the neighbourhood table has 17 entries, none repeated |
| NeighborhoodData.TableNamesDistinct | map-ui/src/data/neighborhoodData.js:3-200 | the 17 neighbourhood names are pairwise different |
| NeighborhoodData.TableBoroughsKnown | map-ui/src/data/neighborhoodData.js:3-200 | every neighbourhood's borough is a key of the borough table |
| NeighborhoodQueries.GetNeighborhoodsByBorough | map-ui/src/data/neighborhoodData.js:202-206 | exactly the entries of that borough, each with its name, in table order, without repeats; a name that is no borough gives the empty list |
| NeighborhoodQueries.EntriesOf | map-ui/src/data/neighborhoodData.js:202-206 | the same selection for any table of distinct entries whose boroughs are all known |
| NeighborhoodQueries.GetTopNeighborhoods | map-ui/src/data/neighborhoodData.js:208-213 | as many entries as `slice(0, count)` keeps of 17 (min(count, 17) for a count ≥ 0, and 17 + count, at least 0, for a negative one); non-increasing in the metric; distinct table entries; nothing left out has a larger metric than anything kept; entries with an equal metric come in table order and are the first such entries of the table |
| NeighborhoodQueries.ParseMetric | map-ui/src/data/neighborhoodData.js:210 | `b[metric]` is a number exactly for the seven numeric field names; any other name is not numeric |
| NeighborhoodQueries.MetricValue | map-ui/src/data/neighborhoodData.js:210 | each of the seven numeric names selects its own field as the sort key, and a non-numeric name gives 0 for every entry, since a NaN comparison counts as a tie |
| NeighborhoodQueries.NonNumericMetricKeepsTableOrder | map-ui/src/data/neighborhoodData.js:208-213 | under a name that is no numeric field the query returns the first entries of the table in table order, as many as the slice keeps |
| NeighborhoodQueries.ConstantKeyTop | map-ui/src/data/neighborhoodData.js:209-211 | with one key for every entry, sort-then-slice is the plain slice |
| NeighborhoodQueries.TopBy | map-ui/src/data/neighborhoodData.js:209-211 | the same facts for sort-then-slice of any table without repeats, under any key |
| NeighborhoodQueries.SortedPrefixStable | map-ui/src/data/neighborhoodData.js:210-211 | a prefix of the stable sort keeps ties in table order |
| NeighborhoodQueries.DefaultTopNeighborhoods | map-ui/src/data/neighborhoodData.js:208 | with the defaults (10, `strategic_weight`) the query yields ten entries in non-increasing strategic weight |
| NeighborhoodQueries.GetNeighborhoodColor | map-ui/src/data/neighborhoodData.js:215-221 | the colour of a weight is the neighbourhood palette's colour for the weight's band |
| NeighborhoodQueries.NeighborhoodColorThresholds | map-ui/src/data/neighborhoodData.js:215-221 | ≥80 `#1f5f1f`, [60,80) `#4caf50`, [40,60) `#ff9800`, [20,40) `#f44336`, below 20 `#9e9e9e` |
| NeighborhoodQueries.SameBandAsStrategic | map-ui/src/data/neighborhoodData.js:215-221 | both colour functions pick the colour at the weight's band index, so two weights share a neighbourhood colour exactly when they share a borough colour |
| JsArray.SortDescStable | map-ui/src/data/neighborhoodData.js:210 | the descending sort keeps, for every key value, the elements with that value in their original order and all of them |
| JsArray.SortDesc | map-ui/src/components/SidePanel.jsx:135 | the sort result is a permutation of its input and is non-increasing in the key |
| JsArray.SliceEnd | map-ui/src/data/neighborhoodData.js:211 | the end index of `slice(0, end)`: clamped to the length, and counted back from the end when negative |
| JsArray.Filter | map-ui/src/components/FilterControls.jsx:36 | the elements that satisfy the predicate, no others, in their original order |
| FilterControls.ToggleBorough | map-ui/src/components/FilterControls.jsx:19-25 | a selected name is removed, every occurrence of it, and the rest keep their order; any other name is appended at the end |
| FilterControls.ToggleMembership | map-ui/src/components/FilterControls.jsx:19-25 | a toggle flips the toggled name's membership and leaves every other name's membership as it was |
| FilterControls.ToggleRemovesOnly | map-ui/src/components/FilterControls.jsx:20-21 | removing a selected name filters out exactly that name and shortens the list |
| FilterControls.ToggleTwiceAbsent | map-ui/src/components/FilterControls.jsx:20-23 | toggling an unselected name twice gives back the original list |
| FilterControls.ToggleTwicePresent | map-ui/src/components/FilterControls.jsx:20-23 | toggling a selected name twice moves it, once, to the end |
| FilterControls.ToggleNoDup | map-ui/src/components/FilterControls.jsx:20-23 | a selection without repeats stays without repeats |
| FilterControls.SelectAll | map-ui/src/components/FilterControls.jsx:17-29 | "All" selects every borough of the table, each once, in table order |
| FilterControls.DeselectAll | map-ui/src/components/FilterControls.jsx:31-33 | "None" selects nothing |
| FilterControls.InitialFilters | map-ui/src/components/FilterControls.jsx:6-15 | the rate ranges start at 0–100, and the income range is the smallest and largest income in the table |
| FilterControls.InitialIncomeRange | map-ui/src/components/FilterControls.jsx:9-10 | that income range is 47 to 100 |
| FilterControls.MinOf | map-ui/src/components/FilterControls.jsx:9 | the minimum is a member no larger than any other |
| FilterControls.MaxOf | map-ui/src/components/FilterControls.jsx:10 | the maximum is a member no smaller than any other |
| FilterControls.ApplyFilters | map-ui/src/components/FilterControls.jsx:35-50 | exactly the boroughs whose four fields all lie in their inclusive ranges, in table order, without repeats |
| FilterControls.InitialFiltersKeepAll | map-ui/src/components/FilterControls.jsx:6-48 | with the initial ranges every borough passes, in table order |
| FilterControls.WideFiltersKeepAll | map-ui/src/components/FilterControls.jsx:35-48 | ranges covering 0–100% and the table's income range keep every borough |
| FilterControls.RatesArePercentages | map-ui/src/data/boroughData.js:1-52 | every turnout, under-30 and unaffiliated rate of the table lies between 0% and 100% |
| FilterControls.ApplyFiltersMonotone | map-ui/src/components/FilterControls.jsx:38-47 | widening the ranges never drops a borough |
| NeighborhoodLayer.NeighborhoodFeatures | map-ui/src/components/NeighborhoodLayer.jsx:10-29 | a hidden layer gives nothing; a shown one gives the entries whose borough is filtered in and is the selected one when a borough is selected, in table order, at most 17, each a point at the entry's own coordinates carrying the name and all fields |
| NeighborhoodLayer.SelectFeatures | map-ui/src/components/NeighborhoodLayer.jsx:15-28 | the same selection for any table |
| NeighborhoodLayer.FeaturesInTableOrder | map-ui/src/components/NeighborhoodLayer.jsx:15-17 | the two filters are one filter by both conditions, so the features follow table order |
| NeighborhoodLayer.NoSelectionUsesFilteredOnly | map-ui/src/components/NeighborhoodLayer.jsx:16-17 | with no borough selected (null or empty), the features depend only on the filtered boroughs |
| NeighborhoodLayer.CircleColor | map-ui/src/components/NeighborhoodLayer.jsx:45-52 | a circle's colour is the neighbourhood colour of its strategic weight |
| NeighborhoodLayer.CircleColorIsBandScale | map-ui/src/components/NeighborhoodLayer.jsx:45-52 | the circle expression's thresholds and colours are the neighbourhood palette's, band for band |
| MapExpression.EvalSteps | map-ui/src/components/NeighborhoodLayer.jsx:46-51 | a stepped `case` gives the colour of the first step whose threshold the value reaches, and the fallback when it reaches none |
| MapExpression.BandStepsMatchPalette | map-ui/src/components/NYCMap.jsx:73-77 | the steps at 80, 60, 40 and 20 give a palette's band colour for every value |
| NYCMap.BoroughInfo | map-ui/src/components/NYCMap.jsx:32 | a feature's record is present exactly when its name is a key of the borough table, and is that key's record |
| NYCMap.EnhanceFeatures | map-ui/src/components/NYCMap.jsx:30-53 | the features keep their number and order, and their `BoroName`, geometry and other properties are carried through; each gets its borough's record when there is one, `isFiltered` exactly when its `BoroName` is filtered in, its weight, and the colour of that weight |
| NYCMap.UnknownBoroughFeature | map-ui/src/components/NYCMap.jsx:31-44 | a feature of an unknown borough gets no record, weight 0 and red, `#f5222d` |
| NYCMap.EnhanceAppend | map-ui/src/components/NYCMap.jsx:30 | each feature is enhanced independently of the others |
| NYCMap.GetColorExpression | map-ui/src/components/NYCMap.jsx:65-99 | before the GeoJSON loads, and for an unknown mode, a flat `#cccccc`; otherwise a `case` that colours unfiltered features `#e5e5e5` first |
| NYCMap.ModeExpressions | map-ui/src/components/NYCMap.jsx:69-96 | the three mode names `strategic`, `turnout` and `demographics` dispatch to their own branches of the switch |
| NYCMap.FieldValue | map-ui/src/components/NYCMap.jsx:72-94 | `['get', …]`: the weight is always there; the turnout rate and the under-30 share are there exactly when the feature has a borough record, and are that record's values |
| NYCMap.EvalColor | map-ui/src/components/NYCMap.jsx:70-96 | a flat colour is used as it is; an unfiltered feature gets the unfiltered colour; a missing property makes the expression fail |
| NYCMap.StrategicExpressionMatches | map-ui/src/components/NYCMap.jsx:69-78 | in strategic mode an unfiltered feature is `#e5e5e5` whatever its weight, and a filtered one gets the borough colour of its weight |
| NYCMap.EnhancedStrategicColor | map-ui/src/components/NYCMap.jsx:44-78 | a filtered enhanced feature is drawn in the colour the enhancement stored on it |
| NYCMap.TurnoutExpressionBands | map-ui/src/components/NYCMap.jsx:79-87 | in turnout mode a filtered borough is coloured at 30%, 25% and 20% turnout, inclusive; a feature without a record cannot be evaluated |
| NYCMap.DemographicsExpressionBands | map-ui/src/components/NYCMap.jsx:88-96 | in demographics mode a filtered borough is coloured at 30%, 28% and 26% under-30 share, inclusive |
| NYCMap.HandleClick | map-ui/src/components/NYCMap.jsx:102-108 | no feature: the selection stays; the selected borough: cleared; any other borough: selected |
| NYCMap.ClickTwice | map-ui/src/components/NYCMap.jsx:106 | two clicks on one borough restore it if it was selected and clear the selection otherwise |
| NYCMap.HandleHover | map-ui/src/components/NYCMap.jsx:110-124 | no feature: cleared; the same borough as the current hover: unchanged; otherwise the new hover |
| NYCMap.HoverSettles | map-ui/src/components/NYCMap.jsx:111-120 | after a hover over a feature the state shows its borough, and the same event again changes nothing |
| NYCMap.HandleMouseLeave | map-ui/src/components/NYCMap.jsx:126-128 | leaving the map clears the hover |
| SidePanel.PanelBoroughs | map-ui/src/components/SidePanel.jsx:133-135 | exactly the table's boroughs that occur in the filtered list, each once and at most five, never a name that is no borough, in non-increasing strategic weight |
| SidePanel.FilterAndRank | map-ui/src/components/SidePanel.jsx:133-135 | the same for any list of names without repeats and any weight |
| SidePanel.PanelKeepsTies | map-ui/src/components/SidePanel.jsx:135 | boroughs of equal weight keep table order |
| SidePanel.EqualWeightsKeepTableOrder | map-ui/src/components/SidePanel.jsx:133-135 | when every name is filtered in and all weights are equal, the list is the table order |
| DataService.FallbackTablesCoverBoroughs | map-ui/src/services/dataService.js:5-50 | both fallback tables have one row per borough, in the same order |
| DataService.ProcessElectionData | map-ui/src/services/dataService.js:132-141 | the fallback election table for every input, array or not, empty or not |
| DataService.ProcessDemographicData | map-ui/src/services/dataService.js:143-151 | the fallback demographic table for every input |
| DataService.GetPollingStationCount | map-ui/src/services/dataService.js:189-198 | the table value for the five boroughs, 0 for any other name |
| DataService.GetEarlyVotingSites | map-ui/src/services/dataService.js:200-209 | the table value for the five boroughs, 0 for any other name |
| DataService.LookupTablesCoverBoroughs | map-ui/src/services/dataService.js:189-209 | both tables know the five boroughs, and a count is positive exactly for them |
| DataService.IsHit | map-ui/src/services/dataService.js:60-61 | a hit is an entry for the key younger than the 15-minute window |
| DataService.NextCache | map-ui/src/services/dataService.js:58-99 | after the cached fetch the key holds its old entry on a hit and the stored one on a miss; every other key is unchanged |
| DataService.Answer | map-ui/src/services/dataService.js:58-99 | the answer is always the data the cache holds for the key after the call |
| DataService.LookupOrZero | map-ui/src/services/dataService.js:197 | the lookup falling back to 0: the table value for a key, 0 for any other name |
| DataService.StoredEntry | map-ui/src/services/dataService.js:80-95 | a success stores the payload stamped at its arrival; any failure stores the fallback stamped 720000 ms earlier |
| DataService.HitUsesCache | map-ui/src/services/dataService.js:60-63 | an existing entry younger than 900000 ms answers its data and leaves the cache unchanged |
| DataService.SuccessStoresPayload | map-ui/src/services/dataService.js:74-86 | a miss followed by a successful fetch answers the payload and maps the key to (payload, arrival time), every other key unchanged |
| DataService.FailureStoresFallback | map-ui/src/services/dataService.js:74-98 | a miss followed by any failure answers the fallback and maps the key to (fallback, failure time − 720000); no error comes out |
| DataService.FreshnessWindows | map-ui/src/services/dataService.js:61-94 | a stored fallback is a hit exactly while less than 180000 ms have passed, a stored payload while less than 900000 ms have passed |
| DataService.CacheGrowsByAtMostOne | map-ui/src/services/dataService.js:60-98 | after any call the key is present, only that key can be new, and every other key keeps its entry |
| DataService.SecondCallHits | map-ui/src/services/dataService.js:58-95 | a second call inside the stored entry's window does not fetch, leaves the cache alone and answers what the first call answered |
| DataService.NextOrder | map-ui/src/services/dataService.js:80-95 | a new key goes last in the key order, and a key already present keeps its place |
| DataService.NeighborhoodDataResult | map-ui/src/services/dataService.js:153-166 | the parsed body of an ok response, and null for anything else |
| DataService.DataService.constructor | map-ui/src/services/dataService.js:53-56 | an empty cache with the 15-minute timeout |
| DataService.DataService.SetEntry | map-ui/src/services/dataService.js:80-95 | `Map.set`: the key now maps to the entry, and the key order is the Map's insertion order |
| DataService.DataService.FetchWithFallback | map-ui/src/services/dataService.js:58-99 | fetches exactly on a miss; the answer and the new cache are `Answer` and `NextCache` of the old cache, and the key order is the Map's |
| DataService.DataService.GetElectionData | map-ui/src/services/dataService.js:101-115 | the answer is the fallback election table, and the cache and the key order are updated as by the cached fetch |
| DataService.DataService.GetDemographicData | map-ui/src/services/dataService.js:117-130 | the answer is the fallback demographic table, and the cache and the key order are updated as by the cached fetch |
| DataService.DataService.CheckAPIStatus | map-ui/src/services/dataService.js:212-240 | every listed endpoint, and only those, gets an entry: false on failure or abort, otherwise the status's `ok` |
| DataService.DataService.ClearCache | map-ui/src/services/dataService.js:243-245 | the cache is empty afterwards |
| DataService.DataService.GetCacheStats | map-ui/src/services/dataService.js:248-254 | the size, the cached keys in insertion order, each once, and the timeout 900000 |

## Left out

- Network and clock. `fetch`, `response.json()`, `AbortController`, `setTimeout` and `Date.now()` are parameters. The URLs are only the fetch's target, so the model drops them.
- Concurrency. Each call to the service is one atomic step. Two overlapping fetches for one key, where the last write wins, are not modelled.
- `getLiveVotingData` (map-ui/src/services/dataService.js:168-187). It depends on `Math.random` and the current date.
- The strategic-weight formula and its `Math.round` (map-ui/src/data/boroughData.js:58-69). They are floating-point arithmetic, so the formula is a parameter.
- Floating-point scaling. `rate * 100` in the range filter and the colour expressions is compared exactly here. IEEE doubles can differ from exact arithmetic at a boundary. For example, 0.29 × 100 is 28.999999999999996 in doubles, so `minUnder30 = 29` would drop Brooklyn in the program but not in the model. Such values lie in the under-30 field, whose range no slider changes.
- Object.prototype names. In the lookup objects, a name such as `toString` or `constructor` finds an inherited function rather than nothing. The model treats every name that is not a borough alike.
- The averages in MetricsOverview.jsx. They divide by a hard-coded 5 in floating point.
- FilterControls.MinOf: requires a non-empty list. `Math.min` of no values is `Infinity`, which the five-row table never produces; the same holds for MaxOf.
- Duplicates. The same toggle exists in Sidebar.jsx:14-20 and Dashboard.jsx:11-17. MapView.jsx:20-51 repeats the enhancement and the click handler. `ToggleBorough`, `EnhanceFeatures` and `HandleClick` model those copies too.
- Dead and tooling code. map-ui/src/NYCMap.jsx is not part of this model: it is dead code, and broken. main.py is not modelled either; it is plotting and data-loading plumbing.
- NYCMap.EnhanceFeatures: assumes a GeoJSON feature's own property names differ from the table's fields and from `strategicWeight`, `strategicColor` and `isFiltered`. The source spreads the record and the computed values over the feature's properties, so a clashing name would be overwritten; the model keeps the feature's own properties apart. For the same reason `NYCMap.FieldValue` fails on a feature without a record even if the feature carried its own `turnout_rate` or `under30_pct`.
- Rendering. JSX markup, legends, popups, map styles, `circle-radius` interpolation and labels are not modelled.
- Unreachable branches. `getElectionData` and `getDemographicData` have `catch` branches that would return the fallback. The cached fetch never throws, so they cannot run.
- The panel-expand flag and the filter-panel expand flag are presentation state.
- JSON numbers are kept as exact decimals. A JSON body is a value; parsing it is left to the outcome parameter.
