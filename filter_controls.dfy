/**
 * The borough filter panel: the per-borough checkbox toggle, select all and
 * select none, and the range filter over the borough table.
 *
 * Each handler computes the next list of selected borough names from the
 * current one; handing it to the component state setter is left out.
 */
module FilterControls {
  import opened JsArray
  import opened BoroughData

  /** Keeps the names other than `borough`. */
  function Other(borough: string): string -> bool {
    (x: string) => x != borough
  }

  /** The checkbox handler: a name already selected is removed (every
      occurrence of it), any other name is appended at the end. */
  function ToggleBorough(selected: seq<string>, borough: string): (r: seq<string>)
    ensures borough in selected ==> borough !in r && IsSubsequence(r, selected)
    ensures borough !in selected ==> r == selected + [borough]
  {
    if borough in selected then Filter(selected, Other(borough))
    else selected + [borough]
  }

  /** A toggle flips the toggled name's membership and no other name's. */
  lemma ToggleMembership(selected: seq<string>, borough: string, x: string)
    ensures x == borough ==> (x in ToggleBorough(selected, borough) <==> x !in selected)
    ensures x != borough ==> (x in ToggleBorough(selected, borough) <==> x in selected)
  {
  }

  /** Removing a name keeps the others in their order. */
  lemma ToggleRemovesOnly(selected: seq<string>, borough: string)
    requires borough in selected
    ensures ToggleBorough(selected, borough) == Filter(selected, Other(borough))
    ensures |ToggleBorough(selected, borough)| < |selected|
  {
    var i :| 0 <= i < |selected| && selected[i] == borough;
    assert selected == selected[..i] + [borough] + selected[i + 1..];
    FilterAppend(selected[..i] + [borough], selected[i + 1..], Other(borough));
    FilterAppend(selected[..i], [borough], Other(borough));
    FilterSingle(borough, Other(borough));
  }

  /** Toggling an unselected name twice gives back the original list. */
  lemma {:induction false} ToggleTwiceAbsent(selected: seq<string>, borough: string)
    requires borough !in selected
    ensures ToggleBorough(ToggleBorough(selected, borough), borough) == selected
  {
    FilterAppend(selected, [borough], Other(borough));
    FilterAll(selected, Other(borough));
    FilterSingle(borough, Other(borough));
  }

  /** Toggling a selected name twice moves it to the end, with every
      duplicate of it dropped. */
  lemma ToggleTwicePresent(selected: seq<string>, borough: string)
    requires borough in selected
    ensures ToggleBorough(ToggleBorough(selected, borough), borough) == Filter(selected, Other(borough)) + [borough]
  {
  }

  /** A list without repeats stays without repeats. */
  lemma {:induction false} ToggleNoDup(selected: seq<string>, borough: string)
    requires NoDup(selected)
    ensures NoDup(ToggleBorough(selected, borough))
  {
    if borough in selected {
      FilterNoDup(selected, Other(borough));
    } else {
      var r := selected + [borough];
      forall i, j | 0 <= i < j < |r| ensures r[i] != r[j] {
        if j == |selected| {
          assert r[i] == selected[i];
        } else {
          assert r[i] == selected[i] && r[j] == selected[j];
        }
      }
    }
  }

  /** "All": every borough of the table, in table order, each once. */
  function SelectAll(): (r: seq<string>)
    ensures r == BoroughNames
    ensures forall b :: b in r <==> b in BoroughTable
    ensures NoDup(r) && |r| == |BoroughTable.Keys|
  {
    BoroughKeys();
    NoDupCardinality(BoroughNames, BoroughTable.Keys);
    BoroughNames
  }

  /** "None": no borough at all. */
  function DeselectAll(): (r: seq<string>)
    ensures forall b :: b !in r
  {
    []
  }

  /** The slider state: whole-number percentages for the three rates and
      thousands of dollars for income, each an inclusive range. */
  datatype Filters = Filters(
    minTurnout: int, maxTurnout: int,
    minIncome: int, maxIncome: int,
    minUnder30: int, maxUnder30: int,
    minUnaffiliated: int, maxUnaffiliated: int)

  /** The average incomes of the named boroughs, in the names' order. */
  function IncomesOf(names: seq<string>): (r: seq<int>)
    requires forall b | b in names :: b in BoroughTable
    ensures |r| == |names|
    ensures forall i | 0 <= i < |names| :: r[i] == BoroughTable[names[i]].avgIncomeK
  {
    if names == [] then [] else [BoroughTable[names[0]].avgIncomeK] + IncomesOf(names[1..])
  }

  /** `Math.min` of a non-empty list: a member no larger than any other. */
  function MinOf(s: seq<int>): (m: int)
    requires s != []
    ensures m in s && forall x | x in s :: m <= x
  {
    if |s| == 1 then s[0]
    else
      assert s == [s[0]] + s[1..];
      var m := MinOf(s[1..]); if s[0] <= m then s[0] else m
  }

  /** `Math.max` of a non-empty list: a member no smaller than any other. */
  function MaxOf(s: seq<int>): (m: int)
    requires s != []
    ensures m in s && forall x | x in s :: x <= m
  {
    if |s| == 1 then s[0]
    else
      assert s == [s[0]] + s[1..];
      var m := MaxOf(s[1..]); if s[0] >= m then s[0] else m
  }

  /** The initial slider state: 0 to 100 for each rate, and the table's own
      smallest and largest income for income. */
  function InitialFilters(): (f: Filters)
    ensures f.minTurnout == 0 && f.maxTurnout == 100
    ensures f.minUnder30 == 0 && f.maxUnder30 == 100
    ensures f.minUnaffiliated == 0 && f.maxUnaffiliated == 100
    ensures exists b | b in BoroughTable :: f.minIncome == BoroughTable[b].avgIncomeK
    ensures exists b | b in BoroughTable :: f.maxIncome == BoroughTable[b].avgIncomeK
    ensures forall b | b in BoroughTable :: f.minIncome <= BoroughTable[b].avgIncomeK <= f.maxIncome
  {
    BoroughKeys();
    var incomes := IncomesOf(BoroughNames);
    var lo := MinOf(incomes);
    var hi := MaxOf(incomes);
    IncomeBoundsAttained(BoroughNames, incomes, lo, hi);
    Filters(0, 100, lo, hi, 0, 100, 0, 100)
  }

  /** Bounds attained in the incomes of a list of names that covers the
      table are attained, and bound, in the table. */
  lemma IncomeBoundsAttained(names: seq<string>, incomes: seq<int>, lo: int, hi: int)
    requires forall b :: b in names <==> b in BoroughTable
    requires incomes == IncomesOf(names)
    requires lo in incomes && hi in incomes
    requires forall x | x in incomes :: lo <= x <= hi
    ensures exists b | b in BoroughTable :: lo == BoroughTable[b].avgIncomeK
    ensures exists b | b in BoroughTable :: hi == BoroughTable[b].avgIncomeK
    ensures forall b | b in BoroughTable :: lo <= BoroughTable[b].avgIncomeK <= hi
  {
    var i :| 0 <= i < |incomes| && incomes[i] == lo;
    var j :| 0 <= j < |incomes| && incomes[j] == hi;
    assert names[i] in names && names[j] in names;
    forall b | b in BoroughTable ensures lo <= BoroughTable[b].avgIncomeK <= hi {
      var k :| 0 <= k < |names| && names[k] == b;
      assert incomes[k] in incomes;
    }
  }

  /** The table's income range works out to 47 to 100. */
  lemma InitialIncomeRange()
    ensures InitialFilters().minIncome == 47 && InitialFilters().maxIncome == 100
  {
    var f := InitialFilters();
    IncomeRangeOfTable(f.minIncome, f.maxIncome);
  }

  /** The only bounds that are attained by the table and bound it. */
  lemma IncomeRangeOfTable(lo: int, hi: int)
    requires exists b | b in BoroughTable :: lo == BoroughTable[b].avgIncomeK
    requires exists b | b in BoroughTable :: hi == BoroughTable[b].avgIncomeK
    requires forall b | b in BoroughTable :: lo <= BoroughTable[b].avgIncomeK <= hi
    ensures lo == 47 && hi == 100
  {
    IncomesBetween();
    assert lo <= BoroughTable["Bronx"].avgIncomeK;
    assert hi >= BoroughTable["Manhattan"].avgIncomeK;
  }

  /** Every income of the table lies between 47 and 100. */
  lemma IncomesBetween()
    ensures forall b | b in BoroughTable :: 47 <= BoroughTable[b].avgIncomeK <= 100
  {
    BoroughKeys();
    forall b | b in BoroughTable ensures 47 <= BoroughTable[b].avgIncomeK <= 100 {
      assert b == "Bronx" || b == "Brooklyn" || b == "Manhattan" || b == "Queens" || b == "Staten Island";
    }
  }

  /** A borough passes when each of its four fields lies in its range. A
      rate in thousandths is compared with a whole percentage by scaling the
      percentage by ten, which is `rate * 100 >= min` in exact
      arithmetic. */
  predicate WithinFilters(f: Filters, d: Borough) {
    d.turnoutRate >= 10 * f.minTurnout && d.turnoutRate <= 10 * f.maxTurnout
    && d.avgIncomeK >= f.minIncome && d.avgIncomeK <= f.maxIncome
    && d.under30Pct >= 10 * f.minUnder30 && d.under30Pct <= 10 * f.maxUnder30
    && d.unaffiliatedRate >= 10 * f.minUnaffiliated && d.unaffiliatedRate <= 10 * f.maxUnaffiliated
  }

  function Passes(f: Filters): string -> bool {
    (b: string) => b in BoroughTable && WithinFilters(f, BoroughTable[b])
  }

  /** "Apply Filters": the boroughs, in table order, whose fields all lie in
      their ranges. */
  function ApplyFilters(f: Filters): (r: seq<string>)
    ensures forall b :: b in r <==> b in BoroughTable && WithinFilters(f, BoroughTable[b])
    ensures IsSubsequence(r, BoroughNames) && NoDup(r)
  {
    BoroughKeys();
    FilterNoDup(BoroughNames, Passes(f));
    Filter(BoroughNames, Passes(f))
  }

  /** Before any slider moves, the filter keeps every borough. */
  lemma InitialFiltersKeepAll()
    ensures ApplyFilters(InitialFilters()) == SelectAll()
  {
    WideFiltersKeepAll(InitialFilters());
  }

  /** Every rate of the table lies between 0% and 100%. */
  lemma RatesArePercentages()
    ensures forall b | b in BoroughTable ::
      0 <= BoroughTable[b].turnoutRate <= 1000 && 0 <= BoroughTable[b].under30Pct <= 1000
      && 0 <= BoroughTable[b].unaffiliatedRate <= 1000
  {
    BoroughKeys();
    forall b | b in BoroughTable
      ensures 0 <= BoroughTable[b].turnoutRate <= 1000 && 0 <= BoroughTable[b].under30Pct <= 1000
              && 0 <= BoroughTable[b].unaffiliatedRate <= 1000
    {
      assert b == "Bronx" || b == "Brooklyn" || b == "Manhattan" || b == "Queens" || b == "Staten Island";
    }
  }

  /** Ranges that cover 0% to 100% and the table's income range keep every
      borough. */
  lemma WideFiltersKeepAll(f: Filters)
    requires f.minTurnout <= 0 && f.maxTurnout >= 100
    requires f.minUnder30 <= 0 && f.maxUnder30 >= 100
    requires f.minUnaffiliated <= 0 && f.maxUnaffiliated >= 100
    requires forall b | b in BoroughTable :: f.minIncome <= BoroughTable[b].avgIncomeK <= f.maxIncome
    ensures ApplyFilters(f) == SelectAll()
  {
    RatesArePercentages();
    forall b | b in BoroughTable ensures WithinFilters(f, BoroughTable[b]) {
      var d := BoroughTable[b];
      assert 0 <= d.turnoutRate <= 1000 && 0 <= d.under30Pct <= 1000 && 0 <= d.unaffiliatedRate <= 1000;
    }
    AllPass(BoroughNames, f);
  }

  /** A list of boroughs that all pass is kept entirely. */
  lemma AllPass(names: seq<string>, f: Filters)
    requires forall b | b in BoroughTable :: WithinFilters(f, BoroughTable[b])
    requires forall b | b in names :: b in BoroughTable
    ensures Filter(names, Passes(f)) == names
  {
    FilterAll(names, Passes(f));
  }

  /** Widening every range never drops a borough. */
  lemma ApplyFiltersMonotone(f: Filters, g: Filters)
    requires g.minTurnout <= f.minTurnout && f.maxTurnout <= g.maxTurnout
    requires g.minIncome <= f.minIncome && f.maxIncome <= g.maxIncome
    requires g.minUnder30 <= f.minUnder30 && f.maxUnder30 <= g.maxUnder30
    requires g.minUnaffiliated <= f.minUnaffiliated && f.maxUnaffiliated <= g.maxUnaffiliated
    ensures forall b | b in ApplyFilters(f) :: b in ApplyFilters(g)
    ensures |ApplyFilters(f)| <= |ApplyFilters(g)|
  {
    FilterWeaker(BoroughNames, Passes(f), Passes(g));
  }
}
