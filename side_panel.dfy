/**
 * The borough overview list of the side panel: the table's boroughs that
 * are filtered in, heaviest strategic weight first.
 */
module SidePanel {
  import opened JsArray
  import opened BoroughData

  function InList(filtered: seq<string>): string -> bool {
    (b: string) => b in filtered
  }

  /** The sort key: the strategic weight of a borough name. */
  function WeightKey(formula: Borough -> int): string -> int {
    (b: string) => CalculateStrategicWeight(b, formula)
  }

  /** A list of names, filtered and sorted as the panel does it. */
  function FilterAndRank(names: seq<string>, filtered: seq<string>, weight: string -> int): (r: seq<string>)
    requires NoDup(names)
    ensures forall b :: b in r <==> b in names && b in filtered
    ensures SortedDesc(r, weight)
    ensures NoDup(r) && |r| <= |names|
  {
    var kept := Filter(names, InList(filtered));
    FilterNoDup(names, InList(filtered));
    assert forall b :: b in kept <==> b in names && b in filtered;
    var r := SortDesc(kept, weight);
    SamePermutation(kept, r);
    r
  }

  /** A permutation has the same members and the same length, and keeps a
      list without repeats without repeats. */
  lemma SamePermutation(a: seq<string>, b: seq<string>)
    requires multiset(a) == multiset(b) && NoDup(a)
    ensures forall x :: x in b <==> x in a
    ensures |b| == |a| && NoDup(b)
  {
    assert forall x :: x in b <==> x in multiset(b);
    assert forall x :: x in a <==> x in multiset(a);
    assert |multiset(b)| == |multiset(a)|;
    MultisetNoDup(a, b);
  }

  /** The panel list: exactly the table's boroughs that occur in the
      filtered list (each once, however often it occurs there; names that
      are not boroughs never), in non-increasing order of weight. */
  function PanelBoroughs(filtered: seq<string>, formula: Borough -> int): (r: seq<string>)
    ensures forall b :: b in r <==> b in BoroughTable && b in filtered
    ensures SortedDesc(r, WeightKey(formula))
    ensures NoDup(r) && |r| <= 5
  {
    BoroughKeys();
    FilterAndRank(BoroughNames, filtered, WeightKey(formula))
  }

  /** Boroughs of equal weight keep the table's order among themselves. */
  lemma {:induction false} RankKeepsTies(names: seq<string>, filtered: seq<string>, weight: string -> int, k: int)
    requires NoDup(names)
    ensures Filter(FilterAndRank(names, filtered, weight), KeyIs(weight, k))
            == Filter(Filter(names, InList(filtered)), KeyIs(weight, k))
  {
    SortDescStable(Filter(names, InList(filtered)), weight, k);
  }

  /** In the panel, boroughs of equal weight appear in table order. */
  lemma PanelKeepsTies(filtered: seq<string>, formula: Borough -> int, k: int)
    ensures Filter(PanelBoroughs(filtered, formula), KeyIs(WeightKey(formula), k))
            == Filter(Filter(BoroughNames, InList(filtered)), KeyIs(WeightKey(formula), k))
  {
    BoroughKeys();
    RankKeepsTies(BoroughNames, filtered, WeightKey(formula), k);
  }

  /** All boroughs filtered in, with all weights equal: the table order. */
  lemma {:induction false} EqualWeightsKeepTableOrder(names: seq<string>, filtered: seq<string>, weight: string -> int, k: int)
    requires NoDup(names)
    requires forall b | b in names :: b in filtered && weight(b) == k
    ensures FilterAndRank(names, filtered, weight) == names
  {
    var kept := Filter(names, InList(filtered));
    FilterAll(names, InList(filtered));
    var r := FilterAndRank(names, filtered, weight);
    RankKeepsTies(names, filtered, weight, k);
    FilterAll(names, KeyIs(weight, k));
    FilterAll(r, KeyIs(weight, k));
  }
}
