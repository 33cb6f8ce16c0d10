/**
 * The donut chart of
 * src/app/features/dashboard/components/portfolio-distribution/portfolio-distribution.component.ts:
 * the holdings sorted by value, the five largest as their own slices and the
 * rest grouped under "OTROS".
 */
module PortfolioDistribution {
  import opened Models
  import opened Strings
  import DashboardState

  /** Number of assets shown as their own slice. */
  const TOP: nat := 5

  /** The label of the grouped slice. */
  const OTHERS_LABEL: string := "OTROS"

  /** Everything of the chart's dataset except `data`. */
  datatype DatasetStyle = DatasetStyle(
    backgroundColor: seq<string>,
    hoverBackgroundColor: seq<string>,
    borderWidth: int,
    hoverOffset: int)

  datatype ChartData = ChartData(labels: seq<string>, data: seq<real>, style: DatasetStyle)

  const INITIAL_STYLE: DatasetStyle := DatasetStyle(
    ["#6366f1", "#8b5cf6", "#ec4899", "#f43f5e", "#ef4444",
     "#f59e0b", "#10b981", "#3b82f6", "#06b6d4", "#84cc16"],
    ["#4f46e5", "#7c3aed", "#db2777", "#e11d48", "#dc2626",
     "#d97706", "#059669", "#2563eb", "#0891b2", "#65a30d"],
    0, 4)

  function Total(assets: seq<PortfolioAsset>): real
  {
    DashboardState.SumValues(assets)
  }

  predicate SortedDesc(s: seq<PortfolioAsset>)
  {
    forall i, j :: 0 <= i < j < |s| ==> s[i].totalValue >= s[j].totalValue
  }

  /**
   * Inserts `x` after every element worth at least as much: the comparator
   * `b.totalValue - a.totalValue` keeps equal values in input order.
   */
  function InsertDesc(sorted: seq<PortfolioAsset>, x: PortfolioAsset): (r: seq<PortfolioAsset>)
    ensures |r| == |sorted| + 1
  {
    if |sorted| == 0 then [x]
    else if sorted[0].totalValue >= x.totalValue then [sorted[0]] + InsertDesc(sorted[1..], x)
    else [x] + sorted
  }

  /** `[...assets].sort((a, b) => b.totalValue - a.totalValue)`, a stable sort. */
  function SortDesc(assets: seq<PortfolioAsset>): (r: seq<PortfolioAsset>)
    ensures |r| == |assets|
  {
    if |assets| == 0 then []
    else InsertDesc(SortDesc(assets[..|assets| - 1]), assets[|assets| - 1])
  }

  /** The first element of an insertion is the old first element or the inserted one. */
  lemma InsertDescHead(sorted: seq<PortfolioAsset>, x: PortfolioAsset)
    ensures InsertDesc(sorted, x)[0] == x || (|sorted| > 0 && InsertDesc(sorted, x)[0] == sorted[0])
  {
  }

  /** An element worth at least the head of a sorted list can go in front. */
  lemma SortedCons(a: PortfolioAsset, rest: seq<PortfolioAsset>)
    requires SortedDesc(rest)
    requires |rest| > 0 ==> a.totalValue >= rest[0].totalValue
    ensures SortedDesc([a] + rest)
  {
    var r := [a] + rest;
    forall i, j | 0 <= i < j < |r|
      ensures r[i].totalValue >= r[j].totalValue
    {
      if i == 0 {
        assert r[j] == rest[j - 1];
        assert rest[0].totalValue >= rest[j - 1].totalValue;
      } else {
        assert r[i] == rest[i - 1] && r[j] == rest[j - 1];
      }
    }
  }

  lemma {:induction false} InsertDescSorted(sorted: seq<PortfolioAsset>, x: PortfolioAsset)
    requires SortedDesc(sorted)
    ensures SortedDesc(InsertDesc(sorted, x))
  {
    if |sorted| == 0 {
    } else if sorted[0].totalValue >= x.totalValue {
      var rest := InsertDesc(sorted[1..], x);
      assert SortedDesc(sorted[1..]) by {
        forall i, j | 0 <= i < j < |sorted[1..]|
          ensures sorted[1..][i].totalValue >= sorted[1..][j].totalValue
        {
          assert sorted[1..][i] == sorted[i + 1] && sorted[1..][j] == sorted[j + 1];
        }
      }
      InsertDescSorted(sorted[1..], x);
      InsertDescHead(sorted[1..], x);
      if |sorted| > 1 {
        assert sorted[1..][0] == sorted[1];
      }
      SortedCons(sorted[0], rest);
    } else {
      SortedCons(x, sorted);
    }
  }

  lemma {:induction false} InsertDescPerm(sorted: seq<PortfolioAsset>, x: PortfolioAsset)
    ensures multiset(InsertDesc(sorted, x)) == multiset(sorted) + multiset{x}
  {
    if |sorted| > 0 && sorted[0].totalValue >= x.totalValue {
      InsertDescPerm(sorted[1..], x);
      assert sorted == [sorted[0]] + sorted[1..];
    }
  }

  lemma {:induction false} InsertDescTotal(sorted: seq<PortfolioAsset>, x: PortfolioAsset)
    ensures Total(InsertDesc(sorted, x)) == Total(sorted) + x.totalValue
  {
    if |sorted| == 0 {
      assert InsertDesc(sorted, x) == [x];
      assert [x][..0] == [];
    } else if sorted[0].totalValue >= x.totalValue {
      var rest := InsertDesc(sorted[1..], x);
      InsertDescTotal(sorted[1..], x);
      TotalCons(sorted[0], rest);
      TotalCons(sorted[0], sorted[1..]);
      assert sorted == [sorted[0]] + sorted[1..];
    } else {
      TotalCons(x, sorted);
    }
  }

  /** The sorted copy is ordered by non-increasing value, a permutation of the input, and worth the same. */
  lemma SortDescCorrect(assets: seq<PortfolioAsset>)
    ensures SortedDesc(SortDesc(assets))
    ensures multiset(SortDesc(assets)) == multiset(assets)
    ensures Total(SortDesc(assets)) == Total(assets)
  {
    SortDescSorted(assets);
    SortDescPerm(assets);
    SortDescTotal(assets);
  }

  lemma {:induction false} SortDescSorted(assets: seq<PortfolioAsset>)
    ensures SortedDesc(SortDesc(assets))
  {
    if |assets| > 0 {
      SortDescSorted(assets[..|assets| - 1]);
      InsertDescSorted(SortDesc(assets[..|assets| - 1]), assets[|assets| - 1]);
    }
  }

  lemma {:induction false} SortDescPerm(assets: seq<PortfolioAsset>)
    ensures multiset(SortDesc(assets)) == multiset(assets)
  {
    if |assets| > 0 {
      var prefix, last := assets[..|assets| - 1], assets[|assets| - 1];
      assert SortDesc(assets) == InsertDesc(SortDesc(prefix), last);
      SortDescPerm(prefix);
      InsertDescPerm(SortDesc(prefix), last);
      MultisetSnoc(assets);
    }
  }

  lemma MultisetSnoc(s: seq<PortfolioAsset>)
    requires |s| > 0
    ensures multiset(s) == multiset(s[..|s| - 1]) + multiset{s[|s| - 1]}
  {
    assert s == s[..|s| - 1] + [s[|s| - 1]];
  }

  lemma {:induction false} SortDescTotal(assets: seq<PortfolioAsset>)
    ensures Total(SortDesc(assets)) == Total(assets)
  {
    if |assets| > 0 {
      var prefix, last := assets[..|assets| - 1], assets[|assets| - 1];
      SortDescTotal(prefix);
      InsertDescTotal(SortDesc(prefix), last);
    }
  }

  lemma {:induction false} TotalCons(x: PortfolioAsset, s: seq<PortfolioAsset>)
    ensures Total([x] + s) == x.totalValue + Total(s)
  {
    if |s| == 0 {
      assert [x] + s == [x];
      assert [x][..0] == [];
    } else {
      TotalCons(x, s[..|s| - 1]);
      assert ([x] + s)[..|[x] + s| - 1] == [x] + s[..|s| - 1];
    }
  }

  /** Summing a list in two parts gives the sum of the whole list. */
  lemma {:induction false} TotalSplit(s: seq<PortfolioAsset>, k: nat)
    requires k <= |s|
    ensures Total(s[..k]) + Total(s[k..]) == Total(s)
  {
    if k < |s| {
      TotalSplit(s[..|s| - 1], k);
      assert s[..|s| - 1][..k] == s[..k];
      assert s[k..][..|s[k..]| - 1] == s[..|s| - 1][k..];
    } else {
      assert s[..k] == s;
      assert s[k..] == [];
    }
  }

  /** `topAssets.map(a => a.symbol.toUpperCase())`. */
  function Labels(top: seq<PortfolioAsset>): (labels: seq<string>)
    ensures |labels| == |top|
    ensures forall i :: 0 <= i < |top| ==> labels[i] == ToUpper(top[i].symbol)
  {
    if |top| == 0 then [] else Labels(top[..|top| - 1]) + [ToUpper(top[|top| - 1].symbol)]
  }

  /** `topAssets.map(a => a.totalValue)`. */
  function Values(top: seq<PortfolioAsset>): (data: seq<real>)
    ensures |data| == |top|
    ensures forall i :: 0 <= i < |top| ==> data[i] == top[i].totalValue
  {
    if |top| == 0 then [] else Values(top[..|top| - 1]) + [top[|top| - 1].totalValue]
  }

  function SumReals(xs: seq<real>): real
  {
    if |xs| == 0 then 0.0 else SumReals(xs[..|xs| - 1]) + xs[|xs| - 1]
  }

  lemma {:induction false} SumValuesOf(top: seq<PortfolioAsset>)
    ensures SumReals(Values(top)) == Total(top)
  {
    if |top| > 0 {
      SumValuesOf(top[..|top| - 1]);
      assert Values(top)[..|top| - 1] == Values(top[..|top| - 1]);
    }
  }

  datatype Slices = Slices(labels: seq<string>, data: seq<real>)

  function Min(a: nat, b: nat): nat
  {
    if a <= b then a else b
  }

  /** The labels and data `updateChartData` computes for a non-empty list. */
  function ChartSlices(assets: seq<PortfolioAsset>): Slices
  {
    var sorted := SortDesc(assets);
    var k := Min(TOP, |sorted|);
    var top, others := sorted[..k], sorted[k..];
    if |others| > 0 then Slices(Labels(top) + [OTHERS_LABEL], Values(top) + [Total(others)])
    else Slices(Labels(top), Values(top))
  }

  /**
   * The slices: labels and data pair up, at most six of them, the first
   * ones the largest assets in non-increasing order with their upper-cased
   * symbols, drawn from the input.
   */
  lemma TopSlices(assets: seq<PortfolioAsset>)
    ensures var s := ChartSlices(assets);
            |s.labels| == |s.data| <= TOP + 1
    ensures var s := ChartSlices(assets); var sorted := SortDesc(assets);
            forall i :: 0 <= i < Min(TOP, |assets|) ==>
              s.labels[i] == ToUpper(sorted[i].symbol) && s.data[i] == sorted[i].totalValue && sorted[i] in assets
    ensures var s := ChartSlices(assets);
            forall i, j :: 0 <= i < j < Min(TOP, |assets|) ==> s.data[i] >= s.data[j]
  {
    SortDescCorrect(assets);
    var sorted := SortDesc(assets);
    var k := Min(TOP, |sorted|);
    var s := ChartSlices(assets);
    SlicesStart(assets);
    forall i | 0 <= i < k
      ensures s.labels[i] == ToUpper(sorted[i].symbol) && s.data[i] == sorted[i].totalValue && sorted[i] in assets
    {
      assert s.labels[i] == s.labels[..k][i] && s.data[i] == s.data[..k][i];
      assert sorted[..k][i] == sorted[i];
      assert sorted[i] in multiset(sorted);
    }
    forall i, j | 0 <= i < j < k
      ensures s.data[i] >= s.data[j]
    {
      assert s.data[i] == sorted[i].totalValue && s.data[j] == sorted[j].totalValue;
    }
  }

  /** The slices begin with the first `k` sorted assets' labels and values, with at most one more after them. */
  lemma SlicesStart(assets: seq<PortfolioAsset>)
    ensures var s, sorted := ChartSlices(assets), SortDesc(assets); var k := Min(TOP, |sorted|);
            |s.labels| == |s.data| && k <= |s.labels| <= k + 1 &&
            s.labels[..k] == Labels(sorted[..k]) && s.data[..k] == Values(sorted[..k])
  {
    var sorted := SortDesc(assets);
    var k := Min(TOP, |sorted|);
    var top := sorted[..k];
    if |sorted[k..]| > 0 {
      assert (Labels(top) + [OTHERS_LABEL])[..k] == Labels(top);
      assert (Values(top) + [Total(sorted[k..])])[..k] == Values(top);
    } else {
      assert Labels(top)[..k] == Labels(top);
      assert Values(top)[..k] == Values(top);
    }
  }

  /** An OTROS slice, worth the assets after the first five, is appended exactly when there are more than five. */
  lemma OthersSlice(assets: seq<PortfolioAsset>)
    ensures var s := ChartSlices(assets);
            |assets| > TOP <==> |s.labels| == TOP + 1
    ensures var s := ChartSlices(assets);
            |assets| > TOP ==> s.labels[TOP] == OTHERS_LABEL && s.data[TOP] == Total(SortDesc(assets)[TOP..])
    ensures |assets| <= TOP ==> |ChartSlices(assets).labels| == |assets|
  {
    SortDescCorrect(assets);
  }

  /** The slices add up to the value of the whole portfolio. */
  lemma {:induction false} SlicesKeepTotal(assets: seq<PortfolioAsset>)
    ensures SumReals(ChartSlices(assets).data) == Total(assets)
  {
    SortDescCorrect(assets);
    var sorted := SortDesc(assets);
    var k := Min(TOP, |sorted|);
    var top, others := sorted[..k], sorted[k..];
    SumValuesOf(top);
    TotalSplit(sorted, k);
    var s := ChartSlices(assets);
    if |others| > 0 {
      assert s.data == Values(top) + [Total(others)];
      assert s.data[..|s.data| - 1] == Values(top);
    } else {
      assert s.data == Values(top);
      assert others == [];
    }
  }

  class PortfolioDistributionComponent {
    var assets: seq<PortfolioAsset>
    var chart: ChartData

    constructor ()
      ensures assets == [] && chart == ChartData([], [], INITIAL_STYLE)
    {
      assets := [];
      chart := ChartData([], [], INITIAL_STYLE);
    }

    /** `ngOnChanges` with a new `assets` input. */
    method OnAssetsChange(newAssets: seq<PortfolioAsset>)
      modifies this
      ensures assets == newAssets
      ensures |newAssets| == 0 ==> chart == old(chart)
      ensures |newAssets| > 0 ==>
                chart == ChartData(ChartSlices(newAssets).labels, ChartSlices(newAssets).data, old(chart).style)
    {
      assets := newAssets;
      UpdateChartData();
    }

    /**
     * `updateChartData`: nothing for an empty list; otherwise labels and data
     * are rebuilt from a sorted copy and the dataset style is kept.
     */
    method UpdateChartData()
      modifies this
      ensures assets == old(assets)
      ensures |assets| == 0 ==> chart == old(chart)
      ensures |assets| > 0 ==>
                chart == ChartData(ChartSlices(assets).labels, ChartSlices(assets).data, old(chart).style)
    {
      if |assets| == 0 {
        return;
      }
      var sorted := SortDesc(assets);
      var k := Min(TOP, |sorted|);
      var topAssets, otherAssets := sorted[..k], sorted[k..];
      var labels := Labels(topAssets);
      var data := Values(topAssets);
      if |otherAssets| > 0 {
        var otherValue := Total(otherAssets);
        labels := labels + [OTHERS_LABEL];
        data := data + [otherValue];
      }
      chart := ChartData(labels, data, chart.style);
    }
  }
}
