/**
 * The computed values of
 * src/app/features/dashboard/components/net-worth-chart/net-worth-chart.component.ts:
 * snapshots are normalised into a 100 by 100 box (x left to right in
 * snapshot order, y downwards, so the largest value is at the top) and
 * drawn as an SVG line and area path. Rendering a number as text is
 * the parameter `num`.
 */
module NetWorthChart {
  import opened Strings

  /** A row of the net-worth history (net-worth.service.ts). */
  datatype Snapshot = Snapshot(
    user_id: string,
    total_value: real,
    profit_loss: real,
    profit_loss_percentage: real,
    timestamp: string)

  /** A snapshot with its position in the box. */
  datatype ChartPoint = ChartPoint(snapshot: Snapshot, x: real, y: real, percentage: real)

  datatype Trend = Up | Down

  /** `Math.max(...data.map(s => s.total_value))` on a non-empty list. */
  function MaxValue(data: seq<Snapshot>): (m: real)
    requires |data| > 0
    ensures forall i :: 0 <= i < |data| ==> data[i].total_value <= m
    ensures exists i :: 0 <= i < |data| && data[i].total_value == m
  {
    if |data| == 1 then data[0].total_value
    else
      var rest := MaxValue(data[..|data| - 1]);
      var v := data[|data| - 1].total_value;
      if v > rest then v else rest
  }

  /** `Math.min(...data.map(s => s.total_value))` on a non-empty list. */
  function MinValue(data: seq<Snapshot>): (m: real)
    requires |data| > 0
    ensures forall i :: 0 <= i < |data| ==> m <= data[i].total_value
    ensures exists i :: 0 <= i < |data| && data[i].total_value == m
  {
    if |data| == 1 then data[0].total_value
    else
      var rest := MinValue(data[..|data| - 1]);
      var v := data[|data| - 1].total_value;
      if v < rest then v else rest
  }

  /** `maxValue - minValue || 1`: a flat history gets range 1. */
  function Range(data: seq<Snapshot>): (r: real)
    requires |data| > 0
    ensures r > 0.0
    ensures MaxValue(data) != MinValue(data) ==> r == MaxValue(data) - MinValue(data)
  {
    var d := MaxValue(data) - MinValue(data);
    if d == 0.0 then 1.0 else d
  }

  /** `data.length - 1 || 1`. */
  function LastIndex(n: nat): (d: real)
    ensures d > 0.0
  {
    if n <= 1 then 1.0 else (n - 1) as real
  }

  /** The point of snapshot `index`. */
  function Point(data: seq<Snapshot>, index: nat): ChartPoint
    requires index < |data|
  {
    var pct := (data[index].total_value - MinValue(data)) / Range(data) * 100.0;
    ChartPoint(data[index], index as real / LastIndex(|data|) * 100.0, 100.0 - pct, pct)
  }

  /** `chartData`. */
  function ChartData(data: seq<Snapshot>): (points: seq<ChartPoint>)
    ensures |points| == |data|
  {
    if |data| == 0 then [] else seq(|data|, i requires 0 <= i < |data| => Point(data, i))
  }

  /** One point per snapshot, in order, carrying that snapshot. */
  lemma OnePointPerSnapshot(data: seq<Snapshot>)
    ensures |ChartData(data)| == |data|
    ensures forall i :: 0 <= i < |data| ==> ChartData(data)[i].snapshot == data[i]
  {
  }

  lemma FractionInUnit(a: real, b: real)
    requires 0.0 <= a <= b && b > 0.0
    ensures 0.0 <= a / b * 100.0 <= 100.0
  {
    assert a / b <= 1.0 by {
      assert a / b * b == a;
    }
  }

  /** Every point lies in the box, with y the complement of its percentage. */
  lemma PointsInBox(data: seq<Snapshot>)
    ensures forall p :: p in ChartData(data) ==>
              0.0 <= p.percentage <= 100.0 && p.y == 100.0 - p.percentage && 0.0 <= p.y <= 100.0 &&
              0.0 <= p.x <= 100.0
  {
    forall p | p in ChartData(data)
      ensures 0.0 <= p.percentage <= 100.0 && p.y == 100.0 - p.percentage && 0.0 <= p.x <= 100.0
    {
      var i :| 0 <= i < |data| && ChartData(data)[i] == p;
      var lo, hi := MinValue(data), MaxValue(data);
      assert lo <= data[i].total_value <= hi;
      FractionInUnit(data[i].total_value - lo, Range(data));
      assert i as real <= LastIndex(|data|);
      FractionInUnit(i as real, LastIndex(|data|));
    }
  }

  /** x runs from 0 at the first snapshot to 100 at the last one; a single point sits at x = 0. */
  lemma XSpansTheBox(data: seq<Snapshot>)
    ensures |data| > 0 ==> ChartData(data)[0].x == 0.0
    ensures |data| >= 2 ==> ChartData(data)[|data| - 1].x == 100.0
    ensures |data| >= 2 ==> forall i :: 0 <= i < |data| ==>
              ChartData(data)[i].x == i as real / (|data| - 1) as real * 100.0
  {
    if |data| >= 2 {
      var d := (|data| - 1) as real;
      assert LastIndex(|data|) == d;
      assert d / d == 1.0;
    }
  }

  /** With every value equal, the range falls back to 1 and every point sits at y = 100. */
  lemma FlatHistory(data: seq<Snapshot>)
    requires forall i :: 0 <= i < |data| ==> data[i].total_value == data[0].total_value
    ensures forall p :: p in ChartData(data) ==> p.y == 100.0 && p.percentage == 0.0
  {
    if |data| > 0 {
      var k :| 0 <= k < |data| && data[k].total_value == MinValue(data);
      assert Range(data) == 1.0;
    }
  }

  /** `${d.x},${d.y}` for every point. */
  function Coordinates(points: seq<ChartPoint>, num: real -> string): (r: seq<string>)
    ensures |r| == |points|
    ensures forall i :: 0 <= i < |points| ==> r[i] == num(points[i].x) + "," + num(points[i].y)
  {
    if |points| == 0 then []
    else Coordinates(points[..|points| - 1], num) + [num(points[|points| - 1].x) + "," + num(points[|points| - 1].y)]
  }

  /** The points joined with " L ", shared by both paths. */
  function PointList(data: seq<Snapshot>, num: real -> string): string
  {
    Join(Coordinates(ChartData(data), num), " L ")
  }

  /** `pathData`. */
  function PathData(data: seq<Snapshot>, num: real -> string): string
  {
    if |data| == 0 then "" else "M " + PointList(data, num)
  }

  /** `areaPath`. */
  function AreaPath(data: seq<Snapshot>, num: real -> string): string
  {
    if |data| == 0 then "" else "M 0,100 L " + PointList(data, num) + " L 100,100 Z"
  }

  /**
   * Both paths are empty without snapshots; otherwise the area path closes the
   * line path's own points down to the bottom corners.
   */
  lemma PathsShareThePoints(data: seq<Snapshot>, num: real -> string)
    ensures |data| == 0 <==> PathData(data, num) == ""
    ensures |data| == 0 <==> AreaPath(data, num) == ""
    ensures |data| > 0 ==> PathData(data, num)[..2] == "M " &&
                           AreaPath(data, num) == "M 0,100 L " + PathData(data, num)[2..] + " L 100,100 Z"
  {
    if |data| > 0 {
      var p := PathData(data, num);
      assert p == "M " + PointList(data, num);
      assert p[2..] == PointList(data, num);
      assert |p| > 0;
      assert |AreaPath(data, num)| > 0;
    }
  }

  /** A path of several points has one " L " separator per gap. */
  lemma PathOfTwo(a: Snapshot, b: Snapshot, num: real -> string)
    ensures var points := ChartData([a, b]);
            PathData([a, b], num) == "M " + num(points[0].x) + "," + num(points[0].y) + " L " +
                                     num(points[1].x) + "," + num(points[1].y)
  {
    var coords := Coordinates(ChartData([a, b]), num);
    assert Join(coords, " L ") == coords[0] + " L " + Join(coords[1..], " L ");
    assert Join(coords[1..], " L ") == coords[1];
  }

  /** `currentValue`: the last snapshot, or 0. */
  function CurrentValue(data: seq<Snapshot>): real
  {
    if |data| > 0 then data[|data| - 1].total_value else 0.0
  }

  /** `startValue`: the first snapshot, or 0. */
  function StartValue(data: seq<Snapshot>): real
  {
    if |data| > 0 then data[0].total_value else 0.0
  }

  function TotalChange(data: seq<Snapshot>): real
  {
    CurrentValue(data) - StartValue(data)
  }

  /** `totalChangePercentage`: 0 for a zero start. */
  function TotalChangePercentage(data: seq<Snapshot>): real
  {
    var start := StartValue(data);
    if start == 0.0 then 0.0 else (CurrentValue(data) - start) / start * 100.0
  }

  function TrendOf(data: seq<Snapshot>): Trend
  {
    if TotalChange(data) >= 0.0 then Up else Down
  }

  /**
   * The summary figures: the change is last minus first, its percentage is
   * relative to a non-zero start, and the trend is up exactly when the
   * history did not end lower than it started.
   */
  lemma SummaryFigures(data: seq<Snapshot>)
    ensures |data| == 0 ==> CurrentValue(data) == 0.0 && StartValue(data) == 0.0 && TotalChange(data) == 0.0
    ensures StartValue(data) + TotalChange(data) == CurrentValue(data)
    ensures StartValue(data) != 0.0 ==> TotalChangePercentage(data) * StartValue(data) == TotalChange(data) * 100.0
    ensures StartValue(data) == 0.0 ==> TotalChangePercentage(data) == 0.0
    ensures TrendOf(data) == Up <==> CurrentValue(data) >= StartValue(data)
    ensures |data| == 1 ==> TotalChange(data) == 0.0 && TrendOf(data) == Up
  {
  }
}
