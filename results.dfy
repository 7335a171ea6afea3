/**
  The result view's chart series: one chart point per month, thinned to one
  point per year when the horizon is longer than two years.
*/
module Results {
  import opened Types

  /** One point of the chart: the x value and the two plotted amounts. */
  datatype ChartPoint = ChartPoint(periodo: int, invested: real, accumulated: real)

  /** The x-axis unit label. */
  datatype AxisUnit = Meses | Anos

  /** The chart point drawn for one month. */
  function PointOf(d: MonthlyData): ChartPoint
  {
    ChartPoint(d.month, d.totalInvested, d.accumulatedValue)
  }

  /** One chart point per month, in the same order. */
  function ChartData(data: seq<MonthlyData>): (c: seq<ChartPoint>)
    ensures |c| == |data|
    ensures forall i :: 0 <= i < |data| ==> c[i] == PointOf(data[i])
  {
    if data == [] then []
    else ChartData(data[..|data| - 1]) + [PointOf(data[|data| - 1])]
  }

  /** Years on the axis once the series spans more than 24 months. */
  function PeriodUnit(data: seq<MonthlyData>): (u: AxisUnit)
    ensures u == Anos <==> |data| >= 26
  {
    if |data| - 1 > 24 then Anos else Meses
  }

  /** The filter's test; the second disjunct adds nothing to the first. */
  predicate KeepsYear(p: ChartPoint)
  {
    p.periodo % 12 == 0 || p.periodo == 0
  }

  /** The points that fall on a whole year, in order. */
  function YearPoints(c: seq<ChartPoint>): (y: seq<ChartPoint>)
    ensures |y| <= |c|
    ensures forall k :: 0 <= k < |y| ==> y[k].periodo % 12 == 0
  {
    if c == [] then []
    else
      var p := c[|c| - 1];
      YearPoints(c[..|c| - 1]) + (if KeepsYear(p) then [p] else [])
  }

  /**
    The points relabelled with their x value in years. Integer division stands
    for the real division of the x value by 12; the two agree because this is
    applied only to points whose x value is a multiple of 12.
  */
  function InYears(c: seq<ChartPoint>): (y: seq<ChartPoint>)
    ensures |y| == |c|
    ensures forall k :: 0 <= k < |c| ==> y[k] == c[k].(periodo := c[k].periodo / 12)
  {
    if c == [] then []
    else InYears(c[..|c| - 1]) + [c[|c| - 1].(periodo := c[|c| - 1].periodo / 12)]
  }

  /** The series the chart plots. */
  function ChartDataTransformed(data: seq<MonthlyData>): (t: seq<ChartPoint>)
    ensures |t| <= |data|
    ensures PeriodUnit(data) == Meses ==> t == ChartData(data)
    ensures PeriodUnit(data) == Anos ==>
      |t| == |YearPoints(ChartData(data))| &&
      forall k :: 0 <= k < |t| ==> t[k].periodo * 12 == YearPoints(ChartData(data))[k].periodo
  {
    if PeriodUnit(data) == Anos then InYears(YearPoints(ChartData(data))) else ChartData(data)
  }

  /** `x` is `y` with some elements left out and the rest kept in order. */
  predicate IsSubsequence(x: seq<ChartPoint>, y: seq<ChartPoint>)
  {
    if x == [] then true
    else if y == [] then false
    else if x[|x| - 1] == y[|y| - 1] then IsSubsequence(x[..|x| - 1], y[..|y| - 1])
    else IsSubsequence(x, y[..|y| - 1])
  }

  /** Up to 24 months the chart plots every month, labelled in months. */
  lemma ShortSeriesPlotsEveryMonth(data: seq<MonthlyData>)
    requires |data| - 1 <= 24
    ensures PeriodUnit(data) == Meses
    ensures |ChartDataTransformed(data)| == |data|
    ensures forall i :: 0 <= i < |data| ==> ChartDataTransformed(data)[i] == PointOf(data[i])
  {
  }

  /** The yearly points are an order-preserving subsequence of the chart points. */
  lemma {:induction false} YearPointsSubsequence(c: seq<ChartPoint>)
    ensures IsSubsequence(YearPoints(c), c)
  {
    if c != [] {
      var c' := c[..|c| - 1];
      var p := c[|c| - 1];
      YearPointsSubsequence(c');
      if KeepsYear(p) {
        assert YearPoints(c)[..|YearPoints(c)| - 1] == YearPoints(c');
      } else {
        var y := YearPoints(c');
        assert YearPoints(c) == y;
        if y != [] {
          assert y[|y| - 1].periodo % 12 == 0;
          assert y[|y| - 1] != p;
        }
      }
    }
  }

  /** Every chart point on a whole year is kept. */
  lemma {:induction false} YearPointsComplete(c: seq<ChartPoint>, i: nat)
    requires i < |c| && c[i].periodo % 12 == 0
    ensures c[i] in YearPoints(c)
  {
    var c' := c[..|c| - 1];
    if i < |c| - 1 {
      YearPointsComplete(c', i);
    }
  }

  /** When the first point is month 0, it is always the first one kept. */
  lemma {:induction false} MonthZeroKept(c: seq<ChartPoint>)
    requires c != [] && c[0].periodo == 0
    ensures YearPoints(c) != [] && YearPoints(c)[0] == c[0]
  {
    if |c| > 1 {
      MonthZeroKept(c[..|c| - 1]);
    } else {
      assert c[..0] == [];
    }
  }

  /**
    For chart points of months 0 through N, the kept points are months
    0, 12, ..., 12 * (N / 12): exactly N / 12 + 1 of them.
  */
  lemma {:induction false} YearPointsOfMonths(c: seq<ChartPoint>)
    requires c != []
    requires forall i :: 0 <= i < |c| ==> c[i].periodo == i
    ensures |YearPoints(c)| == (|c| - 1) / 12 + 1
    ensures forall k :: 0 <= k < |YearPoints(c)| ==> 12 * k < |c| && YearPoints(c)[k] == c[12 * k]
  {
    var c' := c[..|c| - 1];
    var n := |c| - 1;
    if n == 0 {
      assert c' == [];
    } else {
      YearPointsOfMonths(c');
      if n % 12 == 0 {
        assert (n - 1) / 12 + 1 == n / 12;
      } else {
        assert (n - 1) / 12 == n / 12;
      }
    }
  }

  /**
    Beyond 24 months the chart is labelled in years; for months 0 through N it
    plots x = 0, 1, ..., N / 12, point k being month 12 * k.
  */
  lemma LongSeriesPlotsYears(data: seq<MonthlyData>)
    requires |data| - 1 > 24
    requires forall i :: 0 <= i < |data| ==> data[i].month == i
    ensures PeriodUnit(data) == Anos
    ensures var t := ChartDataTransformed(data);
      |t| == (|data| - 1) / 12 + 1 &&
      forall k :: 0 <= k < |t| ==>
        12 * k < |data| && t[k] == ChartPoint(k, data[12 * k].totalInvested, data[12 * k].accumulatedValue)
  {
    var c := ChartData(data);
    YearPointsOfMonths(c);
  }

  /** On a yearly axis every plotted point comes from a whole-year month, x being months / 12. */
  lemma YearlyPointsFromWholeYears(data: seq<MonthlyData>, k: nat)
    requires PeriodUnit(data) == Anos
    requires k < |ChartDataTransformed(data)|
    ensures exists i :: (0 <= i < |data| && data[i].month % 12 == 0 &&
      ChartDataTransformed(data)[k] == ChartPoint(data[i].month / 12, data[i].totalInvested, data[i].accumulatedValue))
  {
    var c := ChartData(data);
    var y := YearPoints(c);
    YearPointsMembers(c);
    assert y[k] in c;
    var i :| 0 <= i < |c| && y[k] == c[i];
    assert data[i].month % 12 == 0;
  }

  /** Every kept point is one of the chart points. */
  lemma {:induction false} YearPointsMembers(c: seq<ChartPoint>)
    ensures forall p :: p in YearPoints(c) ==> p in c
  {
    if c != [] {
      var c' := c[..|c| - 1];
      YearPointsMembers(c');
      assert c == c' + [c[|c| - 1]];
    }
  }
}
