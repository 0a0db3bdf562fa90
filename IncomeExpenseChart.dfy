/**
 * The revenue/expense series behind the dashboard's monthly chart: the sparse `monthly` list is
 * keyed by month key (last entry wins), gap-filled into the twelve months Jan..Dec, and the
 * months with the highest and lowest revenue are picked (first one on ties).
 */
module IncomeExpenseChart {
  import opened Wrappers
  import opened JsValues

  /** One entry of `data.monthly` as fetched. */
  datatype MonthlyItem = MonthlyItem(month: string, revenue: Raw, expense: Raw)

  /** One point of the chart. */
  datatype Point = Point(month: string, revenue: int, expense: int)

  /** What the chart shows: the twelve points and the two highlighted months. */
  datatype Chart = Chart(points: seq<Point>, maxRevenue: Point, minRevenue: Point)

  const AllMonths: seq<string> :=
    ["Jan", "Feb", "Mar", "Apr", "May", "Jun", "Jul", "Aug", "Sep", "Oct", "Nov", "Dec"]

  /** The point an input entry becomes: `parseFloat(...) || 0` on both amounts. */
  function PointOf(item: MonthlyItem): Point
  {
    Point(item.month, ParseFloatOrZero(item.revenue), ParseFloatOrZero(item.expense))
  }

  /** `dataMap` after the `forEach` has seen `items`; each key maps to a point with that key. */
  function DataMap(items: seq<MonthlyItem>): (m: map<string, Point>)
    ensures forall k :: k in m ==> m[k].month == k
  {
    if items == [] then map[]
    else DataMap(items[..|items| - 1])[items[|items| - 1].month := PointOf(items[|items| - 1])]
  }

  /** The `forEach` loop that fills `dataMap`. */
  method BuildDataMap(items: seq<MonthlyItem>) returns (m: map<string, Point>)
    ensures m == DataMap(items)
  {
    m := map[];
    var i := 0;
    while i < |items|
      invariant 0 <= i <= |items|
      invariant m == DataMap(items[..i])
    {
      assert items[..i + 1][..i] == items[..i];
      m := m[items[i].month := PointOf(items[i])];
      i := i + 1;
    }
    assert items[..|items|] == items;
  }

  /** `allMonths.map((m) => dataMap[m] || { month: m, revenue: 0, expense: 0 })` */
  function GapFill(m: map<string, Point>): (r: seq<Point>)
    ensures |r| == 12
    ensures (forall k :: k in m ==> m[k].month == k) ==>
      forall i :: 0 <= i < 12 ==> r[i].month == AllMonths[i]
    ensures forall i :: 0 <= i < 12 && AllMonths[i] !in m ==> r[i].revenue == 0 && r[i].expense == 0
  {
    seq(12, i requires 0 <= i < 12 =>
      if AllMonths[i] in m then m[AllMonths[i]] else Point(AllMonths[i], 0, 0))
  }

  /**
   * A key is a key of the map exactly when some entry carries it, and then it maps to the
   * point of the last such entry.
   */
  lemma {:induction false} DataMapLastWins(items: seq<MonthlyItem>, key: string)
    ensures key in DataMap(items) <==> exists i :: 0 <= i < |items| && items[i].month == key
    ensures forall i :: (0 <= i < |items| && items[i].month == key
                         && (forall j :: i < j < |items| ==> items[j].month != key))
                         ==> key in DataMap(items) && DataMap(items)[key] == PointOf(items[i])
    decreases |items|
  {
    if items != [] {
      var init := items[..|items| - 1];
      DataMapLastWins(init, key);
      if exists i :: 0 <= i < |init| && init[i].month == key {
        var i :| 0 <= i < |init| && init[i].month == key;
        assert items[i] == init[i];
      }
      if exists i :: 0 <= i < |items| && items[i].month == key {
        var i :| 0 <= i < |items| && items[i].month == key;
        if i < |init| { assert init[i] == items[i]; }
      }
      forall i | 0 <= i < |items| && items[i].month == key
        && (forall j :: i < j < |items| ==> items[j].month != key)
        ensures key in DataMap(items) && DataMap(items)[key] == PointOf(items[i])
      {
        if i < |init| {
          assert init[i] == items[i];
          forall j | i < j < |init| ensures init[j].month != key {
            assert init[j] == items[j];
          }
        }
      }
    }
  }

  /**
   * The series has exactly twelve points labelled Jan..Dec in order; a month no entry names
   * gets revenue 0 and expense 0, and a month some entry names gets the amounts of the last
   * such entry (so entries with other labels are dropped).
   */
  lemma SeriesShape(items: seq<MonthlyItem>)
    ensures |GapFill(DataMap(items))| == 12
    ensures forall k :: 0 <= k < 12 ==> GapFill(DataMap(items))[k].month == AllMonths[k]
    ensures forall k :: (0 <= k < 12 && forall i :: 0 <= i < |items| ==> items[i].month != AllMonths[k])
                        ==> GapFill(DataMap(items))[k] == Point(AllMonths[k], 0, 0)
    ensures forall k, i :: (0 <= k < 12 && 0 <= i < |items| && items[i].month == AllMonths[k]
                            && (forall j :: i < j < |items| ==> items[j].month != AllMonths[k]))
                           ==> GapFill(DataMap(items))[k] == PointOf(items[i])
  {
    forall k | 0 <= k < 12 {
      DataMapLastWins(items, AllMonths[k]);
    }
  }

  /**
   * `s[..n].reduce((a, b) => (b.revenue > a.revenue ? b : a))`: the index of the first point
   * whose revenue is the highest.
   */
  function MaxRevenueIndex(s: seq<Point>, n: nat): (k: nat)
    requires 1 <= n <= |s|
    ensures k < n
    ensures forall j :: 0 <= j < n ==> s[j].revenue <= s[k].revenue
    ensures forall j :: 0 <= j < k ==> s[j].revenue < s[k].revenue
  {
    if n == 1 then 0
    else
      var a := MaxRevenueIndex(s, n - 1);
      if s[n - 1].revenue > s[a].revenue then n - 1 else a
  }

  /**
   * `s[..n].reduce((a, b) => (b.revenue < a.revenue ? b : a))`: the index of the first point
   * whose revenue is the lowest.
   */
  function MinRevenueIndex(s: seq<Point>, n: nat): (k: nat)
    requires 1 <= n <= |s|
    ensures k < n
    ensures forall j :: 0 <= j < n ==> s[k].revenue <= s[j].revenue
    ensures forall j :: 0 <= j < k ==> s[k].revenue < s[j].revenue
  {
    if n == 1 then 0
    else
      var a := MinRevenueIndex(s, n - 1);
      if s[n - 1].revenue < s[a].revenue then n - 1 else a
  }

  /**
   * The component: `None` (the "no data" placeholder) when `data.monthly` is not an array,
   * otherwise the gap-filled series with its highest- and lowest-revenue months.
   */
  method IncomeExpense(monthly: Option<seq<MonthlyItem>>) returns (chart: Option<Chart>)
    ensures chart.None? <==> monthly.None?
    ensures chart.Some? ==>
      var c := chart.value;
      && c.points == GapFill(DataMap(monthly.value))
      && |c.points| == 12
      && (forall k :: 0 <= k < 12 ==> c.points[k].month == AllMonths[k])
      && c.maxRevenue in c.points && c.minRevenue in c.points
      && (forall p :: p in c.points ==> c.minRevenue.revenue <= p.revenue <= c.maxRevenue.revenue)
      && (forall k :: 0 <= k < 12 && c.points[k].revenue == c.maxRevenue.revenue
            ==> c.points[k] == c.maxRevenue || exists j :: 0 <= j < k && c.points[j] == c.maxRevenue)
      && (forall k :: 0 <= k < 12 && c.points[k].revenue == c.minRevenue.revenue
            ==> c.points[k] == c.minRevenue || exists j :: 0 <= j < k && c.points[j] == c.minRevenue)
  {
    if monthly.None? {
      return None;
    }
    var m := BuildDataMap(monthly.value);
    var points := GapFill(m);
    SeriesShape(monthly.value);
    var hi := MaxRevenueIndex(points, 12);
    var lo := MinRevenueIndex(points, 12);
    chart := Some(Chart(points, points[hi], points[lo]));
    forall k | 0 <= k < 12 && points[k].revenue == points[hi].revenue
      ensures points[k] == points[hi] || exists j :: 0 <= j < k && points[j] == points[hi]
    {
      if k != hi { assert hi < k; }
    }
    forall k | 0 <= k < 12 && points[k].revenue == points[lo].revenue
      ensures points[k] == points[lo] || exists j :: 0 <= j < k && points[j] == points[lo]
    {
      if k != lo { assert lo < k; }
    }
  }

  /** The three entries of the scenario below, keyed and gap-filled. */
  lemma ScenarioSeries()
    ensures GapFill(DataMap([MonthlyItem("Jan", Num(100), Blank), MonthlyItem("Feb", Num(500), Blank),
                             MonthlyItem("Mar", Num(0), Blank)])) ==
      [Point("Jan", 100, 0), Point("Feb", 500, 0), Point("Mar", 0, 0)] +
      seq(9, i requires 0 <= i < 9 => Point(AllMonths[i + 3], 0, 0))
  {
    var items := [MonthlyItem("Jan", Num(100), Blank), MonthlyItem("Feb", Num(500), Blank),
                  MonthlyItem("Mar", Num(0), Blank)];
    assert items[..1][..0] == [];
    assert DataMap(items[..1]) == map["Jan" := Point("Jan", 100, 0)];
    assert items[..2][..1] == items[..1];
    assert DataMap(items[..2]) == map["Jan" := Point("Jan", 100, 0), "Feb" := Point("Feb", 500, 0)];
    assert items[..3][..2] == items[..2];
    assert items[..3] == items;
    assert DataMap(items) ==
      map["Jan" := Point("Jan", 100, 0), "Feb" := Point("Feb", 500, 0), "Mar" := Point("Mar", 0, 0)];
  }

  /** With revenue Jan 100, Feb 500, Mar 0 the highest month is Feb and the lowest is Mar. */
  method ExtremesScenario()
  {
    var items := [MonthlyItem("Jan", Num(100), Blank), MonthlyItem("Feb", Num(500), Blank),
                  MonthlyItem("Mar", Num(0), Blank)];
    var chart := IncomeExpense(Some(items));
    ScenarioSeries();
    var c := chart.value;
    assert c.points[1] == Point("Feb", 500, 0) && c.points[2] == Point("Mar", 0, 0);
    assert c.maxRevenue == c.points[1];
    assert c.minRevenue == c.points[2];
  }
}
