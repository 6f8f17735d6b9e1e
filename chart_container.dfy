/** The chart container: a line chart of the first seven metrics of a list,
    oldest on the left, or a "No data available" panel for an empty list. */
module ChartContainer {
  import opened Js
  import opened HealthTypes

  const MaxPoints := 7

  datatype ChartData = ChartData(labels: seq<string>, series: seq<int>)

  /** What the container renders. */
  datatype ChartView = NoDataAvailable | LineChart(chart: ChartData)

  /** `s.reverse()`: element i of the result is element n-1-i of `s`. */
  function Reverse(s: seq<HealthMetric>): (r: seq<HealthMetric>)
    ensures |r| == |s|
    ensures forall i :: 0 <= i < |s| ==> r[i] == s[|s| - 1 - i]
    decreases |s|
  {
    if |s| == 0 then [] else [s[|s| - 1]] + Reverse(s[..|s| - 1])
  }

  /** `data.slice(0, 7)`. */
  function FirstSeven(data: seq<HealthMetric>): seq<HealthMetric> {
    if |data| <= MaxPoints then data else data[..MaxPoints]
  }

  /** The label of the point at `index`: `${index + 1}d`. */
  function DayLabel(index: nat): string {
    NatToString(index + 1) + "d"
  }

  function Min(a: int, b: int): int {
    if a <= b then a else b
  }

  /** `chartData`: the series holds the values of the first min(7, |data|)
      metrics, the k-th of them at position k-1-i, so the oldest comes first;
      there is one label per point, "1d", "2d", and so on. */
  function PrepareChartData(data: seq<HealthMetric>): (chart: ChartData)
    ensures var k := Min(MaxPoints, |data|);
      && |chart.series| == k
      && |chart.labels| == k
      && (forall i :: 0 <= i < k ==> chart.series[i] == data[k - 1 - i].value)
      && (forall i :: 0 <= i < k ==> chart.labels[i] == NatToString(i + 1) + "d")
  {
    var points := Reverse(FirstSeven(data));
    ChartData(
      seq(|points|, (i: int) requires 0 <= i < |points| => DayLabel(i)),
      seq(|points|, (i: int) requires 0 <= i < |points| => points[i].value))
  }

  /** An empty list shows the "No data available" panel and no chart; any
      other list shows the chart of its data, with at least one point. */
  function RenderChart(data: seq<HealthMetric>): (view: ChartView)
    ensures view == NoDataAvailable <==> |data| == 0
    ensures view.LineChart? ==> view.chart == PrepareChartData(data) && |view.chart.series| >= 1
  {
    if |data| == 0 then NoDataAvailable else LineChart(PrepareChartData(data))
  }
}
