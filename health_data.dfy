/** The health-data hook: it fetches the user's recent metrics, summarises
    them for the dashboard and stores new metrics. The backend calls are not
    modelled; what they return is passed to the event methods. */
module HealthData {
  import opened Js
  import opened HealthTypes

  /** `metrics.filter(m => m.type === kind)`. */
  function FilterByType(metrics: seq<HealthMetric>, kind: MetricType): (r: seq<HealthMetric>)
    ensures |r| <= |metrics|
    ensures forall i :: 0 <= i < |r| ==> r[i].kind == kind && r[i] in metrics
    ensures forall i :: 0 <= i < |metrics| && metrics[i].kind == kind ==> metrics[i] in r
    decreases |metrics|
  {
    if |metrics| == 0 then []
    else if metrics[0].kind == kind then [metrics[0]] + FilterByType(metrics[1..], kind)
    else FilterByType(metrics[1..], kind)
  }

  /** Index `i` holds the earliest metric of the given type. */
  ghost predicate IsFirstOfType(metrics: seq<HealthMetric>, kind: MetricType, i: int) {
    && 0 <= i < |metrics|
    && metrics[i].kind == kind
    && forall j :: 0 <= j < i ==> metrics[j].kind != kind
  }

  /** Filtering one metric keeps it exactly when it has the type; with
      `FilterAppend` this fixes the result, order included, on every list. */
  lemma FilterByTypeSingle(m: HealthMetric, kind: MetricType)
    ensures FilterByType([m], kind) == if m.kind == kind then [m] else []
  {
    assert [m][1..] == [];
  }

  lemma {:induction false} FilterAppend(a: seq<HealthMetric>, b: seq<HealthMetric>, kind: MetricType)
    ensures FilterByType(a + b, kind) == FilterByType(a, kind) + FilterByType(b, kind)
    decreases |a|
  {
    if |a| == 0 {
      assert a + b == b;
    } else {
      assert (a + b)[0] == a[0];
      assert (a + b)[1..] == a[1..] + b;
      FilterAppend(a[1..], b, kind);
    }
  }

  /** The filter of a list starts with the metric at the earliest index of the type. */
  lemma {:induction false} FilterHeadIsFirst(metrics: seq<HealthMetric>, kind: MetricType, i: int)
    requires IsFirstOfType(metrics, kind, i)
    ensures |FilterByType(metrics, kind)| > 0 && FilterByType(metrics, kind)[0] == metrics[i]
    decreases i
  {
    if i > 0 {
      assert IsFirstOfType(metrics[1..], kind, i - 1);
      FilterHeadIsFirst(metrics[1..], kind, i - 1);
    }
  }

  lemma FilterHeadIsFirstAll(metrics: seq<HealthMetric>, kind: MetricType)
    ensures forall i :: IsFirstOfType(metrics, kind, i) ==>
              |FilterByType(metrics, kind)| > 0 && FilterByType(metrics, kind)[0] == metrics[i]
  {
    forall i | IsFirstOfType(metrics, kind, i)
      ensures |FilterByType(metrics, kind)| > 0 && FilterByType(metrics, kind)[0] == metrics[i]
    {
      FilterHeadIsFirst(metrics, kind, i);
    }
  }

  /** `metrics.filter(m => m.type === kind)[0]`: the metric at the earliest
      index of the type, absent exactly when no metric has the type. */
  function FirstOfType(metrics: seq<HealthMetric>, kind: MetricType): (r: Option<HealthMetric>)
    ensures r.None? <==> forall i :: 0 <= i < |metrics| ==> metrics[i].kind != kind
    ensures forall i :: IsFirstOfType(metrics, kind, i) ==> r == Some(metrics[i])
  {
    var matching := FilterByType(metrics, kind);
    FilterHeadIsFirstAll(metrics, kind);
    if |matching| > 0 then Some(matching[0]) else None
  }

  /** `metrics.reduce((sum, m) => sum + m.value, 0)`, a left fold: 0 for the
      empty list, and never negative when no value is. */
  function SumValues(metrics: seq<HealthMetric>): (total: int)
    ensures |metrics| == 0 ==> total == 0
    ensures (forall i :: 0 <= i < |metrics| ==> metrics[i].value >= 0) ==> total >= 0
    decreases |metrics|
  {
    if |metrics| == 0 then 0 else SumValues(metrics[..|metrics| - 1]) + metrics[|metrics| - 1].value
  }

  /** The sum of the values of the metrics of one type: 0 when there is none
      of the type, and never negative when no value of the type is. */
  function SumOfType(metrics: seq<HealthMetric>, kind: MetricType): (total: int)
    ensures (forall i :: 0 <= i < |metrics| ==> metrics[i].kind != kind) ==> total == 0
    ensures (forall i :: 0 <= i < |metrics| && metrics[i].kind == kind ==> metrics[i].value >= 0) ==> total >= 0
  {
    SumValues(FilterByType(metrics, kind))
  }

  lemma {:induction false} SumValuesAppend(a: seq<HealthMetric>, b: seq<HealthMetric>)
    ensures SumValues(a + b) == SumValues(a) + SumValues(b)
    decreases |b|
  {
    if |b| > 0 {
      assert (a + b)[..|a + b| - 1] == a + b[..|b| - 1];
      SumValuesAppend(a, b[..|b| - 1]);
    } else {
      assert a + b == a;
    }
  }

  /** A sum over a type is additive over concatenation, counts a metric of
      that type by its value and ignores metrics of other types: together
      these determine `SumOfType` on every list. */
  lemma SumOfTypeAppend(a: seq<HealthMetric>, b: seq<HealthMetric>, kind: MetricType)
    ensures SumOfType(a + b, kind) == SumOfType(a, kind) + SumOfType(b, kind)
  {
    FilterAppend(a, b, kind);
    SumValuesAppend(FilterByType(a, kind), FilterByType(b, kind));
  }

  lemma SumOfTypeSingle(m: HealthMetric, kind: MetricType)
    ensures SumOfType([m], kind) == if m.kind == kind then m.value else 0
  {
    FilterByTypeSingle(m, kind);
    if m.kind == kind {
      assert [m][..0] == [];
      assert SumValues([m]) == SumValues([]) + m.value;
    }
  }

  /** A blood-pressure reading with a missing (or zero) side reported as 0. */
  function BloodPressureOf(m: HealthMetric): (r: BloodPressureReading)
    ensures m.systolic.Some? && m.systolic.value != 0 ==> r.systolic == m.systolic.value
    ensures m.systolic.None? || m.systolic.value == 0 ==> r.systolic == 0
    ensures m.diastolic.Some? && m.diastolic.value != 0 ==> r.diastolic == m.diastolic.value
    ensures m.diastolic.None? || m.diastolic.value == 0 ==> r.diastolic == 0
  {
    BloodPressureReading(NumberOr(m.systolic, 0), NumberOr(m.diastolic, 0))
  }

  /** The dashboard summary of the fetched metrics: the earliest heart-rate,
      blood-pressure and sleep metrics (absent when there is none) and the
      step and calorie totals. */
  function Dashboard(metrics: seq<HealthMetric>): (d: DashboardData)
    ensures d.currentHeartRate.None? <==> forall i :: 0 <= i < |metrics| ==> metrics[i].kind != HeartRate
    ensures forall i :: IsFirstOfType(metrics, HeartRate, i) ==> d.currentHeartRate == Some(metrics[i].value)
    ensures d.currentBloodPressure.None? <==> forall i :: 0 <= i < |metrics| ==> metrics[i].kind != BloodPressure
    ensures forall i :: IsFirstOfType(metrics, BloodPressure, i) ==>
              d.currentBloodPressure == Some(BloodPressureOf(metrics[i]))
    ensures d.sleepHours.None? <==> forall i :: 0 <= i < |metrics| ==> metrics[i].kind != Sleep
    ensures forall i :: IsFirstOfType(metrics, Sleep, i) ==> d.sleepHours == Some(metrics[i].value)
    ensures d.dailySteps == Some(SumOfType(metrics, Steps))
    ensures d.caloriesBurned == Some(SumOfType(metrics, Calories))
  {
    DashboardData(
      currentHeartRate := match FirstOfType(metrics, HeartRate) case Some(m) => Some(m.value) case None => None,
      currentBloodPressure := match FirstOfType(metrics, BloodPressure) case Some(m) => Some(BloodPressureOf(m)) case None => None,
      dailySteps := Some(SumOfType(metrics, Steps)),
      caloriesBurned := Some(SumOfType(metrics, Calories)),
      sleepHours := match FirstOfType(metrics, Sleep) case Some(m) => Some(m.value) case None => None)
  }

  /** The outcome of fetching the recent metrics: the list, or a thrown error. */
  datatype FetchOutcome = Fetched(metrics: seq<HealthMetric>) | FetchFailed

  class HealthDataHook {
    var dashboardData: DashboardData
    var recentMetrics: seq<HealthMetric>
    var loading: bool

    constructor ()
      ensures dashboardData == EmptyDashboard && recentMetrics == [] && !loading
    {
      dashboardData := EmptyDashboard;
      recentMetrics := [];
      loading := false;
    }

    /** The start of `fetchDashboardData`: without a user nothing happens;
        otherwise `loading` is set and the metrics of the user are requested. */
    method FetchDashboardData(user: Option<string>) returns (requestedFor: Option<string>)
      modifies this
      ensures requestedFor == user
      ensures user.None? ==> unchanged(this)
      ensures user.Some? ==>
                loading && dashboardData == old(dashboardData) && recentMetrics == old(recentMetrics)
    {
      requestedFor := user;
      if user.None? {
        return;
      }
      loading := true;
    }

    /** The end of `fetchDashboardData`: `loading` is cleared on success and
        on failure; a fetched list replaces the summary and the recent
        metrics, a failure leaves them as they were. */
    method OnMetricsFetched(outcome: FetchOutcome)
      modifies this
      ensures !loading
      ensures outcome.Fetched? ==>
                dashboardData == Dashboard(outcome.metrics) && recentMetrics == outcome.metrics
      ensures outcome.FetchFailed? ==>
                dashboardData == old(dashboardData) && recentMetrics == old(recentMetrics)
    {
      if outcome.Fetched? {
        dashboardData := Dashboard(outcome.metrics);
        recentMetrics := outcome.metrics;
      }
      loading := false;
    }

    /** `addHealthMetric`: without a user nothing happens; otherwise the
        metric is sent with the user's id in place of its own, and, when the
        insert succeeds, a refresh starts; a failed insert is rethrown. */
    method AddHealthMetric(user: Option<string>, metric: NewHealthMetric, inserted: bool)
      returns (sent: Option<NewHealthMetric>, thrown: bool)
      modifies this
      ensures user.None? ==> sent.None? && !thrown && unchanged(this)
      ensures user.Some? ==> sent == Some(metric.(userId := user.value))
      ensures user.Some? && inserted ==>
                !thrown && loading && dashboardData == old(dashboardData) && recentMetrics == old(recentMetrics)
      ensures user.Some? && !inserted ==> thrown && unchanged(this)
    {
      if user.None? {
        return None, false;
      }
      sent := Some(metric.(userId := user.value));
      thrown := !inserted;
      if inserted {
        var _ := FetchDashboardData(user);
      }
    }
  }
}
