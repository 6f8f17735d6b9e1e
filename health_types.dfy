/** The records the application passes around: health metrics, the smart
    watch shown on a device card, and the dashboard summary. Metric values are
    whole numbers here. */
module HealthTypes {
  import opened Js

  datatype MetricType = HeartRate | BloodPressure | Steps | Calories | Sleep

  /** A stored reading; `systolic` and `diastolic` are used by blood-pressure
      readings only. Timestamps are opaque ISO strings. */
  datatype HealthMetric = HealthMetric(
    id: string,
    userId: string,
    kind: MetricType,
    value: int,
    systolic: Option<int>,
    diastolic: Option<int>,
    timestamp: string,
    deviceId: Option<string>)

  /** A reading about to be stored: a `HealthMetric` without its `id`. */
  datatype NewHealthMetric = NewHealthMetric(
    userId: string,
    kind: MetricType,
    value: int,
    systolic: Option<int>,
    diastolic: Option<int>,
    timestamp: string,
    deviceId: Option<string>)

  datatype SmartWatch = SmartWatch(
    id: string,
    name: string,
    model: string,
    batteryLevel: int,
    isConnected: bool,
    lastSync: string)

  datatype BloodPressureReading = BloodPressureReading(systolic: int, diastolic: int)

  /** Every field is optional; the initial dashboard has none of them. */
  datatype DashboardData = DashboardData(
    currentHeartRate: Option<int>,
    currentBloodPressure: Option<BloodPressureReading>,
    dailySteps: Option<int>,
    caloriesBurned: Option<int>,
    sleepHours: Option<int>)

  const EmptyDashboard := DashboardData(None, None, None, None, None)
}
