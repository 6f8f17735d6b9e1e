/** The device card: the battery colour, the "last sync" text and the
    connect/disconnect button of one smart watch. Times are whole
    milliseconds; the current time is a parameter. */
module DeviceCard {
  import opened Js
  import opened HealthTypes

  const Green := "#10b981"
  const Amber := "#f59e0b"
  const Red := "#ef4444"

  /** `getBatteryColor`: green above 50, amber above 20, red otherwise. */
  function BatteryColor(level: int): (color: string)
    ensures color == Green <==> level > 50
    ensures color == Amber <==> 20 < level <= 50
    ensures color == Red <==> level <= 20
  {
    if level > 50 then Green
    else if level > 20 then Amber
    else Red
  }

  const MinuteMs := 60_000
  const HourMs := 3_600_000
  const DayMs := 86_400_000

  /** The bucket the elapsed time falls in; the counts are whole units. */
  datatype SyncAge = JustNow | MinutesAgo(minutes: nat) | HoursAgo(hours: nat) | DaysAgo(days: nat)

  /** `minutes = floor(diff / 60000)` and then, as the code falls through,
      the first bucket whose bound holds. The counts are exactly the number
      of whole minutes, hours or days elapsed. */
  function LastSyncAge(diff: int): (age: SyncAge)
    ensures age.JustNow? <==> diff < MinuteMs
    ensures age.MinutesAgo? ==>
              1 <= age.minutes < 60 && age.minutes * MinuteMs <= diff < (age.minutes + 1) * MinuteMs
    ensures age.HoursAgo? ==>
              1 <= age.hours < 24 && age.hours * HourMs <= diff < (age.hours + 1) * HourMs
    ensures age.DaysAgo? ==>
              1 <= age.days && age.days * DayMs <= diff < (age.days + 1) * DayMs
  {
    var minutes := diff / MinuteMs;
    if minutes < 1 then JustNow
    else if minutes < 60 then MinutesAgo(minutes)
    else
      var hours := minutes / 60;
      if hours < 24 then HoursAgo(hours)
      else DaysAgo(hours / 24)
  }

  function Render(age: SyncAge): string {
    match age
    case JustNow => "Just now"
    case MinutesAgo(m) => NatToString(m) + "m ago"
    case HoursAgo(h) => NatToString(h) + "h ago"
    case DaysAgo(d) => NatToString(d) + "d ago"
  }

  /** `formatLastSync`, for a sync time and the current time in milliseconds:
      "Just now" exactly when less than a minute has passed (a sync in the
      future included), otherwise a count followed by a unit and " ago". */
  function FormatLastSync(syncMs: int, nowMs: int): (text: string)
    ensures text == "Just now" <==> nowMs - syncMs < MinuteMs
    ensures nowMs - syncMs >= MinuteMs ==>
              |text| >= 5 && IsDigit(text[0]) && text[|text| - 4..] == " ago"
    ensures forall m: nat {:trigger NatToString(m)} ::
              1 <= m < 60 && m * MinuteMs <= nowMs - syncMs < (m + 1) * MinuteMs ==>
              text == NatToString(m) + "m ago"
    ensures forall h: nat {:trigger NatToString(h)} ::
              1 <= h < 24 && h * HourMs <= nowMs - syncMs < (h + 1) * HourMs ==>
              text == NatToString(h) + "h ago"
    ensures forall d: nat {:trigger NatToString(d)} ::
              1 <= d && d * DayMs <= nowMs - syncMs < (d + 1) * DayMs ==>
              text == NatToString(d) + "d ago"
  {
    var age := LastSyncAge(nowMs - syncMs);
    RenderOfRange(nowMs - syncMs);
    if !age.JustNow? then RenderStartsWithDigit(age); RenderSplit(age); Render(age)
    else Render(age)
  }

  /** The elapsed-time range of a count fixes the rendered bucket and count. */
  lemma RenderOfRange(diff: int)
    ensures forall m: nat {:trigger NatToString(m)} ::
              1 <= m < 60 && m * MinuteMs <= diff < (m + 1) * MinuteMs ==>
              Render(LastSyncAge(diff)) == NatToString(m) + "m ago"
    ensures forall h: nat {:trigger NatToString(h)} ::
              1 <= h < 24 && h * HourMs <= diff < (h + 1) * HourMs ==>
              Render(LastSyncAge(diff)) == NatToString(h) + "h ago"
    ensures forall d: nat {:trigger NatToString(d)} ::
              1 <= d && d * DayMs <= diff < (d + 1) * DayMs ==>
              Render(LastSyncAge(diff)) == NatToString(d) + "d ago"
  {
    forall m: nat | 1 <= m < 60 && m * MinuteMs <= diff < (m + 1) * MinuteMs
      ensures Render(LastSyncAge(diff)) == NatToString(m) + "m ago"
    {
      MinutesFromRange(diff, m);
    }
    forall h: nat | 1 <= h < 24 && h * HourMs <= diff < (h + 1) * HourMs
      ensures Render(LastSyncAge(diff)) == NatToString(h) + "h ago"
    {
      HoursFromRange(diff, h);
    }
    forall d: nat | 1 <= d && d * DayMs <= diff < (d + 1) * DayMs
      ensures Render(LastSyncAge(diff)) == NatToString(d) + "d ago"
    {
      DaysFromRange(diff, d);
    }
  }

  lemma MinutesFromRange(diff: int, m: nat)
    requires 1 <= m < 60 && m * MinuteMs <= diff < (m + 1) * MinuteMs
    ensures LastSyncAge(diff) == MinutesAgo(m)
  {
    var age := LastSyncAge(diff);
    assert age.MinutesAgo?;
  }

  lemma HoursFromRange(diff: int, h: nat)
    requires 1 <= h < 24 && h * HourMs <= diff < (h + 1) * HourMs
    ensures LastSyncAge(diff) == HoursAgo(h)
  {
    var age := LastSyncAge(diff);
    assert age.HoursAgo?;
  }

  lemma DaysFromRange(diff: int, d: nat)
    requires 1 <= d && d * DayMs <= diff < (d + 1) * DayMs
    ensures LastSyncAge(diff) == DaysAgo(d)
  {
    var age := LastSyncAge(diff);
    assert age.DaysAgo?;
  }

  /** Different buckets render to different texts, so the text tells the
      bucket and the count back. */
  lemma RenderInjective(a: SyncAge, b: SyncAge)
    ensures Render(a) == Render(b) <==> a == b
  {
    if !a.JustNow? && !b.JustNow? {
      if Render(a) == Render(b) {
        CountedRenderInjective(a, b);
      }
    } else if !a.JustNow? {
      RenderStartsWithDigit(a);
    } else if !b.JustNow? {
      RenderStartsWithDigit(b);
    }
  }

  lemma RenderSplit(age: SyncAge)
    requires !age.JustNow?
    ensures Render(age) == NatToString(UnitOf(age).0) + ([UnitOf(age).1] + " ago")
  {
  }

  lemma CountedRenderInjective(a: SyncAge, b: SyncAge)
    requires !a.JustNow? && !b.JustNow?
    requires Render(a) == Render(b)
    ensures a == b
  {
    var (m, x) := UnitOf(a);
    var (n, y) := UnitOf(b);
    RenderSplit(a);
    RenderSplit(b);
    DigitsThenLetter(NatToString(m), NatToString(n), [x] + " ago", [y] + " ago");
    NatToStringInjective(m, n);
    assert x == ([x] + " ago")[0] == ([y] + " ago")[0] == y;
  }

  /** Every bucket but "Just now" renders starting with a digit. */
  lemma RenderStartsWithDigit(age: SyncAge)
    requires !age.JustNow?
    ensures |Render(age)| > 0 && IsDigit(Render(age)[0]) && !IsDigit("Just now"[0])
  {
    RenderSplit(age);
  }

  function UnitOf(age: SyncAge): (nat, char)
    requires !age.JustNow?
  {
    match age
    case MinutesAgo(m) => (m, 'm')
    case HoursAgo(h) => (h, 'h')
    case DaysAgo(d) => (d, 'd')
  }

  /** Two digit strings each followed by a text starting with a non-digit are
      equal as concatenations only when the digits and the texts are equal. */
  lemma DigitsThenLetter(s: string, t: string, u: string, v: string)
    requires forall i :: 0 <= i < |s| ==> IsDigit(s[i])
    requires forall i :: 0 <= i < |t| ==> IsDigit(t[i])
    requires |u| > 0 && !IsDigit(u[0]) && |v| > 0 && !IsDigit(v[0])
    requires s + u == t + v
    ensures s == t && u == v
  {
    var w := s + u;
    assert forall i :: 0 <= i < |s| ==> IsDigit(w[i]);
    assert !IsDigit(w[|s|]);
    assert forall i :: 0 <= i < |t| ==> IsDigit(w[i]);
    assert !IsDigit(w[|t|]);
    assert |s| == |t|;
    assert s == w[..|s|] == t;
    assert u == w[|s|..] == v;
  }

  /** What pressing the card's button does. */
  datatype ButtonAction = Connect(deviceId: string) | Disconnect(deviceId: string)

  /** The button of a connected watch disconnects it and reads "Disconnect";
      that of any other watch connects it and reads "Connect". */
  function CardButton(watch: SmartWatch): (button: (ButtonAction, string))
    ensures watch.isConnected <==> button.0.Disconnect?
    ensures button.0.deviceId == watch.id
    ensures button.1 == if button.0.Disconnect? then "Disconnect" else "Connect"
  {
    if watch.isConnected then (Disconnect(watch.id), "Disconnect") else (Connect(watch.id), "Connect")
  }
}
