/** Backend/usage_monitor.py: one alert when the month's usage crosses 70%, 85% or 95%
    of a fixed test limit of 50 units. */
module UsageMonitor {
  import opened PyValues
  import opened DataFiles

  const PlanLimit: real := 50.0

  /** `(total_used / PLAN_LIMIT) * 100`. */
  function PercentUsed(totalUsed: real): (p: real)
    ensures p == totalUsed * 2.0
  {
    totalUsed / PlanLimit * 100.0
  }

  /** The level `check_usage` raises for a percentage: from 95 critical, from 85 a warning,
      from 70 information, and none below 70. */
  function LevelFor(percent: real): (l: Option<Level>)
    ensures l == Some(Critical) <==> percent >= 95.0
    ensures l == Some(Warning) <==> 85.0 <= percent < 95.0
    ensures l == Some(Info) <==> 70.0 <= percent < 85.0
    ensures l.None? <==> percent < 70.0
  {
    if percent >= 95.0 then Some(Critical)
    else if percent >= 85.0 then Some(Warning)
    else if percent >= 70.0 then Some(Info)
    else None
  }

  /** The message `check_usage` saves with each of its three levels. `Appliance` is the
      detector's level and never reaches this function (LevelFor does not return it). */
  function LevelMessage(l: Level): string {
    match l
    case Critical => "95% of plan used! Reduce usage immediately."
    case Warning => "85% of plan used. High consumption detected."
    case Info => "70% of plan used. Monitor usage."
    case Appliance => ""
  }

  /** `save_alert(level, message)`: one alert appended after the ones already stored. */
  method SaveAlert(alerts: AlertFile, level: Level, message: string, now: string)
    modifies alerts
    ensures alerts.stored == Some(Existing(old(alerts.stored)) + [Alert(level, message, now)])
  {
    alerts.Append(Alert(level, message, now));
  }

  /** `check_usage()`: saves at most one alert, for the highest threshold reached. */
  method CheckUsage(usage: UsageFile, alerts: AlertFile, now: string)
    modifies alerts
    ensures var l := LevelFor(PercentUsed(FieldOr(usage.fields, "total_usage", 0.0)));
      (l.None? ==> alerts.stored == old(alerts.stored)) &&
      (l.Some? ==> alerts.stored == Some(Existing(old(alerts.stored)) + [Alert(l.value, LevelMessage(l.value), now)]))
  {
    var totalUsed := if "total_usage" in usage.fields then usage.fields["total_usage"] else 0.0;
    var percentUsed := totalUsed / PlanLimit * 100.0;
    if percentUsed >= 95.0 {
      SaveAlert(alerts, Critical, "95% of plan used! Reduce usage immediately.", now);
    } else if percentUsed >= 85.0 {
      SaveAlert(alerts, Warning, "85% of plan used. High consumption detected.", now);
    } else if percentUsed >= 70.0 {
      SaveAlert(alerts, Info, "70% of plan used. Monitor usage.", now);
    }
  }

  /** In units: 35 gives information, 42.5 a warning, 47.5 a critical alert. */
  lemma MonitorThresholdsInUnits(totalUsed: real)
    ensures LevelFor(PercentUsed(totalUsed)).None? <==> totalUsed < 35.0
    ensures LevelFor(PercentUsed(totalUsed)) == Some(Critical) <==> totalUsed >= 47.5
    ensures LevelFor(PercentUsed(totalUsed)) == Some(Warning) <==> 42.5 <= totalUsed < 47.5
  {
  }
}
