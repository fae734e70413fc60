/** Backend/appliance_detector.py: a message for a jump in total usage of more than
    2 units, chosen by the hour of the day. The hour is a parameter
    (`datetime.now().hour`). */
module ApplianceDetector {
  import opened PyValues
  import opened DataFiles

  type Hour = h: int | 0 <= h < 24

  datatype Spike = NightSpike | MorningSpike | EveningSpike | GenericSpike

  function Message(s: Spike): string {
    match s
    case NightSpike => "High AC / Geyser usage detected. Consider reducing night usage."
    case MorningSpike => "Morning power spike detected. Heater or Iron may be consuming more."
    case EveningSpike => "Evening peak usage detected. Cooking or Washing Machine may be ON."
    case GenericSpike => "Sudden power spike detected. Please check heavy appliances."
  }

  /** `detect_appliance(previous, current)`. */
  function DetectAppliance(previous: real, current: real, hour: Hour): (r: Option<Spike>)
    ensures r.None? <==> current - previous <= 2.0
  {
    if current - previous > 2.0 then
      if 22 <= hour || hour <= 6 then Some(NightSpike)
      else if 6 < hour <= 10 then Some(MorningSpike)
      else if 18 <= hour <= 22 then Some(EveningSpike)
      else Some(GenericSpike)
    else None
  }

  /** For a spike, the hours 22-23 and 0-6 are night, 7-10 morning, 18-21 evening and
      11-17 generic; hour 22 is taken by the night branch. */
  lemma SpikeByHour(previous: real, current: real, hour: Hour)
    requires current - previous > 2.0
    ensures DetectAppliance(previous, current, hour) == Some(NightSpike) <==> hour >= 22 || hour <= 6
    ensures DetectAppliance(previous, current, hour) == Some(MorningSpike) <==> 7 <= hour <= 10
    ensures DetectAppliance(previous, current, hour) == Some(EveningSpike) <==> 18 <= hour <= 21
    ensures DetectAppliance(previous, current, hour) == Some(GenericSpike) <==> 11 <= hour <= 17
  {
  }

  /** `run_detection()`: compares `total_usage` with `previous_usage` (which defaults to
      the current value), always records the current value as `previous_usage`, and
      appends an alert only when there is a message. */
  method RunDetection(usage: UsageFile, alerts: AlertFile, hour: Hour, now: string)
    modifies usage, alerts
    ensures var current := FieldOr(old(usage.fields), "total_usage", 0.0);
      var previous := FieldOr(old(usage.fields), "previous_usage", current);
      var spike := DetectAppliance(previous, current, hour);
      usage.fields == old(usage.fields)["previous_usage" := current] &&
      (spike.None? ==> alerts.stored == old(alerts.stored)) &&
      (spike.Some? ==> alerts.stored == Some(Existing(old(alerts.stored)) + [Alert(Appliance, Message(spike.value), now)]))
  {
    var current := FieldOr(usage.fields, "total_usage", 0.0);
    var previous := FieldOr(usage.fields, "previous_usage", current);
    var message := DetectAppliance(previous, current, hour);
    usage.fields := usage.fields["previous_usage" := current];
    if message.Some? {
      alerts.Append(Alert(Appliance, Message(message.value), now));
    }
  }

  /** Without a stored `previous_usage` the first run sees no spike. */
  lemma FirstRunNoSpike(fields: map<string, real>, hour: Hour)
    requires "previous_usage" !in fields
    ensures var current := FieldOr(fields, "total_usage", 0.0);
      DetectAppliance(FieldOr(fields, "previous_usage", current), current, hour).None?
  {
  }

  /** Running again without new usage sees no spike. */
  lemma SecondRunNoSpike(fields: map<string, real>, hour: Hour)
    ensures var current := FieldOr(fields, "total_usage", 0.0);
      var after := fields["previous_usage" := current];
      DetectAppliance(FieldOr(after, "previous_usage", current), FieldOr(after, "total_usage", 0.0), hour).None?
  {
  }
}
