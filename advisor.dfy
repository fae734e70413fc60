/** Backend/ML/energy_ai_advisor.py: advice from today's usage. */
module EnergyAdvisor {

  datatype Advice = HighLoad | Saved | Moderate

  function Message(a: Advice): string {
    match a
    case HighLoad => "Usage high today — try switching off high loads like geyser."
    case Saved => "Good job! You saved energy today."
    case Moderate => "Moderate usage. Try using appliances after 10 PM for lower load."
  }

  /** `get_energy_advice(today_usage)`: above 5 high, below 3 saved, moderate in between
      (both ends included). */
  function GetEnergyAdvice(todayUsage: real): (a: Advice)
    ensures a == HighLoad <==> todayUsage > 5.0
    ensures a == Saved <==> todayUsage < 3.0
    ensures a == Moderate <==> 3.0 <= todayUsage <= 5.0
  {
    if todayUsage > 5.0 then HighLoad
    else if todayUsage < 3.0 then Saved
    else Moderate
  }
}
