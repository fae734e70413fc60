/** Backend/ML/ai_energy_coach.py: a suggestion chosen by the share of the plan used. */
module EnergyCoach {
  import opened PyValues

  datatype Suggestion = Efficient | Increasing | NearLimit | Exceeded

  function Message(s: Suggestion): string {
    match s
    case Efficient => "Good job! You are consuming efficiently. Keep going!"
    case Increasing => "Usage is increasing. Try turning off unnecessary fans & lights."
    case NearLimit => "⚠️ You are close to your plan limit. Reduce consumption in peak hours (6 – 9 PM)."
    case Exceeded => "❗ You exceeded your plan. Consider upgrading to a higher plan next month."
  }

  function Severity(s: Suggestion): nat {
    match s
    case Efficient => 0
    case Increasing => 1
    case NearLimit => 2
    case Exceeded => 3
  }

  /** The band of a percentage of the plan: below 50, below 80, below 100, and from 100 on. */
  function Band(percentage: real): (s: Suggestion)
    ensures s == Efficient <==> percentage < 50.0
    ensures s == Increasing <==> 50.0 <= percentage < 80.0
    ensures s == NearLimit <==> 80.0 <= percentage < 100.0
    ensures s == Exceeded <==> 100.0 <= percentage
  {
    if percentage < 50.0 then Efficient
    else if percentage < 80.0 then Increasing
    else if percentage < 100.0 then NearLimit
    else Exceeded
  }

  /** `get_energy_suggestion(daily_usage, plan_units)` over the dict's values; dividing by
      a zero `plan_units` raises ZeroDivisionError. */
  function GetEnergySuggestion(dailyUsage: seq<real>, planUnits: real): (r: Outcome<Suggestion>)
    ensures r.Raised? <==> planUnits == 0.0
  {
    if planUnits == 0.0 then Raised
    else Returned(Band(Sum(dailyUsage) / planUnits * 100.0))
  }

  /** The boundary values fall into the upper band. */
  lemma BandBoundaries()
    ensures Band(50.0) == Increasing && Band(80.0) == NearLimit && Band(100.0) == Exceeded
    ensures Band(49.9) == Efficient && Band(79.9) == Increasing && Band(99.9) == NearLimit
  {
  }

  /** For a positive plan, a larger total never gets a milder suggestion. */
  lemma SuggestionMonotone(a: seq<real>, b: seq<real>, planUnits: real)
    requires planUnits > 0.0 && Sum(a) <= Sum(b)
    ensures Severity(GetEnergySuggestion(a, planUnits).value) <= Severity(GetEnergySuggestion(b, planUnits).value)
  {
    assert Sum(a) / planUnits <= Sum(b) / planUnits by {
      assert Sum(a) / planUnits * planUnits == Sum(a);
      assert Sum(b) / planUnits * planUnits == Sum(b);
    }
  }
}
