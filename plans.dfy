/** Backend/model.py: the monthly predictor, the cost estimate and the plan
    recommendation over the fixed catalogue of three plans. */
module Plans {
  import opened PyValues

  datatype Plan = Basic | Standard | Premium

  datatype PlanInfo = PlanInfo(units: int, price: int)

  /** The catalogue: Basic 100 units for 199, Standard 200 for 399, Premium 400 for 699. */
  function Catalogue(p: Plan): PlanInfo {
    match p
    case Basic => PlanInfo(100, 199)
    case Standard => PlanInfo(200, 399)
    case Premium => PlanInfo(400, 699)
  }

  function Name(p: Plan): string {
    match p
    case Basic => "Basic"
    case Standard => "Standard"
    case Premium => "Premium"
  }

  /** `name in plans`: the plan a catalogue key names. */
  function PlanNamed(name: string): (r: Option<Plan>)
    ensures r.Some? ==> Name(r.value) == name
    ensures forall p: Plan :: Name(p) == name ==> r == Some(p)
  {
    if name == "Basic" then Some(Basic)
    else if name == "Standard" then Some(Standard)
    else if name == "Premium" then Some(Premium)
    else None
  }

  // ---------- predict_from_history ----------

  /** The slope term: (last - first) / (n - 1) for three or more values, else 0. */
  function Slope(history: seq<real>): real {
    if |history| >= 3 then (history[|history| - 1] - history[0]) / (|history| - 1) as real else 0.0
  }

  /** `(average + slope) * 30`, and 120.0 for an empty history. */
  function PredictFromHistory(history: seq<real>): real {
    if history == [] then 120.0
    else (Sum(history) / |history| as real + Slope(history)) * 30.0
  }

  /** An empty history falls back to 120 units. */
  lemma PredictEmptyHistory()
    ensures PredictFromHistory([]) == 120.0
  {
  }

  /** Shorter than three values, the prediction is the average times 30. */
  lemma PredictShortHistory(history: seq<real>)
    requires 1 <= |history| < 3
    ensures PredictFromHistory(history) == Sum(history) / |history| as real * 30.0
  {
  }

  /** A constant history of value `v` predicts `30 * v`, whatever its length. */
  lemma PredictConstant(history: seq<real>, v: real)
    requires history != []
    requires forall i :: 0 <= i < |history| ==> history[i] == v
    ensures PredictFromHistory(history) == 30.0 * v
  {
    SumConstant(history, v);
  }

  /** A rising history (last above first, three or more values) predicts more than its
      average times 30, a falling one less. */
  lemma PredictTrend(history: seq<real>)
    requires |history| >= 3
    ensures history[|history| - 1] > history[0] ==> PredictFromHistory(history) > Sum(history) / |history| as real * 30.0
    ensures history[|history| - 1] < history[0] ==> PredictFromHistory(history) < Sum(history) / |history| as real * 30.0
  {
  }

  // ---------- calc_predicted_cost ----------

  /** `pred_units * rate`, the rate defaulting to 6.0 per unit. */
  function CalcPredictedCost(predUnits: real, rate: real := 6.0): real {
    predUnits * rate
  }

  /** The cost grows with the units at a non-negative rate, and splits over a sum of units. */
  lemma CostMonotone(a: real, b: real, rate: real)
    requires rate >= 0.0 && a <= b
    ensures CalcPredictedCost(a, rate) <= CalcPredictedCost(b, rate)
    ensures CalcPredictedCost(a + b, rate) == CalcPredictedCost(a, rate) + CalcPredictedCost(b, rate)
  {
  }

  /** With the default rate every unit costs 6.0. */
  lemma CostDefaultRate(u: real)
    ensures CalcPredictedCost(u) == 6.0 * u
  {
  }

  // ---------- recommend_plan ----------

  datatype Recommendation = Recommendation(
    plan: Plan,
    planUnits: int,
    planPrice: int,
    predictedUnits: real,
    savingsEstimate: Option<int>)

  /** The tier thresholds: up to 100 Basic, up to 200 Standard, above Premium. */
  function Tier(predicted: real): Plan {
    if predicted <= 100.0 then Basic else if predicted <= 200.0 then Standard else Premium
  }

  /** `recommend_plan(predicted_units, current_plan)`; `current` is `None` for Python's None. */
  function RecommendPlan(predicted: real, current: Option<string>): (r: Recommendation)
    ensures r.planUnits == Catalogue(r.plan).units && r.planPrice == Catalogue(r.plan).price
    ensures r.predictedUnits == predicted
  {
    var rec := Tier(predicted);
    var currentPlan := if current.Some? && current.value != "" then PlanNamed(current.value) else None;
    var savings := if currentPlan.Some? then Some(Catalogue(currentPlan.value).price - Catalogue(rec).price) else None;
    Recommendation(rec, Catalogue(rec).units, Catalogue(rec).price, predicted, savings)
  }

  function Rank(p: Plan): nat {
    match p
    case Basic => 0
    case Standard => 1
    case Premium => 2
  }

  /** The thresholds, both ways round. */
  lemma RecommendThresholds(predicted: real, current: Option<string>)
    ensures RecommendPlan(predicted, current).plan == Basic <==> predicted <= 100.0
    ensures RecommendPlan(predicted, current).plan == Standard <==> 100.0 < predicted <= 200.0
    ensures RecommendPlan(predicted, current).plan == Premium <==> 200.0 < predicted
  {
  }

  /** More predicted usage never recommends a smaller plan. */
  lemma RecommendMonotone(a: real, b: real, current: Option<string>)
    requires a <= b
    ensures Rank(RecommendPlan(a, current).plan) <= Rank(RecommendPlan(b, current).plan)
  {
  }

  /** Up to 400 units the recommendation is the smallest plan that covers the prediction. */
  lemma RecommendSmallestCover(predicted: real, current: Option<string>)
    requires predicted <= 400.0
    ensures var r := RecommendPlan(predicted, current);
      predicted <= r.planUnits as real &&
      forall p: Plan :: predicted <= Catalogue(p).units as real ==> r.planUnits <= Catalogue(p).units
  {
  }

  /** The savings are the current plan's price minus the recommended one's for a
      catalogue plan name, and absent otherwise. */
  lemma RecommendSavings(predicted: real, current: Option<string>)
    ensures var r := RecommendPlan(predicted, current);
      && (current.Some? && PlanNamed(current.value).Some? ==>
            r.savingsEstimate == Some(Catalogue(PlanNamed(current.value).value).price - r.planPrice))
      && (current.None? || PlanNamed(current.value).None? ==> r.savingsEstimate.None?)
      && (current.Some? && current.value == Name(r.plan) ==> r.savingsEstimate == Some(0))
  {
  }
}
