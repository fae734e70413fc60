/** Frontend/dashboard.js: the numbers and decisions of the browser dashboard. The
    page's elements are the fields of `Dashboard`; localStorage is `storedPlan`. The
    calendar (`dayOfMonth`, `daysInMonth`), `Math.random()` (`draw`) and the two
    `fetch` calls are parameters and results: `LoadStatus` receives the decoded
    response, `SubscribeToPlan` returns the request it would post. */
module Dashboard {
  import opened PyValues
  import opened Store
  import opened Plans
  import App

  /** The colour of the progress bar. */
  datatype Band = Red | Amber | Blue

  /** What an element is assigned: a JSON value, or `undefined` for a field the response
      lacks (which `textContent` renders as an empty string). */
  datatype Display = Undefined | Shown(value: Json)

  /** The elements the dashboard writes: plan name, limit, units, bar width and colour. */
  datatype View = View(planName: Display, limit: Display, units: Display, width: Display, band: Band)

  // ---------- updateMiniDashboard ----------

  /** `localStorage.getItem("selectedPlan") || "Basic"`: a missing or empty entry is "Basic". */
  function SelectedPlan(stored: Option<string>): (plan: string)
    ensures plan != ""
    ensures stored.Some? && stored.value != "" ==> plan == stored.value
    ensures stored.None? || stored.value == "" ==> plan == "Basic"
  {
    if stored.Some? && stored.value != "" then stored.value else "Basic"
  }

  /** The limit `updateMiniDashboard` assigns: 200 for Standard, 400 for Premium, else 100. */
  function LimitOf(plan: string): int {
    if plan == "Premium" then 400 else if plan == "Standard" then 200 else 100
  }

  /** `Math.floor((limit / daysInMonth) * dayOfMonth)`. */
  function Expected(limit: int, dayOfMonth: int, daysInMonth: int): int
    requires daysInMonth > 0
  {
    (limit as real / daysInMonth as real * dayOfMonth as real).Floor
  }

  /** `Math.floor(expectedUsage * 0.2)`. */
  function Variation(expected: int): (v: int)
    ensures expected >= 0 ==> 0 <= v <= expected
  {
    (expected as real * 0.2).Floor
  }

  /** `expectedUsage + (Math.random() * variation * 2 - variation)` before clamping. */
  function RawUsed(expected: int, draw: real): real {
    var v := Variation(expected) as real;
    expected as real + (draw * v * 2.0 - v)
  }

  /** `Math.min(limit, Math.max(0, raw))`. */
  function Clamp(limit: int, raw: real): (r: real)
    ensures limit >= 0 ==> 0.0 <= r <= limit as real
    ensures 0.0 <= raw <= limit as real ==> r == raw
  {
    var low := if 0.0 >= raw then 0.0 else raw;
    if limit as real <= low then limit as real else low
  }

  function Used(limit: int, dayOfMonth: int, daysInMonth: int, draw: real): real
    requires daysInMonth > 0
  {
    Clamp(limit, RawUsed(Expected(limit, dayOfMonth, daysInMonth), draw))
  }

  /** `Math.floor((used / limit) * 100)`. */
  function Percent(used: real, limit: int): int
    requires limit != 0
  {
    (used / limit as real * 100.0).Floor
  }

  /** `Math.round(x)`: halves round up. */
  function Round(x: real): (n: int)
    ensures x - 0.5 < n as real <= x + 0.5
  {
    (x + 0.5).Floor
  }

  /** The bar colour: red above 90, amber above 70, blue otherwise. */
  function BandOf(percent: real): (b: Band)
    ensures b == Red <==> percent > 90.0
    ensures b == Amber <==> 70.0 < percent <= 90.0
    ensures b == Blue <==> percent <= 70.0
  {
    if percent > 90.0 then Red else if percent > 70.0 then Amber else Blue
  }

  /** What `updateMiniDashboard` shows. */
  function MiniView(stored: Option<string>, dayOfMonth: int, daysInMonth: int, draw: real): View
    requires daysInMonth > 0
  {
    var plan := SelectedPlan(stored);
    var limit := LimitOf(plan);
    var used := Used(limit, dayOfMonth, daysInMonth, draw);
    var percent := Percent(used, limit);
    View(Shown(JStr(plan)), Shown(JInt(limit)), Shown(JInt(Round(used))), Shown(JInt(percent)), BandOf(percent as real))
  }

  // ---------- loadStatus ----------

  /** `data.key` on a decoded response. */
  function Field(data: Json, key: string): Display {
    if data.JDict? && key in data.entries then Shown(data.entries[key]) else Undefined
  }

  /** JavaScript's conversion to a number in `percent > 90`; `None` for NaN. Strings
      are read as decimal literals, the empty string as 0. */
  function ToNumber(d: Display): Option<real> {
    match d
    case Undefined => None
    case Shown(j) =>
      match j
      case JNull => Some(0.0)
      case JBool(b) => Some(if b then 1.0 else 0.0)
      case JInt(i) => Some(i as real)
      case JFloat(f) => Some(f)
      case JStr(s) => if s == "" then Some(0.0) else ParseDecimal(s)
      case _ => None
  }

  /** The colour for a value that may not be a number: NaN fails both comparisons. */
  function BandOfValue(d: Display): Band {
    var n := ToNumber(d);
    if n.Some? then BandOf(n.value) else Blue
  }

  /** What `loadStatus` shows for a decoded response that is not `null`. */
  function StatusView(data: Json): View {
    View(
      Field(data, "plan"),
      Field(data, "plan_limit"),
      Field(data, "month_used"),
      Field(data, "progress_percent"),
      BandOfValue(Field(data, "progress_percent")))
  }

  /** The body the status endpoint sends for a report. */
  function StatusJson(r: StatusReport): (j: Json)
    ensures j.JDict? && "plan" !in j.entries
  {
    JDict(map[
      "user_id" := JStr(r.userId),
      "today_used" := JFloat(r.todayUsed),
      "month_used" := JFloat(r.monthUsed),
      "predicted_units" := JFloat(r.predictedUnits),
      "plan_limit" := JInt(r.planLimit),
      "plan_name" := r.planName,
      "progress_percent" := JFloat(r.progressPercent)])
  }

  // ---------- the page ----------

  const NoPlanMessage: string := "❌ Please select a plan"

  class Page {
    /** localStorage "selectedPlan". */
    var storedPlan: Option<string>
    var view: View
    /** The text of the `subscribeResult` element. */
    var subscribeResult: string

    constructor (stored: Option<string>, initial: View)
      ensures storedPlan == stored && view == initial && subscribeResult == ""
    {
      storedPlan := stored;
      view := initial;
      subscribeResult := "";
    }

    /** `updateMiniDashboard()`: the synthetic dashboard from the stored plan and the date. */
    method UpdateMiniDashboard(dayOfMonth: int, daysInMonth: int, draw: real)
      requires daysInMonth > 0
      modifies this
      ensures view == MiniView(storedPlan, dayOfMonth, daysInMonth, draw)
      ensures storedPlan == old(storedPlan) && subscribeResult == old(subscribeResult)
    {
      var selectedPlan := if storedPlan.Some? && storedPlan.value != "" then storedPlan.value else "Basic";
      view := view.(planName := Shown(JStr(selectedPlan)));
      var limit := 100;
      if selectedPlan == "Standard" {
        limit := 200;
      }
      if selectedPlan == "Premium" {
        limit := 400;
      }
      view := view.(limit := Shown(JInt(limit)));
      assert limit == LimitOf(SelectedPlan(storedPlan));
      var expectedUsage := Expected(limit, dayOfMonth, daysInMonth);
      var raw := RawUsed(expectedUsage, draw);
      var used := Clamp(limit, raw);
      view := view.(units := Shown(JInt(Round(used))));
      var percent := Percent(used, limit);
      view := view.(width := Shown(JInt(percent)));
      if percent > 90 {
        view := view.(band := Red);
      } else if percent > 70 {
        view := view.(band := Amber);
      } else {
        view := view.(band := Blue);
      }
    }

    /** `loadStatus()`: `response` is the decoded body, `None` when the request or the
        decoding fails. A failure, or a `null` body (reading `data.plan` throws), falls
        back to the synthetic dashboard. */
    method LoadStatus(response: Option<Json>, dayOfMonth: int, daysInMonth: int, draw: real)
      requires daysInMonth > 0
      modifies this
      ensures response.None? || response == Some(JNull) ==>
        view == MiniView(storedPlan, dayOfMonth, daysInMonth, draw)
      ensures response.Some? && response != Some(JNull) ==> view == StatusView(response.value)
      ensures storedPlan == old(storedPlan) && subscribeResult == old(subscribeResult)
    {
      if response.None? || response.value.JNull? {
        UpdateMiniDashboard(dayOfMonth, daysInMonth, draw);
        return;
      }
      var data := response.value;
      view := view.(planName := Field(data, "plan"));
      view := view.(width := Field(data, "progress_percent"));
      view := view.(units := Field(data, "month_used"));
      view := view.(limit := Field(data, "plan_limit"));
      var percent := Field(data, "progress_percent");
      var n := ToNumber(percent);
      if n.Some? && n.value > 90.0 {
        view := view.(band := Red);
      } else if n.Some? && n.value > 70.0 {
        view := view.(band := Amber);
      } else {
        view := view.(band := Blue);
      }
    }

    /** `subscribeToPlan()`: `checked` is the value of the checked plan radio, if any.
        Without one it shows an error and sends nothing; otherwise it returns the body
        it posts to `/subscribe`. */
    method SubscribeToPlan(checked: Option<string>) returns (request: Option<Request>)
      modifies this
      ensures checked.None? ==> request.None? && subscribeResult == NoPlanMessage
      ensures checked.Some? ==>
        request == Some(Request(Some("user1"), map["plan" := JStr(checked.value)])) &&
        subscribeResult == old(subscribeResult)
      ensures view == old(view) && storedPlan == old(storedPlan)
    {
      if checked.None? {
        subscribeResult := NoPlanMessage;
        return None;
      }
      var plan := checked.value;
      request := Some(Request(Some("user1"), map["plan" := JStr(plan)]));
    }
  }

  // ---------- lemmas ----------

  /** Standard gets 200, Premium 400, anything else (a missing plan reads as Basic) 100;
      for the three catalogue plans this is the catalogue's unit allowance. */
  lemma LimitMapping(stored: Option<string>)
    ensures LimitOf(SelectedPlan(stored)) == 200 <==> stored == Some("Standard")
    ensures LimitOf(SelectedPlan(stored)) == 400 <==> stored == Some("Premium")
    ensures LimitOf(SelectedPlan(stored)) == 100 <==> stored != Some("Standard") && stored != Some("Premium")
    ensures stored.None? ==> SelectedPlan(stored) == "Basic"
    ensures forall p: Plan :: LimitOf(Name(p)) == Catalogue(p).units
  {
  }

  /** The expected usage lies between 0 and the limit on every day of the month. */
  lemma ExpectedBounds(limit: int, dayOfMonth: int, daysInMonth: int)
    requires limit >= 0 && 1 <= dayOfMonth <= daysInMonth
    ensures 0 <= Expected(limit, dayOfMonth, daysInMonth) <= limit
  {
    var l := limit as real;
    var dim := daysInMonth as real;
    var dom := dayOfMonth as real;
    assert l / dim >= 0.0;
    assert l / dim * dom <= l / dim * dim by {
      assert dom <= dim;
    }
    assert l / dim * dim == l;
  }

  /** Before the clamp the synthetic usage lies within the variation around the
      expected value, and never below zero. */
  lemma RawUsedBounds(expected: int, draw: real)
    requires expected >= 0 && 0.0 <= draw < 1.0
    ensures var v := Variation(expected) as real;
      expected as real - v <= RawUsed(expected, draw) <= expected as real + v
    ensures RawUsed(expected, draw) >= 0.0
  {
    var v := Variation(expected) as real;
    assert 0.0 <= v <= expected as real * 0.2;
    assert 0.0 <= draw * v <= v;
  }

  /** After the clamp the usage lies in [0, limit]. */
  lemma UsedBounds(limit: int, dayOfMonth: int, daysInMonth: int, draw: real)
    requires limit >= 0 && 1 <= dayOfMonth <= daysInMonth
    ensures 0.0 <= Used(limit, dayOfMonth, daysInMonth, draw) <= limit as real
  {
  }

  /** For a positive limit, the percentage of a usage within [0, limit] lies in [0, 100]. */
  lemma PercentBounds(used: real, limit: int)
    requires limit > 0 && 0.0 <= used <= limit as real
    ensures 0 <= Percent(used, limit) <= 100
  {
    var l := limit as real;
    assert used / l <= 1.0 by {
      assert used / l * l == used;
    }
    assert used / l >= 0.0;
  }

  /** The synthetic dashboard shows the stored plan's limit, a bar width in [0, 100]
      and the colour of that width. */
  lemma MiniViewBounds(stored: Option<string>, dayOfMonth: int, daysInMonth: int, draw: real)
    requires 1 <= dayOfMonth <= daysInMonth
    ensures var v := MiniView(stored, dayOfMonth, daysInMonth, draw);
      && v.limit == Shown(JInt(LimitOf(SelectedPlan(stored))))
      && v.width.Shown? && v.width.value.JInt?
      && 0 <= v.width.value.i <= 100
      && v.band == BandOf(v.width.value.i as real)
  {
    var limit := LimitOf(SelectedPlan(stored));
    UsedBounds(limit, dayOfMonth, daysInMonth, draw);
    PercentBounds(Used(limit, dayOfMonth, daysInMonth, draw), limit);
  }

  /** Exactly one colour applies; 90 is amber and 70 is blue. */
  lemma BandBoundaries()
    ensures BandOf(90.0) == Amber && BandOf(70.0) == Blue
    ensures BandOf(90.5) == Red && BandOf(70.5) == Amber
  {
  }

  /** Against the status endpoint the plan-name element is assigned `undefined`, which
      `textContent` renders as an empty string, because the endpoint sends `plan_name`;
      the other fields are the report's. */
  lemma StatusViewOfBackend(r: StatusReport)
    ensures var v := StatusView(StatusJson(r));
      && v.planName == Undefined
      && v.limit == Shown(JInt(r.planLimit))
      && v.units == Shown(JFloat(r.monthUsed))
      && v.width == Shown(JFloat(r.progressPercent))
      && v.band == BandOf(r.progressPercent)
  {
  }

  /** The dashboard posts `plan`, which the subscribe endpoint does not read: whatever plan
      is selected, the stored subscription is Basic with 100 units at price 0.0. */
  lemma DashboardSubscribesBasic(plan: string, now: string)
    ensures App.NewSubscription(map["plan" := JStr(plan)], now) == Some(Subscription(JStr("Basic"), 100, 0.0, now, None))
  {
  }
}
