/** The JSON document db.json that the Flask backend reads and rewrites on every
    request (`{"users": [...], "subscriptions": {...}, "usage": {...}}`), the request
    bodies its endpoints read, and the status summary both status endpoints derive
    from it. */
module Store {
  import opened PyValues
  import opened Ledger

  /** A request: `user_id` (absent, `null` or a string) and the other body fields. */
  datatype Request = Request(userId: Option<string>, fields: map<string, Json>)

  /** `not user_id` is false: a non-empty user id was sent. */
  predicate HasUser(req: Request) {
    req.userId.Some? && req.userId.value != ""
  }

  /** One entry of `subscriptions`; `status` is present only after an update sets it. */
  datatype Subscription = Subscription(
    planName: Json,
    planUnits: int,
    price: real,
    startTs: string,
    status: Option<Json>)

  /** The JSON object both status endpoints return. */
  datatype StatusReport = StatusReport(
    userId: string,
    todayUsed: real,
    monthUsed: real,
    predictedUnits: real,
    planLimit: int,
    planName: Json,
    progressPercent: real)

  class Db {
    var subscriptions: map<string, Subscription>
    var usage: map<string, seq<Day>>

    /** Every user's ledger has distinct dates, as the keys of a JSON object do. */
    ghost predicate Valid()
      reads this
    {
      forall u :: u in usage ==> DistinctDates(usage[u])
    }

    /** The document `read_db` yields when db.json does not exist. */
    constructor ()
      ensures Valid() && subscriptions == map[] && usage == map[]
    {
      subscriptions := map[];
      usage := map[];
    }
  }

  /** `usage_all.get(user_id, {})`. */
  function UserDays(usage: map<string, seq<Day>>, user: string): seq<Day> {
    if user in usage then usage[user] else []
  }

  /** `subscriptions.get(user_id)`. */
  function UserSub(subs: map<string, Subscription>, user: string): Option<Subscription> {
    if user in subs then Some(subs[user]) else None
  }

  /** `int(user_sub.get("plan_units", 0))`: 0 without a subscription. */
  function PlanLimit(sub: Option<Subscription>): int {
    if sub.Some? then sub.value.planUnits else 0
  }

  /** `(month_used / plan_limit) * 100` when `plan_limit` is truthy, else 0.0; never clamped. */
  function Progress(monthUsed: real, planLimit: int): real {
    if planLimit != 0 then monthUsed / planLimit as real * 100.0 else 0.0
  }

  /** What a status endpoint reports for one user; `None` when a record in the user's
      ledger does not convert with `float()` (the endpoint raises). */
  function StatusOf(userId: string, sub: Option<Subscription>, days: seq<Day>, today: string): Option<StatusReport> {
    match MonthTotal(days)
    case None => None
    case Some(month) =>
      match TodayUnits(days, today)
      case None => None
      case Some(todayUsed) =>
        var limit := PlanLimit(sub);
        Some(StatusReport(
          userId,
          todayUsed,
          month,
          Projection(Amounts(days).value),
          limit,
          if sub.Some? then sub.value.planName else JNull,
          Progress(month, limit)))
  }

  // ---------- lemmas ----------

  /** The status is reported exactly when every record of the user converts. */
  lemma StatusDefined(userId: string, sub: Option<Subscription>, days: seq<Day>, today: string)
    ensures StatusOf(userId, sub, days, today).Some? <==> AllConvert(days)
  {
    AmountsSpec(days);
    if AllConvert(days) {
      var k := IndexOf(days, today);
      if k < |days| {
        assert LookupOr(days, today, JFloat(0.0)) == days[k].rec;
      }
    }
  }

  /** Month total, projection and today's units are what the ledger says. */
  lemma StatusFields(userId: string, sub: Option<Subscription>, days: seq<Day>, today: string)
    requires StatusOf(userId, sub, days, today).Some?
    ensures var r := StatusOf(userId, sub, days, today).value;
      && r.userId == userId
      && (days == [] ==> r.monthUsed == 0.0 && r.predictedUnits == 0.0 && r.todayUsed == 0.0)
      && (days != [] ==> r.predictedUnits == r.monthUsed / |days| as real * 30.0)
      && (Lookup(days, today).None? ==> r.todayUsed == 0.0)
      && (sub.None? ==> r.planLimit == 0 && r.progressPercent == 0.0 && r.planName == JNull)
      && (sub.Some? ==> r.planLimit == sub.value.planUnits && r.planName == sub.value.planName)
  {
    AmountsSpec(days);
  }

  /** With a positive limit the progress is the month total as a percentage of it: at
      most 100 while the total is within the limit, above 100 once it is exceeded. */
  lemma ProgressBounds(monthUsed: real, planLimit: int)
    requires planLimit > 0 && monthUsed >= 0.0
    ensures 0.0 <= Progress(monthUsed, planLimit)
    ensures Progress(monthUsed, planLimit) <= 100.0 <==> monthUsed <= planLimit as real
  {
    var p := Progress(monthUsed, planLimit);
    var l := planLimit as real;
    assert p == monthUsed * 100.0 / l;
    if monthUsed <= l {
      assert monthUsed * 100.0 <= l * 100.0;
    } else {
      assert monthUsed * 100.0 > l * 100.0;
    }
  }
}
