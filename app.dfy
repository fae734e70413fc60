/** The Flask endpoints of Backend/app.py over the in-memory db.json document.
    Each endpoint reads the document, changes its copy and writes it back, so an
    exception raised before the write leaves the stored document as it was; here such
    a request answers 500 and leaves `db` unchanged. The clock is a parameter:
    `today` is `datetime.now().date().isoformat()`, `now` the UTC timestamp. */
module App {
  import opened PyValues
  import opened Ledger
  import opened Store

  // ---------- POST /predict ----------

  /** The stub predictor: the average of `history` times 30, 0.0 for an empty history. */
  function PredictStub(history: seq<real>): real {
    if history == [] then 0.0 else Sum(history) / |history| as real * 30.0
  }

  /** An empty, missing or falsy history predicts 0.0 (the source tests `if history`). */
  lemma PredictStubEmpty()
    ensures PredictStub([]) == 0.0
  {
  }

  /** A history of `n` copies of `v` predicts `30 * v`. */
  lemma PredictStubConstant(history: seq<real>, v: real)
    requires history != []
    requires forall i :: 0 <= i < |history| ==> history[i] == v
    ensures PredictStub(history) == 30.0 * v
  {
    SumConstant(history, v);
  }

  /** The status endpoint's `predicted_units` is the stub's prediction on the daily values. */
  lemma StatusPredictionIsStub(userId: string, sub: Option<Subscription>, days: seq<Day>, today: string)
    requires StatusOf(userId, sub, days, today).Some?
    ensures StatusOf(userId, sub, days, today).value.predictedUnits == PredictStub(Amounts(days).value)
  {
  }

  // ---------- POST /subscribe ----------

  /** The record `subscribe` stores; `None` when `int()` or `float()` raises. */
  function NewSubscription(fields: map<string, Json>, now: string): Option<Subscription> {
    var planName := Get(fields, "plan_name", JStr("Basic"));
    match ToInt(Get(fields, "plan_units", JInt(100)))
    case None => None
    case Some(units) =>
      match ToFloat(Get(fields, "price", JFloat(0.0)))
      case None => None
      case Some(price) => Some(Subscription(planName, units, price, now, None))
  }

  /** Fields left out of the body take the defaults "Basic", 100 and 0.0. */
  lemma NewSubscriptionDefaults(fields: map<string, Json>, now: string)
    ensures "plan_name" !in fields ==>
      NewSubscription(fields, now).Some? ==> NewSubscription(fields, now).value.planName == JStr("Basic")
    ensures "plan_units" !in fields && "price" !in fields ==>
      NewSubscription(fields, now).Some? &&
      NewSubscription(fields, now).value.planUnits == 100 &&
      NewSubscription(fields, now).value.price == 0.0
    ensures "plan_units" !in fields && NewSubscription(fields, now).Some? ==>
      NewSubscription(fields, now).value.planUnits == 100
    ensures "price" !in fields && NewSubscription(fields, now).Some? ==>
      NewSubscription(fields, now).value.price == 0.0
    ensures NewSubscription(fields, now).Some? ==>
      NewSubscription(fields, now).value.startTs == now && NewSubscription(fields, now).value.status.None?
  {
  }

  method Subscribe(db: Db, req: Request, now: string) returns (code: int, sub: Option<Subscription>)
    requires db.Valid()
    modifies db
    ensures db.Valid()
    ensures !HasUser(req) ==> code == 400 && sub.None? && unchanged(db)
    ensures HasUser(req) ==> sub == NewSubscription(req.fields, now)
    ensures HasUser(req) && sub.None? ==> code == 500 && unchanged(db)
    ensures HasUser(req) && sub.Some? ==>
      code == 201 &&
      db.subscriptions == old(db.subscriptions)[req.userId.value := sub.value] &&
      db.usage == old(db.usage)
  {
    if !HasUser(req) {
      return 400, None;
    }
    var userId := req.userId.value;
    sub := NewSubscription(req.fields, now);
    if sub.None? {
      return 500, None;
    }
    db.subscriptions := db.subscriptions[userId := sub.value];
    code := 201;
  }

  // ---------- POST /usage ----------

  /** `float(data.get("units", 0.0))`, evaluated before `user_id` is checked. */
  function RequestUnits(req: Request): Option<real> {
    ToFloat(Get(req.fields, "units", JFloat(0.0)))
  }

  method AddUsage(db: Db, req: Request, today: string) returns (code: int)
    requires db.Valid()
    modifies db
    ensures db.Valid()
    ensures db.subscriptions == old(db.subscriptions)
    ensures RequestUnits(req).None? ==> code == 500 && db.usage == old(db.usage)
    ensures RequestUnits(req).Some? && !HasUser(req) ==> code == 400 && db.usage == old(db.usage)
    ensures RequestUnits(req).Some? && HasUser(req) ==>
      var merged := AddToToday(UserDays(old(db.usage), req.userId.value), today, RequestUnits(req).value);
      (merged.None? ==> code == 500 && db.usage == old(db.usage)) &&
      (merged.Some? ==> code == 200 && db.usage == old(db.usage)[req.userId.value := merged.value])
  {
    var units := RequestUnits(req);
    if units.None? {
      return 500;
    }
    if !HasUser(req) {
      return 400;
    }
    var userId := req.userId.value;
    var days := if userId in db.usage then db.usage[userId] else [];
    var merged := AddToToday(days, today, units.value);
    if merged.None? {
      return 500;
    }
    AddToTodayDistinct(days, today, units.value);
    db.usage := db.usage[userId := merged.value];
    code := 200;
  }

  // ---------- GET /status/<user_id> ----------

  method Status(db: Db, userId: string, today: string) returns (code: int, report: Option<StatusReport>)
    ensures report == StatusOf(userId, UserSub(db.subscriptions, userId), UserDays(db.usage, userId), today)
    ensures code == (if report.Some? then 200 else 500)
  {
    var sub := UserSub(db.subscriptions, userId);
    var days := UserDays(db.usage, userId);
    var month := SumMonth(days);
    if month.None? {
      return 500, None;
    }
    var predicted := 0.0;
    if days != [] {
      var values := CollectDaily(days);
      predicted := Sum(values.value) / |values.value| as real * 30.0;
    }
    var todayUsed := TodayUnits(days, today);
    if todayUsed.None? {
      return 500, None;
    }
    var limit := PlanLimit(sub);
    var planName := if sub.Some? then sub.value.planName else JNull;
    var progress := if limit != 0 then month.value / limit as real * 100.0 else 0.0;
    report := Some(StatusReport(userId, todayUsed.value, month.value, predicted, limit, planName, progress));
    code := 200;
  }

  /** Recording `units` for today raises both the month total and today's usage that
      the status endpoint reports by exactly `units`. */
  lemma StatusAfterAddUsage(userId: string, sub: Option<Subscription>, days: seq<Day>, today: string, units: real)
    requires StatusOf(userId, sub, days, today).Some?
    ensures AddToToday(days, today, units).Some?
    ensures var before := StatusOf(userId, sub, days, today).value;
      var after := StatusOf(userId, sub, AddToToday(days, today, units).value, today);
      after.Some? &&
      after.value.monthUsed == before.monthUsed + units &&
      after.value.todayUsed == before.todayUsed + units &&
      after.value.planLimit == before.planLimit
  {
    StatusDefined(userId, sub, days, today);
    AddToTodayMonthTotal(days, today, units);
    AddToTodayAtToday(days, today, units);
    var r := AddToToday(days, today, units).value;
    AmountsSpec(r);
    var k := IndexOf(days, today);
    if k < |days| {
      assert LookupOr(days, today, JInt(0)) == LookupOr(days, today, JFloat(0.0));
    } else {
      assert TodayUnits(days, today) == Some(0.0);
    }
  }

  // ---------- POST /update/<user_id> ----------

  /** The subscription after `update_subscription` overwrites the supplied fields;
      `None` when `int()` or `float()` raises. */
  function Patched(sub: Subscription, incoming: map<string, Json>): Option<Subscription> {
    var named := if "plan_name" in incoming then sub.(planName := incoming["plan_name"]) else sub;
    var units := if "plan_units" in incoming then ToInt(incoming["plan_units"]) else Some(sub.planUnits);
    var price := if "price" in incoming then ToFloat(incoming["price"]) else Some(sub.price);
    if units.None? || price.None? then None
    else
      var s := named.(planUnits := units.value, price := price.value);
      Some(if "status" in incoming then s.(status := Some(incoming["status"])) else s)
  }

  method UpdateSubscription(db: Db, userId: string, incoming: map<string, Json>)
    returns (code: int, updated: Option<Subscription>)
    requires db.Valid()
    modifies db
    ensures db.Valid()
    ensures db.usage == old(db.usage)
    ensures userId !in old(db.subscriptions) ==> code == 404 && updated.None? && unchanged(db)
    ensures userId in old(db.subscriptions) ==>
      updated == Patched(old(db.subscriptions)[userId], incoming) &&
      (updated.None? ==> code == 500 && unchanged(db)) &&
      (updated.Some? ==> code == 200 && db.subscriptions == old(db.subscriptions)[userId := updated.value])
  {
    if userId !in db.subscriptions {
      return 404, None;
    }
    var s := db.subscriptions[userId];
    if "plan_name" in incoming {
      s := s.(planName := incoming["plan_name"]);
    }
    if "plan_units" in incoming {
      var units := ToInt(incoming["plan_units"]);
      if units.None? {
        return 500, None;
      }
      s := s.(planUnits := units.value);
    }
    if "price" in incoming {
      var price := ToFloat(incoming["price"]);
      if price.None? {
        return 500, None;
      }
      s := s.(price := price.value);
    }
    if "status" in incoming {
      s := s.(status := Some(incoming["status"]));
    }
    db.subscriptions := db.subscriptions[userId := s];
    return 200, Some(s);
  }

  /** Exactly the supplied fields change; a field left out keeps its value. */
  lemma PatchedFields(sub: Subscription, incoming: map<string, Json>)
    requires Patched(sub, incoming).Some?
    ensures var s := Patched(sub, incoming).value;
      && s.planName == (if "plan_name" in incoming then incoming["plan_name"] else sub.planName)
      && s.planUnits == (if "plan_units" in incoming then ToInt(incoming["plan_units"]).value else sub.planUnits)
      && s.price == (if "price" in incoming then ToFloat(incoming["price"]).value else sub.price)
      && s.status == (if "status" in incoming then Some(incoming["status"]) else sub.status)
      && s.startTs == sub.startTs
  {
  }

  /** An update fails exactly when a supplied `plan_units` or `price` does not convert. */
  lemma PatchedFails(sub: Subscription, incoming: map<string, Json>)
    ensures Patched(sub, incoming).None? <==>
      ("plan_units" in incoming && ToInt(incoming["plan_units"]).None?) ||
      ("price" in incoming && ToFloat(incoming["price"]).None?)
  {
  }

  /** Sending the same update twice has the effect of sending it once. */
  lemma PatchedIdempotent(sub: Subscription, incoming: map<string, Json>)
    requires Patched(sub, incoming).Some?
    ensures Patched(Patched(sub, incoming).value, incoming) == Patched(sub, incoming)
  {
  }

  /** An update with no recognised field changes nothing. */
  lemma PatchedNothing(sub: Subscription, incoming: map<string, Json>)
    requires "plan_name" !in incoming && "plan_units" !in incoming
    requires "price" !in incoming && "status" !in incoming
    ensures Patched(sub, incoming) == Some(sub)
  {
  }
}
