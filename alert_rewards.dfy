/** Backend/controllers/alert_rewards_controller.py: usage alerts and reward points
    from the MongoDB subscription and usage documents. */
module AlertRewards {
  import opened PyValues
  import opened Mongo
  import RewardSystem

  const Alert80: string := "⚠️ 80% of your limit reached"
  const Alert100: string := "🚨 100% usage limit reached!"

  datatype Reply = Reply(totalUsed: real, planLimit: real, alerts: seq<string>, rewardPoints: int)

  /** `float(r["units"])`; `None` when the key is missing or the conversion raises. */
  function DocUnits(d: UsageDoc): Option<real> {
    if d.units.None? then None else ToFloat(d.units.value)
  }

  /** The units of a user's usage documents added up in collection order; `None` when
      some document's units do not convert (the generator raises). */
  function TotalUnits(records: seq<UsageDoc>): Option<real> {
    if records == [] then Some(0.0)
    else
      match TotalUnits(records[..|records| - 1])
      case None => None
      case Some(t) =>
        match DocUnits(records[|records| - 1])
        case None => None
        case Some(u) => Some(t + u)
  }

  /** The alerts for `total` against `limit`: the 80% alert, then the 100% alert. */
  function AlertsFor(total: real, limit: real): seq<string> {
    (if total >= 0.8 * limit then [Alert80] else []) + (if total >= limit then [Alert100] else [])
  }

  /** 10 points while the total stays within 80% of the limit. */
  function RewardFor(total: real, limit: real): int {
    if total <= 0.8 * limit then 10 else 0
  }

  /** `get_alerts_and_rewards(user_id)`: 404 without a subscription, 500 when a usage
      document's units do not convert (Flask's answer to the exception), otherwise the
      total, the limit, the alerts and the reward (status 200). */
  method GetAlertsAndRewards(subscriptions: map<string, SubscriptionDoc>, usage: seq<UsageDoc>, userId: string)
    returns (code: int, reply: Option<Reply>)
    ensures userId !in subscriptions ==> code == 404 && reply.None?
    ensures userId in subscriptions && TotalUnits(UsageOf(usage, userId)).None? ==> code == 500 && reply.None?
    ensures userId in subscriptions && TotalUnits(UsageOf(usage, userId)).Some? ==>
      var limit := subscriptions[userId].planUnits as real;
      var total := TotalUnits(UsageOf(usage, userId)).value;
      code == 200 && reply.Some? && reply.value == Reply(total, limit, AlertsFor(total, limit), RewardFor(total, limit))
  {
    if userId !in subscriptions {
      return 404, None;
    }
    var planLimit := subscriptions[userId].planUnits as real;
    var total := SumUnits(UsageOf(usage, userId));
    if total.None? {
      return 500, None;
    }
    var alerts := CollectAlerts(total.value, planLimit);
    var reward := if total.value <= 0.8 * planLimit then 10 else 0;
    return 200, Some(Reply(total.value, planLimit, alerts, reward));
  }

  /** `sum(float(r["units"]) for r in records)`: the loop stops at the first document
      whose units do not convert. */
  method SumUnits(records: seq<UsageDoc>) returns (total: Option<real>)
    ensures total == TotalUnits(records)
  {
    var t := 0.0;
    var i := 0;
    while i < |records|
      invariant 0 <= i <= |records|
      invariant TotalUnits(records[..i]) == Some(t)
    {
      assert records[..i + 1][..i] == records[..i];
      var units := DocUnits(records[i]);
      if units.None? {
        TotalUnitsNoneExtends(records, i + 1);
        return None;
      }
      t := t + units.value;
      i := i + 1;
    }
    assert records[..i] == records;
    return Some(t);
  }

  /** The list `alerts` as the controller builds it. */
  method CollectAlerts(total: real, limit: real) returns (alerts: seq<string>)
    ensures alerts == AlertsFor(total, limit)
  {
    alerts := [];
    if total >= 0.8 * limit {
      alerts := alerts + [Alert80];
    }
    if total >= limit {
      alerts := alerts + [Alert100];
    }
    assert alerts == AlertsFor(total, limit) by {
      if total >= 0.8 * limit && total < limit {
        assert AlertsFor(total, limit) == [Alert80] + [];
      }
    }
  }

  /** Once a prefix fails to convert, the whole total fails. */
  lemma {:induction false} TotalUnitsNoneExtends(records: seq<UsageDoc>, i: nat)
    requires i <= |records|
    requires TotalUnits(records[..i]).None?
    ensures TotalUnits(records).None?
    decreases |records| - i
  {
    if i < |records| {
      assert records[..i + 1][..i] == records[..i];
      TotalUnitsNoneExtends(records, i + 1);
    } else {
      assert records[..i] == records;
    }
  }

  /** The total exists exactly when every document's units convert. */
  lemma {:induction false} TotalUnitsDefined(records: seq<UsageDoc>)
    ensures TotalUnits(records).Some? <==> forall k :: 0 <= k < |records| ==> DocUnits(records[k]).Some?
  {
    if records != [] {
      var init := records[..|records| - 1];
      TotalUnitsDefined(init);
      assert forall k :: 0 <= k < |init| ==> init[k] == records[k];
    }
  }

  /** Each alert is present exactly when its threshold is reached; there are at most two,
      and the 80% alert comes first. */
  lemma AlertsThresholds(total: real, limit: real)
    ensures Alert80 in AlertsFor(total, limit) <==> total >= 0.8 * limit
    ensures Alert100 in AlertsFor(total, limit) <==> total >= limit
    ensures |AlertsFor(total, limit)| <= 2
    ensures |AlertsFor(total, limit)| == 2 ==> AlertsFor(total, limit) == [Alert80, Alert100]
  {
    assert Alert80 != Alert100;
  }

  /** For a non-negative limit the reached 100% alert implies the 80% one. */
  lemma AlertsNested(total: real, limit: real)
    requires limit >= 0.0
    ensures Alert100 in AlertsFor(total, limit) ==> AlertsFor(total, limit) == [Alert80, Alert100]
  {
    assert Alert80 != Alert100;
  }

  /** At exactly 80% of the limit the user gets both the 80% alert and the reward. */
  lemma AlertsAtEightyPercent(limit: real)
    requires limit > 0.0
    ensures AlertsFor(0.8 * limit, limit) == [Alert80]
    ensures RewardFor(0.8 * limit, limit) == 10
  {
  }

  /** For a positive plan the controller's reward is the reward system's. */
  lemma RewardAgreesWithRewardSystem(total: real, limit: real)
    requires limit > 0.0
    ensures RewardFor(total, limit) == RewardSystem.CalculateRewards(total, limit)
  {
  }
}
