/** Backend/controllers/dashboard_controller.py: the status summary for one user. */
module DashboardController {
  import opened PyValues
  import opened Ledger
  import opened Store

  /** `get_user_status(user_id)`: the same summary as the status endpoint, returned with
      status code 200; the function raises when a record does not convert. */
  method GetUserStatus(subscriptions: map<string, Subscription>, usage: map<string, seq<Day>>,
                       userId: string, today: string)
    returns (r: Outcome<(StatusReport, int)>)
    ensures var status := StatusOf(userId, UserSub(subscriptions, userId), UserDays(usage, userId), today);
      (status.None? ==> r.Raised?) &&
      (status.Some? ==> r.Returned? && r.value.0 == status.value && r.value.1 == 200)
  {
    var sub := UserSub(subscriptions, userId);
    var days := UserDays(usage, userId);
    var month := SumMonth(days);
    if month.None? {
      return Raised;
    }
    var predicted := 0.0;
    if days != [] {
      var values := CollectDaily(days);
      predicted := Sum(values.value) / |values.value| as real * 30.0;
    }
    var todayUsed := TodayUnits(days, today);
    if todayUsed.None? {
      return Raised;
    }
    var limit := if sub.Some? then sub.value.planUnits else 0;
    var progress := if limit != 0 then month.value / limit as real * 100.0 else 0.0;
    var planName := if sub.Some? then sub.value.planName else JNull;
    r := Returned((StatusReport(userId, todayUsed.value, month.value, predicted, limit, planName, progress), 200));
  }
}
