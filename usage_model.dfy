/** Backend/models/usage_model.py: recording usage for today in db.json. */
module UsageModel {
  import opened PyValues
  import opened Ledger
  import opened Store

  /** `add_usage_to_db(user_id, units)`: returns True, or raises when `units` or
      today's stored value does not convert with `float()`; a raise leaves db.json
      unchanged. An unknown user starts from an empty ledger. */
  method AddUsageToDb(db: Db, userId: string, units: Json, today: string) returns (r: Outcome<bool>)
    requires db.Valid()
    modifies db
    ensures db.Valid()
    ensures db.subscriptions == old(db.subscriptions)
    ensures r.Returned? ==> r.value
    ensures var merged :=
        if ToFloat(units).Some? then AddToToday(UserDays(old(db.usage), userId), today, ToFloat(units).value)
        else None;
      (merged.None? ==> r.Raised? && db.usage == old(db.usage)) &&
      (merged.Some? ==> r.Returned? && db.usage == old(db.usage)[userId := merged.value])
  {
    var usageAll := db.usage;
    if userId !in usageAll {
      usageAll := usageAll[userId := []];
    }
    var days := usageAll[userId];
    var prev := LookupOr(days, today, JInt(0));
    var prevUnits := RecordUnits(prev);
    var added := ToFloat(units);
    if prevUnits.None? || added.None? {
      return Raised;
    }
    var merged := Put(days, today, WithUnits(prev, prevUnits.value + added.value));
    assert AddToToday(days, today, added.value) == Some(merged);
    AddToTodayDistinct(days, today, added.value);
    db.usage := usageAll[userId := merged];
    return Returned(true);
  }
}
