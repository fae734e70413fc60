# Smart_Power in Dafny

A model of the SmartPower electricity-plan prototype. It covers three parts:

- The Flask backend that keeps subscriptions and daily usage in `db.json`.
- The MongoDB controllers, the file-based usage monitor and the appliance detector.
- The small rule-based ML helpers and the browser dashboard's offline fallback.

How the system is represented:

- `db.json` is the class `Store.Db`.
  - A user's usage ledger is a sequence of `(date, record)` days with distinct dates, because a Python dict keeps insertion order.
  - A record is a bare number or a dict with `units`.
- Each backend endpoint is a method on that object.
  - If the source raises before `write_db`, the method answers 500 and leaves the object unchanged.
- JSON values, Python truthiness, `dict.get`, `int()`, `float()` and `sum()` are modelled in `PyValues`.
  - A conversion that raises returns `None`.
- The two Mongo collections are the class `Mongo.MongoDb`.
- `alerts.json` and `usage_data.json` are the classes `DataFiles.AlertFile` and `DataFiles.UsageFile`.
- The dashboard's elements and its localStorage entry are the fields of `Dashboard.Page`.

Parameters stand in for the environment:

- clock readings (`today`, `now`, the hour, the day of the month);
- `Math.random()` (the draw);
- the trained regressor (`nFeatures` and `predict`);
- the decoded `fetch` responses.

Units and prices are exact reals.

The training windows are 3 days long, as the code builds them, although a comment in
`Backend/ML/data_loader.py` says 7. The status endpoints never clamp the progress
percentage to 100, and the dashboard colours its bar red above 90 and amber above 70.

Two properties connect the frontend and the backend:

- `Dashboard.DashboardSubscribesBasic`: the dashboard posts `plan`, which `subscribe` ignores, so every dashboard subscription is stored as Basic with 100 units.
- `Dashboard.StatusViewOfBackend`: the dashboard reads `data.plan`, but the status endpoint sends `plan_name`, so the plan-name element is assigned `undefined`, which `textContent` renders as an empty string: the plan name is blank.

## Model

| member | source | states |
|---|---|---|
| PyValues.Trunc | Backend/app.py:67 | `int()` of a float truncates toward zero: the result is within 1 of the value, on the zero side |
| PyValues.ParseIntRoundTrip | Backend/controllers/subscription_controller.py:21 | `int(str(n)) == n` for every integer, so a decimal string is read back as its value |
| PyValues.ParseDecimalExtendsParseInt | Backend/app.py:87 | every string `int()` accepts, `float()` accepts with the same value |
| PyValues.SumAppend | Backend/app.py:127-132 | the running sum of a concatenation is the sum of the two sums |
| PyValues.SumUpdate | Backend/app.py:104 | replacing one entry changes the sum by the new value minus the old one |
| PyValues.SumConstant | Backend/app.py:46 | `n` copies of `v` add up to `n * v` |
| PyValues.SumNonNegative | Backend/app.py:127-132 | a sum of non-negative values is non-negative |
| Ledger.WithUnits | Backend/app.py:103-106 | the record written for today reads back, through the same conversion the status loop uses, as exactly the new units |
| Ledger.SumMonth | Backend/app.py:126-132 | the month loop's result is the sum over all records in ledger order, dict records contributing their `units`; it fails exactly when some record does not convert |
| Ledger.CollectDaily | Backend/app.py:134-142 | the loop collects every record's units in ledger order, or fails as `float()` does |
| Ledger.AmountsSpec | Backend/app.py:127-142 | the daily values exist exactly when every record converts, and then there is one per record, in order |
| Ledger.LookupPut | Backend/app.py:104-106 | `days[date] = rec` changes the entry for `date` and no other |
| Ledger.PutDistinct | Backend/app.py:106 | assigning a key keeps the ledger's dates distinct |
| Ledger.AddToTodayAtToday | Backend/app.py:101-106 | the merge succeeds exactly when today's previous value converts (an absent one counts as 0); today's entry then holds the previous units plus `units`, a dict keeping its other keys |
| Ledger.AddToTodayOtherDates | Backend/app.py:98-108 | every other date keeps its entry |
| Ledger.AddToTodayDistinct | Backend/app.py:98-108 | the merged ledger still has distinct dates |
| Ledger.AddToTodayTwice | Backend/models/usage_model.py:14-20 | adding `a` and then `b` gives the same ledger as adding `a + b` |
| Ledger.AddToTodayMonthTotal | Backend/app.py:98-132 | when the month total exists, the merge succeeds and raises the month total by exactly `units` |
| Store.Db.constructor | Backend/app.py:22-24 | a missing `db.json` reads as empty subscriptions and usage |
| Store.StatusDefined | Backend/app.py:127-150 | the status summary exists exactly when every record of the user converts |
| Store.StatusFields | Backend/app.py:115-167 | the summary's fields: the user, 0 for an empty ledger, the projection as month total / days × 30, today's units 0 when absent, and a plan limit of 0 with no plan name without a subscription |
| Store.ProgressBounds | Backend/app.py:156 | with a positive limit the progress is non-negative, and at most 100 exactly when the month total is within the limit (above 100 it is not clamped) |
| App.PredictStubConstant | Backend/app.py:42-49 | the stub predicts `30 * v` for a constant history of value `v` |
| App.StatusPredictionIsStub | Backend/app.py:134-145 | the status endpoint's `predicted_units` is the `/predict` stub's prediction on the user's daily values |
| App.NewSubscriptionDefaults | Backend/app.py:65-70 | each absent field takes its own default ("Basic", 100, 0.0) whatever the others hold, and with both numbers absent the record always exists; the start time is the clock reading and there is no status |
| App.Subscribe | Backend/app.py:54-78 | no user id: 400 and nothing changes; a conversion that raises: 500 and nothing changes; otherwise 201, only that user's subscription is replaced, and usage is untouched |
| App.AddUsage | Backend/app.py:83-110 | `units` is converted before `user_id` is checked (a bad value is 500 even without a user); without a user it answers 400; otherwise it answers 200 with only that user's ledger replaced by the merge (a new user starts empty), or 500 with nothing changed |
| App.Status | Backend/app.py:115-167 | the report is the status summary of the user's subscription and ledger, with code 200, or 500 when a record does not convert |
| App.StatusAfterAddUsage | Backend/app.py:83-167 | after recording `units` for today, the status shows month and today usage each higher by exactly `units`, with the same limit |
| App.UpdateSubscription | Backend/app.py:171-202 | an unknown user: 404 and nothing changes; otherwise the patched subscription is stored with 200, or nothing changes with 500 when a conversion raises; usage is untouched |
| App.PatchedFields | Backend/app.py:181-192 | exactly the supplied fields among `plan_name`, `plan_units`, `price` and `status` change; the others and `start_ts` keep their values |
| App.PatchedFails | Backend/app.py:185-189 | an update fails exactly when a supplied `plan_units` or `price` does not convert |
| App.PatchedIdempotent | Backend/app.py:181-192 | sending the same update twice has the effect of sending it once |
| App.PatchedNothing | Backend/app.py:181-192 | an update with none of the four fields leaves the subscription as it was |
| UsageModel.AddUsageToDb | Backend/models/usage_model.py:5-25 | returns True with only that user's ledger replaced by the merge (an unknown user starts empty), or raises and leaves the db unchanged when a value does not convert |
| DashboardController.GetUserStatus | Backend/controllers/dashboard_controller.py:6-53 | it returns the same status summary as the status endpoint with code 200, and raises exactly when a record of the user does not convert |
| Plans.PlanNamed | Backend/model.py:70 | a name is a catalogue key exactly when it names one of the three plans |
| Plans.PredictShortHistory | Backend/model.py:13-19 | with fewer than three values the slope is 0 and the prediction is the average × 30 |
| Plans.PredictConstant | Backend/model.py:10-19 | a constant history of value `v` predicts `30 * v` |
| Plans.PredictTrend | Backend/model.py:15-19 | a rising history predicts more than its average × 30, a falling one less |
| Plans.CostMonotone | Backend/model.py:23-28 | the cost grows with the units at a non-negative rate and is additive in the units |
| Plans.CostDefaultRate | Backend/model.py:23 | the default rate is 6.0 per unit |
| Plans.RecommendPlan | Backend/model.py:31-87 | the units and price reported are the catalogue entry of the recommended plan, and the predicted units are passed through |
| Plans.RecommendThresholds | Backend/model.py:59-64 | Basic exactly up to 100, Standard exactly above 100 up to 200, Premium exactly above 200 |
| Plans.RecommendMonotone | Backend/model.py:59-64 | more predicted usage never recommends a smaller plan |
| Plans.RecommendSmallestCover | Backend/model.py:52-64 | up to 400 units the recommended plan is the smallest one whose units cover the prediction |
| Plans.RecommendSavings | Backend/model.py:70-79 | the savings are the current price minus the recommended price for a catalogue plan name, absent otherwise, and 0 when the two plans are the same |
| RewardSystem.CalculateRewards | Backend/ML/reward_system.py:1-12 | the reward is 0 or 10, and 10 exactly when the plan is positive and usage is at most 80% of it |
| RewardSystem.RewardsNonIncreasing | Backend/ML/reward_system.py:10-12 | using more never earns more points |
| Mongo.UsageOf | Backend/controllers/alert_rewards_controller.py:14 | the query returns only that user's documents, each of them exactly as often as it occurs in the collection |
| Mongo.UsageOfAppend | Backend/controllers/alert_rewards_controller.py:14 | the query keeps collection order: querying two halves and joining the answers is querying the whole |
| AlertRewards.GetAlertsAndRewards | Backend/controllers/alert_rewards_controller.py:4-32 | no subscription: 404; a document whose `units` is missing or does not convert: 500 with no reply; otherwise 200 with the total of the user's units, the plan limit, the alerts for that total and the reward |
| AlertRewards.AlertsThresholds | Backend/controllers/alert_rewards_controller.py:19-23 | the 80% alert is present exactly when total ≥ 0.8 × limit; the 100% alert exactly when total ≥ limit; at most two alerts, the 80% one first |
| AlertRewards.AlertsNested | Backend/controllers/alert_rewards_controller.py:19-23 | for a non-negative limit, the 100% alert comes with the 80% alert |
| AlertRewards.AlertsAtEightyPercent | Backend/controllers/alert_rewards_controller.py:19-25 | at exactly 80% of a positive limit the user gets the 80% alert and the 10-point reward |
| AlertRewards.RewardAgreesWithRewardSystem | Backend/controllers/alert_rewards_controller.py:25 | for a positive plan the controller's reward equals `calculate_rewards` |
| SubscriptionController.HandleSubscription | Backend/controllers/subscription_controller.py:5-49 | 400 with the first failing check's message and nothing written, or 201 with the document stored under the user's id (inserted or replaced) and nothing else changed |
| SubscriptionController.ValidateOrder | Backend/controllers/subscription_controller.py:14-18 | a missing `user_id` is reported before a missing `plan_name` |
| SubscriptionController.ValidateDefaults | Backend/controllers/subscription_controller.py:20-28 | with a user, a plan name and both numbers falsy the request is accepted with 100 and 0.0 |
| SubscriptionController.ValidateFieldDefaults | Backend/controllers/subscription_controller.py:20-28 | in an accepted document a falsy `plan_units` becomes 100 and a falsy `price` 0.0, each on its own |
| SubscriptionController.ValidateRejectsBadNumbers | Backend/controllers/subscription_controller.py:20-28 | a `plan_units` that `int()` rejects gives the integer error; otherwise a `price` that `float()` rejects gives the number error |
| SubscriptionController.ValidateAcceptedDoc | Backend/controllers/subscription_controller.py:31-37 | an accepted document carries the request's user id, plan name, converted numbers and the UTC timestamp |
| SubscriptionController.ValidateDigitString | Backend/controllers/subscription_controller.py:21 | a decimal string for `plan_units` is accepted with its value |
| EnergyCoach.Band | Backend/ML/ai_energy_coach.py:11-21 | the four bands are < 50, [50, 80), [80, 100), ≥ 100, exactly one of them applies |
| EnergyCoach.GetEnergySuggestion | Backend/ML/ai_energy_coach.py:3-21 | the call raises exactly when `plan_units` is 0 |
| EnergyCoach.BandBoundaries | Backend/ML/ai_energy_coach.py:11-21 | 50, 80 and 100 fall in the upper band |
| EnergyCoach.SuggestionMonotone | Backend/ML/ai_energy_coach.py:8-21 | for a positive plan a larger total never gets a milder suggestion |
| EnergyAdvisor.GetEnergyAdvice | Backend/ML/energy_ai_advisor.py:5-10 | high load exactly above 5, saved exactly below 3, moderate exactly from 3 to 5 |
| DataFiles.AlertFile.Append | Backend/usage_monitor.py:20-28 | the stored list becomes the previous list, or `[]` when unreadable, with the alert appended |
| UsageMonitor.PercentUsed | Backend/usage_monitor.py:39 | the percentage of the 50-unit test limit is twice the total |
| UsageMonitor.LevelFor | Backend/usage_monitor.py:43-48 | critical exactly from 95, warning exactly in [85, 95), info exactly in [70, 85), and no alert exactly below 70 |
| UsageMonitor.SaveAlert | Backend/usage_monitor.py:13-31 | one alert with the level, message and time is appended after the stored ones |
| UsageMonitor.CheckUsage | Backend/usage_monitor.py:34-48 | at most one alert is saved, for the highest threshold reached, and the file is untouched below 70% |
| UsageMonitor.MonitorThresholdsInUnits | Backend/usage_monitor.py:38-48 | in units: no alert below 35, a warning from 42.5 and a critical alert from 47.5 |
| ApplianceDetector.DetectAppliance | Backend/appliance_detector.py:9-22 | there is a message exactly when the jump exceeds 2.0 |
| ApplianceDetector.SpikeByHour | Backend/appliance_detector.py:13-21 | for a spike: night exactly at hours 22–23 and 0–6, morning at 7–10, evening at 18–21, generic at 11–17 |
| ApplianceDetector.RunDetection | Backend/appliance_detector.py:25-55 | `previous_usage` becomes the current total on every run, and an alert is appended, keeping the prior ones, exactly when there is a message |
| ApplianceDetector.FirstRunNoSpike | Backend/appliance_detector.py:29-32 | a missing `previous_usage` defaults to the current total, so there is no alert |
| ApplianceDetector.SecondRunNoSpike | Backend/appliance_detector.py:29-34 | running again without new usage gives no alert |
| PredictService.PredictNextUsage | Backend/ML/predict_service.py:19-37 | the result is never negative, and it is the model's prediction on the shaped history or 0 |
| PredictService.ShapeNoHistory | Backend/ML/predict_service.py:26 | a missing history is shaped like an empty one, as all zeros |
| PredictService.ShapeSpec | Backend/ML/predict_service.py:28-32 | the feature vector has exactly `n_features` entries; a short history is its suffix after zeros, a long one keeps its last values |
| PredictService.ShapeExact | Backend/ML/predict_service.py:29-32 | a history of exactly `n_features` values is passed on unchanged |
| PredictService.ShapeZeroFeatures | Backend/ML/predict_service.py:31-32 | with `n_features == 0` the slice `hist[-0:]` keeps the whole history |
| PredictService.PredictIgnoresOldHistory | Backend/ML/predict_service.py:31-32 | values older than the last `n_features` do not affect the prediction |
| DataLoader.SortByDate | Backend/ML/data_loader.py:29 | the sorted records are a permutation of the user's records |
| DataLoader.SortByDateSorted | Backend/ML/data_loader.py:29 | the records are in ascending order of their date keys, compared as Python compares strings |
| DataLoader.CollectDailyNumbers | Backend/ML/data_loader.py:31-37 | the loop keeps the converted values in order and passes over the others |
| DataLoader.AppendWindows | Backend/ML/data_loader.py:41-47 | the loop appends the user's window rows after the rows collected so far |
| DataLoader.BuildTrainingTable | Backend/ML/data_loader.py:16-50 | the nested loops produce the table: each user's windows, users in the db's order |
| DataLoader.WindowRowsCount | Backend/ML/data_loader.py:42 | `n` usable values give `n - 3` rows, so three or fewer give none |
| DataLoader.WindowRowsStep | Backend/ML/data_loader.py:42-47 | one more loop step keeps the earlier rows and appends the window ending at the new index |
| DataLoader.WindowRowsAt | Backend/ML/data_loader.py:42-47 | row `k` is exactly the window that ends before index `k + 3` |
| DataLoader.WindowRowsShape | Backend/ML/data_loader.py:42-47 | row `k` holds the user, the features `daily[k..k+3]` (three values) and their average × 30 as target |
| DataLoader.UserRowsCount | Backend/ML/data_loader.py:38-42 | fewer than `min_days` usable values give no rows; otherwise the count is that of the values beyond the first three |
| DataLoader.SkipsUnconvertible | Backend/ML/data_loader.py:33-37 | a record whose value does not convert adds nothing to `daily` |
| DataLoader.DailyNumbersAllConvert | Backend/ML/data_loader.py:32-35 | when every record converts, `daily` holds each record's value in order |
| DataLoader.DailyNumbersLength | Backend/ML/data_loader.py:32-37 | a record adds at most one value |
| DataLoader.TableEmpty | Backend/ML/data_loader.py:49-50 | the table is empty exactly when no user contributes a row |
| DataLoader.TableRowsShape | Backend/ML/data_loader.py:41-47 | every row has three features and a target of 30 × their average |
| Dashboard.SelectedPlan | Frontend/dashboard.js:199 | a missing or empty stored plan reads as "Basic"; any other stored plan is kept |
| Dashboard.LimitMapping | Frontend/dashboard.js:199-207 | 200 exactly for Standard, 400 exactly for Premium, 100 for anything else, including a missing plan; for the catalogue plans this is the backend catalogue's allowance |
| Dashboard.ExpectedBounds | Frontend/dashboard.js:214-218 | on every day of the month the expected usage lies in [0, limit] |
| Dashboard.RawUsedBounds | Frontend/dashboard.js:221-222 | for a draw in [0, 1), the unclamped usage lies within expected ± variation and is never negative |
| Dashboard.UsedBounds | Frontend/dashboard.js:222 | the clamped usage lies in [0, limit] |
| Dashboard.PercentBounds | Frontend/dashboard.js:227 | the percentage of a usage in [0, limit] lies in [0, 100] |
| Dashboard.BandOf | Frontend/dashboard.js:231-237 | red exactly above 90, amber exactly in (70, 90], blue exactly up to 70 |
| Dashboard.BandBoundaries | Frontend/dashboard.js:135-142 | 90 is amber and 70 is blue |
| Dashboard.MiniViewBounds | Frontend/dashboard.js:197-237 | the synthetic dashboard shows the stored plan's limit and a bar width in [0, 100], coloured by that width |
| Dashboard.StatusJson | Backend/app.py:158-166 | the status body has no `plan` key |
| Dashboard.StatusViewOfBackend | Frontend/dashboard.js:129-142 | against the status endpoint the plan-name element is assigned `undefined` (rendered blank by `textContent`), and limit, units, width and colour come from the report |
| Dashboard.DashboardSubscribesBasic | Frontend/dashboard.js:95-98 | whatever plan is selected, the stored subscription is Basic with 100 units at price 0.0 |
| Dashboard.Page.UpdateMiniDashboard | Frontend/dashboard.js:197-238 | the page shows the synthetic view of the stored plan, the date and the draw; localStorage and the subscribe message are untouched |
| Dashboard.Page.LoadStatus | Frontend/dashboard.js:123-148 | a failed request or a `null` body falls back to the synthetic view; otherwise the page shows the response's `plan`, `plan_limit`, `month_used` and `progress_percent` |
| Dashboard.Page.SubscribeToPlan | Frontend/dashboard.js:80-99 | with no plan checked it shows "❌ Please select a plan" and sends nothing; otherwise it sends `user_id` "user1" and the plan under `plan`; the view is untouched |
| PyValues.ToInt | Backend/app.py:67 | Python `int()` on a JSON value, `None` where it raises; ParseIntRoundTrip and Trunc state its string and float cases |
| PyValues.ToFloat | Backend/app.py:68 | Python `float()` on a JSON value, `None` where it raises; ParseDecimalExtendsParseInt relates it to `int()` |
| PyValues.ParseInt | Backend/controllers/subscription_controller.py:21 | `int()` on a string: a sign and decimal digits; ParseIntRoundTrip shows it reads back every `str(n)` |
| PyValues.ParseDecimal | Backend/app.py:87 | `float()` on a string: a sign, digits and an optional fraction; ParseDecimalExtendsParseInt shows it agrees with `int()` on integer strings |
| PyValues.Sum | Backend/app.py:127-132 | Python `sum()` as a left fold; SumAppend, SumUpdate, SumConstant and SumNonNegative state its properties |
| Ledger.Lookup | Backend/app.py:101 | `days.get(date)`; LookupPut states how it sees an assignment |
| Ledger.Put | Backend/app.py:104-106 | `days[date] = rec`; LookupPut and PutDistinct state that only that date changes and dates stay distinct |
| Ledger.PutTwice | Backend/app.py:104-106 | assigning a date twice leaves the second value, as one assignment would |
| Ledger.RecordUnits | Backend/app.py:103-106 | a record's units: a dict's `units` (0.0 when absent) or the bare value, through `float()`; WithUnits shows the merge writes back exactly the new units |
| Ledger.AddToToday | Backend/app.py:98-108 | the merge of `units` into today's entry; AddToTodayAtToday, AddToTodayOtherDates, AddToTodayDistinct, AddToTodayTwice and AddToTodayMonthTotal state what it changes and what it keeps |
| Ledger.Amounts | Backend/app.py:127-142 | every record's units in ledger order, `None` when one raises; AmountsSpec states this per record |
| Ledger.MonthTotal | Backend/app.py:126-132 | the sum of the amounts; SumMonth shows the loop computes it and AddToTodayMonthTotal how a merge raises it |
| Ledger.TodayUnits | Backend/app.py:148-150 | today's record through `float()`, 0.0 for a missing entry; StatusAfterAddUsage shows it grows by exactly the units added |
| Store.PlanLimit | Backend/app.py:153 | the subscription's `plan_units`, 0 without one; StatusFields states it in the summary |
| Store.Progress | Backend/app.py:156 | month total / limit × 100, 0 for a zero limit; ProgressBounds states its bounds and that it is not clamped |
| Store.StatusOf | Backend/app.py:115-167 | the status summary; StatusDefined says when it exists and StatusFields what each field holds |
| App.PredictStub | Backend/app.py:42-49 | the average of the history × 30, 0.0 for an empty one; PredictStubEmpty, PredictStubConstant and StatusPredictionIsStub state its properties |
| App.PredictStubEmpty | Backend/app.py:46 | an empty history predicts 0.0 |
| App.NewSubscription | Backend/app.py:65-70 | the record `subscribe` stores, `None` when a conversion raises; NewSubscriptionDefaults states its defaults |
| App.RequestUnits | Backend/app.py:87 | `float(data.get("units", 0.0))`; AddUsage shows it is evaluated before the user check |
| App.Patched | Backend/app.py:181-192 | the subscription after an update; PatchedFields, PatchedFails, PatchedIdempotent and PatchedNothing state its properties |
| Plans.PredictFromHistory | Backend/model.py:3-20 | (average + slope) × 30 with the 120-unit fallback; PredictEmptyHistory, PredictShortHistory, PredictConstant and PredictTrend state its properties |
| Plans.PredictEmptyHistory | Backend/model.py:10-11 | an empty history predicts the 120-unit fallback |
| Plans.CalcPredictedCost | Backend/model.py:23-28 | units × rate; CostMonotone and CostDefaultRate state its properties |
| Plans.Tier | Backend/model.py:59-64 | the recommended plan for a prediction; RecommendThresholds, RecommendMonotone and RecommendSmallestCover state its thresholds |
| AlertRewards.DocUnits | Backend/controllers/alert_rewards_controller.py:14 | `float(r["units"])`, `None` for a missing key or a value that does not convert |
| AlertRewards.TotalUnits | Backend/controllers/alert_rewards_controller.py:14 | the total of the documents' units in order, `None` when one of them raises; TotalUnitsDefined says when it exists |
| AlertRewards.SumUnits | Backend/controllers/alert_rewards_controller.py:14-15 | the summing loop computes exactly the total of the documents' units, and fails exactly when the total does not exist |
| AlertRewards.CollectAlerts | Backend/controllers/alert_rewards_controller.py:19-23 | the alert list the controller builds is exactly the alerts for the total and the limit |
| AlertRewards.TotalUnitsDefined | Backend/controllers/alert_rewards_controller.py:14 | the total exists exactly when every document's units convert |
| AlertRewards.TotalUnitsNoneExtends | Backend/controllers/alert_rewards_controller.py:14 | once a prefix of the documents fails to convert, the whole total fails |
| AlertRewards.AlertsFor | Backend/controllers/alert_rewards_controller.py:19-23 | the alerts for a total; AlertsThresholds, AlertsNested and AlertsAtEightyPercent state them |
| AlertRewards.RewardFor | Backend/controllers/alert_rewards_controller.py:25 | 10 points within 80% of the limit, else 0; RewardAgreesWithRewardSystem ties it to `calculate_rewards` |
| SubscriptionController.Validate | Backend/controllers/subscription_controller.py:13-37 | the validation chain; ValidateOrder, ValidateDefaults, ValidateRejectsBadNumbers, ValidateAcceptedDoc and ValidateDigitString state its outcomes |
| PredictService.Shape | Backend/ML/predict_service.py:26-32 | the feature vector; ShapeSpec, ShapeExact, ShapeNoHistory and ShapeZeroFeatures state its length and contents |
| DataLoader.DailyValue | Backend/ML/data_loader.py:33-35 | a record's value through `float()`, `None` where it raises; SkipsUnconvertible states what then happens |
| DataLoader.DailyNumbers | Backend/ML/data_loader.py:31-37 | the list `daily`; CollectDailyNumbers computes it, and DailyNumbersAllConvert, DailyNumbersLength and SkipsUnconvertible state its contents |
| DataLoader.WindowRows | Backend/ML/data_loader.py:41-47 | the sliding-window rows; WindowRowsCount and WindowRowsShape state their number and contents |
| DataLoader.UserRows | Backend/ML/data_loader.py:38-47 | one user's rows, none below `min_days`; UserRowsCount states their number |
| DataLoader.Table | Backend/ML/data_loader.py:16-50 | all users' rows in order; BuildTrainingTable computes it, TableEmpty and TableRowsShape state its properties |
| DataLoader.ConcatRowsEmpty | Backend/ML/data_loader.py:26-50 | the concatenated rows are empty exactly when every user contributes none |
| Dashboard.LimitOf | Frontend/dashboard.js:205-207 | the limit for a plan name; LimitMapping states it |
| Dashboard.Expected | Frontend/dashboard.js:218 | the expected usage for the day; ExpectedBounds states its bounds |
| Dashboard.Variation | Frontend/dashboard.js:221 | for a non-negative expected usage the variation lies between 0 and that usage |
| Dashboard.RawUsed | Frontend/dashboard.js:222 | usage before clamping; RawUsedBounds states its bounds |
| Dashboard.Clamp | Frontend/dashboard.js:222 | for a non-negative limit the result lies in [0, limit], and a value already in that range is kept |
| Dashboard.Used | Frontend/dashboard.js:218-222 | the clamped synthetic usage; UsedBounds states its bounds |
| Dashboard.Percent | Frontend/dashboard.js:227 | the floored percentage; PercentBounds states its range |
| Dashboard.Round | Frontend/dashboard.js:224 | `Math.round` is within 0.5 of the value, halves rounding up |
| Dashboard.MiniView | Frontend/dashboard.js:197-237 | the synthetic view; MiniViewBounds states its limit, width and colour |
| Dashboard.ToNumber | Frontend/dashboard.js:135-136 | JavaScript's number conversion in `percent > 90`, `None` for NaN; StatusViewOfBackend uses it on the report's percentage |
| Dashboard.StatusView | Frontend/dashboard.js:129-142 | the view from a status response; StatusViewOfBackend states it against the backend's body |
| EnergyCoach.Message | Backend/ML/ai_energy_coach.py:11-21 | the four suggestion texts; GetEnergySuggestion and Band state which one is chosen |
| EnergyCoach.Severity | Backend/ML/ai_energy_coach.py:11-21 | the order of the four suggestions; SuggestionMonotone states that it does not decrease with usage |
| EnergyAdvisor.Message | Backend/ML/energy_ai_advisor.py:6-10 | the three advice texts; GetEnergyAdvice states which one is chosen |
| ApplianceDetector.Message | Backend/appliance_detector.py:13-21 | the four spike texts; DetectAppliance and SpikeByHour state which one is chosen |
| UsageMonitor.LevelMessage | Backend/usage_monitor.py:43-48 | the three alert texts; LevelFor and CheckUsage state which one is saved |
| Plans.Catalogue | Backend/model.py:52-56 | the plans dict: Basic 100 units for 199, Standard 200 for 399, Premium 400 for 699; RecommendPlan and RecommendSmallestCover use it |
| Plans.Name | Backend/model.py:52-56 | the dict keys of the three plans; PlanNamed states which strings name a plan |
| Plans.Slope | Backend/model.py:15-17 | (last − first) / (n − 1) from three values on, else 0; PredictShortHistory and PredictTrend state its effect |
| Ledger.Projection | Backend/app.py:142-145 | the daily average × 30, 0.0 for an empty ledger; StatusFields and StatusPredictionIsStub state it in the summary |
| DataLoader.StrLe | Backend/ML/data_loader.py:29 | Python's string order on the date keys; StrLeTotal and StrLeTrans show it is a total preorder, SortByDateSorted sorts by it |
| DataLoader.Insert | Backend/ML/data_loader.py:29 | one insertion step of the sort: the result holds the old records plus the new one, as a multiset |
| DataLoader.UserDaily | Backend/ML/data_loader.py:29-37 | the daily numbers of the user's records sorted by date; UserRowsCount states their use |
| DataLoader.MakeRow | Backend/ML/data_loader.py:43-47 | the row for the window ending before `i`; WindowRowsShape states its features and target |
| Dashboard.Field | Frontend/dashboard.js:129-135 | `data.key` on the decoded response, `undefined` for a missing key; StatusViewOfBackend states it against the status body |
| Dashboard.BandOfValue | Frontend/dashboard.js:135-142 | the bar colour for a value that may not be a number; StatusViewOfBackend shows it is BandOf on the report's percentage |
| DataFiles.Existing | Backend/usage_monitor.py:20-24 | the stored alerts, `[]` for a missing or unreadable file; AlertFile.Append and SaveAlert use it |
| DataFiles.FieldOr | Backend/usage_monitor.py:38 | `usage.get(key, default)` on the usage file; CheckUsage, RunDetection and FirstRunNoSpike use it |

## Left out

- Rounding: `round(x, n)` in the backend and the monitor is not modelled, so values are exact. For example, a percentage of 94.996 rounds to 95 in the source and raises a critical alert there, but not here. JavaScript `Math.floor`/`Math.round` are modelled.
- Floating point: Python floats and JavaScript numbers are exact reals. NaN and infinity are not values of the model. The dashboard's `percent > 90` on a non-number is treated as false.
- String conversion: `int()`/`float()` on strings accept an optional sign and decimal digits only. Leading or trailing whitespace, underscores, exponents, `inf` and `nan` are not modelled, and neither is JavaScript's conversion of lists and whitespace.
- Request bodies are JSON objects. A body that is not an object (`[1]`, `"x"`, `5`), which raises on `.get` and gets a 500, is not modelled. Neither is a malformed or non-JSON body, which Flask refuses before the view runs. `request.form` in the update endpoint is not modelled either.
- `user_id`: only strings or an absent or null value are modelled. A number or list sent as `user_id` is not.
- File I/O: the file lock, `read_db`/`write_db` themselves, `json.dump` formatting and partial writes are not modelled. The alerts and usage files are whole values read and written at once.
- `db.json` shape: a `db.json` missing the `subscriptions` or `usage` key is not modelled, and neither is a subscription missing `plan_units`. `users` is not modelled.
- usage_data.json: a non-number `total_usage` or `previous_usage` is not modelled.
- Printing and the bare `except:` around loading `alerts.json`: an unreadable file is `None`, read as `[]`.
- Network and DOM: `checkBackend`, `selectPlan`, `setupRadioButtons`, `initializeChart`, `setInterval` and what happens after a subscribe request are not modelled: both the response shown in `subscribeResult` and the error message a failed `fetch` shows there. `fetch` is a parameter (the decoded response) or a result (the request body). JavaScript `textContent` string conversion is not modelled; elements hold JSON values.
- Mongo: `_id` and the connection in `db.mongo` are not modelled. A usage document's `units` is modelled, missing or present. A missing `plan_units` key in a stored Mongo document is not modelled either.
- `load_model`/`joblib.load`: the trained model is the parameters `nFeatures` and `predict`. The numpy reshape is not modelled, nor is whether the regressor accepts zero features.
- `predict_tomorrow` and the module-level model load in Backend/ML/energy_ai_advisor.py are not modelled (foreign ML code).
- The pandas DataFrame assembly in Backend/ML/data_loader.py is not modelled. The table is the list of rows.
- Backend/ML/train_model.py, Backend/usage_simulator.py, Backend/test_api.py, Backend/ML/unused/model_logic.py and Backend/utils/helper.py are not part of this model.
- `/predict` body decoding: the stub takes the history as a list of numbers. A falsy `history` that is not a list (`null`, `0`, `""`, `{}`, `false`) never reaches `sum()` and predicts 0.0, like an empty list, which `PredictStubEmpty` covers. A truthy non-list (`"ab"`, `5`, `true`, `{"a": 1}`), or a list holding values `sum()` cannot add, raises in the source and is not modelled.
- The demo block in Backend/model.py is not modelled; it only prints sample predictions.
- `/` (the root endpoint) is not modelled. It returns a fixed message.
