/** Backend/controllers/subscription_controller.py: validating a subscription request
    and upserting it into MongoDB. */
module SubscriptionController {
  import opened PyValues
  import opened Store
  import opened Mongo

  datatype Checked = Rejected(error: string) | Accepted(doc: SubscriptionDoc)

  /** The validation chain, in the source's order; `now` is the UTC timestamp. */
  function Validate(req: Request, now: string): Checked {
    if !HasUser(req) then Rejected("user_id is required")
    else
      var planName := Get(req.fields, "plan_name", JNull);
      if !Truthy(planName) then Rejected("plan_name is required")
      else
        match ToInt(Or(Get(req.fields, "plan_units", JNull), JInt(100)))
        case None => Rejected("plan_units must be an integer")
        case Some(units) =>
          match ToFloat(Or(Get(req.fields, "price", JNull), JFloat(0.0)))
          case None => Rejected("price must be a number")
          case Some(price) => Accepted(SubscriptionDoc(req.userId.value, planName, units, price, now))
  }

  /** `handle_subscription()`: 400 with the first failing check's message, or an upsert of
      the user's document and 201 with the stored document. */
  method HandleSubscription(db: MongoDb, req: Request, now: string) returns (code: int, result: Checked)
    requires db.Valid()
    modifies db
    ensures db.Valid()
    ensures result == Validate(req, now)
    ensures result.Rejected? ==> code == 400 && unchanged(db)
    ensures result.Accepted? ==>
      code == 201 &&
      db.subscriptions == old(db.subscriptions)[req.userId.value := result.doc] &&
      db.usage == old(db.usage)
  {
    result := Validate(req, now);
    if result.Rejected? {
      return 400, result;
    }
    var doc := result.doc;
    db.subscriptions := db.subscriptions[doc.userId := doc];
    code := 201;
  }

  /** A missing `user_id` is reported first, a missing `plan_name` second. */
  lemma ValidateOrder(req: Request, now: string)
    ensures !HasUser(req) ==> Validate(req, now) == Rejected("user_id is required")
    ensures HasUser(req) && !Truthy(Get(req.fields, "plan_name", JNull)) ==>
      Validate(req, now) == Rejected("plan_name is required")
  {
  }

  /** A falsy `plan_units` becomes 100 and a falsy `price` becomes 0.0. */
  lemma ValidateDefaults(req: Request, now: string)
    requires HasUser(req) && Truthy(Get(req.fields, "plan_name", JNull))
    requires !Truthy(Get(req.fields, "plan_units", JNull))
    requires !Truthy(Get(req.fields, "price", JNull))
    ensures Validate(req, now).Accepted?
    ensures Validate(req, now).doc.planUnits == 100 && Validate(req, now).doc.price == 0.0
  {
  }

  /** Each falsy number takes its default on its own, whatever the other field holds. */
  lemma ValidateFieldDefaults(req: Request, now: string)
    ensures Validate(req, now).Accepted? && !Truthy(Get(req.fields, "plan_units", JNull)) ==>
      Validate(req, now).doc.planUnits == 100
    ensures Validate(req, now).Accepted? && !Truthy(Get(req.fields, "price", JNull)) ==>
      Validate(req, now).doc.price == 0.0
  {
  }

  /** A `plan_units` that `int()` rejects, or a `price` that `float()` rejects, is refused. */
  lemma ValidateRejectsBadNumbers(req: Request, now: string)
    requires HasUser(req) && Truthy(Get(req.fields, "plan_name", JNull))
    ensures ToInt(Or(Get(req.fields, "plan_units", JNull), JInt(100))).None? ==>
      Validate(req, now) == Rejected("plan_units must be an integer")
    ensures (ToInt(Or(Get(req.fields, "plan_units", JNull), JInt(100))).Some? &&
             ToFloat(Or(Get(req.fields, "price", JNull), JFloat(0.0))).None?) ==>
      Validate(req, now) == Rejected("price must be a number")
  {
  }

  /** An accepted document carries the request's user, plan name and numbers. */
  lemma ValidateAcceptedDoc(req: Request, now: string)
    requires Validate(req, now).Accepted?
    ensures var d := Validate(req, now).doc;
      && HasUser(req) && d.userId == req.userId.value
      && d.planName == req.fields["plan_name"] && Truthy(d.planName)
      && d.startTs == now
      && (Truthy(Get(req.fields, "plan_units", JNull)) ==> Some(d.planUnits) == ToInt(req.fields["plan_units"]))
      && (Truthy(Get(req.fields, "price", JNull)) ==> Some(d.price) == ToFloat(req.fields["price"]))
  {
  }

  /** A string of digits for `plan_units` is accepted with its decimal value. */
  lemma ValidateDigitString(req: Request, now: string, n: nat)
    requires HasUser(req) && Truthy(Get(req.fields, "plan_name", JNull))
    requires "plan_units" in req.fields && req.fields["plan_units"] == JStr(IntToDecimal(n))
    requires "price" !in req.fields
    ensures Validate(req, now).Accepted? && Validate(req, now).doc.planUnits == n
  {
    ParseIntRoundTrip(n);
    assert Truthy(req.fields["plan_units"]);
  }
}
