/** The two MongoDB collections the controllers use. `db.mongo` itself is not part of
    this model; a collection is its list of documents, and `subscriptions` holds at
    most one document per user because it is only written by an upsert keyed by
    `user_id`. */
module Mongo {
  import opened PyValues

  /** A document of `subscriptions`. */
  datatype SubscriptionDoc = SubscriptionDoc(
    userId: string,
    planName: Json,
    planUnits: int,
    price: real,
    startTs: string)

  /** A document of `usage`; `units` is `None` when the document has no `units` key. */
  datatype UsageDoc = UsageDoc(userId: string, units: Option<Json>)

  class MongoDb {
    var subscriptions: map<string, SubscriptionDoc>
    var usage: seq<UsageDoc>

    /** Every subscription document sits under its own `user_id`. */
    ghost predicate Valid()
      reads this
    {
      forall u :: u in subscriptions ==> subscriptions[u].userId == u
    }

    constructor ()
      ensures Valid() && subscriptions == map[] && usage == []
    {
      subscriptions := map[];
      usage := [];
    }
  }

  /** `find({"user_id": user_id})` on `usage`: that user's documents, each as often as
      it occurs in the collection, in collection order. */
  function UsageOf(usage: seq<UsageDoc>, userId: string): (r: seq<UsageDoc>)
    ensures forall d :: d in r ==> d.userId == userId
    ensures forall d :: d in usage && d.userId == userId ==> d in r
    ensures forall d :: multiset(r)[d] == if d.userId == userId then multiset(usage)[d] else 0
  {
    if usage == [] then []
    else
      var n := |usage| - 1;
      assert usage == usage[..n] + [usage[n]];
      if usage[n].userId == userId then UsageOf(usage[..n], userId) + [usage[n]]
      else UsageOf(usage[..n], userId)
  }

  /** The query keeps collection order: it distributes over concatenation. */
  lemma {:induction false} UsageOfAppend(a: seq<UsageDoc>, b: seq<UsageDoc>, userId: string)
    ensures UsageOf(a + b, userId) == UsageOf(a, userId) + UsageOf(b, userId)
  {
    if b == [] {
      assert a + b == a;
    } else {
      var n := |b| - 1;
      assert (a + b)[..|a + b| - 1] == a + b[..n];
      UsageOfAppend(a, b[..n], userId);
    }
  }
}
