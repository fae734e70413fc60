/** A user's usage ledger in db.json: an ordered map from ISO date to a record that is
    either a bare number or a dict `{"units": u, ...}`. A Python dict keeps insertion
    order, so the ledger is a sequence of days with distinct dates; updating an existing
    date keeps its position and a new date goes at the end. */
module Ledger {
  import opened PyValues

  datatype Day = Day(date: string, rec: Json)

  predicate DistinctDates(days: seq<Day>) {
    forall i, j :: 0 <= i < j < |days| ==> days[i].date != days[j].date
  }

  /** The position of `date` in the ledger, or |days| when it is absent. */
  function IndexOf(days: seq<Day>, date: string): (k: nat)
    ensures k <= |days|
    ensures k < |days| ==> days[k].date == date
    ensures forall i :: 0 <= i < k ==> days[i].date != date
  {
    if days == [] then 0
    else if days[0].date == date then 0
    else 1 + IndexOf(days[1..], date)
  }

  /** `days.get(date)`. */
  function Lookup(days: seq<Day>, date: string): Option<Json> {
    var k := IndexOf(days, date);
    if k < |days| then Some(days[k].rec) else None
  }

  /** `days.get(date, default)`. */
  function LookupOr(days: seq<Day>, date: string, default: Json): Json {
    match Lookup(days, date)
    case Some(rec) => rec
    case None => default
  }

  /** The units one record stands for: `float(rec.get("units", 0.0))` for a dict,
      `float(rec)` otherwise; `None` when the conversion raises. */
  function RecordUnits(rec: Json): Option<real> {
    if rec.JDict? then ToFloat(Get(rec.entries, "units", JFloat(0.0))) else ToFloat(rec)
  }

  /** The record stored for a day whose units become `v`: a dict keeps its other keys,
      anything else is replaced by `{"units": v}`. */
  function WithUnits(prev: Json, v: real): (r: Json)
    ensures RecordUnits(r) == Some(v)
  {
    if prev.JDict? then JDict(prev.entries["units" := JFloat(v)])
    else JDict(map["units" := JFloat(v)])
  }

  /** Python `days[date] = rec`. */
  function Put(days: seq<Day>, date: string, rec: Json): seq<Day> {
    var k := IndexOf(days, date);
    if k < |days| then days[k := Day(date, rec)] else days + [Day(date, rec)]
  }

  /** Adding `units` to `today`'s entry; `None` when the prev entry's value does not
      convert with `float()` (the source raises before anything is written). */
  function AddToToday(days: seq<Day>, today: string, units: real): Option<seq<Day>> {
    var prev := LookupOr(days, today, JInt(0));
    match RecordUnits(prev)
    case None => None
    case Some(u) => Some(Put(days, today, WithUnits(prev, u + units)))
  }

  /** The units of every record in ledger order; `None` if some record does not convert. */
  function Amounts(days: seq<Day>): Option<seq<real>> {
    if days == [] then Some([])
    else
      match Amounts(days[..|days| - 1])
      case None => None
      case Some(a) =>
        match RecordUnits(days[|days| - 1].rec)
        case None => None
        case Some(u) => Some(a + [u])
  }

  /** The month total: the sum of all records' units. */
  function MonthTotal(days: seq<Day>): Option<real> {
    match Amounts(days)
    case None => None
    case Some(a) => Some(Sum(a))
  }

  /** The units recorded for `today`, 0.0 when there is no entry. */
  function TodayUnits(days: seq<Day>, today: string): Option<real> {
    RecordUnits(LookupOr(days, today, JFloat(0.0)))
  }

  /** The 30-day projection from the daily average, 0.0 for an empty ledger. */
  function Projection(amounts: seq<real>): real {
    if amounts == [] then 0.0 else Sum(amounts) / |amounts| as real * 30.0
  }

  predicate AllConvert(days: seq<Day>) {
    forall i :: 0 <= i < |days| ==> RecordUnits(days[i].rec).Some?
  }

  // ---------- loops of the status endpoints ----------

  /** The month-total loop of both status endpoints. */
  method SumMonth(days: seq<Day>) returns (total: Option<real>)
    ensures total == MonthTotal(days)
  {
    var acc := 0.0;
    var i := 0;
    while i < |days|
      invariant 0 <= i <= |days|
      invariant Amounts(days[..i]).Some? && acc == Sum(Amounts(days[..i]).value)
    {
      assert days[..i + 1][..i] == days[..i];
      var u := RecordUnits(days[i].rec);
      if u.None? {
        AmountsNoneExtends(days, i + 1);
        return None;
      }
      acc := acc + u.value;
      i := i + 1;
    }
    assert days[..i] == days;
    return Some(acc);
  }

  /** The loop that collects the daily values for the projection. */
  method CollectDaily(days: seq<Day>) returns (values: Option<seq<real>>)
    ensures values == Amounts(days)
  {
    var acc: seq<real> := [];
    var i := 0;
    while i < |days|
      invariant 0 <= i <= |days|
      invariant Amounts(days[..i]) == Some(acc)
    {
      assert days[..i + 1][..i] == days[..i];
      var u := RecordUnits(days[i].rec);
      if u.None? {
        AmountsNoneExtends(days, i + 1);
        return None;
      }
      acc := acc + [u.value];
      i := i + 1;
    }
    assert days[..i] == days;
    return Some(acc);
  }

  // ---------- lemmas ----------

  lemma {:induction false} AmountsNoneExtends(days: seq<Day>, i: nat)
    requires i <= |days|
    requires Amounts(days[..i]).None?
    ensures Amounts(days).None?
    decreases |days| - i
  {
    if i < |days| {
      assert days[..i + 1][..i] == days[..i];
      AmountsNoneExtends(days, i + 1);
    } else {
      assert days[..i] == days;
    }
  }

  /** `Amounts` succeeds exactly when every record converts, and then lists their units in order. */
  lemma {:induction false} AmountsSpec(days: seq<Day>)
    ensures Amounts(days).Some? <==> AllConvert(days)
    ensures Amounts(days).Some? ==>
      |Amounts(days).value| == |days| &&
      forall i :: 0 <= i < |days| ==> RecordUnits(days[i].rec) == Some(Amounts(days).value[i])
  {
    if days != [] {
      var init := days[..|days| - 1];
      AmountsSpec(init);
      assert forall i :: 0 <= i < |init| ==> init[i] == days[i];
    }
  }

  /** The three facts `IndexOf` ensures determine it. */
  lemma IndexOfUnique(days: seq<Day>, date: string, j: nat)
    requires j <= |days|
    requires j < |days| ==> days[j].date == date
    requires forall i :: 0 <= i < j ==> days[i].date != date
    ensures IndexOf(days, date) == j
  {
  }

  /** `days[date] = rec` changes the entry for `date` and no other. */
  lemma LookupPut(days: seq<Day>, date: string, rec: Json, d: string)
    ensures Lookup(Put(days, date, rec), d) == if d == date then Some(rec) else Lookup(days, d)
  {
    var r := Put(days, date, rec);
    var k := IndexOf(days, date);
    var j := IndexOf(days, d);
    if k < |days| {
      assert forall i :: 0 <= i < |days| ==> r[i].date == days[i].date;
      IndexOfUnique(r, d, j);
    } else if d == date {
      IndexOfUnique(r, d, |days|);
    } else if j < |days| {
      IndexOfUnique(r, d, j);
    } else {
      IndexOfUnique(r, d, |r|);
    }
  }

  lemma PutDistinct(days: seq<Day>, date: string, rec: Json)
    requires DistinctDates(days)
    ensures DistinctDates(Put(days, date, rec))
  {
  }

  lemma AmountsPut(days: seq<Day>, date: string, rec: Json)
    requires Amounts(days).Some? && RecordUnits(rec).Some?
    ensures |Amounts(days).value| == |days|
    ensures var a := Amounts(days).value;
      var u := RecordUnits(rec).value;
      Amounts(Put(days, date, rec)) ==
        Some(if IndexOf(days, date) < |days| then a[IndexOf(days, date) := u] else a + [u])
  {
    var a := Amounts(days).value;
    var u := RecordUnits(rec).value;
    var k := IndexOf(days, date);
    var r := Put(days, date, rec);
    AmountsSpec(days);
    if k < |days| {
      AmountsSpec(r);
      assert AllConvert(r);
      assert Amounts(r).value == a[k := u];
    } else {
      assert r[..|r| - 1] == days;
    }
  }

  /** The entry for `today` after a merge holds the previous units plus `units`; a dict
      keeps its other keys, anything else becomes `{"units": ...}`. */
  lemma AddToTodayAtToday(days: seq<Day>, today: string, units: real)
    ensures AddToToday(days, today, units).Some? <==> RecordUnits(LookupOr(days, today, JInt(0))).Some?
    ensures AddToToday(days, today, units).Some? ==>
      var prev := LookupOr(days, today, JInt(0));
      var r := AddToToday(days, today, units).value;
      Lookup(r, today) == Some(WithUnits(prev, RecordUnits(prev).value + units)) &&
      TodayUnits(r, today) == Some(RecordUnits(prev).value + units)
  {
    var prev := LookupOr(days, today, JInt(0));
    if RecordUnits(prev).Some? {
      LookupPut(days, today, WithUnits(prev, RecordUnits(prev).value + units), today);
    }
  }

  /** A merge leaves every other date's entry as it was. */
  lemma AddToTodayOtherDates(days: seq<Day>, today: string, units: real, date: string)
    requires date != today
    requires AddToToday(days, today, units).Some?
    ensures Lookup(AddToToday(days, today, units).value, date) == Lookup(days, date)
  {
    var prev := LookupOr(days, today, JInt(0));
    LookupPut(days, today, WithUnits(prev, RecordUnits(prev).value + units), date);
  }

  /** A merge keeps the dates distinct. */
  lemma AddToTodayDistinct(days: seq<Day>, today: string, units: real)
    requires DistinctDates(days)
    requires AddToToday(days, today, units).Some?
    ensures DistinctDates(AddToToday(days, today, units).value)
  {
    var prev := LookupOr(days, today, JInt(0));
    PutDistinct(days, today, WithUnits(prev, RecordUnits(prev).value + units));
  }

  /** Storing twice under the same date keeps only the second record. */
  lemma PutTwice(days: seq<Day>, date: string, x: Json, y: Json)
    ensures Put(Put(days, date, x), date, y) == Put(days, date, y)
  {
    var k := IndexOf(days, date);
    var r := Put(days, date, x);
    if k < |days| {
      assert forall i :: 0 <= i < |days| ==> r[i].date == days[i].date;
      IndexOfUnique(r, date, k);
      assert r[k := Day(date, y)] == days[k := Day(date, y)];
    } else {
      IndexOfUnique(r, date, |days|);
      assert r[|days| := Day(date, y)] == days + [Day(date, y)];
    }
  }

  /** Re-recording the units of a record that already went through `WithUnits`. */
  lemma WithUnitsTwice(prev: Json, v: real, w: real)
    ensures WithUnits(WithUnits(prev, v), w) == WithUnits(prev, w)
  {
    if prev.JDict? {
      assert prev.entries["units" := JFloat(v)]["units" := JFloat(w)] == prev.entries["units" := JFloat(w)];
    } else {
      assert map["units" := JFloat(v)]["units" := JFloat(w)] == map["units" := JFloat(w)];
    }
  }

  /** Adding `a` and then `b` to the same day gives the ledger that adding `a + b` gives. */
  lemma AddToTodayTwice(days: seq<Day>, today: string, a: real, b: real)
    ensures AddToToday(days, today, a).Some? ==>
      AddToToday(AddToToday(days, today, a).value, today, b) == AddToToday(days, today, a + b)
  {
    var prev := LookupOr(days, today, JInt(0));
    if RecordUnits(prev).Some? {
      var u := RecordUnits(prev).value;
      var mid := WithUnits(prev, u + a);
      var r1 := Put(days, today, mid);
      assert AddToToday(days, today, a) == Some(r1);
      LookupPut(days, today, mid, today);
      assert LookupOr(r1, today, JInt(0)) == mid;
      WithUnitsTwice(prev, u + a, u + a + b);
      assert u + a + b == u + (a + b);
      PutTwice(days, today, mid, WithUnits(prev, u + (a + b)));
    }
  }

  /** The units a ledger holds for `date`: its record's, or 0 when absent. */
  function UnitsAt(days: seq<Day>, date: string): real {
    match Lookup(days, date)
    case None => 0.0
    case Some(rec) => if RecordUnits(rec).Some? then RecordUnits(rec).value else 0.0
  }

  /** One entry of `Amounts`: the units of the record at that position. */
  lemma AmountsAt(days: seq<Day>, k: nat)
    requires Amounts(days).Some? && k < |days|
    ensures |Amounts(days).value| == |days|
    ensures RecordUnits(days[k].rec) == Some(Amounts(days).value[k])
  {
    AmountsSpec(days);
  }

  /** Storing `rec` under `date` replaces that date's units in the month total. */
  lemma MonthTotalPut(days: seq<Day>, date: string, rec: Json)
    requires Amounts(days).Some? && RecordUnits(rec).Some?
    ensures MonthTotal(Put(days, date, rec)).Some?
    ensures MonthTotal(Put(days, date, rec)).value == MonthTotal(days).value - UnitsAt(days, date) + RecordUnits(rec).value
  {
    if IndexOf(days, date) < |days| {
      MonthTotalReplace(days, date, rec);
    } else {
      MonthTotalAppend(days, date, rec);
    }
  }

  lemma MonthTotalReplace(days: seq<Day>, date: string, rec: Json)
    requires Amounts(days).Some? && RecordUnits(rec).Some?
    requires IndexOf(days, date) < |days|
    ensures MonthTotal(Put(days, date, rec)).Some?
    ensures MonthTotal(Put(days, date, rec)).value == MonthTotal(days).value - UnitsAt(days, date) + RecordUnits(rec).value
  {
    var a := Amounts(days).value;
    var u := RecordUnits(rec).value;
    var k := IndexOf(days, date);
    AmountsAt(days, k);
    assert Lookup(days, date) == Some(days[k].rec);
    assert UnitsAt(days, date) == a[k];
    AmountsPut(days, date, rec);
    assert MonthTotal(Put(days, date, rec)) == Some(Sum(a[k := u]));
    SumUpdate(a, k, u);
  }

  lemma MonthTotalAppend(days: seq<Day>, date: string, rec: Json)
    requires Amounts(days).Some? && RecordUnits(rec).Some?
    requires IndexOf(days, date) == |days|
    ensures MonthTotal(Put(days, date, rec)).Some?
    ensures MonthTotal(Put(days, date, rec)).value == MonthTotal(days).value - UnitsAt(days, date) + RecordUnits(rec).value
  {
    var a := Amounts(days).value;
    var u := RecordUnits(rec).value;
    assert Lookup(days, date) == None;
    assert UnitsAt(days, date) == 0.0;
    AmountsPut(days, date, rec);
    assert MonthTotal(Put(days, date, rec)) == Some(Sum(a + [u]));
    assert (a + [u])[..|a|] == a;
  }

  /** Today's previous value, as the merge reads it, converts to its units in the ledger. */
  lemma PreviousUnits(days: seq<Day>, today: string)
    requires Amounts(days).Some?
    ensures RecordUnits(LookupOr(days, today, JInt(0))) == Some(UnitsAt(days, today))
  {
    AmountsSpec(days);
  }

  /** A merge raises the month total by exactly `units`. */
  lemma AddToTodayMonthTotal(days: seq<Day>, today: string, units: real)
    requires MonthTotal(days).Some?
    ensures AddToToday(days, today, units).Some?
    ensures MonthTotal(AddToToday(days, today, units).value).Some?
    ensures MonthTotal(AddToToday(days, today, units).value).value == MonthTotal(days).value + units
  {
    PreviousUnits(days, today);
    var prev := LookupOr(days, today, JInt(0));
    var before := UnitsAt(days, today);
    var rec := WithUnits(prev, before + units);
    MonthTotalPut(days, today, rec);
  }
}
