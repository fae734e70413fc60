/** Backend/ML/data_loader.py: the training table built from the `usage` object of
    db.json. Each user's records are sorted by date key, the values that `float()`
    accepts are collected, and every 3-day window becomes a row whose target is the
    window's average times 30. The document is a parameter (`load_db` is file I/O) and
    the table is the list of rows before pandas turns it into columns. */
module DataLoader {
  import opened PyValues
  import opened Ledger

  /** One user's entry of `usage`, in the object's order. */
  datatype UserLedger = UserLedger(user: string, days: seq<Day>)

  /** `{"user": user, "x": x, "y": y}`. */
  datatype Row = Row(user: string, x: seq<real>, y: real)

  const Window: nat := 3

  // ---------- sorted(d.items(), key=lambda x: x[0]) ----------

  /** Python's ordering of strings: by code point, a proper prefix first. */
  predicate StrLe(a: string, b: string) {
    if a == [] then true
    else if b == [] then false
    else if a[0] < b[0] then true
    else if a[0] == b[0] then StrLe(a[1..], b[1..])
    else false
  }

  lemma {:induction false} StrLeTotal(a: string, b: string)
    ensures StrLe(a, b) || StrLe(b, a)
  {
    if a != [] && b != [] && a[0] == b[0] {
      StrLeTotal(a[1..], b[1..]);
    }
  }

  lemma {:induction false} StrLeTrans(a: string, b: string, c: string)
    requires StrLe(a, b) && StrLe(b, c)
    ensures StrLe(a, c)
  {
    if a != [] && b != [] && c != [] && a[0] == b[0] && b[0] == c[0] {
      StrLeTrans(a[1..], b[1..], c[1..]);
    }
  }

  predicate SortedByDate(s: seq<Day>) {
    forall i, j :: 0 <= i < j < |s| ==> StrLe(s[i].date, s[j].date)
  }

  function Insert(d: Day, s: seq<Day>): (r: seq<Day>)
    ensures multiset(r) == multiset(s) + multiset{d}
    ensures forall x :: x in r <==> x == d || x in s
  {
    if s == [] then [d]
    else if StrLe(d.date, s[0].date) then [d] + s
    else
      assert s == [s[0]] + s[1..];
      [s[0]] + Insert(d, s[1..])
  }

  lemma {:induction false} InsertSorted(d: Day, s: seq<Day>)
    requires SortedByDate(s)
    ensures SortedByDate(Insert(d, s))
  {
    if s == [] {
    } else if StrLe(d.date, s[0].date) {
      var r := [d] + s;
      forall i, j | 0 <= i < j < |r|
        ensures StrLe(r[i].date, r[j].date)
      {
        if i == 0 {
          if j > 1 {
            StrLeTrans(d.date, s[0].date, s[j - 1].date);
          }
        } else {
          assert r[i] == s[i - 1] && r[j] == s[j - 1];
        }
      }
    } else {
      StrLeTotal(d.date, s[0].date);
      InsertSorted(d, s[1..]);
      var t := Insert(d, s[1..]);
      var r := [s[0]] + t;
      forall i, j | 0 <= i < j < |r|
        ensures StrLe(r[i].date, r[j].date)
      {
        if i == 0 {
          var x := t[j - 1];
          assert x in t;
          if x != d {
            var k :| 0 <= k < |s[1..]| && s[1..][k] == x;
            assert s[k + 1] == x;
          }
        } else {
          assert r[i] == t[i - 1] && r[j] == t[j - 1];
        }
      }
    }
  }

  /** The records of one user in ascending order of their date keys. */
  function SortByDate(days: seq<Day>): (r: seq<Day>)
    ensures multiset(r) == multiset(days)
  {
    if days == [] then []
    else
      assert days == [days[0]] + days[1..];
      Insert(days[0], SortByDate(days[1..]))
  }

  lemma {:induction false} SortByDateSorted(days: seq<Day>)
    ensures SortedByDate(SortByDate(days))
  {
    if days != [] {
      SortByDateSorted(days[1..]);
      InsertSorted(days[0], SortByDate(days[1..]));
    }
  }

  // ---------- the daily numbers ----------

  /** `float(rec.get("units"))` for an object, `float(rec)` otherwise; `None` when it raises. */
  function DailyValue(rec: Json): Option<real> {
    if rec.JDict? then ToFloat(Get(rec.entries, "units", JNull)) else ToFloat(rec)
  }

  /** The list `daily`: the values that convert, in order; the others are skipped. */
  function DailyNumbers(items: seq<Day>): seq<real> {
    if items == [] then []
    else
      var v := DailyValue(items[|items| - 1].rec);
      DailyNumbers(items[..|items| - 1]) + (if v.Some? then [v.value] else [])
  }

  // ---------- the rows ----------

  /** The row of the window that ends before index `i`. */
  function MakeRow(user: string, daily: seq<real>, i: nat): Row
    requires Window <= i <= |daily|
  {
    var x := daily[i - Window..i];
    Row(user, x, Sum(x) / |x| as real * 30.0)
  }

  /** The rows for `i` in `range(3, end)`. */
  function WindowRows(user: string, daily: seq<real>, end: nat): seq<Row>
    requires end <= |daily|
  {
    if end <= Window then [] else WindowRows(user, daily, end - 1) + [MakeRow(user, daily, end - 1)]
  }

  /** The daily numbers of one user. */
  function UserDaily(l: UserLedger): seq<real> {
    DailyNumbers(SortByDate(l.days))
  }

  /** The rows one user contributes: none below `min_days` values. */
  function UserRows(l: UserLedger, minDays: int): seq<Row> {
    var daily := UserDaily(l);
    if |daily| < minDays then [] else WindowRows(l.user, daily, |daily|)
  }

  /** The rows of every user in turn, `rowsOf` giving one user's rows. */
  function ConcatRows(usage: seq<UserLedger>, rowsOf: UserLedger -> seq<Row>): seq<Row> {
    if usage == [] then []
    else ConcatRows(usage[..|usage| - 1], rowsOf) + rowsOf(usage[|usage| - 1])
  }

  function RowsOf(minDays: int): UserLedger -> seq<Row> {
    l => UserRows(l, minDays)
  }

  /** All rows, users in the order of the `usage` object. */
  function Table(usage: seq<UserLedger>, minDays: int): seq<Row> {
    ConcatRows(usage, RowsOf(minDays))
  }

  /** The inner loop over one user's sorted records: `daily` gets each value that
      `float()` accepts; a record that raises is passed over (`continue`). */
  method CollectDailyNumbers(items: seq<Day>) returns (daily: seq<real>)
    ensures daily == DailyNumbers(items)
  {
    daily := [];
    var j := 0;
    while j < |items|
      invariant 0 <= j <= |items|
      invariant daily == DailyNumbers(items[..j])
    {
      var val := DailyValue(items[j].rec);
      if val.Some? {
        daily := daily + [val.value];
      }
      assert items[..j + 1][..j] == items[..j];
      j := j + 1;
    }
    assert items[..j] == items;
  }

  /** The window loop `for i in range(3, len(daily))`, appending one row per window. */
  method AppendWindows(prefix: seq<Row>, user: string, daily: seq<real>) returns (rows: seq<Row>)
    ensures rows == prefix + WindowRows(user, daily, |daily|)
  {
    rows := prefix;
    if |daily| <= Window {
      return;
    }
    var i := Window;
    while i < |daily|
      invariant Window <= i <= |daily|
      invariant rows == prefix + WindowRows(user, daily, i)
    {
      var x := daily[i - Window..i];
      var y := Sum(x) / |x| as real * 30.0;
      assert Row(user, x, y) == MakeRow(user, daily, i);
      rows := rows + [Row(user, x, y)];
      assert WindowRows(user, daily, i + 1) == WindowRows(user, daily, i) + [MakeRow(user, daily, i)];
      i := i + 1;
    }
  }

  /** `build_training_table(min_days)`. */
  method BuildTrainingTable(usage: seq<UserLedger>, minDays: int := 3) returns (rows: seq<Row>)
    ensures rows == Table(usage, minDays)
  {
    rows := [];
    var u := 0;
    while u < |usage|
      invariant 0 <= u <= |usage|
      invariant rows == Table(usage[..u], minDays)
    {
      var items := SortByDate(usage[u].days);
      var daily := CollectDailyNumbers(items);
      if |daily| >= minDays {
        rows := AppendWindows(rows, usage[u].user, daily);
      }
      assert usage[..u + 1][..u] == usage[..u];
      u := u + 1;
    }
    assert usage[..u] == usage;
  }

  // ---------- lemmas ----------

  /** `n` usable values give `n - 3` windows, so three or fewer give none. */
  lemma {:induction false} WindowRowsCount(user: string, daily: seq<real>, end: nat)
    requires end <= |daily|
    ensures |WindowRows(user, daily, end)| == if end > Window then end - Window else 0
  {
    if end > Window {
      WindowRowsCount(user, daily, end - 1);
    }
  }

  /** One more window keeps the earlier rows and appends the window ending at `end - 1`. */
  lemma WindowRowsStep(user: string, daily: seq<real>, end: nat, k: nat)
    requires Window < end <= |daily|
    requires k <= |WindowRows(user, daily, end - 1)|
    ensures |WindowRows(user, daily, end)| == |WindowRows(user, daily, end - 1)| + 1
    ensures k < |WindowRows(user, daily, end - 1)| ==>
      WindowRows(user, daily, end)[k] == WindowRows(user, daily, end - 1)[k]
    ensures k == |WindowRows(user, daily, end - 1)| ==>
      WindowRows(user, daily, end)[k] == MakeRow(user, daily, end - 1)
  {
    var front := WindowRows(user, daily, end - 1);
    var last := MakeRow(user, daily, end - 1);
    assert WindowRows(user, daily, end) == front + [last];
  }

  /** Row `k` is the window that ends before index `k + 3`. */
  lemma {:induction false} WindowRowsAt(user: string, daily: seq<real>, end: nat, k: nat)
    requires end <= |daily|
    requires k < |WindowRows(user, daily, end)|
    ensures k + Window < end
    ensures WindowRows(user, daily, end)[k] == MakeRow(user, daily, k + Window)
  {
    WindowRowsCount(user, daily, end);
    assert end > Window;
    WindowRowsCount(user, daily, end - 1);
    WindowRowsStep(user, daily, end, k);
    if k < |WindowRows(user, daily, end - 1)| {
      WindowRowsAt(user, daily, end - 1, k);
    } else {
      assert k + Window == end - 1;
    }
  }

  /** Row `k` holds the user, the three values `daily[k..k+3]` and their average times 30. */
  lemma {:induction false} WindowRowsShape(user: string, daily: seq<real>, end: nat)
    requires end <= |daily|
    ensures forall k :: 0 <= k < |WindowRows(user, daily, end)| ==>
      && k + Window <= |daily|
      && WindowRows(user, daily, end)[k].user == user
      && WindowRows(user, daily, end)[k].x == daily[k..k + Window]
      && WellFormedRow(WindowRows(user, daily, end)[k])
  {
    var rows := WindowRows(user, daily, end);
    WindowRowsCount(user, daily, end);
    forall k | 0 <= k < |rows|
      ensures
        && k + Window <= |daily|
        && rows[k].user == user
        && rows[k].x == daily[k..k + Window]
        && WellFormedRow(rows[k])
    {
      WindowRowsAt(user, daily, end, k);
      var row := MakeRow(user, daily, k + Window);
      assert rows[k] == row;
      assert row.x == daily[k..k + Window] && |row.x| == 3;
      assert row.y == Sum(row.x) / 3.0 * 30.0;
    }
  }

  /** A user with fewer than `min_days` usable values contributes no rows; otherwise
      the number of rows is the number of values beyond the first three. */
  lemma UserRowsCount(l: UserLedger, minDays: int)
    ensures |UserDaily(l)| < minDays ==> UserRows(l, minDays) == []
    ensures |UserDaily(l)| >= minDays ==>
      |UserRows(l, minDays)| == if |UserDaily(l)| > Window then |UserDaily(l)| - Window else 0
  {
    WindowRowsCount(l.user, UserDaily(l), |UserDaily(l)|);
  }

  lemma {:induction false} DailyNumbersAppend(a: seq<Day>, b: seq<Day>)
    ensures DailyNumbers(a + b) == DailyNumbers(a) + DailyNumbers(b)
  {
    if b == [] {
      assert a + b == a;
    } else {
      assert (a + b)[..|a + b| - 1] == a + b[..|b| - 1];
      DailyNumbersAppend(a, b[..|b| - 1]);
    }
  }

  /** A record whose value does not convert is skipped: it adds nothing to `daily`. */
  lemma SkipsUnconvertible(a: seq<Day>, d: Day, b: seq<Day>)
    requires DailyValue(d.rec).None?
    ensures DailyNumbers(a + [d] + b) == DailyNumbers(a + b)
  {
    DailyNumbersAppend(a + [d], b);
    DailyNumbersAppend(a, [d]);
    DailyNumbersAppend(a, b);
    assert DailyNumbers([d]) == DailyNumbers([]) + [];
  }

  /** When every record converts, `daily` holds each record's value in order. */
  lemma {:induction false} DailyNumbersAllConvert(items: seq<Day>)
    requires forall k :: 0 <= k < |items| ==> DailyValue(items[k].rec).Some?
    ensures |DailyNumbers(items)| == |items|
    ensures forall k :: 0 <= k < |items| ==> DailyNumbers(items)[k] == DailyValue(items[k].rec).value
  {
    if items != [] {
      DailyNumbersAllConvert(items[..|items| - 1]);
    }
  }

  /** At most one value per record. */
  lemma {:induction false} DailyNumbersLength(items: seq<Day>)
    ensures |DailyNumbers(items)| <= |items|
  {
    if items != [] {
      DailyNumbersLength(items[..|items| - 1]);
    }
  }

  lemma {:induction false} ConcatRowsEmpty(usage: seq<UserLedger>, rowsOf: UserLedger -> seq<Row>)
    ensures ConcatRows(usage, rowsOf) == [] <==> forall i :: 0 <= i < |usage| ==> rowsOf(usage[i]) == []
  {
    if usage != [] {
      var n := |usage| - 1;
      var prefix := usage[..n];
      ConcatRowsEmpty(prefix, rowsOf);
      assert forall i :: 0 <= i < n ==> prefix[i] == usage[i];
    }
  }

  /** The table is empty exactly when no user contributes a row. */
  lemma TableEmpty(usage: seq<UserLedger>, minDays: int)
    ensures Table(usage, minDays) == [] <==> forall i :: 0 <= i < |usage| ==> UserRows(usage[i], minDays) == []
  {
    ConcatRowsEmpty(usage, RowsOf(minDays));
  }

  /** A training row: three features and the target 30 times their average. */
  predicate WellFormedRow(r: Row) {
    |r.x| == 3 && r.y == Sum(r.x) / 3.0 * 30.0
  }

  predicate AllWellFormed(rows: seq<Row>) {
    forall k :: 0 <= k < |rows| ==> WellFormedRow(rows[k])
  }

  lemma ConcatWellFormed(a: seq<Row>, b: seq<Row>)
    requires AllWellFormed(a) && AllWellFormed(b)
    ensures AllWellFormed(a + b)
  {
    forall k | 0 <= k < |a + b|
      ensures WellFormedRow((a + b)[k])
    {
      if k >= |a| {
        assert (a + b)[k] == b[k - |a|];
      }
    }
  }

  lemma UserRowsWellFormed(l: UserLedger, minDays: int)
    ensures AllWellFormed(UserRows(l, minDays))
  {
    WindowRowsShape(l.user, UserDaily(l), |UserDaily(l)|);
  }

  /** Every row of the table has three features and the target 30 times their average. */
  lemma {:induction false} TableRowsShape(usage: seq<UserLedger>, minDays: int)
    ensures AllWellFormed(Table(usage, minDays))
  {
    if usage != [] {
      var n := |usage| - 1;
      TableRowsShape(usage[..n], minDays);
      UserRowsWellFormed(usage[n], minDays);
      ConcatWellFormed(Table(usage[..n], minDays), UserRows(usage[n], minDays));
    }
  }
}
