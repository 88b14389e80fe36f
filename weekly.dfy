// The data half of updateWeeklyChart in static/script.js: seven buckets keyed
// by full local calendar date, from six days before today through today, each
// holding the sum of the expense amounts whose local date is that date.
//
// Calendar dates are day numbers: local calendar days counted from 1970-01-01,
// which was a Thursday. The time zone's mapping from a timestamp to its local
// day (Date.prototype.toDateString) is the parameter `localDay`.

module Weekly {
  import opened Records

  const DayNames: seq<string> := ["Sun", "Mon", "Tue", "Wed", "Thu", "Fri", "Sat"]

  /** Date.prototype.getDay of a day number: 0 is Sunday. */
  function Weekday(day: int): (w: nat)
    ensures w < 7
  {
    (day + 4) % 7
  }

  /** The transaction is an expense whose local date is `day`. */
  predicate IsExpenseOn(t: Tx, day: int, localDay: int -> int)
  {
    t.kind == Expense && localDay(t.timestamp) == day
  }

  /** Total expense of one local calendar day. */
  function ExpenseOn(txs: seq<Tx>, day: int, localDay: int -> int): int
  {
    if txs == [] then 0
    else
      var t := txs[|txs| - 1];
      ExpenseOn(txs[..|txs| - 1], day, localDay) + (if IsExpenseOn(t, day, localDay) then t.amount else 0)
  }

  /** Total expense whose local date lies between `first` and `last` inclusive. */
  function ExpenseBetween(txs: seq<Tx>, first: int, last: int, localDay: int -> int): int
  {
    if txs == [] then 0
    else
      var t := txs[|txs| - 1];
      ExpenseBetween(txs[..|txs| - 1], first, last, localDay)
        + (if t.kind == Expense && first <= localDay(t.timestamp) <= last then t.amount else 0)
  }

  function Sum(values: seq<int>): int
  {
    if values == [] then 0 else Sum(values[..|values| - 1]) + values[|values| - 1]
  }

  /** The bucket values: bucket j is day today - 6 + j, oldest first. */
  function WeekValues(txs: seq<Tx>, today: int, localDay: int -> int): (values: seq<int>)
    ensures |values| == 7
  {
    seq(7, j requires 0 <= j < 7 => ExpenseOn(txs, today - 6 + j, localDay))
  }

  /** The bar labels: the short weekday name of each bucket's date. */
  function WeekLabels(today: int): (labels: seq<string>)
    ensures |labels| == 7
  {
    seq(7, j requires 0 <= j < 7 => DayNames[Weekday(today - 6 + j)])
  }

  /** The aggregation loop of updateWeeklyChart. `dayMap` is the script's Map
      from date to running total; `keys` records its insertion order, which
      Array.from(dayMap.values()) follows. */
  method WeeklySeries(txs: seq<Tx>, today: int, localDay: int -> int) returns (labels: seq<string>, values: seq<int>)
    ensures labels == WeekLabels(today)
    ensures values == WeekValues(txs, today, localDay)
    ensures Sum(values) == ExpenseBetween(txs, today - 6, today, localDay)
  {
    var keys: seq<int> := [];
    var dayMap: map<int, int> := map[];
    labels := [];
    var i := 6;
    while i >= 0
      invariant -1 <= i <= 6
      invariant |keys| == 6 - i && |labels| == 6 - i
      invariant forall j :: 0 <= j < |keys| ==> keys[j] == today - 6 + j
      invariant forall j :: 0 <= j < |labels| ==> labels[j] == DayNames[Weekday(today - 6 + j)]
      invariant forall d :: d in dayMap <==> today - 6 <= d < today - i
      invariant forall d :: d in dayMap ==> dayMap[d] == 0
    {
      var d := today - i;
      if d !in dayMap {
        keys := keys + [d];
      }
      dayMap := dayMap[d := 0];
      labels := labels + [DayNames[Weekday(d)]];
      i := i - 1;
    }

    var k := 0;
    while k < |txs|
      invariant 0 <= k <= |txs|
      invariant forall d :: d in dayMap <==> today - 6 <= d <= today
      invariant forall d :: d in dayMap ==> dayMap[d] == ExpenseOn(txs[..k], d, localDay)
    {
      var tx := txs[k];
      assert txs[..k + 1][..k] == txs[..k];
      if tx.kind == Expense {
        var txDate := localDay(tx.timestamp);
        if txDate in dayMap {
          dayMap := dayMap[txDate := dayMap[txDate] + tx.amount];
        }
      }
      k := k + 1;
    }
    assert txs[..k] == txs;

    values := seq(7, j requires 0 <= j < 7 => dayMap[keys[j]]);
    WeekTotal(txs, today, localDay);
  }

  /** Sum of the first n buckets starting at day `first`. */
  function SumDays(txs: seq<Tx>, first: int, n: nat, localDay: int -> int): int
  {
    if n == 0 then 0 else SumDays(txs, first, n - 1, localDay) + ExpenseOn(txs, first + n - 1, localDay)
  }

  /** Adding one transaction adds its amount to the buckets' sum exactly when it
      is an expense inside the window. */
  lemma {:induction false} SumDaysSnoc(p: seq<Tx>, t: Tx, first: int, n: nat, localDay: int -> int)
    ensures SumDays(p + [t], first, n, localDay)
         == SumDays(p, first, n, localDay)
            + (if t.kind == Expense && first <= localDay(t.timestamp) < first + n then t.amount else 0)
  {
    if n > 0 {
      SumDaysSnoc(p, t, first, n - 1, localDay);
      assert (p + [t])[..|p|] == p;
    }
  }

  /** The buckets together hold every expense of the window and nothing else. */
  lemma {:induction false} SumDaysIsExpenseBetween(txs: seq<Tx>, first: int, n: nat, localDay: int -> int)
    ensures SumDays(txs, first, n, localDay) == ExpenseBetween(txs, first, first + n - 1, localDay)
  {
    if txs == [] {
      NoTransactionsNoExpense(first, n, localDay);
    } else {
      var p := txs[..|txs| - 1];
      assert txs == p + [txs[|txs| - 1]];
      SumDaysIsExpenseBetween(p, first, n, localDay);
      SumDaysSnoc(p, txs[|txs| - 1], first, n, localDay);
    }
  }

  lemma {:induction false} NoTransactionsNoExpense(first: int, n: nat, localDay: int -> int)
    ensures SumDays([], first, n, localDay) == 0
  {
    if n > 0 {
      NoTransactionsNoExpense(first, n - 1, localDay);
    }
  }

  lemma {:induction false} SumIsSumDays(txs: seq<Tx>, today: int, n: nat, localDay: int -> int)
    requires n <= 7
    ensures Sum(WeekValues(txs, today, localDay)[..n]) == SumDays(txs, today - 6, n, localDay)
  {
    if n > 0 {
      SumIsSumDays(txs, today, n - 1, localDay);
      assert WeekValues(txs, today, localDay)[..n][..n - 1] == WeekValues(txs, today, localDay)[..n - 1];
    }
  }

  /** The sum of the seven bucket values is the total expense amount whose local
      date lies in the window from today - 6 through today. */
  lemma WeekTotal(txs: seq<Tx>, today: int, localDay: int -> int)
    ensures Sum(WeekValues(txs, today, localDay)) == ExpenseBetween(txs, today - 6, today, localDay)
  {
    SumIsSumDays(txs, today, 7, localDay);
    assert WeekValues(txs, today, localDay)[..7] == WeekValues(txs, today, localDay);
    SumDaysIsExpenseBetween(txs, today - 6, 7, localDay);
  }

  /** A day with no expense transaction dated on it has a zero bucket. */
  lemma {:induction false} EmptyDayIsZero(txs: seq<Tx>, day: int, localDay: int -> int)
    requires forall i :: 0 <= i < |txs| ==> !IsExpenseOn(txs[i], day, localDay)
    ensures ExpenseOn(txs, day, localDay) == 0
  {
    if txs != [] {
      EmptyDayIsZero(txs[..|txs| - 1], day, localDay);
    }
  }

  /** Buckets are additive over concatenation of transaction lists. */
  lemma {:induction false} ExpenseOnAppend(a: seq<Tx>, b: seq<Tx>, day: int, localDay: int -> int)
    ensures ExpenseOn(a + b, day, localDay) == ExpenseOn(a, day, localDay) + ExpenseOn(b, day, localDay)
    decreases |b|
  {
    if b == [] {
      assert a + b == a;
    } else {
      assert (a + b)[..|a + b| - 1] == a + b[..|b| - 1];
      ExpenseOnAppend(a, b[..|b| - 1], day, localDay);
    }
  }

  /** Inserting income transactions, or expenses dated outside the window,
      anywhere in the list leaves every bucket as it was. */
  lemma NonContributingIgnored(a: seq<Tx>, t: Tx, b: seq<Tx>, today: int, localDay: int -> int)
    requires t.kind != Expense || !(today - 6 <= localDay(t.timestamp) <= today)
    ensures WeekValues(a + [t] + b, today, localDay) == WeekValues(a + b, today, localDay)
  {
    forall day | today - 6 <= day <= today
      ensures ExpenseOn(a + [t] + b, day, localDay) == ExpenseOn(a + b, day, localDay)
    {
      ExpenseOnAppend(a + [t], b, day, localDay);
      ExpenseOnAppend(a, [t], day, localDay);
      ExpenseOnAppend(a, b, day, localDay);
      assert [t][..0] == [];
    }
  }

  /** With non-negative amounts every bucket is non-negative. */
  lemma {:induction false} BucketsNonNegative(txs: seq<Tx>, day: int, localDay: int -> int)
    requires forall i :: 0 <= i < |txs| ==> txs[i].amount >= 0
    ensures ExpenseOn(txs, day, localDay) >= 0
  {
    if txs != [] {
      BucketsNonNegative(txs[..|txs| - 1], day, localDay);
    }
  }

  /** The last label is today's weekday, and the seven labels are seven
      different weekday names, so no two buckets share a label. */
  lemma LabelsAreDistinctDays(today: int)
    ensures WeekLabels(today)[6] == DayNames[Weekday(today)]
    ensures forall i, j :: 0 <= i < j < 7 ==> WeekLabels(today)[i] != WeekLabels(today)[j]
  {
    forall i, j | 0 <= i < j < 7
      ensures WeekLabels(today)[i] != WeekLabels(today)[j]
    {
      WeekdaysDiffer(today - 6 + i, j - i);
      DayNamesDiffer(Weekday(today - 6 + i), Weekday(today - 6 + j));
    }
  }

  /** Days fewer than seven apart fall on different weekdays. */
  lemma WeekdaysDiffer(day: int, d: int)
    requires 0 < d < 7
    ensures Weekday(day) != Weekday(day + d)
  {
    var a := day + 4;
    var q, r := a / 7, a % 7;
    assert a == 7 * q + r && 0 <= r < 7;
    if r + d < 7 {
      assert a + d == 7 * q + (r + d);
      assert (a + d) % 7 == r + d;
    } else {
      assert a + d == 7 * (q + 1) + (r + d - 7);
      assert (a + d) % 7 == r + d - 7;
    }
  }

  lemma DayNamesDiffer(a: nat, b: nat)
    requires a < 7 && b < 7 && a != b
    ensures DayNames[a] != DayNames[b]
  {
    assert DayNames[a][0] != DayNames[b][0] || DayNames[a][1] != DayNames[b][1];
  }

  /** The example of a salary and a pizza bought today: the pizza's amount is in
      today's bucket and every other bucket is 0. */
  lemma SalaryAndPizzaExample(today: int, salaryTime: int, pizzaTime: int, localDay: int -> int)
    requires localDay(pizzaTime) == today
    ensures WeekValues([Tx(1, Income, 1000, "Salary", salaryTime), Tx(2, Expense, 250, "Pizza", pizzaTime)], today, localDay)
         == [0, 0, 0, 0, 0, 0, 250]
  {
    var txs := [Tx(1, Income, 1000, "Salary", salaryTime), Tx(2, Expense, 250, "Pizza", pizzaTime)];
    assert txs[..1] == [txs[0]];
    assert txs[..1][..0] == [];
    forall day ensures ExpenseOn(txs, day, localDay) == if day == today then 250 else 0 {
      assert ExpenseOn(txs[..1][..0], day, localDay) == 0;
      assert ExpenseOn(txs[..1], day, localDay) == 0;
    }
    var w := WeekValues(txs, today, localDay);
    assert forall j :: 0 <= j < 7 ==> w[j] == [0, 0, 0, 0, 0, 0, 250][j];
  }
}
