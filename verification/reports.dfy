/**
  The reports page: income and expense per calendar month, in the order the
  months are first met, and the expense total of each of the three
  categories. The month a timestamp falls in is the parameter `monthOf`,
  standing for the locale-formatted "month year" key.
 */
module Reports {
  import opened Types
  import opened Folds

  /** One month's totals. */
  datatype MonthBucket = MonthBucket(month: string, income: real, expense: real)

  /** One row of the expense-by-category table. */
  datatype CategoryRow = CategoryRow(name: Category, total: real)

  /** The rows the category table starts from. */
  const EmptyCategoryRows := [CategoryRow(Needs, 0.0), CategoryRow(Wants, 0.0), CategoryRow(Savings, 0.0)]

  /** The month keys of a report. */
  function Months(report: seq<MonthBucket>): set<string> {
    set i | 0 <= i < |report| :: report[i].month
  }

  /** The months the transactions fall in. */
  function SeenMonths(ts: seq<Transaction>, monthOf: int -> string): set<string> {
    set k | 0 <= k < |ts| :: monthOf(ts[k].date)
  }

  predicate DistinctMonths(report: seq<MonthBucket>) {
    forall i, j :: 0 <= i < j < |report| ==> report[i].month != report[j].month
  }

  /** Some transaction of month `a` comes before every transaction of month `b`. */
  predicate SeenBefore(ts: seq<Transaction>, monthOf: int -> string, a: string, b: string) {
    exists p :: 0 <= p < |ts| && monthOf(ts[p].date) == a && forall q :: 0 <= q <= p ==> monthOf(ts[q].date) != b
  }

  /** The income that falls in month `m`. */
  function IncomeIn(monthOf: int -> string, m: string): Transaction -> bool {
    (t: Transaction) => t.txType == Income && monthOf(t.date) == m
  }

  /** Everything else that falls in month `m`: the source books every
      non-income transaction as expense. */
  function OutgoingIn(monthOf: int -> string, m: string): Transaction -> bool {
    (t: Transaction) => t.txType != Income && monthOf(t.date) == m
  }

  /** The position of the bucket for month `m`, if the report has one. */
  function FindMonth(report: seq<MonthBucket>, m: string): (r: Option<nat>)
    ensures r.Some? ==> r.value < |report| && report[r.value].month == m
    ensures r.None? <==> m !in Months(report)
  {
    if |report| == 0 then None
    else if report[0].month == m then Some(0)
    else
      assert Months(report) == {report[0].month} + Months(report[1..]) by {
        assert forall i :: 0 < i < |report| ==> report[i] == report[1..][i - 1];
      }
      match FindMonth(report[1..], m)
      case None => None
      case Some(k) => Some(k + 1)
  }

  /** A bucket after booking `t`: income to `income`, anything else to `expense`. */
  function Credit(b: MonthBucket, t: Transaction): MonthBucket {
    if t.txType == Income then b.(income := b.income + t.amount) else b.(expense := b.expense + t.amount)
  }

  /** Booking one transaction whose month is `m`: into the existing bucket,
      or into a fresh zero bucket appended at the end. */
  function AddToReport(report: seq<MonthBucket>, t: Transaction, m: string): (r: seq<MonthBucket>)
    ensures Months(r) == Months(report) + {m}
    ensures DistinctMonths(report) ==> DistinctMonths(r)
    ensures |report| <= |r| && forall i :: 0 <= i < |report| ==> r[i].month == report[i].month
    ensures m !in Months(report) ==> |r| == |report| + 1 && r[|report|].month == m
    ensures m in Months(report) ==> |r| == |report|
    ensures DistinctMonths(report) ==>
      forall i :: 0 <= i < |report| ==> r[i] == if report[i].month == m then Credit(report[i], t) else report[i]
    ensures m !in Months(report) ==> r[|report|] == Credit(MonthBucket(m, 0.0, 0.0), t)
  {
    match FindMonth(report, m)
    case Some(k) =>
      var r := report[k := Credit(report[k], t)];
      assert forall i :: 0 <= i < |r| ==> r[i].month == report[i].month;
      assert Months(r) == Months(report);
      r
    case None =>
      var r := report + [Credit(MonthBucket(m, 0.0, 0.0), t)];
      assert forall i :: 0 <= i < |report| ==> r[i] == report[i];
      assert Months(r) == Months(report) + {m} by {
        assert r[|report|].month == m;
      }
      r
  }

  /** The month buckets after booking the transactions in order. Every month
      a transaction falls in gets exactly one bucket, and no other bucket
      exists. */
  function MonthlyBuckets(ts: seq<Transaction>, monthOf: int -> string): (r: seq<MonthBucket>)
    ensures DistinctMonths(r)
    ensures Months(r) == SeenMonths(ts, monthOf)
    ensures |r| <= |ts|
    decreases |ts|
  {
    if |ts| == 0 then []
    else
      var init := ts[..|ts| - 1];
      var t := ts[|ts| - 1];
      assert SeenMonths(ts, monthOf) == SeenMonths(init, monthOf) + {monthOf(t.date)} by {
        assert forall k :: 0 <= k < |init| ==> init[k] == ts[k];
      }
      AddToReport(MonthlyBuckets(init, monthOf), t, monthOf(t.date))
  }

  /** The monthly report; absent data gives an empty report. */
  function MonthlyReport(ts: Option<seq<Transaction>>, monthOf: int -> string): (r: seq<MonthBucket>)
    ensures ts.None? ==> r == []
    ensures ts.Some? ==> DistinctMonths(r) && Months(r) == SeenMonths(ts.value, monthOf)
  {
    match ts
    case None => []
    case Some(s) => MonthlyBuckets(s, monthOf)
  }

  /** A filtered sum over a list none of whose members pass the filter is 0. */
  lemma {:induction false} SumWhereNoneMatch(s: seq<Transaction>, p: Transaction -> bool)
    requires forall i :: 0 <= i < |s| ==> !p(s[i])
    ensures SumWhere(s, p) == 0.0
  {
    if |s| != 0 {
      SumWhereNoneMatch(s[1..], p);
      assert s == [s[0]] + s[1..];
      SumWhereCons(s[0], s[1..], p);
    }
  }

  /** Each bucket holds exactly the income and the non-income amounts of its month. */
  predicate BucketsMatch(report: seq<MonthBucket>, ts: seq<Transaction>, monthOf: int -> string) {
    forall i :: 0 <= i < |report| ==>
      && report[i].income == SumWhere(ts, IncomeIn(monthOf, report[i].month))
      && report[i].expense == SumWhere(ts, OutgoingIn(monthOf, report[i].month))
  }

  /** A month no transaction falls in has nothing booked to it. */
  lemma UnseenMonthIsEmpty(ts: seq<Transaction>, monthOf: int -> string, m: string)
    requires m !in SeenMonths(ts, monthOf)
    ensures SumWhere(ts, IncomeIn(monthOf, m)) == 0.0 && SumWhere(ts, OutgoingIn(monthOf, m)) == 0.0
  {
    forall k | 0 <= k < |ts| ensures monthOf(ts[k].date) != m {
      assert monthOf(ts[k].date) in SeenMonths(ts, monthOf);
    }
    SumWhereNoneMatch(ts, IncomeIn(monthOf, m));
    SumWhereNoneMatch(ts, OutgoingIn(monthOf, m));
  }

  lemma AddToReportMatches(report: seq<MonthBucket>, ts: seq<Transaction>, t: Transaction, monthOf: int -> string, full: seq<Transaction>)
    requires full == ts + [t]
    requires DistinctMonths(report)
    requires Months(report) == SeenMonths(ts, monthOf)
    requires BucketsMatch(report, ts, monthOf)
    ensures BucketsMatch(AddToReport(report, t, monthOf(t.date)), full, monthOf)
  {
    var m := monthOf(t.date);
    var r := AddToReport(report, t, m);
    forall i | 0 <= i < |r|
      ensures r[i].income == SumWhere(ts + [t], IncomeIn(monthOf, r[i].month))
      ensures r[i].expense == SumWhere(ts + [t], OutgoingIn(monthOf, r[i].month))
    {
      var key := r[i].month;
      SumWhereSnoc(ts, t, IncomeIn(monthOf, key));
      SumWhereSnoc(ts, t, OutgoingIn(monthOf, key));
      if i == |report| {
        UnseenMonthIsEmpty(ts, monthOf, m);
      }
    }
  }

  /** One step of the fold that builds the monthly buckets. */
  lemma MonthlyBucketsStep(ts: seq<Transaction>, monthOf: int -> string)
    requires |ts| > 0
    ensures MonthlyBuckets(ts, monthOf) == AddToReport(MonthlyBuckets(ts[..|ts| - 1], monthOf), ts[|ts| - 1], monthOf(ts[|ts| - 1].date))
  {
  }

  /** Each bucket's income and expense are the amounts of its own month. */
  lemma {:induction false} BucketsHoldTheirMonth(ts: seq<Transaction>, monthOf: int -> string)
    ensures BucketsMatch(MonthlyBuckets(ts, monthOf), ts, monthOf)
    decreases |ts|
  {
    if |ts| != 0 {
      var init := ts[..|ts| - 1];
      var t := ts[|ts| - 1];
      assert init + [t] == ts;
      MonthlyBucketsStep(ts, monthOf);
      BucketsHoldTheirMonth(init, monthOf);
      AddToReportMatches(MonthlyBuckets(init, monthOf), init, t, monthOf, ts);
    }
  }

  /** Buckets appear in the order their month first occurs. */
  predicate FirstSeenOrder(report: seq<MonthBucket>, ts: seq<Transaction>, monthOf: int -> string) {
    forall i, j :: 0 <= i < j < |report| ==> SeenBefore(ts, monthOf, report[i].month, report[j].month)
  }

  lemma SeenBeforeExtends(ts: seq<Transaction>, t: Transaction, monthOf: int -> string, a: string, b: string)
    requires SeenBefore(ts, monthOf, a, b)
    ensures SeenBefore(ts + [t], monthOf, a, b)
  {
    var p :| 0 <= p < |ts| && monthOf(ts[p].date) == a && forall q :: 0 <= q <= p ==> monthOf(ts[q].date) != b;
    var ext := ts + [t];
    assert forall q :: 0 <= q <= p ==> ext[q] == ts[q];
    assert monthOf(ext[p].date) == a;
  }

  lemma SeenBeforeNewMonth(ts: seq<Transaction>, t: Transaction, monthOf: int -> string, a: string)
    requires a in SeenMonths(ts, monthOf)
    requires monthOf(t.date) !in SeenMonths(ts, monthOf)
    ensures SeenBefore(ts + [t], monthOf, a, monthOf(t.date))
  {
    var b := monthOf(t.date);
    var p :| 0 <= p < |ts| && monthOf(ts[p].date) == a;
    var ext := ts + [t];
    forall q | 0 <= q <= p
      ensures monthOf(ext[q].date) != b
    {
      assert ext[q] == ts[q];
      assert monthOf(ts[q].date) in SeenMonths(ts, monthOf);
    }
    assert ext[p] == ts[p];
  }

  lemma {:induction false} BucketsInFirstSeenOrder(ts: seq<Transaction>, monthOf: int -> string)
    ensures FirstSeenOrder(MonthlyBuckets(ts, monthOf), ts, monthOf)
    decreases |ts|
  {
    if |ts| != 0 {
      var init := ts[..|ts| - 1];
      var t := ts[|ts| - 1];
      assert init + [t] == ts;
      var prev := MonthlyBuckets(init, monthOf);
      var r := MonthlyBuckets(ts, monthOf);
      BucketsInFirstSeenOrder(init, monthOf);
      forall i, j | 0 <= i < j < |r|
        ensures SeenBefore(ts, monthOf, r[i].month, r[j].month)
      {
        if j < |prev| {
          SeenBeforeExtends(init, t, monthOf, prev[i].month, prev[j].month);
        } else {
          assert prev[i].month in Months(prev);
          SeenBeforeNewMonth(init, t, monthOf, r[i].month);
        }
      }
    }
  }

  function SumIncome(report: seq<MonthBucket>): real {
    if |report| == 0 then 0.0 else report[0].income + SumIncome(report[1..])
  }

  function SumExpense(report: seq<MonthBucket>): real {
    if |report| == 0 then 0.0 else report[0].expense + SumExpense(report[1..])
  }

  lemma {:induction false} SumsOfUpdate(report: seq<MonthBucket>, k: nat, b: MonthBucket)
    requires k < |report|
    ensures SumIncome(report[k := b]) == SumIncome(report) - report[k].income + b.income
    ensures SumExpense(report[k := b]) == SumExpense(report) - report[k].expense + b.expense
  {
    if k != 0 {
      assert report[k := b][1..] == report[1..][k - 1 := b];
      SumsOfUpdate(report[1..], k - 1, b);
    }
  }

  lemma {:induction false} SumsOfAppend(report: seq<MonthBucket>, b: MonthBucket)
    ensures SumIncome(report + [b]) == SumIncome(report) + b.income
    ensures SumExpense(report + [b]) == SumExpense(report) + b.expense
  {
    if |report| != 0 {
      assert (report + [b])[1..] == report[1..] + [b];
      SumsOfAppend(report[1..], b);
    }
  }

  /** Over all buckets, income and expense add up to the overall income and
      expense totals. */
  lemma {:induction false} BucketsAddUpToTotals(ts: seq<Transaction>, monthOf: int -> string)
    ensures SumIncome(MonthlyBuckets(ts, monthOf)) == SumWhere(ts, IsIncome)
    ensures SumExpense(MonthlyBuckets(ts, monthOf)) == SumWhere(ts, IsExpense)
    decreases |ts|
  {
    if |ts| != 0 {
      var init := ts[..|ts| - 1];
      var t := ts[|ts| - 1];
      assert init + [t] == ts;
      MonthlyBucketsStep(ts, monthOf);
      BucketsAddUpToTotals(init, monthOf);
      SumWhereSnoc(init, t, IsIncome);
      SumWhereSnoc(init, t, IsExpense);
      AddToReportSums(MonthlyBuckets(init, monthOf), t, monthOf(t.date));
    }
  }

  /** Booking one transaction adds its amount to the income or the expense
      sum of the report, according to its type. */
  lemma AddToReportSums(report: seq<MonthBucket>, t: Transaction, m: string)
    ensures SumIncome(AddToReport(report, t, m)) == SumIncome(report) + Contribution(t, IsIncome)
    ensures SumExpense(AddToReport(report, t, m)) == SumExpense(report) + Contribution(t, IsExpense)
  {
    match FindMonth(report, m)
    case Some(k) =>
      SumsOfUpdate(report, k, Credit(report[k], t));
    case None =>
      SumsOfAppend(report, Credit(MonthBucket(m, 0.0, 0.0), t));
  }

  /** The expense-by-category rows after booking the transactions in order:
      each expense adds to its category's row, income is ignored. */
  function CategoryRows(ts: seq<Transaction>): (r: seq<CategoryRow>)
    ensures |r| == 3 && r[0].name == Needs && r[1].name == Wants && r[2].name == Savings
    ensures forall i :: 0 <= i < |r| ==> r[i].total == SumWhere(ts, ExpenseIn(r[i].name))
    decreases |ts|
  {
    if |ts| == 0 then EmptyCategoryRows
    else
      var init := ts[..|ts| - 1];
      var t := ts[|ts| - 1];
      BookingExtendsTotals(CategoryRows(init), init, t, ts);
      Book(CategoryRows(init), t)
  }

  /** Rows holding the category totals of `init` hold those of `init + [t]`
      once `t` is booked. */
  lemma BookingExtendsTotals(rows: seq<CategoryRow>, init: seq<Transaction>, t: Transaction, ts: seq<Transaction>)
    requires ts == init + [t]
    requires |rows| == 3 && rows[0].name == Needs && rows[1].name == Wants && rows[2].name == Savings
    requires forall i :: 0 <= i < |rows| ==> rows[i].total == SumWhere(init, ExpenseIn(rows[i].name))
    ensures forall i :: 0 <= i < |rows| ==> Book(rows, t)[i].total == SumWhere(ts, ExpenseIn(rows[i].name))
  {
    forall i | 0 <= i < |rows| ensures Book(rows, t)[i].total == SumWhere(ts, ExpenseIn(rows[i].name)) {
      SumWhereSnoc(init, t, ExpenseIn(rows[i].name));
    }
  }

  /** Booking one transaction into the category rows: an expense adds its
      amount to its own category's row, anything else changes nothing. */
  function Book(rows: seq<CategoryRow>, t: Transaction): (r: seq<CategoryRow>)
    requires |rows| == 3 && rows[0].name == Needs && rows[1].name == Wants && rows[2].name == Savings
    ensures |r| == 3 && r[0].name == Needs && r[1].name == Wants && r[2].name == Savings
    ensures forall i :: 0 <= i < |r| ==> r[i].total == rows[i].total + Contribution(t, ExpenseIn(r[i].name))
  {
    if t.txType == Expense then
      var k := Rank(t.category);
      assert rows[k].name == t.category;
      rows[k := CategoryRow(rows[k].name, rows[k].total + t.amount)]
    else
      rows
  }

  /** The category report; absent data gives no rows, an empty list three
      zero rows. */
  function CategoryReport(ts: Option<seq<Transaction>>): (r: seq<CategoryRow>)
    ensures ts.None? ==> r == []
    ensures ts == Some([]) ==> r == EmptyCategoryRows
    ensures ts.Some? ==> |r| == 3 && r[0].name == Needs && r[1].name == Wants && r[2].name == Savings
    ensures ts.Some? ==> forall i :: 0 <= i < |r| ==> r[i].total == SumWhere(ts.value, ExpenseIn(r[i].name))
  {
    match ts
    case None => []
    case Some(s) => CategoryRows(s)
  }

  /** The three rows together are the total expenses. */
  lemma CategoryRowsAddUpToExpenses(ts: seq<Transaction>)
    ensures var r := CategoryRows(ts); r[0].total + r[1].total + r[2].total == SumWhere(ts, IsExpense)
  {
    ExpensesByCategory(ts);
  }
}
