/**
  The dashboard page: the summary it derives from the transaction list
  (income, expense and net totals, the Needs/Wants/Savings totals and the
  chart series), the budget alerts raised from that summary, the insertion
  of a newly added transaction and the ten-row recent list.
 */
module Dashboard {
  import opened Types
  import opened Folds
  import opened Ordering
  import Settings

  /** One bar of the overview chart. */
  datatype ChartEntry = ChartEntry(category: Category, total: real)

  /** What the page derives from its transaction list. */
  datatype Summary = Summary(
    totalIncome: real,
    totalExpenses: real,
    netSavings: real,
    needsTotal: real,
    wantsTotal: real,
    savingsTotal: real,
    chartData: seq<ChartEntry>)

  /** A budget warning: the category and its share of income in percent. */
  datatype BudgetAlert = BudgetAlert(category: Category, percentage: real)

  /** The shares of income above which the page warns. */
  const NeedsAlertPercent: real := 50.0
  const WantsAlertPercent: real := 30.0

  /** How many transactions the recent list shows. */
  const RecentLimit: nat := 10

  function TotalOf(c: Category, needs: real, wants: real, savings: real): real {
    match c
    case Needs => needs
    case Wants => wants
    case Savings => savings
  }

  /** The chart series: the three category totals in fixed order, keeping
      only those strictly above zero. */
  function ChartData(needs: real, wants: real, savings: real): (r: seq<ChartEntry>)
    ensures forall i :: 0 <= i < |r| ==> r[i].total > 0.0
    ensures forall i :: 0 <= i < |r| ==> r[i].total == TotalOf(r[i].category, needs, wants, savings)
    ensures forall i, j :: 0 <= i < j < |r| ==> Rank(r[i].category) < Rank(r[j].category)
    ensures forall c :: TotalOf(c, needs, wants, savings) > 0.0 <==> ChartEntry(c, TotalOf(c, needs, wants, savings)) in r
  {
    var all := [ChartEntry(Needs, needs), ChartEntry(Wants, wants), ChartEntry(Savings, savings)];
    (if all[0].total > 0.0 then [all[0]] else [])
    + (if all[1].total > 0.0 then [all[1]] else [])
    + (if all[2].total > 0.0 then [all[2]] else [])
  }

  /** The page's summary of a transaction list. Needs and Wants are summed
      by category alone, whatever the type; Savings adds the expenses filed
      under Savings to the net of income over expenses and may be negative. */
  function Summarize(ts: seq<Transaction>): (r: Summary)
    ensures r.netSavings == r.totalIncome - r.totalExpenses
    ensures r.savingsTotal == SumWhere(ts, ExpenseIn(Savings)) + r.netSavings
    ensures r.chartData == ChartData(r.needsTotal, r.wantsTotal, r.savingsTotal)
    ensures ts == [] ==> r == Summary(0.0, 0.0, 0.0, 0.0, 0.0, 0.0, [])
  {
    var income := SumWhere(ts, IsIncome);
    var expenses := SumWhere(ts, IsExpense);
    var needs := SumWhere(ts, InCategory(Needs));
    var wants := SumWhere(ts, InCategory(Wants));
    var savings := SumWhere(ts, ExpenseIn(Savings)) + (income - expenses);
    Summary(income, expenses, income - expenses, needs, wants, savings, ChartData(needs, wants, savings))
  }

  /** Income and expenses together account for every amount in the list. */
  lemma IncomePlusExpensesIsTotal(ts: seq<Transaction>)
    ensures Summarize(ts).totalIncome + Summarize(ts).totalExpenses == SumAmounts(ts)
  {
    IncomeAndExpensesCoverAll(ts);
  }

  /** Under the write-time invariant no income is filed under Needs or Wants,
      so summing those categories regardless of type counts expenses only. */
  lemma NeedsAndWantsAreExpenses(ts: seq<Transaction>)
    requires AllIncomeIsSavings(ts)
    ensures Summarize(ts).needsTotal == SumWhere(ts, ExpenseIn(Needs))
    ensures Summarize(ts).wantsTotal == SumWhere(ts, ExpenseIn(Wants))
  {
    forall i | 0 <= i < |ts|
      ensures InCategory(Needs)(ts[i]) == ExpenseIn(Needs)(ts[i])
      ensures InCategory(Wants)(ts[i]) == ExpenseIn(Wants)(ts[i])
    {
      assert IncomeIsSavings(ts[i]);
    }
    SumWhereCongruent(ts, InCategory(Needs), ExpenseIn(Needs));
    SumWhereCongruent(ts, InCategory(Wants), ExpenseIn(Wants));
  }

  /** Under the write-time invariant the three category totals divide income
      exactly: Needs + Wants + Savings == total income. */
  lemma CategoriesSplitIncome(ts: seq<Transaction>)
    requires AllIncomeIsSavings(ts)
    ensures Summarize(ts).needsTotal + Summarize(ts).wantsTotal + Summarize(ts).savingsTotal
         == Summarize(ts).totalIncome
  {
    NeedsAndWantsAreExpenses(ts);
    ExpensesByCategory(ts);
  }

  /** Spending beyond income drives the Savings total below zero; it is not
      clamped. */
  lemma SavingsCanBeNegative()
    ensures Summarize([Transaction("rent", 0, "Rent", 10.0, Expense, Needs)]).savingsTotal == -10.0
  {
    var t := Transaction("rent", 0, "Rent", 10.0, Expense, Needs);
    SingletonSum(t, IsIncome);
    SingletonSum(t, IsExpense);
    SingletonSum(t, ExpenseIn(Savings));
  }

  /** Zero Needs with positive Wants and Savings charts Wants then Savings. */
  lemma ChartOmitsEmptyCategories()
    ensures ChartData(0.0, 200.0, 50.0) == [ChartEntry(Wants, 200.0), ChartEntry(Savings, 50.0)]
  {
  }

  /** There is an alert for category `c`. */
  predicate HasAlert(alerts: seq<BudgetAlert>, c: Category) {
    exists i :: 0 <= i < |alerts| && alerts[i].category == c
  }

  lemma HasAlertAppend(a: seq<BudgetAlert>, b: seq<BudgetAlert>, c: Category)
    ensures HasAlert(a + b, c) <==> HasAlert(a, c) || HasAlert(b, c)
  {
    if HasAlert(a + b, c) {
      var i :| 0 <= i < |a + b| && (a + b)[i].category == c;
      if i >= |a| {
        assert b[i - |a|].category == c;
      }
    }
    if HasAlert(a, c) {
      var i :| 0 <= i < |a| && a[i].category == c;
      assert (a + b)[i].category == c;
    }
    if HasAlert(b, c) {
      var i :| 0 <= i < |b| && b[i].category == c;
      assert (a + b)[|a| + i].category == c;
    }
  }

  /** `part` is above `limit` percent of a positive `whole`, stated without division. */
  lemma ShareAbove(part: real, whole: real, limit: real)
    requires whole > 0.0
    ensures part / whole * 100.0 > limit <==> part * 100.0 > limit * whole
  {
    var q := part / whole;
    assert q * whole == part;
    assert q * 100.0 * whole == part * 100.0;
    if q * 100.0 > limit {
      assert (q * 100.0 - limit) * whole > 0.0;
    } else {
      assert (limit - q * 100.0) * whole >= 0.0;
    }
  }

  /** The alerts for given limits: Needs first, then Wants, only when income
      is positive, each only when strictly above its limit. */
  function AlertsFor(s: Summary, needsLimit: real, wantsLimit: real): (r: seq<BudgetAlert>)
    ensures s.totalIncome <= 0.0 ==> r == []
    ensures HasAlert(r, Needs) <==> s.totalIncome > 0.0 && s.needsTotal * 100.0 > needsLimit * s.totalIncome
    ensures HasAlert(r, Wants) <==> s.totalIncome > 0.0 && s.wantsTotal * 100.0 > wantsLimit * s.totalIncome
    ensures !HasAlert(r, Savings)
    ensures forall i :: 0 <= i < |r| ==> r[i].percentage * s.totalIncome == TotalOf(r[i].category, s.needsTotal, s.wantsTotal, s.savingsTotal) * 100.0
    ensures forall i, j :: 0 <= i < j < |r| ==> Rank(r[i].category) < Rank(r[j].category)
  {
    if s.totalIncome > 0.0 then
      var needsShare := s.needsTotal / s.totalIncome * 100.0;
      var wantsShare := s.wantsTotal / s.totalIncome * 100.0;
      ShareAbove(s.needsTotal, s.totalIncome, needsLimit);
      ShareAbove(s.wantsTotal, s.totalIncome, wantsLimit);
      var needsPart := if needsShare > needsLimit then [BudgetAlert(Needs, needsShare)] else [];
      var wantsPart := if wantsShare > wantsLimit then [BudgetAlert(Wants, wantsShare)] else [];
      HasAlertAppend(needsPart, wantsPart, Needs);
      HasAlertAppend(needsPart, wantsPart, Wants);
      HasAlertAppend(needsPart, wantsPart, Savings);
      assert needsShare > needsLimit ==> HasAlert(needsPart, Needs) by {
        if needsShare > needsLimit { assert needsPart[0].category == Needs; }
      }
      assert wantsShare > wantsLimit ==> HasAlert(wantsPart, Wants) by {
        if wantsShare > wantsLimit { assert wantsPart[0].category == Wants; }
      }
      needsPart + wantsPart
    else
      []
  }

  /** The page's alert check, with the 50 and 30 written into the code. */
  function BudgetAlerts(s: Summary): (r: seq<BudgetAlert>)
    ensures s.totalIncome <= 0.0 ==> r == []
    ensures HasAlert(r, Needs) <==> s.totalIncome > 0.0 && s.needsTotal * 100.0 > 50.0 * s.totalIncome
    ensures HasAlert(r, Wants) <==> s.totalIncome > 0.0 && s.wantsTotal * 100.0 > 30.0 * s.totalIncome
    ensures !HasAlert(r, Savings)
  {
    AlertsFor(s, NeedsAlertPercent, WantsAlertPercent)
  }

  /** The alert check against the user's saved targets. */
  function ConfiguredAlerts(s: Summary, config: Settings.Config): (r: seq<BudgetAlert>)
    ensures s.totalIncome <= 0.0 ==> r == []
    ensures HasAlert(r, Needs) <==> s.totalIncome > 0.0 && s.needsTotal * 100.0 > config.needs * s.totalIncome
    ensures HasAlert(r, Wants) <==> s.totalIncome > 0.0 && s.wantsTotal * 100.0 > config.wants * s.totalIncome
    ensures !HasAlert(r, Savings)
  {
    AlertsFor(s, config.needs, config.wants)
  }

  /** With the default targets, the configured check is the page's check. */
  lemma ConfiguredAlertsAgreeOnDefaults(s: Summary)
    ensures ConfiguredAlerts(s, Settings.DefaultConfig) == BudgetAlerts(s)
  {
  }

  /** The three totals the alert check reads. */
  lemma AlertInputs(ts: seq<Transaction>)
    ensures Summarize(ts).totalIncome == SumWhere(ts, IsIncome)
    ensures Summarize(ts).needsTotal == SumWhere(ts, InCategory(Needs))
    ensures Summarize(ts).wantsTotal == SumWhere(ts, InCategory(Wants))
  {
  }

  /** A user who saved 60/20/20 and spends 55% of income on needs is still
      warned by the page, although the configured check stays silent. */
  lemma HardCodedLimitIgnoresSettings()
    ensures Settings.ValidConfig(Settings.Config(60.0, 20.0, 20.0))
    ensures var s := Summarize([
              Transaction("salary", 0, "Salary", 100.0, Income, Savings),
              Transaction("rent", 0, "Rent", 55.0, Expense, Needs)]);
            && HasAlert(BudgetAlerts(s), Needs)
            && !HasAlert(ConfiguredAlerts(s, Settings.Config(60.0, 20.0, 20.0)), Needs)
  {
    var salary := Transaction("salary", 0, "Salary", 100.0, Income, Savings);
    var rent := Transaction("rent", 0, "Rent", 55.0, Expense, Needs);
    AlertInputs([salary, rent]);
    SumWherePair(salary, rent, IsIncome);
    SumWherePair(salary, rent, InCategory(Needs));
  }

  /** Income 1000 with 600 on needs and 100 on wants warns about Needs only. */
  lemma AlertScenario()
    ensures BudgetAlerts(Summarize([
              Transaction("salary", 0, "Salary", 1000.0, Income, Savings),
              Transaction("rent", 0, "Rent", 600.0, Expense, Needs),
              Transaction("cinema", 0, "Cinema", 100.0, Expense, Wants)]))
         == [BudgetAlert(Needs, 60.0)]
  {
    var salary := Transaction("salary", 0, "Salary", 1000.0, Income, Savings);
    var rent := Transaction("rent", 0, "Rent", 600.0, Expense, Needs);
    var cinema := Transaction("cinema", 0, "Cinema", 100.0, Expense, Wants);
    AlertInputs([salary, rent, cinema]);
    SumWhereTriple(salary, rent, cinema, IsIncome);
    SumWhereTriple(salary, rent, cinema, InCategory(Needs));
    SumWhereTriple(salary, rent, cinema, InCategory(Wants));
    AlertsAtSixtyAndTen(Summarize([salary, rent, cinema]));
  }

  /** The alerts of any summary with income 1000, needs 600 and wants 100. */
  lemma AlertsAtSixtyAndTen(s: Summary)
    requires s.totalIncome == 1000.0 && s.needsTotal == 600.0 && s.wantsTotal == 100.0
    ensures BudgetAlerts(s) == [BudgetAlert(Needs, 60.0)]
  {
  }

  /** Exactly 50% on needs and exactly 30% on wants raise nothing. */
  lemma LimitsAreStrict(s: Summary)
    requires s.totalIncome > 0.0
    requires s.needsTotal * 2.0 == s.totalIncome
    requires s.wantsTotal * 10.0 == s.totalIncome * 3.0
    ensures !HasAlert(BudgetAlerts(s), Needs)
    ensures !HasAlert(BudgetAlerts(s), Wants)
  {
  }

  /** `handleAddTransaction`: put the new transaction in front of the list,
      then sort newest first. */
  function AddTransaction(prev: seq<Transaction>, t: Transaction): (r: seq<Transaction>)
    ensures |r| == |prev| + 1
    ensures multiset(r) == multiset(prev) + multiset{t}
    ensures SortedByDateDesc(r)
  {
    SortByDateDesc([t] + prev)
  }

  /** Adding a transaction changes every total by exactly that transaction's
      contribution, wherever the sort places it. */
  lemma SummaryAfterAdd(prev: seq<Transaction>, t: Transaction)
    ensures Summarize(AddTransaction(prev, t)).totalIncome == Summarize(prev).totalIncome + Contribution(t, IsIncome)
    ensures Summarize(AddTransaction(prev, t)).totalExpenses == Summarize(prev).totalExpenses + Contribution(t, IsExpense)
    ensures Summarize(AddTransaction(prev, t)).needsTotal == Summarize(prev).needsTotal + Contribution(t, InCategory(Needs))
    ensures Summarize(AddTransaction(prev, t)).wantsTotal == Summarize(prev).wantsTotal + Contribution(t, InCategory(Wants))
  {
    var next := AddTransaction(prev, t);
    assert multiset(next) == multiset([t] + prev);
    SumWherePermutation(next, [t] + prev, IsIncome);
    SumWherePermutation(next, [t] + prev, IsExpense);
    SumWherePermutation(next, [t] + prev, InCategory(Needs));
    SumWherePermutation(next, [t] + prev, InCategory(Wants));
    SumWhereCons(t, prev, IsIncome);
    SumWhereCons(t, prev, IsExpense);
    SumWhereCons(t, prev, InCategory(Needs));
    SumWhereCons(t, prev, InCategory(Wants));
  }

  /** Adding a transaction that keeps the write-time invariant keeps it for
      the whole list. */
  lemma AddKeepsInvariant(prev: seq<Transaction>, t: Transaction)
    requires AllIncomeIsSavings(prev)
    requires IncomeIsSavings(t)
    ensures AllIncomeIsSavings(AddTransaction(prev, t))
  {
    var next := AddTransaction(prev, t);
    forall i | 0 <= i < |next|
      ensures IncomeIsSavings(next[i])
    {
      assert next[i] in multiset(next);
      assert next[i] in multiset(prev) + multiset{t};
      if next[i] != t {
        assert next[i] in multiset(prev);
        var k :| 0 <= k < |prev| && prev[k] == next[i];
      }
    }
  }

  /** The recent-transactions card: the first ten transactions, in order. */
  function RecentTransactions(ts: seq<Transaction>): (r: seq<Transaction>)
    ensures |r| == if |ts| < RecentLimit then |ts| else RecentLimit
    ensures forall i :: 0 <= i < |r| ==> r[i] == ts[i]
  {
    if |ts| < RecentLimit then ts else ts[..RecentLimit]
  }
}
