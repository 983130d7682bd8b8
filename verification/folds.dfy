/**
  The filter-then-sum pipeline every view applies to a transaction list:
  keep the transactions passing a test, then add up their amounts starting
  from zero. With it comes the algebra the aggregation proofs rest on: sums split over concatenation and
  over a predicate and its negation, and do not depend on the order of the
  list.
 */
module Folds {
  import opened Types

  /** The transactions of `s` that satisfy `p`, in their original order. */
  function Filter(s: seq<Transaction>, p: Transaction -> bool): (r: seq<Transaction>)
    ensures |r| <= |s|
    ensures forall i :: 0 <= i < |r| ==> p(r[i])
  {
    if |s| == 0 then []
    else (if p(s[0]) then [s[0]] else []) + Filter(s[1..], p)
  }

  /** The sum of the amounts, starting from 0. */
  function SumAmounts(s: seq<Transaction>): (r: real)
    ensures (forall i :: 0 <= i < |s| ==> s[i].amount >= 0.0) ==> r >= 0.0
  {
    if |s| == 0 then 0.0 else s[0].amount + SumAmounts(s[1..])
  }

  /** The amount total of the transactions satisfying `p`. */
  function SumWhere(s: seq<Transaction>, p: Transaction -> bool): real {
    SumAmounts(Filter(s, p))
  }

  /** The contribution of a single transaction to `SumWhere`. */
  function Contribution(t: Transaction, p: Transaction -> bool): real {
    if p(t) then t.amount else 0.0
  }

  predicate IsIncome(t: Transaction) { t.txType == Income }

  predicate IsExpense(t: Transaction) { t.txType == Expense }

  /** The transactions filed under category `c`, whatever their type. */
  function InCategory(c: Category): Transaction -> bool {
    (t: Transaction) => t.category == c
  }

  /** The expenses filed under category `c`. */
  function ExpenseIn(c: Category): Transaction -> bool {
    (t: Transaction) => t.category == c && t.txType == Expense
  }

  /** The filter keeps every transaction satisfying `p` as often as it
      occurs, and nothing else. */
  lemma {:induction false} FilterCounts(s: seq<Transaction>, p: Transaction -> bool, t: Transaction)
    ensures multiset(Filter(s, p))[t] == if p(t) then multiset(s)[t] else 0
  {
    if |s| != 0 {
      FilterCounts(s[1..], p, t);
      assert s == [s[0]] + s[1..];
    }
  }

  lemma {:induction false} FilterAppend(a: seq<Transaction>, b: seq<Transaction>, p: Transaction -> bool)
    ensures Filter(a + b, p) == Filter(a, p) + Filter(b, p)
  {
    if |a| == 0 {
      assert a + b == b;
    } else {
      var head := if p(a[0]) then [a[0]] else [];
      assert (a + b)[0] == a[0] && (a + b)[1..] == a[1..] + b;
      assert Filter(a + b, p) == head + Filter(a[1..] + b, p);
      FilterAppend(a[1..], b, p);
      assert Filter(a, p) == head + Filter(a[1..], p);
    }
  }

  lemma {:induction false} SumAppend(a: seq<Transaction>, b: seq<Transaction>)
    ensures SumAmounts(a + b) == SumAmounts(a) + SumAmounts(b)
  {
    if |a| == 0 {
      assert a + b == b;
    } else {
      assert (a + b)[1..] == a[1..] + b;
      SumAppend(a[1..], b);
    }
  }

  /** Filtered sums split over concatenation. */
  lemma SumWhereAppend(a: seq<Transaction>, b: seq<Transaction>, p: Transaction -> bool)
    ensures SumWhere(a + b, p) == SumWhere(a, p) + SumWhere(b, p)
  {
    FilterAppend(a, b, p);
    SumAppend(Filter(a, p), Filter(b, p));
  }

  lemma FilterSingleton(t: Transaction, p: Transaction -> bool)
    ensures Filter([t], p) == if p(t) then [t] else []
  {
    assert [t][1..] == [];
  }

  /** A one-element list sums to that element's contribution. */
  lemma SingletonSum(t: Transaction, p: Transaction -> bool)
    ensures SumWhere([t], p) == Contribution(t, p)
  {
    assert [t][1..] == [];
    if p(t) {
      assert Filter([t], p) == [t];
      assert SumAmounts([t]) == t.amount + SumAmounts([]);
    } else {
      assert Filter([t], p) == [];
    }
  }

  /** Extending a list by one transaction adds exactly that transaction's contribution. */
  lemma SumWhereSnoc(s: seq<Transaction>, t: Transaction, p: Transaction -> bool)
    ensures SumWhere(s + [t], p) == SumWhere(s, p) + Contribution(t, p)
  {
    SumWhereAppend(s, [t], p);
    SingletonSum(t, p);
  }

  /** Prepending one transaction adds exactly that transaction's contribution. */
  lemma SumWhereCons(t: Transaction, s: seq<Transaction>, p: Transaction -> bool)
    ensures SumWhere([t] + s, p) == Contribution(t, p) + SumWhere(s, p)
  {
    SumWhereAppend([t], s, p);
    SingletonSum(t, p);
  }

  /** A filtered sum over a two-element list, spelled out. */
  lemma SumWherePair(a: Transaction, b: Transaction, p: Transaction -> bool)
    ensures SumWhere([a, b], p) == Contribution(a, p) + Contribution(b, p)
  {
    assert [a, b] == [a] + [b];
    SumWhereCons(a, [b], p);
    SingletonSum(b, p);
  }

  /** A filtered sum over a three-element list, spelled out. */
  lemma SumWhereTriple(a: Transaction, b: Transaction, c: Transaction, p: Transaction -> bool)
    ensures SumWhere([a, b, c], p) == Contribution(a, p) + Contribution(b, p) + Contribution(c, p)
  {
    assert [a, b, c] == [a] + [b, c];
    SumWhereCons(a, [b, c], p);
    SumWherePair(b, c, p);
  }

  /** A filtered sum is the same for any reordering of the list. */
  lemma {:induction false} SumWherePermutation(a: seq<Transaction>, b: seq<Transaction>, p: Transaction -> bool)
    requires multiset(a) == multiset(b)
    ensures SumWhere(a, p) == SumWhere(b, p)
    decreases |a|
  {
    if |a| == 0 {
      assert |b| == |multiset(b)| == 0;
    } else {
      var x := a[0];
      assert x in multiset(b);
      var k :| 0 <= k < |b| && b[k] == x;
      var rest := b[..k] + b[k + 1..];
      assert b == b[..k] + [x] + b[k + 1..];
      assert a == [x] + a[1..];
      assert multiset(a[1..]) == multiset(rest) by {
        calc {
          multiset(a[1..]);
          multiset(a) - multiset{x};
          multiset(b) - multiset{x};
          multiset(b[..k]) + multiset{x} + multiset(b[k + 1..]) - multiset{x};
          multiset(rest);
        }
      }
      SumWherePermutation(a[1..], rest, p);
      SumWhereCons(x, a[1..], p);
      SumWhereAppend(b[..k], b[k + 1..], p);
      SumWhereAppend(b[..k] + [x], b[k + 1..], p);
      SumWhereSnoc(b[..k], x, p);
    }
  }

  /** Splitting a list by a predicate and its negation loses and duplicates nothing. */
  lemma {:induction false} SumWherePartition(s: seq<Transaction>, p: Transaction -> bool, q: Transaction -> bool)
    requires forall t :: q(t) == !p(t)
    ensures SumWhere(s, p) + SumWhere(s, q) == SumAmounts(s)
  {
    if |s| != 0 {
      SumWherePartition(s[1..], p, q);
      assert s == [s[0]] + s[1..];
      SumWhereCons(s[0], s[1..], p);
      SumWhereCons(s[0], s[1..], q);
    }
  }

  /** Two predicates that agree on every transaction of the list give the same sum. */
  lemma {:induction false} SumWhereCongruent(s: seq<Transaction>, p: Transaction -> bool, q: Transaction -> bool)
    requires forall i :: 0 <= i < |s| ==> p(s[i]) == q(s[i])
    ensures SumWhere(s, p) == SumWhere(s, q)
  {
    if |s| != 0 {
      SumWhereCongruent(s[1..], p, q);
      assert s == [s[0]] + s[1..];
      SumWhereCons(s[0], s[1..], p);
      SumWhereCons(s[0], s[1..], q);
    }
  }

  lemma ExpenseInOneCategory(t: Transaction)
    ensures Contribution(t, IsExpense)
         == Contribution(t, ExpenseIn(Needs)) + Contribution(t, ExpenseIn(Wants)) + Contribution(t, ExpenseIn(Savings))
  {
    match t.category
    case Needs =>
    case Wants =>
    case Savings =>
  }

  /** Every expense falls in exactly one of the three categories. */
  lemma {:induction false} ExpensesByCategory(s: seq<Transaction>)
    ensures SumWhere(s, IsExpense)
         == SumWhere(s, ExpenseIn(Needs)) + SumWhere(s, ExpenseIn(Wants)) + SumWhere(s, ExpenseIn(Savings))
  {
    if |s| != 0 {
      ExpensesByCategory(s[1..]);
      ExpenseInOneCategory(s[0]);
      assert s == [s[0]] + s[1..];
      SumWhereCons(s[0], s[1..], IsExpense);
      SumWhereCons(s[0], s[1..], ExpenseIn(Needs));
      SumWhereCons(s[0], s[1..], ExpenseIn(Wants));
      SumWhereCons(s[0], s[1..], ExpenseIn(Savings));
    }
  }

  /** Income and expense totals together account for every amount. */
  lemma IncomeAndExpensesCoverAll(s: seq<Transaction>)
    ensures SumWhere(s, IsIncome) + SumWhere(s, IsExpense) == SumAmounts(s)
  {
    SumWherePartition(s, IsIncome, IsExpense);
  }
}
