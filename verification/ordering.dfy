/**
  Sorting by date, newest first: the comparator orders two transactions by
  the difference of their timestamps, later first. The engine's sort is
  stable, so transactions with the same timestamp keep their relative order; the model is a stable
  insertion sort and proves that it is.
 */
module Ordering {
  import opened Types
  import opened Folds

  /** Non-increasing by date. */
  predicate SortedByDateDesc(s: seq<Transaction>) {
    forall i, j :: 0 <= i < j < |s| ==> s[i].date >= s[j].date
  }

  /** The filter picking the transactions stamped with timestamp `d`. */
  function DatedAt(d: int): Transaction -> bool {
    (t: Transaction) => t.date == d
  }

  /** Places `x` in front of the first element that is not strictly newer
      than it, so that `x` precedes the transactions it ties with. */
  function Insert(x: Transaction, s: seq<Transaction>): (r: seq<Transaction>)
    requires SortedByDateDesc(s)
    ensures SortedByDateDesc(r)
    ensures multiset(r) == multiset(s) + multiset{x}
    ensures |r| == |s| + 1
    ensures r[0] == x || (|s| > 0 && r[0] == s[0])
  {
    if |s| == 0 || s[0].date <= x.date then
      [x] + s
    else
      var tail := Insert(x, s[1..]);
      assert s[0].date >= tail[0].date;
      assert forall k :: 0 <= k < |tail| ==> tail[0].date >= tail[k].date;
      assert s == [s[0]] + s[1..];
      [s[0]] + tail
  }

  /** Stable sort, newest first. */
  function SortByDateDesc(s: seq<Transaction>): (r: seq<Transaction>)
    ensures SortedByDateDesc(r)
    ensures multiset(r) == multiset(s)
    ensures |r| == |s|
  {
    if |s| == 0 then []
    else
      assert s == [s[0]] + s[1..];
      Insert(s[0], SortByDateDesc(s[1..]))
  }

  /** Inserting behind a strictly newer head keeps that head in front. */
  lemma InsertBehindHead(x: Transaction, s: seq<Transaction>)
    requires SortedByDateDesc(s) && |s| > 0 && s[0].date > x.date
    ensures Insert(x, s) == [s[0]] + Insert(x, s[1..])
  {
  }

  /** Two blocks of which at least one is empty can trade places. */
  lemma SwapWithEmpty(u: seq<Transaction>, v: seq<Transaction>, w: seq<Transaction>)
    requires u == [] || v == []
    ensures u + (v + w) == v + (u + w)
  {
    if u == [] {
      assert u + (v + w) == v + w;
      assert u + w == w;
    } else {
      assert v + (u + w) == u + w;
      assert v + w == w;
    }
  }

  /** Putting `a` in front of two lists with the same filtered contents but
      for a leading `x` keeps that relation, as long as `a` and `x` do not
      both pass the filter. */
  lemma ConsKeepsFilterShape(a: Transaction, x: Transaction, tail: seq<Transaction>, rest: seq<Transaction>, p: Transaction -> bool)
    requires Filter(tail, p) == Filter([x], p) + Filter(rest, p)
    requires !(p(a) && p(x))
    ensures Filter([a] + tail, p) == Filter([x], p) + Filter([a] + rest, p)
  {
    FilterSingleton(a, p);
    FilterSingleton(x, p);
    var fa, fx, fr := Filter([a], p), Filter([x], p), Filter(rest, p);
    calc {
      Filter([a] + tail, p);
      { FilterAppend([a], tail, p); }
      fa + Filter(tail, p);
      fa + (fx + fr);
      { SwapWithEmpty(fa, fx, fr); }
      fx + (fa + fr);
      { FilterAppend([a], rest, p); }
      fx + Filter([a] + rest, p);
    }
  }

  /** Inserting `x` puts it ahead of every transaction dated the same. */
  lemma {:induction false} InsertKeepsTies(x: Transaction, s: seq<Transaction>, d: int)
    requires SortedByDateDesc(s)
    ensures Filter(Insert(x, s), DatedAt(d)) == Filter([x], DatedAt(d)) + Filter(s, DatedAt(d))
  {
    if |s| == 0 || s[0].date <= x.date {
      FilterAppend([x], s, DatedAt(d));
    } else {
      InsertKeepsTies(x, s[1..], d);
      InsertBehindHead(x, s);
      // s[0] is strictly newer than x, so at most one of them is dated d.
      ConsKeepsFilterShape(s[0], x, Insert(x, s[1..]), s[1..], DatedAt(d));
      assert s == [s[0]] + s[1..];
    }
  }

  /** Stability: for every timestamp, the transactions carrying it come out
      in exactly the order they went in. */
  lemma {:induction false} SortIsStable(s: seq<Transaction>, d: int)
    ensures Filter(SortByDateDesc(s), DatedAt(d)) == Filter(s, DatedAt(d))
  {
    if |s| != 0 {
      SortIsStable(s[1..], d);
      InsertKeepsTies(s[0], SortByDateDesc(s[1..]), d);
      FilterAppend([s[0]], s[1..], DatedAt(d));
      assert s == [s[0]] + s[1..];
    }
  }
}
