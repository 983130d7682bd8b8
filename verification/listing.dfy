/**
  The all-transactions page: the user's transactions, newest first. The
  page sorts a copy and leaves the list it was given alone; Dafny sequences
  are values, so that holds by construction.
 */
module Listing {
  import opened Types
  import opened Folds
  import opened Ordering

  /** The list the page shows; absent data shows nothing. */
  function SortedTransactions(ts: Option<seq<Transaction>>): (r: seq<Transaction>)
    ensures ts.None? ==> r == []
    ensures ts.Some? ==> |r| == |ts.value| && multiset(r) == multiset(ts.value)
    ensures SortedByDateDesc(r)
    ensures ts.Some? ==> forall d :: Filter(r, DatedAt(d)) == Filter(ts.value, DatedAt(d))
  {
    match ts
    case None => []
    case Some(s) =>
      forall d ensures Filter(SortByDateDesc(s), DatedAt(d)) == Filter(s, DatedAt(d)) {
        SortIsStable(s, d);
      }
      SortByDateDesc(s)
  }
}
