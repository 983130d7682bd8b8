/**
  The records shared by every view of the budgeting app: a transaction, its
  type and its 50/30/20 budget category, plus the Option/Result wrappers the
  views use for absent data and validation failures.
 */
module Types {

  /** Whether money came in or went out; the sign of a transaction lives here,
      never in its amount. */
  datatype TxType = Income | Expense

  /** The three buckets of the 50/30/20 rule. */
  datatype Category = Needs | Wants | Savings

  /** A stored transaction. The ISO date string is abstracted to the
      millisecond timestamp it denotes. */
  datatype Transaction = Transaction(
    id: string,
    date: int,
    description: string,
    amount: real,
    txType: TxType,
    category: Category)

  /** Position of a category in the fixed Needs, Wants, Savings order the
      chart and the category report use. */
  function Rank(c: Category): nat {
    match c
    case Needs => 0
    case Wants => 1
    case Savings => 2
  }

  datatype Option<+T> = None | Some(value: T)

  datatype Result<+R, +E> = Success(value: R) | Failure(error: E)

  /** The write-time invariant: income is always filed under Savings. */
  predicate IncomeIsSavings(t: Transaction) {
    t.txType == Income ==> t.category == Savings
  }

  /** Every transaction of a list keeps the write-time invariant. */
  predicate AllIncomeIsSavings(ts: seq<Transaction>) {
    forall i :: 0 <= i < |ts| ==> IncomeIsSavings(ts[i])
  }
}
