# 50/30/20 budget pipeline — a Dafny model

This project models the decision logic of a personal-budget web app built on
the 50/30/20 rule: every transaction is income or expense, and every
transaction is filed as Needs, Wants or Savings. The logic is spread over
several page components. Here it is lifted into pure functions over a
`seq<Transaction>`:

- **Drafting** (`add-transaction-dialog.tsx`) covers the form schema and the
  weaker check in front of the AI category suggestion. It also covers how a
  suggestion changes the form, and the submit path. That path forces income
  to Savings and issues at most one write. The callback and the form reset
  happen only after that write succeeds.
- **Dashboard** (`app/dashboard/page.tsx`) computes the income, expense and
  net totals, the Needs/Wants/Savings totals and the chart series. It also
  covers the budget alerts, the insertion of a new transaction (prepend, then
  sort newest first) and the ten-row recent list.
- **Settings** (`app/dashboard/settings/page.tsx`) covers the percentage
  schema (each value in [0, 100], sum exactly 100), the 50/30/20 defaults and
  the running total that gates the submit button. It also covers the choice
  of the active configuration document, the save target (`"main"` when
  there is none) and the write.
- **Reports** (`app/dashboard/reports/page.tsx`) covers the per-month
  income/expense buckets in first-seen order and the fixed three-row
  expense-by-category table.
- **Listing** (`app/dashboard/transactions/page.tsx`) covers the
  newest-first copy of the transaction list.
- **Folds** and **Ordering** hold the shared filter/sum algebra and the
  stable sort by date that the views rely on.

Modelling choices:

- Amounts and percentages are `real`.
- A date is the integer millisecond timestamp its ISO string denotes.
- The month key a report groups by is a parameter `monthOf: int -> string`.
- Storage outcomes are inputs: `writeOk` is the result of a write, and a
  query result is a sequence.
- The AI flow is an input `reply: Option<Suggestion>`. Its outcome is applied to
  the form as it stands when the answer arrives, which may differ from the
  form at the click.

Where the code departs from the intended behaviour, the model follows the code:

- Intended: the Needs and Wants totals count expenses only. The code sums by
  category whatever the transaction's type. Under the write-time rule that
  income is always Savings, the two agree:
  `Dashboard.NeedsAndWantsAreExpenses`.
- Intended: alerts fire against the user's saved targets. The code compares
  against the literals 50 and 30. See Findings.
- Intended: an AI answer that arrives after the user has changed the form is
  dropped. The code has no such check: the answer overwrites the category of
  the form as it is when it arrives. `Drafting.LateAnswerOverwritesEdit`
  states this.
- Intended: a description must be non-empty. The schema requires at least two
  characters, and the AI button only a non-empty one:
  `Drafting.SuggestionGateIsWeaker`.
- Intended: one configuration per owner, keyed by the owner. The code takes
  the first document the owner's query returns: `Settings.ActiveConfig`.

## Model

| member | source | states |
|---|---|---|
| `Folds.FilterCounts` | src/app/dashboard/page.tsx:23-25 | the filter step keeps every transaction that satisfies the test, as many times as it occurs, and nothing else |
| `Folds.SumAmounts` | src/app/dashboard/page.tsx:23-25 | the `reduce` from 0 gives a non-negative total whenever every amount is non-negative |
| `Folds.SumWhereAppend` | src/app/dashboard/page.tsx:23-40 | a filtered total of two concatenated lists is the sum of their filtered totals |
| `Folds.SumWherePermutation` | src/app/dashboard/page.tsx:19 | every filtered total is the same for any reordering of the list, so sorting never changes a total |
| `Folds.SumWherePartition` | src/app/dashboard/page.tsx:23-28 | a filter and its complement split the total amount with nothing lost or counted twice |
| `Folds.ExpensesByCategory` | src/app/dashboard/reports/page.tsx:52-56 | the expense total is the sum of the expense totals of Needs, Wants and Savings |
| `Ordering.Insert` | src/app/dashboard/page.tsx:19 | inserting into a newest-first list gives a newest-first list with exactly one more element, the inserted one |
| `Ordering.SortByDateDesc` | src/app/dashboard/transactions/page.tsx:26 | the sort returns a permutation of its input (same length, same multiset) that is non-increasing by date |
| `Ordering.SortIsStable` | src/app/dashboard/transactions/page.tsx:26 | for every timestamp, the transactions with that date come out in their input order, as the stable engine sort leaves them |
| `Dashboard.ChartData` | src/app/dashboard/page.tsx:41-45 | the chart keeps a category iff its total is strictly positive, with that total, in the order Needs, Wants, Savings |
| `Dashboard.Summarize` | src/app/dashboard/page.tsx:22-56 | net savings is exactly income minus expenses; Savings is the Savings-tagged expenses plus that net; an empty list gives all-zero totals and an empty chart |
| `Dashboard.IncomePlusExpensesIsTotal` | src/app/dashboard/page.tsx:23-28 | income plus expenses is the sum of all amounts: each transaction is counted in exactly one of the two |
| `Dashboard.NeedsAndWantsAreExpenses` | src/app/dashboard/page.tsx:30-35 | when every income is filed under Savings, the type-blind Needs and Wants totals equal the expense-only totals |
| `Dashboard.CategoriesSplitIncome` | src/app/dashboard/page.tsx:30-38 | when every income is filed under Savings, Needs + Wants + Savings equals total income |
| `Dashboard.SavingsCanBeNegative` | src/app/dashboard/page.tsx:36-38 | a single 10-unit Needs expense gives a Savings total of -10; nothing clamps it |
| `Dashboard.ChartOmitsEmptyCategories` | src/app/dashboard/page.tsx:41-45 | Needs 0, Wants 200, Savings 50 charts exactly Wants 200 then Savings 50 |
| `Dashboard.AlertsFor` | src/app/dashboard/page.tsx:58-78 | no alert without positive income; an alert for a category iff its share is strictly above its limit; never one for Savings; Needs before Wants; each alert's percentage is its share of income |
| `Dashboard.BudgetAlerts` | src/app/dashboard/page.tsx:58-78 | as written: Needs alert iff needs·100 > 50·income, Wants alert iff wants·100 > 30·income, only with positive income, never for Savings |
| `Dashboard.HardCodedLimitIgnoresSettings` | src/app/dashboard/page.tsx:63-70 | with a valid saved 60/20/20 split, a list with income 100 and a 55 Needs expense, taken through the page's aggregation, still raises the page's Needs alert, while the configured check stays silent |
| `Dashboard.ConfiguredAlerts` | src/app/dashboard/page.tsx:58-78 | corrected: the same alerts measured against the saved Needs and Wants percentages |
| `Dashboard.ConfiguredAlertsAgreeOnDefaults` | src/app/dashboard/settings/page.tsx:42-46 | under the 50/30/20 defaults the configured check and the page's check raise the same alerts |
| `Dashboard.AlertScenario` | src/app/dashboard/page.tsx:63-70 | a list with income 1000, a 600 Needs expense and a 100 Wants expense, taken through the page's aggregation, raises exactly one alert, Needs at 60% |
| `Dashboard.LimitsAreStrict` | src/app/dashboard/page.tsx:63-70 | exactly 50% on needs and exactly 30% on wants raise no alert |
| `Dashboard.AddTransaction` | src/app/dashboard/page.tsx:18-20 | the new list has one more element, is the old list plus the new transaction as a multiset, and is newest-first |
| `Dashboard.SummaryAfterAdd` | src/app/dashboard/page.tsx:18-28 | after an add, income, expense, Needs and Wants totals each change by exactly the new transaction's contribution |
| `Dashboard.AddKeepsInvariant` | src/app/dashboard/page.tsx:18-20 | adding a transaction that files income under Savings to a list where all do keeps that true for the whole list |
| `Dashboard.RecentTransactions` | src/app/dashboard/page.tsx:92 | the recent card gets min(10, n) transactions, the first ones, in order |
| `Drafting.ValidateForm` | src/components/dashboard/add-transaction-dialog.tsx:47-57 | a draft is accepted iff description length ≥ 2, amount > 0, and type, category and date are present; each rejection names exactly the failed conditions |
| `Drafting.DefaultFormRejected` | src/components/dashboard/add-transaction-dialog.tsx:76-81 | the default expense/Wants/0 form fails the schema (short description, amount not positive, no date) and the AI check |
| `Drafting.ValidFormCanSuggest` | src/components/dashboard/add-transaction-dialog.tsx:90-97 | every draft the schema accepts passes the AI button's check |
| `Drafting.SuggestionGateIsWeaker` | src/components/dashboard/add-transaction-dialog.tsx:90-97 | a one-character description passes the AI check but fails the schema |
| `Drafting.AiCategorize` | src/components/dashboard/add-transaction-dialog.tsx:86-114 | the flow is asked nothing unless the description and amount read at the click are non-empty and positive; a suggestion is produced iff it is asked and answers, and it is that answer |
| `Drafting.FormAfterAi` | src/components/dashboard/add-transaction-dialog.tsx:105-106 | an arriving suggestion sets the category of the form as it then stands and changes no other field; no suggestion changes nothing |
| `Drafting.LateAnswerOverwritesEdit` | src/components/dashboard/add-transaction-dialog.tsx:86-114 | an answer to a click replaces a category the user chose after the click, even when the edited form would no longer pass the button's check; the other edits stay |
| `Drafting.BuildRecord` | src/components/dashboard/add-transaction-dialog.tsx:126-131 | the written record is income-as-Savings, expense-as-selected, with description, amount, type and date unchanged and the user's id attached |
| `Drafting.Submit` | src/components/dashboard/add-transaction-dialog.tsx:116-153 | at most one write, issued iff the draft is valid and a user is signed in; the callback fires iff that write succeeds, with the written record |
| `Drafting.ResetOnlyAfterWrite` | src/components/dashboard/add-transaction-dialog.tsx:135-138 | the dialog is cleared iff its one write succeeded; a rejected draft, a missing user or a failed write leave the input in place, and a cleared dialog fails the schema again |
| `Drafting.IncomeIsWrittenAsSavings` | src/components/dashboard/add-transaction-dialog.tsx:129 | whatever the form and the AI suggested, every income record written is filed under Savings |
| `Drafting.SuggestionDecidesExpenseCategory` | src/components/dashboard/add-transaction-dialog.tsx:105-106 | for an expense, an accepted suggestion is the category that gets written |
| `Drafting.AddedRecordKeepsInvariant` | src/components/dashboard/add-transaction-dialog.tsx:137 | adding a successfully written record to a dashboard list that files all income under Savings keeps that true |
| `Settings.ValidateSettings` | src/app/dashboard/settings/page.tsx:17-24 | a configuration is accepted iff all three values are present, each in [0, 100], and they sum to exactly 100; each rejection names exactly the failed conditions |
| `Settings.DefaultsAreValid` | src/app/dashboard/settings/page.tsx:42-46 | the 50/30/20 defaults are accepted and can be submitted |
| `Settings.RejectedExamples` | src/app/dashboard/settings/page.tsx:17-24 | 50/30/21 is rejected for its sum only; -1/51/50 is rejected for its Needs range only |
| `Settings.ValidFormIsSubmittable` | src/app/dashboard/settings/page.tsx:169 | every configuration the schema accepts has a running total of 100, so its submit button is enabled |
| `Settings.SubmitGateMatchesSchema` | src/app/dashboard/settings/page.tsx:80-81 | for complete in-range values, the button is enabled iff the schema accepts |
| `Settings.TotalPercentage` | src/app/dashboard/settings/page.tsx:80-81 | for a complete form the total is the sum of the three values; with nothing set it is 0; with every set value in [0, 100] it lies in [0, 300] |
| `Settings.MissingCountsAsZero` | src/app/dashboard/settings/page.tsx:81 | the total treats an unset field exactly like a field set to 0 |
| `Settings.SubmitEnabled` | src/app/dashboard/settings/page.tsx:169 | for a complete form the button is enabled iff the three values sum to 100; a form with nothing set never enables it |
| `Settings.SubmitGateWeakerThanSchema` | src/app/dashboard/settings/page.tsx:80-81 | a missing field counts as 0 in the total, so 100 with two fields missing enables the button, and the schema then rejects it |
| `Settings.ActiveConfig` | src/app/dashboard/settings/page.tsx:38 | the active configuration is the query's first document, and is absent iff the query is empty |
| `Settings.LoadForm` | src/app/dashboard/settings/page.tsx:49-57 | a loaded configuration replaces all three form values; without one the form is unchanged |
| `Settings.SaveTarget` | src/app/dashboard/settings/page.tsx:62 | the save goes to the active document's id, or to "main" when there is none or its id is empty |
| `Settings.SaveSettings` | src/app/dashboard/settings/page.tsx:59-78 | a save happens iff the total is 100, the schema accepts, a user is signed in and the write succeeds; it sets exactly the target document to the three values plus the user id, and changes no other document |
| `Settings.SavesKeepStoreValid` | src/app/dashboard/settings/page.tsx:59-78 | if every stored configuration is valid, every one still is after any save attempt |
| `Settings.SaveThenLoad` | src/app/dashboard/settings/page.tsx:49-65 | reloading the document just saved puts the submitted values back into the form |
| `Reports.FindMonth` | src/app/dashboard/reports/page.tsx:28 | the lookup finds a bucket with the month's key iff the report has one |
| `Reports.AddToReport` | src/app/dashboard/reports/page.tsx:28-35 | booking a transaction credits income or expense of its own month's bucket and leaves every other bucket alone; a new month gets a fresh bucket at the end; keys stay distinct and in place |
| `Reports.MonthlyBuckets` | src/app/dashboard/reports/page.tsx:26-36 | each month any transaction falls in has exactly one bucket, and there are no other buckets |
| `Reports.MonthlyReport` | src/app/dashboard/reports/page.tsx:22-42 | absent data gives no buckets; otherwise the buckets have distinct keys, exactly the months seen |
| `Reports.BucketsHoldTheirMonth` | src/app/dashboard/reports/page.tsx:31-35 | each bucket's income is the income of its month, and its expense is everything else in its month |
| `Reports.BucketsInFirstSeenOrder` | src/app/dashboard/reports/page.tsx:28-41 | buckets come in the order their months are first met: an earlier bucket's month occurs before any transaction of a later bucket's month |
| `Reports.BucketsAddUpToTotals` | src/app/dashboard/reports/page.tsx:26-36 | summed over all buckets, income and expense equal the overall income and expense totals |
| `Reports.CategoryRows` | src/app/dashboard/reports/page.tsx:46-61 | exactly three rows, Needs, Wants, Savings in that order, each the expense total of its category; income is ignored |
| `Reports.CategoryReport` | src/app/dashboard/reports/page.tsx:44-62 | absent data gives no rows; an empty list gives three zero rows; otherwise the three expense totals |
| `Reports.CategoryRowsAddUpToExpenses` | src/app/dashboard/reports/page.tsx:52-56 | the three rows add up to total expenses |
| `Listing.SortedTransactions` | src/app/dashboard/transactions/page.tsx:24-27 | absent data gives an empty list; otherwise a permutation of the input, newest first, with same-date transactions in input order |

## Left out

- Storage, subscriptions and sign-in are left out. A write's success is the parameter `writeOk`, a query result is a sequence parameter, and the signed-in user is an `Option`. Loading states are not modelled.
- The AI flow is an external model call. Its answer is the parameter `reply`. A flow that throws is modelled like no answer (`NoSuggestion`): the form is unchanged.
- The login and signup pages, the dashboard layout and the pure rendering components are left out. So are toasts, the `toFixed(0)` rounding of displayed percentages and the locale month formatting; `monthOf` stands for the formatting.
- JavaScript floating point is left out: `real` arithmetic is exact. A share that is exactly 50% as a real may land on either side of 50 in floating point.
- `z.coerce.number()` turning text into a number, and NaN values, are not modelled. The amount is already a number.
- `Drafting.ValidateForm` counts a description's length in characters. The schema counts UTF-16 code units.
- Invalid date strings, which give NaN in the sort's comparator, are not modelled. The calendar's bounds on selectable dates (no future dates, none before 1900) are a widget restriction and are not modelled.
- `Reports.MonthlyBuckets` assumes the month keys are never integer-like strings. Such strings would make `Object.entries` list them first in numeric order, and locale month names never are.
- The dashboard's initial list comes from mock data; `src/lib/data` is not part of this model. The record the dialog passes to the dashboard has no `id`; `Drafting.Listed` takes the id as a parameter.
- A stored configuration document is assumed to carry all three numbers. Fields other than the three percentages and `userId` are not modelled, so the merge-write is modelled as replacing those four fields.
- The stability of JavaScript's sort is modelled, not the engine's algorithm.

## Findings

| source | as written | input that shows it | evidently intended | confidence | as-written member | corrected member |
|---|---|---|---|---|---|---|
| src/app/dashboard/page.tsx:63-70 | the alert check compares the Needs and Wants shares against the literals 50 and 30, and the saved percentages are never read | saved configuration 60/20/20, income 100, needs 55: the page warns about Needs although 55% is within the user's 60% | compare against the saved Needs and Wants percentages (defaults 50/30 when none is saved) | medium; not executed | `Dashboard.BudgetAlerts` (counterexample: `Dashboard.HardCodedLimitIgnoresSettings`) | `Dashboard.ConfiguredAlerts` (agrees with the page under the defaults: `Dashboard.ConfiguredAlertsAgreeOnDefaults`) |
