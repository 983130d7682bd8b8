/**
  The add-transaction dialog: the form schema, the gate in front of the AI
  category suggestion, how a suggestion changes the form, and the submit
  path that resolves the final category (income is always Savings) and issues
  at most one write.
 */
module Drafting {
  import opened Types
  import Dashboard

  /** The dialog's form state; type, category and date may be unset. */
  datatype FormValues = FormValues(
    description: string,
    amount: real,
    txType: Option<TxType>,
    category: Option<Category>,
    date: Option<int>)

  /** The values the form opens (and is reset) with. */
  const DefaultForm := FormValues("", 0.0, Some(Expense), Some(Wants), None)

  const MinDescriptionLength: nat := 2

  /** One schema issue, in the order of the schema's fields. */
  datatype DraftError = DescriptionTooShort | AmountNotPositive | TypeRequired | CategoryRequired | DateRequired

  /** A form the schema accepted. */
  datatype Draft = Draft(description: string, amount: real, txType: TxType, category: Category, date: int)

  /** The AI flow's answer: one of the three categories and a reason. */
  datatype Suggestion = Suggestion(category: Category, explanation: string)

  /** What pressing the AI button leads to. The answer arrives later and is
      applied to the form as it is then (`FormAfterAi`). */
  datatype AiOutcome =
    | MissingInformation
    | NoSuggestion
    | Suggested(suggestion: Suggestion)

  /** The record written to the user's transactions collection; the date is
      the timestamp the ISO string encodes. */
  datatype NewTransaction = NewTransaction(
    description: string,
    amount: real,
    txType: TxType,
    category: Category,
    date: int,
    userId: string)

  /** What submitting the dialog leads to. */
  datatype SubmitOutcome =
    | Rejected(errors: seq<DraftError>)
    | NotSignedIn
    | WriteFailed(attempted: NewTransaction)
    | Added(record: NewTransaction)

  function DraftErrors(f: FormValues): seq<DraftError> {
    (if |f.description| < MinDescriptionLength then [DescriptionTooShort] else [])
    + (if f.amount <= 0.0 then [AmountNotPositive] else [])
    + (if f.txType.None? then [TypeRequired] else [])
    + (if f.category.None? then [CategoryRequired] else [])
    + (if f.date.None? then [DateRequired] else [])
  }

  /** The form schema: a description of at least two characters, a positive
      amount, and a type, a category and a date. */
  function ValidateForm(f: FormValues): (r: Result<Draft, seq<DraftError>>)
    ensures r.Success? <==>
      |f.description| >= MinDescriptionLength && f.amount > 0.0 && f.txType.Some? && f.category.Some? && f.date.Some?
    ensures r.Success? ==> r.value == Draft(f.description, f.amount, f.txType.value, f.category.value, f.date.value)
    ensures r.Failure? ==> |r.error| > 0
    ensures r.Failure? ==> (DescriptionTooShort in r.error <==> |f.description| < MinDescriptionLength)
    ensures r.Failure? ==> (AmountNotPositive in r.error <==> f.amount <= 0.0)
    ensures r.Failure? ==> (TypeRequired in r.error <==> f.txType.None?)
    ensures r.Failure? ==> (CategoryRequired in r.error <==> f.category.None?)
    ensures r.Failure? ==> (DateRequired in r.error <==> f.date.None?)
  {
    var errs := DraftErrors(f);
    if errs == [] then
      Success(Draft(f.description, f.amount, f.txType.value, f.category.value, f.date.value))
    else
      Failure(errs)
  }

  /** The AI button's own check: a non-empty description and a positive amount. */
  predicate CanSuggest(f: FormValues) {
    f.description != "" && f.amount > 0.0
  }

  /** Pressing the AI button on form `f`, with `reply` as the flow's answer:
      only the description and amount read at the click decide whether the
      flow is asked; a missing or failed answer yields no suggestion. */
  function AiCategorize(f: FormValues, reply: Option<Suggestion>): (r: AiOutcome)
    ensures r.MissingInformation? <==> !CanSuggest(f)
    ensures r.Suggested? <==> CanSuggest(f) && reply.Some?
    ensures r.Suggested? ==> r.suggestion == reply.value
  {
    if !CanSuggest(f) then MissingInformation
    else
      match reply
      case None => NoSuggestion
      case Some(s) => Suggested(s)
  }

  /** The form once the outcome lands on `current`, the form as the user has
      left it meanwhile: a suggestion overwrites the category and no other
      field; any other outcome changes nothing. */
  function FormAfterAi(current: FormValues, o: AiOutcome): (r: FormValues)
    ensures o.Suggested? ==> r.category == Some(o.suggestion.category)
    ensures !o.Suggested? ==> r == current
    ensures r.description == current.description && r.amount == current.amount
    ensures r.txType == current.txType && r.date == current.date
  {
    if o.Suggested? then current.(category := Some(o.suggestion.category)) else current
  }

  /** Nothing discards an answer that arrives after the user has edited the
      form: the suggestion replaces a category chosen after the click, even
      when the edited form would no longer pass the button's check, while
      the other edits stay. */
  lemma LateAnswerOverwritesEdit(clicked: FormValues, edited: FormValues, s: Suggestion)
    requires CanSuggest(clicked)
    ensures FormAfterAi(edited, AiCategorize(clicked, Some(s))).category == Some(s.category)
    ensures FormAfterAi(edited, AiCategorize(clicked, Some(s))).description == edited.description
    ensures FormAfterAi(edited, AiCategorize(clicked, Some(s))).amount == edited.amount
  {
  }

  /** Every form the schema accepts passes the AI button's check. */
  lemma ValidFormCanSuggest(f: FormValues)
    ensures ValidateForm(f).Success? ==> CanSuggest(f)
  {
  }

  /** The AI check is weaker than the schema: a one-character description
      passes it and is then rejected on submit. */
  lemma SuggestionGateIsWeaker()
    ensures CanSuggest(FormValues("a", 5.0, Some(Expense), Some(Wants), Some(0)))
    ensures ValidateForm(FormValues("a", 5.0, Some(Expense), Some(Wants), Some(0))) == Failure([DescriptionTooShort])
  {
    var f := FormValues("a", 5.0, Some(Expense), Some(Wants), Some(0));
    assert DraftErrors(f) == [DescriptionTooShort];
  }

  /** The default form is an expense in Wants with amount 0: the schema
      rejects it and the AI button refuses it. */
  lemma DefaultFormRejected()
    ensures ValidateForm(DefaultForm) == Failure([DescriptionTooShort, AmountNotPositive, DateRequired])
    ensures !CanSuggest(DefaultForm)
  {
    assert DraftErrors(DefaultForm) == [DescriptionTooShort, AmountNotPositive, DateRequired];
  }

  /** The submit-time category rule. */
  function ResolveCategory(t: TxType, selected: Category): Category {
    if t == Income then Savings else selected
  }

  /** The record `onSubmit` builds from an accepted draft. */
  function BuildRecord(d: Draft, uid: string): (n: NewTransaction)
    ensures n.txType == Income ==> n.category == Savings
    ensures n.txType == Expense ==> n.category == d.category
    ensures n.description == d.description && n.amount == d.amount && n.txType == d.txType && n.date == d.date
    ensures n.userId == uid
  {
    NewTransaction(d.description, d.amount, d.txType, ResolveCategory(d.txType, d.category), d.date, uid)
  }

  /** The writes a submit issues to the transactions collection. */
  function Writes(r: SubmitOutcome): seq<NewTransaction> {
    match r
    case WriteFailed(n) => [n]
    case Added(n) => [n]
    case _ => []
  }

  /** The record handed to `onTransactionAdded`, if any. */
  function Notified(r: SubmitOutcome): Option<NewTransaction> {
    if r.Added? then Some(r.record) else None
  }

  /** The form after a submit: reset to the defaults only after a successful write. */
  function FormAfterSubmit(f: FormValues, r: SubmitOutcome): FormValues {
    if r.Added? then DefaultForm else f
  }

  /** The dialog is cleared exactly when its one write succeeded: a rejected
      draft, a missing user or a failed write leave the user's input in
      place, and a cleared dialog is one the schema rejects again. */
  lemma ResetOnlyAfterWrite(f: FormValues, user: Option<string>, writeOk: bool)
    ensures var r := Submit(f, user, writeOk);
            FormAfterSubmit(f, r) != f ==> r.Added? && |Writes(r)| == 1
    ensures var r := Submit(f, user, writeOk);
            r.Added? <==> FormAfterSubmit(f, r) == DefaultForm && |Writes(r)| == 1 && writeOk
    ensures !Submit(f, user, writeOk).Added? ==> FormAfterSubmit(f, Submit(f, user, writeOk)) == f
    ensures Submit(f, user, writeOk).Added? ==> ValidateForm(FormAfterSubmit(f, Submit(f, user, writeOk))).Failure?
  {
    DefaultFormRejected();
  }

  /** Submitting the dialog, with `writeOk` as the outcome of the one write:
      the schema runs first, then a signed-in user is required, then exactly
      one record is written; the callback fires only after it succeeds. */
  function Submit(f: FormValues, user: Option<string>, writeOk: bool): (r: SubmitOutcome)
    ensures r.Rejected? <==> ValidateForm(f).Failure?
    ensures r.NotSignedIn? <==> ValidateForm(f).Success? && user.None?
    ensures |Writes(r)| <= 1
    ensures |Writes(r)| == 1 <==> ValidateForm(f).Success? && user.Some?
    ensures r.Added? <==> ValidateForm(f).Success? && user.Some? && writeOk
    ensures Notified(r).Some? <==> r.Added?
    ensures r.Added? ==> Writes(r) == [r.record] && Notified(r) == Some(r.record)
    ensures |Writes(r)| == 1 ==> Writes(r)[0] == BuildRecord(ValidateForm(f).value, user.value)
  {
    match ValidateForm(f)
    case Failure(errs) => Rejected(errs)
    case Success(d) =>
      if user.None? then NotSignedIn
      else
        var record := BuildRecord(d, user.value);
        if writeOk then Added(record) else WriteFailed(record)
  }

  /** Whatever the form's category and whatever the AI suggested, every
      income record written is filed under Savings. */
  lemma IncomeIsWrittenAsSavings(clicked: FormValues, current: FormValues, reply: Option<Suggestion>, user: Option<string>, writeOk: bool)
    ensures var r := Submit(FormAfterAi(current, AiCategorize(clicked, reply)), user, writeOk);
            forall i :: 0 <= i < |Writes(r)| ==> (Writes(r)[i].txType == Income ==> Writes(r)[i].category == Savings)
  {
  }

  /** For an expense, an accepted suggestion decides the written category. */
  lemma SuggestionDecidesExpenseCategory(clicked: FormValues, current: FormValues, s: Suggestion, user: Option<string>, writeOk: bool)
    requires CanSuggest(clicked) && current.txType == Some(Expense)
    ensures var r := Submit(FormAfterAi(current, AiCategorize(clicked, Some(s))), user, writeOk);
            forall i :: 0 <= i < |Writes(r)| ==> Writes(r)[i].category == s.category
  {
  }

  /** The transaction the dashboard lists for a written record, with the id
      the store assigned. */
  function Listed(n: NewTransaction, id: string): (t: Transaction)
    ensures t.id == id && t.date == n.date && t.description == n.description
    ensures t.amount == n.amount && t.txType == n.txType && t.category == n.category
  {
    Transaction(id, n.date, n.description, n.amount, n.txType, n.category)
  }

  /** Adding what the dialog wrote to a dashboard list that keeps the
      income-is-Savings invariant keeps it. */
  lemma AddedRecordKeepsInvariant(prev: seq<Transaction>, f: FormValues, user: Option<string>, id: string)
    requires AllIncomeIsSavings(prev)
    requires Submit(f, user, true).Added?
    ensures AllIncomeIsSavings(Dashboard.AddTransaction(prev, Listed(Submit(f, user, true).record, id)))
  {
    Dashboard.AddKeepsInvariant(prev, Listed(Submit(f, user, true).record, id));
  }
}
