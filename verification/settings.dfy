/**
  The budget-percentage settings screen: the three target percentages, the
  form's validation (each in [0, 100], all three summing to exactly 100), the
  running total that gates the submit button, the choice of the active
  configuration document and the merge-write that saves it.
 */
module Settings {
  import opened Types

  /** A validated set of target percentages. */
  datatype Config = Config(needs: real, wants: real, savings: real)

  /** The 50/30/20 rule the form starts from. */
  const DefaultConfig := Config(50.0, 30.0, 20.0)

  datatype Field = NeedsField | WantsField | SavingsField

  /** One validation issue, in the order the schema reports them. */
  datatype ConfigError = Missing(field: Field) | OutOfRange(field: Field) | SumNot100

  /** The form's three fields; a field may be unset, e.g. after loading a
      document that lacks it. */
  datatype SettingsForm = SettingsForm(needs: Option<real>, wants: Option<real>, savings: Option<real>)

  const DefaultForm := SettingsForm(Some(DefaultConfig.needs), Some(DefaultConfig.wants), Some(DefaultConfig.savings))

  /** A configuration document as the query returns it: the document id plus
      its stored fields. */
  datatype ConfigDoc = ConfigDoc(id: string, needs: real, wants: real, savings: real, userId: string)

  /** The fields a saved configuration document holds. */
  datatype StoredConfig = StoredConfig(needs: real, wants: real, savings: real, userId: string)

  /** The id the save falls back to when the user has no configuration yet. */
  const MainDocId := "main"

  predicate InPercentRange(x: real) {
    0.0 <= x <= 100.0
  }

  /** The schema's acceptance condition on a complete set of percentages. */
  predicate ValidConfig(c: Config) {
    && InPercentRange(c.needs)
    && InPercentRange(c.wants)
    && InPercentRange(c.savings)
    && c.needs + c.wants + c.savings == 100.0
  }

  function FieldValue(f: SettingsForm, which: Field): Option<real> {
    match which
    case NeedsField => f.needs
    case WantsField => f.wants
    case SavingsField => f.savings
  }

  predicate Complete(f: SettingsForm) {
    f.needs.Some? && f.wants.Some? && f.savings.Some?
  }

  function FieldErrors(v: Option<real>, which: Field): seq<ConfigError> {
    match v
    case None => [Missing(which)]
    case Some(x) => if InPercentRange(x) then [] else [OutOfRange(which)]
  }

  /** All issues of a form. A missing field aborts the object parse, so the
      sum refinement only runs when all three fields are present; a range
      failure does not abort, so the sum is still checked then. */
  function SettingsErrors(f: SettingsForm): seq<ConfigError> {
    FieldErrors(f.needs, NeedsField) + FieldErrors(f.wants, WantsField) + FieldErrors(f.savings, SavingsField)
    + (if Complete(f) && f.needs.value + f.wants.value + f.savings.value != 100.0 then [SumNot100] else [])
  }

  /** What one field contributes to the issue list. */
  lemma FieldErrorsList(v: Option<real>, which: Field)
    ensures forall w: Field :: Missing(w) in FieldErrors(v, which) <==> w == which && v.None?
    ensures forall w: Field :: OutOfRange(w) in FieldErrors(v, which) <==> w == which && v.Some? && !InPercentRange(v.value)
    ensures SumNot100 !in FieldErrors(v, which)
    ensures FieldErrors(v, which) == [] <==> v.Some? && InPercentRange(v.value)
  {
  }

  /** The issue list names exactly the failed conditions. */
  lemma SettingsErrorsList(f: SettingsForm)
    ensures forall w: Field :: Missing(w) in SettingsErrors(f) <==> FieldValue(f, w).None?
    ensures forall w: Field ::
      OutOfRange(w) in SettingsErrors(f) <==> FieldValue(f, w).Some? && !InPercentRange(FieldValue(f, w).value)
    ensures SumNot100 in SettingsErrors(f) <==> Complete(f) && f.needs.value + f.wants.value + f.savings.value != 100.0
    ensures SettingsErrors(f) == [] <==> Complete(f) && ValidConfig(Config(f.needs.value, f.wants.value, f.savings.value))
  {
    FieldErrorsList(f.needs, NeedsField);
    FieldErrorsList(f.wants, WantsField);
    FieldErrorsList(f.savings, SavingsField);
    var a, b, c := FieldErrors(f.needs, NeedsField), FieldErrors(f.wants, WantsField), FieldErrors(f.savings, SavingsField);
    var sum := if Complete(f) && f.needs.value + f.wants.value + f.savings.value != 100.0 then [SumNot100] else [];
    assert SettingsErrors(f) == a + b + c + sum;
    forall e ensures e in SettingsErrors(f) <==> e in a || e in b || e in c || e in sum {
    }
  }

  /** The settings schema: a configuration is accepted iff all three fields
      are present, each lies in [0, 100] and they sum to exactly 100. */
  function ValidateSettings(f: SettingsForm): (r: Result<Config, seq<ConfigError>>)
    ensures r.Success? <==> Complete(f) && ValidConfig(Config(f.needs.value, f.wants.value, f.savings.value))
    ensures r.Success? ==> r.value == Config(f.needs.value, f.wants.value, f.savings.value)
    ensures r.Failure? ==> |r.error| > 0
    ensures r.Failure? ==> forall w: Field :: Missing(w) in r.error <==> FieldValue(f, w).None?
    ensures r.Failure? ==> forall w: Field ::
      OutOfRange(w) in r.error <==> FieldValue(f, w).Some? && !InPercentRange(FieldValue(f, w).value)
    ensures r.Failure? ==>
      (SumNot100 in r.error <==> Complete(f) && f.needs.value + f.wants.value + f.savings.value != 100.0)
  {
    SettingsErrorsList(f);
    var errs := SettingsErrors(f);
    if errs == [] then
      Success(Config(f.needs.value, f.wants.value, f.savings.value))
    else
      Failure(errs)
  }

  /** A field's contribution to the displayed total: its value, or 0 when unset. */
  function OrZero(v: Option<real>): real {
    match v
    case None => 0.0
    case Some(x) => x
  }

  /** The running total shown under the sliders. */
  function TotalPercentage(f: SettingsForm): (total: real)
    ensures Complete(f) ==> total == f.needs.value + f.wants.value + f.savings.value
    ensures f == SettingsForm(None, None, None) ==> total == 0.0
    ensures (forall w: Field :: FieldValue(f, w).Some? ==> InPercentRange(FieldValue(f, w).value)) ==>
      0.0 <= total <= 300.0
  {
    assert FieldValue(f, NeedsField) == f.needs && FieldValue(f, WantsField) == f.wants;
    assert FieldValue(f, SavingsField) == f.savings;
    OrZero(f.needs) + OrZero(f.wants) + OrZero(f.savings)
  }

  /** The form with one field replaced. */
  function WithField(f: SettingsForm, which: Field, v: Option<real>): SettingsForm {
    match which
    case NeedsField => f.(needs := v)
    case WantsField => f.(wants := v)
    case SavingsField => f.(savings := v)
  }

  /** The total treats an unset field exactly like a field set to 0. */
  lemma MissingCountsAsZero(f: SettingsForm, which: Field)
    requires FieldValue(f, which).None?
    ensures TotalPercentage(f) == TotalPercentage(WithField(f, which, Some(0.0)))
    ensures FieldValue(WithField(f, which, Some(0.0)), which) == Some(0.0)
  {
  }

  /** The submit button is enabled exactly when the running total is 100:
      for a complete form, when the three values sum to 100; never for a
      form with nothing set. */
  function SubmitEnabled(f: SettingsForm): (enabled: bool)
    ensures Complete(f) ==> (enabled <==> f.needs.value + f.wants.value + f.savings.value == 100.0)
    ensures f == SettingsForm(None, None, None) ==> !enabled
  {
    TotalPercentage(f) == 100.0
  }

  /** Every form the schema accepts can also be submitted. */
  lemma ValidFormIsSubmittable(f: SettingsForm)
    ensures ValidateSettings(f).Success? ==> SubmitEnabled(f)
  {
  }

  /** For complete forms with in-range fields, the button's gate and the
      schema agree. */
  lemma SubmitGateMatchesSchema(f: SettingsForm)
    requires Complete(f)
    requires InPercentRange(f.needs.value) && InPercentRange(f.wants.value) && InPercentRange(f.savings.value)
    ensures SubmitEnabled(f) <==> ValidateSettings(f).Success?
  {
  }

  /** The gate counts a missing field as 0, so it can enable submission of a
      form the schema then rejects. */
  lemma SubmitGateWeakerThanSchema()
    ensures SubmitEnabled(SettingsForm(Some(100.0), None, None))
    ensures ValidateSettings(SettingsForm(Some(100.0), None, None)) == Failure([Missing(WantsField), Missing(SavingsField)])
  {
    var f := SettingsForm(Some(100.0), None, None);
    assert SettingsErrors(f) == [Missing(WantsField), Missing(SavingsField)];
    assert ValidateSettings(f) == Failure(SettingsErrors(f));
  }

  /** The 50/30/20 defaults are accepted and submittable. */
  lemma DefaultsAreValid()
    ensures ValidateSettings(DefaultForm) == Success(DefaultConfig)
    ensures ValidConfig(DefaultConfig)
    ensures SubmitEnabled(DefaultForm)
  {
  }

  /** A sum of 101 and a negative field are both rejected, each with its own issue. */
  lemma RejectedExamples()
    ensures ValidateSettings(SettingsForm(Some(50.0), Some(30.0), Some(21.0))) == Failure([SumNot100])
    ensures ValidateSettings(SettingsForm(Some(-1.0), Some(51.0), Some(50.0))) == Failure([OutOfRange(NeedsField)])
  {
    var over := SettingsForm(Some(50.0), Some(30.0), Some(21.0));
    assert SettingsErrors(over) == [SumNot100];
    assert ValidateSettings(over) == Failure(SettingsErrors(over));
    var negative := SettingsForm(Some(-1.0), Some(51.0), Some(50.0));
    assert FieldErrors(negative.needs, NeedsField) == [OutOfRange(NeedsField)];
    assert SettingsErrors(negative) == [OutOfRange(NeedsField)];
    assert ValidateSettings(negative) == Failure(SettingsErrors(negative));
  }

  /** The active configuration is the first document of the query result. */
  function ActiveConfig(query: seq<ConfigDoc>): (r: Option<ConfigDoc>)
    ensures r.None? <==> |query| == 0
    ensures r.Some? ==> r.value == query[0]
  {
    if |query| == 0 then None else Some(query[0])
  }

  /** Loading an active configuration replaces all three form values; with
      none, the form keeps what it has (initially the defaults). */
  function LoadForm(current: SettingsForm, active: Option<ConfigDoc>): (r: SettingsForm)
    ensures active.None? ==> r == current
    ensures active.Some? ==> Complete(r)
    ensures active.Some? ==>
      r.needs.value == active.value.needs && r.wants.value == active.value.wants && r.savings.value == active.value.savings
  {
    match active
    case None => current
    case Some(doc) => SettingsForm(Some(doc.needs), Some(doc.wants), Some(doc.savings))
  }

  /** The document a save writes to: the active one's id, or "main" when
      there is none (an empty id counts as none). */
  function SaveTarget(active: Option<ConfigDoc>): (id: string)
    ensures id != ""
    ensures active.Some? && active.value.id != "" ==> id == active.value.id
    ensures (active.None? || active.value.id == "") ==> id == MainDocId
  {
    if active.Some? && active.value.id != "" then active.value.id else MainDocId
  }

  datatype SaveOutcome =
    | SubmitDisabled
    | Rejected(errors: seq<ConfigError>)
    | NotSignedIn
    | SaveFailed
    | Saved(store: map<string, StoredConfig>)

  /** One press of the save button against the user's configuration
      documents `store`: gated by the running total, then validated, then
      (only for a signed-in user) merged into the target document. */
  function SaveSettings(f: SettingsForm, user: Option<string>, active: Option<ConfigDoc>,
                        store: map<string, StoredConfig>, writeOk: bool): (r: SaveOutcome)
    ensures r.Saved? <==> SubmitEnabled(f) && ValidateSettings(f).Success? && user.Some? && writeOk
    ensures r.Rejected? <==> SubmitEnabled(f) && ValidateSettings(f).Failure?
    ensures r.Saved? ==>
      var target := SaveTarget(active);
      && target in r.store
      && r.store[target] == StoredConfig(f.needs.value, f.wants.value, f.savings.value, user.value)
      && r.store.Keys == store.Keys + {target}
      && (forall k :: k in store && k != target ==> r.store[k] == store[k])
  {
    if !SubmitEnabled(f) then SubmitDisabled
    else
      match ValidateSettings(f)
      case Failure(errs) => Rejected(errs)
      case Success(c) =>
        if user.None? then NotSignedIn
        else if !writeOk then SaveFailed
        else Saved(store[SaveTarget(active) := StoredConfig(c.needs, c.wants, c.savings, user.value)])
  }

  /** The documents after a save attempt: only a successful save changes them. */
  function StoreAfter(store: map<string, StoredConfig>, r: SaveOutcome): map<string, StoredConfig> {
    if r.Saved? then r.store else store
  }

  predicate StoredValid(s: StoredConfig) {
    ValidConfig(Config(s.needs, s.wants, s.savings))
  }

  /** A stored configuration is only ever replaced by a valid one, so a store
      of valid configurations stays valid whatever the user submits. */
  lemma SavesKeepStoreValid(f: SettingsForm, user: Option<string>, active: Option<ConfigDoc>,
                            store: map<string, StoredConfig>, writeOk: bool)
    requires forall k :: k in store ==> StoredValid(store[k])
    ensures var after := StoreAfter(store, SaveSettings(f, user, active, store, writeOk));
            forall k :: k in after ==> StoredValid(after[k])
  {
  }

  /** Saving then reloading the saved document shows the submitted values. */
  lemma SaveThenLoad(f: SettingsForm, user: Option<string>, active: Option<ConfigDoc>,
                     store: map<string, StoredConfig>, current: SettingsForm)
    requires SaveSettings(f, user, active, store, true).Saved?
    ensures var target := SaveTarget(active);
            var saved := SaveSettings(f, user, active, store, true).store[target];
            LoadForm(current, ActiveConfig([ConfigDoc(target, saved.needs, saved.wants, saved.savings, saved.userId)])) == f
  {
  }
}
