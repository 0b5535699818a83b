/**
 * The transaction form dialog (components/transaction-modal.tsx), without its
 * rendering: create or edit mode, the form's starting values, the amount
 * input filter, the submitted record, and the busy flag that locks closing.
 */
module TransactionModal {
  import opened Model
  import opened Seqs
  import Validation

  /** The record an edit starts from; the amount is already text. */
  datatype InitialData = InitialData(id: Option<string>, description: string, amount: string, category: string, kind: TxType)

  /** What the dialog hands to its `onSubmit`; the amount is `parseFloat` of the text (None is NaN). */
  datatype SubmitData = SubmitData(id: Option<string>, description: string, amount: Option<real>, category: string, kind: TxType)

  /** The form's field values; None is a field the form has not set. */
  datatype FormValues = FormValues(description: Option<string>, amount: Option<string>, category: Option<string>, kind: Option<TxType>)

  datatype Messages = Messages(title: string, description: string, submitButtonLoading: string, submitButton: string)

  const CreateMessages := Messages(
    "Cadastrar Transação",
    "Preencha os dados abaixo para cadastrar uma nova transação financeira.",
    "Cadastrando...",
    "Cadastrar")

  const EditMessages := Messages(
    "Editar Transação",
    "Atualize os dados da transação conforme necessário.",
    "Atualizando...",
    "Atualizar")

  predicate IsEditMode(initialData: Option<InitialData>) {
    initialData.Some?
  }

  /** The dialog's texts: the edit set exactly in edit mode. */
  function MessagesFor(initialData: Option<InitialData>): (m: Messages)
    ensures m == EditMessages <==> IsEditMode(initialData)
    ensures m == CreateMessages <==> !IsEditMode(initialData)
  {
    if IsEditMode(initialData) then EditMessages else CreateMessages
  }

  /**
   * `initialData || DEFAULT_FORM_VALUES`: an edit starts from the record;
   * a new transaction starts with only the type set, to income.
   */
  function DefaultValues(initialData: Option<InitialData>): (v: FormValues)
    ensures !IsEditMode(initialData) ==> v.kind == Some(Income) && v.description.None? && v.amount.None? && v.category.None?
    ensures IsEditMode(initialData) ==>
      && v.kind == Some(initialData.value.kind)
      && v.amount == Some(initialData.value.amount)
      && v.description == Some(initialData.value.description)
      && v.category == Some(initialData.value.category)
  {
    match initialData
    case None => FormValues(None, None, None, Some(Income))
    case Some(d) => FormValues(Some(d.description), Some(d.amount), Some(d.category), Some(d.kind))
  }

  /** The submitted record: the form's fields, the amount as a number, and the id of the record being edited. */
  function BuildSubmit(initialData: Option<InitialData>, data: Validation.TransactionFormData): (r: SubmitData)
    ensures r.id == if IsEditMode(initialData) then initialData.value.id else None
    ensures r.description == data.description && r.category == data.category && r.kind == data.kind
    ensures r.amount == Validation.ParseAmount(data.amount)
  {
    SubmitData(
      if initialData.Some? then initialData.value.id else None,
      data.description,
      Validation.ParseAmount(data.amount),
      data.category,
      data.kind)
  }

  /** A form the schema accepted always yields a positive numeric amount. */
  lemma SubmitOfAcceptedForm(initialData: Option<InitialData>, form: Validation.RawTransactionForm)
    requires Validation.ValidateTransaction(form).Ok?
    ensures var r := BuildSubmit(initialData, Validation.ValidateTransaction(form).value);
      r.amount.Some? && r.amount.value > 0.0
  {
  }

  // ---------------------------------------------------------------------------
  // The amount input filter

  /** The characters the amount input lets through: `[0-9,]`. */
  predicate AmountChar(c: char) {
    '0' <= c <= '9' || c == ','
  }

  /** sanitizeAmountInput: `value.replace(/[^0-9,]/g, "")`. */
  function SanitizeAmountInput(s: string): (r: string)
    ensures |r| <= |s|
    ensures forall i :: 0 <= i < |r| ==> AmountChar(r[i])
  {
    if s == [] then []
    else if AmountChar(s[0]) then [s[0]] + SanitizeAmountInput(s[1..])
    else SanitizeAmountInput(s[1..])
  }

  /** The output keeps the input's digits and commas in their original order. */
  lemma {:induction false} SanitizeIsSubsequence(s: string)
    ensures IsSubsequence(SanitizeAmountInput(s), s)
  {
    if s != [] {
      SanitizeIsSubsequence(s[1..]);
      var r := SanitizeAmountInput(s);
      if AmountChar(s[0]) {
        assert r[0] == s[0] && r[1..] == SanitizeAmountInput(s[1..]);
      } else if r != [] {
        assert !AmountChar(s[0]) && AmountChar(r[0]);
      }
    }
  }

  /** Every digit and comma survives, as often as it occurs; everything else goes. */
  lemma {:induction false} SanitizeCounts(s: string, c: char)
    ensures multiset(SanitizeAmountInput(s))[c] == if AmountChar(c) then multiset(s)[c] else 0
  {
    if s != [] {
      SanitizeCounts(s[1..], c);
      assert s == [s[0]] + s[1..];
    }
  }

  /** A string of digits and commas passes through unchanged. */
  lemma {:induction false} SanitizeFixpoint(s: string)
    requires forall i :: 0 <= i < |s| ==> AmountChar(s[i])
    ensures SanitizeAmountInput(s) == s
  {
    if s != [] {
      assert AmountChar(s[0]);
      SanitizeFixpoint(s[1..]);
      assert [s[0]] + s[1..] == s;
    }
  }

  /** Filtering twice is filtering once. */
  lemma SanitizeIdempotent(s: string)
    ensures SanitizeAmountInput(SanitizeAmountInput(s)) == SanitizeAmountInput(s)
  {
    SanitizeFixpoint(SanitizeAmountInput(s));
  }

  // ---------------------------------------------------------------------------
  // The dialog's state

  /**
   * One mounted dialog. `submitted` and `closeRequests` record the calls to
   * the `onSubmit` and `onClose` props; `values` is the form's content.
   */
  class TransactionModalView {
    const initialData: Option<InitialData>
    var isLoading: bool
    var values: FormValues
    var submitted: seq<SubmitData>
    var closeRequests: nat

    constructor (initialData: Option<InitialData>)
      ensures this.initialData == initialData
      ensures !isLoading && values == DefaultValues(initialData) && submitted == [] && closeRequests == 0
      ensures SubmittedPositive()
    {
      this.initialData := initialData;
      isLoading := false;
      values := DefaultValues(initialData);
      submitted := [];
      closeRequests := 0;
    }

    /** Every record handed to `onSubmit` carries a positive number as its amount. */
    predicate SubmittedPositive()
      reads this
    {
      forall i :: 0 <= i < |submitted| ==> submitted[i].amount.Some? && submitted[i].amount.value > 0.0
    }

    /** The effect run when `isOpen` changes: opening starts the form over. */
    method ResetOnOpen(isOpen: bool)
      modifies this`values
      ensures values == if isOpen then DefaultValues(initialData) else old(values)
    {
      if isOpen {
        values := DefaultValues(initialData);
      }
    }

    /** The first step of onSubmitForm, before its delay. */
    method BeginSubmit()
      modifies this`isLoading
      ensures isLoading
    {
      isLoading := true;
    }

    /** The rest of onSubmitForm, after the delay: hand over the record, unlock, reset the form. */
    method FinishSubmit(data: Validation.TransactionFormData)
      modifies this`submitted, this`isLoading, this`values
      ensures submitted == old(submitted) + [BuildSubmit(initialData, data)]
      ensures !isLoading && values == DefaultValues(initialData)
    {
      var record := BuildSubmit(initialData, data);
      submitted := submitted + [record];
      isLoading := false;
      values := DefaultValues(initialData);
    }

    method OnSubmitForm(data: Validation.TransactionFormData)
      modifies this`submitted, this`isLoading, this`values
      ensures submitted == old(submitted) + [BuildSubmit(initialData, data)]
      ensures !isLoading && values == DefaultValues(initialData)
    {
      BeginSubmit();
      FinishSubmit(data);
    }

    /**
     * `handleSubmit(onSubmitForm)`: the schema decides; a rejected form
     * reports its issues and nothing is submitted.
     */
    method HandleSubmit(form: Validation.RawTransactionForm) returns (issues: seq<Validation.Issue>)
      modifies this`submitted, this`isLoading, this`values
      ensures Validation.ValidateTransaction(form).Err? ==>
        && issues == Validation.ValidateTransaction(form).error
        && submitted == old(submitted) && isLoading == old(isLoading) && values == old(values)
      ensures Validation.ValidateTransaction(form).Ok? ==>
        && issues == []
        && submitted == old(submitted) + [BuildSubmit(initialData, Validation.ValidateTransaction(form).value)]
        && !isLoading && values == DefaultValues(initialData)
      ensures old(SubmittedPositive()) ==> SubmittedPositive()
    {
      var checked := Validation.ValidateTransaction(form);
      match checked {
        case Ok(data) =>
          SubmitOfAcceptedForm(initialData, form);
          OnSubmitForm(data);
          issues := [];
        case Err(found) =>
          issues := found;
      }
    }

    /** handleClose: ignored while a submission is in flight. */
    method HandleClose()
      modifies this`values, this`closeRequests
      ensures old(isLoading) ==> values == old(values) && closeRequests == old(closeRequests)
      ensures !old(isLoading) ==> values == DefaultValues(initialData) && closeRequests == old(closeRequests) + 1
    {
      if !isLoading {
        values := DefaultValues(initialData);
        closeRequests := closeRequests + 1;
      }
    }

    /** handleAmountChange: the typed text, filtered, becomes the amount field. */
    method HandleAmountChange(raw: string)
      modifies this`values
      ensures values == old(values).(amount := Some(SanitizeAmountInput(raw)))
      ensures forall i :: 0 <= i < |values.amount.value| ==> AmountChar(values.amount.value[i])
    {
      var sanitized := SanitizeAmountInput(raw);
      values := values.(amount := Some(sanitized));
    }
  }
}
