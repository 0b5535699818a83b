/**
 * The transactions session (hooks/use-transactions.ts): one state record
 * holding the list, its summary, the last error and three busy flags, updated
 * step by step by load, create, update and delete, with an optimistic removal
 * and a rollback on delete.
 *
 * Each operation takes what the service call produced as an input (a list, or
 * a failure with its thrown message), so the hook's failure paths can be
 * followed. The methods at the end of the class wire the hook to the service
 * as the source does, and to a service that reports failures instead.
 */
module TransactionsHook {
  import opened Model
  import opened Storage
  import ApiClient
  import TransactionService

  datatype ErrorAction = Retry | Reload

  /** UseTransactionsError; the optional `code` is never set and is not modelled. */
  datatype SessionError = SessionError(message: string, action: ErrorAction)

  datatype ToastVariant = Destructive | Success

  /** A notification handed to the toast library. */
  datatype Toast = Toast(description: string, variant: ToastVariant)

  /** What create, update and delete resolve to. */
  datatype OpResult = OpResult(success: bool, error: Option<string>)

  datatype SessionState = SessionState(
    transactions: seq<Transaction>,
    summary: Summary,
    error: Option<SessionError>,
    isLoading: bool,
    isCreating: bool,
    isDeleting: bool)

  const InitialState := SessionState([], ZeroSummary, None, false, false, false)

  const NotAuthenticatedMessage: string := "Usuário não autenticado"
  const CreatedMessage: string := "Transação criada com sucesso!"
  const UpdatedMessage: string := "Transação atualizada com sucesso!"
  const DeletedMessage: string := "Transação excluída com sucesso!"

  const LoadAction: string := "carregar transações"
  const CreateAction: string := "criar transação"
  const UpdateAction: string := "atualizar transação"
  const DeleteAction: string := "deletar transação"
  const NoUserSuffix: string := " - usuário não autenticado"

  /**
   * handleError's record: the thrown message when there is a non-empty one,
   * otherwise "Erro ao <action>"; always tagged for retry, never blank.
   */
  function ErrorFor(thrown: Option<string>, action: string): (e: SessionError)
    ensures e.action == Retry
    ensures |e.message| > 0
    ensures thrown.Some? && thrown.value != "" ==> e.message == thrown.value
    ensures thrown.None? || thrown.value == "" ==> e.message == "Erro ao " + action
  {
    var message := if thrown.Some? && thrown.value != "" then thrown.value else "Erro ao " + action;
    SessionError(message, Retry)
  }

  /** The summary shown is the summary of the list shown. */
  predicate Consistent(s: SessionState) {
    s.summary == CalculateSummary(s.transactions)
  }

  /** The session starts empty, with nothing running, and consistent. */
  lemma InitialStateConsistent()
    ensures Consistent(InitialState)
    ensures InitialState.error.None? && !InitialState.isLoading && !InitialState.isCreating && !InitialState.isDeleting
  {
  }

  class TransactionSession {
    /** the hook's argument */
    const userEmail: Option<string>
    var state: SessionState
    /** every notification shown, in order */
    var toasts: seq<Toast>

    constructor (userEmail: Option<string>)
      ensures this.userEmail == userEmail && state == InitialState && toasts == []
    {
      this.userEmail := userEmail;
      state := InitialState;
      toasts := [];
    }

    /** `!userEmail` is false: an email is present and not empty. */
    predicate HasUser() {
      userEmail.Some? && userEmail.value != ""
    }

    /** handleError: builds the error record and shows it as a destructive toast. */
    method HandleError(thrown: Option<string>, action: string) returns (e: SessionError)
      modifies this`toasts
      ensures e == ErrorFor(thrown, action)
      ensures toasts == old(toasts) + [Toast(e.message, Destructive)]
    {
      e := ErrorFor(thrown, action);
      toasts := toasts + [Toast(e.message, Destructive)];
    }

    /** The early exit of create, update and delete: an error toast, and the state untouched. */
    method RejectWithoutUser(action: string) returns (r: OpResult)
      modifies this`toasts
      ensures var message := "Erro ao " + action + NoUserSuffix;
        && r == OpResult(false, Some(message))
        && toasts == old(toasts) + [Toast(message, Destructive)]
    {
      var e := HandleError(None, action + NoUserSuffix);
      assert "Erro ao " + (action + NoUserSuffix) == "Erro ao " + action + NoUserSuffix;
      r := OpResult(false, Some(e.message));
    }

    /**
     * loadTransactions: without a user only the error changes (to a reload
     * prompt); otherwise the delivered list and its summary are shown, or the
     * failure is reported.
     */
    method LoadTransactions(outcome: TransactionService.ServiceResult)
      modifies this`state, this`toasts
      ensures !HasUser() ==>
        && state == old(state).(error := Some(SessionError(NotAuthenticatedMessage, Reload)))
        && toasts == old(toasts)
      ensures HasUser() && outcome.Delivered? ==>
        && state == old(state).(transactions := outcome.list, summary := CalculateSummary(outcome.list),
                                error := None, isLoading := false)
        && toasts == old(toasts)
      ensures HasUser() && outcome.Failed? ==> var e := ErrorFor(outcome.message, LoadAction);
        && state == old(state).(error := Some(e), isLoading := false)
        && toasts == old(toasts) + [Toast(e.message, Destructive)]
      ensures old(Consistent(state)) || (HasUser() && outcome.Delivered?) ==> Consistent(state)
    {
      if !HasUser() {
        state := state.(error := Some(SessionError(NotAuthenticatedMessage, Reload)));
        return;
      }
      state := state.(isLoading := true, error := None);
      match outcome {
        case Delivered(list) =>
          var summary := TransactionService.GetSummary(list, false);
          state := state.(transactions := list, summary := summary, error := None, isLoading := false);
        case Failed(message) =>
          var e := HandleError(message, LoadAction);
          state := state.(error := Some(e), isLoading := false);
      }
    }

    /** createTransaction: the delivered list replaces the shown one; a failure changes only the error. */
    method CreateTransaction(outcome: TransactionService.ServiceResult) returns (r: OpResult)
      modifies this`state, this`toasts
      ensures !HasUser() ==> var message := "Erro ao " + CreateAction + NoUserSuffix;
        && state == old(state)
        && toasts == old(toasts) + [Toast(message, Destructive)]
        && r == OpResult(false, Some(message))
      ensures HasUser() && outcome.Delivered? ==>
        && state == old(state).(transactions := outcome.list, summary := CalculateSummary(outcome.list),
                                error := None, isCreating := false)
        && toasts == old(toasts) + [Toast(CreatedMessage, Success)]
        && r == OpResult(true, None)
      ensures HasUser() && outcome.Failed? ==> var e := ErrorFor(outcome.message, CreateAction);
        && state == old(state).(error := Some(e), isCreating := false)
        && toasts == old(toasts) + [Toast(e.message, Destructive)]
        && r == OpResult(false, Some(e.message))
      ensures old(Consistent(state)) || (HasUser() && outcome.Delivered?) ==> Consistent(state)
    {
      if !HasUser() {
        r := RejectWithoutUser(CreateAction);
        return;
      }
      state := state.(isCreating := true, error := None);
      match outcome {
        case Delivered(list) =>
          var summary := TransactionService.GetSummary(list, false);
          state := state.(transactions := list, summary := summary, error := None, isCreating := false);
          toasts := toasts + [Toast(CreatedMessage, Success)];
          r := OpResult(true, None);
        case Failed(message) =>
          var e := HandleError(message, CreateAction);
          state := state.(error := Some(e), isCreating := false);
          r := OpResult(false, Some(e.message));
      }
    }

    /**
     * updateTransaction: like create, but it uses the `isCreating` flag too and
     * a failure puts back the list it found on entry.
     */
    method UpdateTransaction(outcome: TransactionService.ServiceResult) returns (r: OpResult)
      modifies this`state, this`toasts
      ensures !HasUser() ==> var message := "Erro ao " + UpdateAction + NoUserSuffix;
        && state == old(state)
        && toasts == old(toasts) + [Toast(message, Destructive)]
        && r == OpResult(false, Some(message))
      ensures HasUser() && outcome.Delivered? ==>
        && state == old(state).(transactions := outcome.list, summary := CalculateSummary(outcome.list),
                                error := None, isCreating := false)
        && toasts == old(toasts) + [Toast(UpdatedMessage, Success)]
        && r == OpResult(true, None)
      ensures HasUser() && outcome.Failed? ==> var e := ErrorFor(outcome.message, UpdateAction);
        && state == old(state).(error := Some(e), isCreating := false)
        && toasts == old(toasts) + [Toast(e.message, Destructive)]
        && r == OpResult(false, Some(e.message))
      ensures old(Consistent(state)) || (HasUser() && outcome.Delivered?) ==> Consistent(state)
    {
      if !HasUser() {
        r := RejectWithoutUser(UpdateAction);
        return;
      }
      var previous := state.transactions;
      state := state.(isCreating := true, error := None);
      match outcome {
        case Delivered(list) =>
          var summary := TransactionService.GetSummary(list, false);
          state := state.(transactions := list, summary := summary, error := None, isCreating := false);
          toasts := toasts + [Toast(UpdatedMessage, Success)];
          r := OpResult(true, None);
        case Failed(message) =>
          var e := HandleError(message, UpdateAction);
          state := state.(transactions := previous, error := Some(e), isCreating := false);
          r := OpResult(false, Some(e.message));
      }
    }

    /**
     * The optimistic first half of deleteTransaction, run before the service
     * call: every record with the id leaves the shown list (the summary is not
     * recomputed yet). Returns the list as it was, for the rollback.
     */
    method BeginDelete(id: string) returns (snapshot: seq<Transaction>)
      modifies this`state
      ensures snapshot == old(state.transactions)
      ensures state == old(state).(transactions := WithoutId(old(state.transactions), id),
                                   error := None, isDeleting := true)
    {
      snapshot := state.transactions;
      state := state.(isDeleting := true, error := None, transactions := WithoutId(state.transactions, id));
    }

    /** The second half, once the service has answered: keep its list, or roll back to the snapshot. */
    method FinishDelete(snapshot: seq<Transaction>, outcome: TransactionService.ServiceResult) returns (r: OpResult)
      modifies this`state, this`toasts
      ensures outcome.Delivered? ==>
        && state == old(state).(transactions := outcome.list, summary := CalculateSummary(outcome.list),
                                error := None, isDeleting := false)
        && toasts == old(toasts) + [Toast(DeletedMessage, Success)]
        && r == OpResult(true, None)
      ensures outcome.Failed? ==> var e := ErrorFor(outcome.message, DeleteAction);
        && state == old(state).(transactions := snapshot, error := Some(e), isDeleting := false)
        && toasts == old(toasts) + [Toast(e.message, Destructive)]
        && r == OpResult(false, Some(e.message))
    {
      match outcome {
        case Delivered(list) =>
          var summary := TransactionService.GetSummary(list, false);
          state := state.(transactions := list, summary := summary, error := None, isDeleting := false);
          toasts := toasts + [Toast(DeletedMessage, Success)];
          r := OpResult(true, None);
        case Failed(message) =>
          var e := HandleError(message, DeleteAction);
          state := state.(transactions := snapshot, error := Some(e), isDeleting := false);
          r := OpResult(false, Some(e.message));
      }
    }

    /**
     * deleteTransaction: a failure restores exactly the list found on entry
     * and leaves the summary as it was.
     */
    method DeleteTransaction(id: string, outcome: TransactionService.ServiceResult) returns (r: OpResult)
      modifies this`state, this`toasts
      ensures !HasUser() ==> var message := "Erro ao " + DeleteAction + NoUserSuffix;
        && state == old(state)
        && toasts == old(toasts) + [Toast(message, Destructive)]
        && r == OpResult(false, Some(message))
      ensures HasUser() && outcome.Delivered? ==>
        && state == old(state).(transactions := outcome.list, summary := CalculateSummary(outcome.list),
                                error := None, isDeleting := false)
        && toasts == old(toasts) + [Toast(DeletedMessage, Success)]
        && r == OpResult(true, None)
      ensures HasUser() && outcome.Failed? ==> var e := ErrorFor(outcome.message, DeleteAction);
        && state == old(state).(error := Some(e), isDeleting := false)
        && toasts == old(toasts) + [Toast(e.message, Destructive)]
        && r == OpResult(false, Some(e.message))
      ensures old(Consistent(state)) || (HasUser() && outcome.Delivered?) ==> Consistent(state)
    {
      if !HasUser() {
        r := RejectWithoutUser(DeleteAction);
        return;
      }
      var snapshot := BeginDelete(id);
      r := FinishDelete(snapshot, outcome);
    }

    /** retryLastAction: only a retry-tagged error clears and reloads; anything else is ignored. */
    method RetryLastAction(outcome: TransactionService.ServiceResult)
      modifies this`state, this`toasts
      ensures !(old(state.error).Some? && old(state.error).value.action == Retry) ==>
        state == old(state) && toasts == old(toasts)
      ensures old(state.error).Some? && old(state.error).value.action == Retry ==>
        && (!HasUser() ==>
              && state == old(state).(error := Some(SessionError(NotAuthenticatedMessage, Reload)))
              && toasts == old(toasts))
        && (HasUser() && outcome.Delivered? ==>
              && state == old(state).(transactions := outcome.list, summary := CalculateSummary(outcome.list),
                                      error := None, isLoading := false)
              && toasts == old(toasts))
        && (HasUser() && outcome.Failed? ==> var e := ErrorFor(outcome.message, LoadAction);
              && state == old(state).(error := Some(e), isLoading := false)
              && toasts == old(toasts) + [Toast(e.message, Destructive)])
      ensures old(Consistent(state)) ==> Consistent(state)
    {
      if state.error.Some? && state.error.value.action == Retry {
        state := state.(error := None);
        LoadTransactions(outcome);
      }
    }

    /**
     * deleteTransaction wired to the service as the source has it: the
     * service's `?? []` turns every failure into a delivered empty list.
     */
    method DeleteViaService(store: LocalStorage, id: string, timedOut: bool) returns (r: OpResult)
      modifies this`state, this`toasts, store`transactionLists
      ensures HasUser() ==>
        var remaining := WithoutId(Stored(old(store.transactionLists), userEmail.value), id);
        var shown := if ApiClient.IsAuthenticated(store) && !timedOut then remaining else [];
        && r == OpResult(true, None)
        && state == old(state).(transactions := shown, summary := CalculateSummary(shown),
                                error := None, isDeleting := false)
        && toasts == old(toasts) + [Toast(DeletedMessage, Success)]
      ensures HasUser() && ApiClient.IsAuthenticated(store) ==>
        store.transactionLists == old(store.transactionLists)[userEmail.value :=
          WithoutId(Stored(old(store.transactionLists), userEmail.value), id)]
      ensures !HasUser() || !ApiClient.IsAuthenticated(store) ==> store.transactionLists == old(store.transactionLists)
      ensures !HasUser() ==> var message := "Erro ao " + DeleteAction + NoUserSuffix;
        && state == old(state)
        && toasts == old(toasts) + [Toast(message, Destructive)]
        && r == OpResult(false, Some(message))
    {
      if !HasUser() {
        r := RejectWithoutUser(DeleteAction);
        return;
      }
      var snapshot := BeginDelete(id);
      var list := TransactionService.DeleteTransaction(store, userEmail.value, id, timedOut);
      r := FinishDelete(snapshot, TransactionService.Delivered(list));
    }

    /**
     * deleteTransaction wired to a service that reports its failures: the
     * rollback runs, and the client's message reaches the user.
     */
    method DeleteViaCheckedService(store: LocalStorage, id: string, timedOut: bool) returns (r: OpResult)
      modifies this`state, this`toasts, store`transactionLists
      ensures HasUser() && !ApiClient.IsAuthenticated(store) ==>
        && r == OpResult(false, Some(ApiClient.NotAuthenticated))
        && state == old(state).(error := Some(SessionError(ApiClient.NotAuthenticated, Retry)), isDeleting := false)
        && toasts == old(toasts) + [Toast(ApiClient.NotAuthenticated, Destructive)]
      ensures !HasUser() || !ApiClient.IsAuthenticated(store) ==> store.transactionLists == old(store.transactionLists)
      ensures HasUser() && ApiClient.IsAuthenticated(store) ==>
        store.transactionLists == old(store.transactionLists)[userEmail.value :=
          WithoutId(Stored(old(store.transactionLists), userEmail.value), id)]
      ensures HasUser() && ApiClient.IsAuthenticated(store) && timedOut ==>
        && r == OpResult(false, Some(ApiClient.RequestTimeout))
        && state == old(state).(error := Some(SessionError(ApiClient.RequestTimeout, Retry)), isDeleting := false)
        && toasts == old(toasts) + [Toast(ApiClient.RequestTimeout, Destructive)]
      ensures HasUser() && ApiClient.IsAuthenticated(store) && !timedOut ==>
        var remaining := WithoutId(Stored(old(store.transactionLists), userEmail.value), id);
        && r == OpResult(true, None)
        && state == old(state).(transactions := remaining, summary := CalculateSummary(remaining),
                                error := None, isDeleting := false)
        && toasts == old(toasts) + [Toast(DeletedMessage, Success)]
      ensures !HasUser() ==> var message := "Erro ao " + DeleteAction + NoUserSuffix;
        && state == old(state)
        && toasts == old(toasts) + [Toast(message, Destructive)]
        && r == OpResult(false, Some(message))
      ensures old(Consistent(state)) ==> Consistent(state)
    {
      if !HasUser() {
        r := RejectWithoutUser(DeleteAction);
        return;
      }
      var snapshot := BeginDelete(id);
      var outcome := TransactionService.DeleteTransactionChecked(store, userEmail.value, id, timedOut);
      r := FinishDelete(snapshot, outcome);
    }
  }

  // ---------------------------------------------------------------------------
  // A failed delete, as written and as intended

  const ExampleEmail: string := "ana@example.com"
  const Salary := Transaction("1", "Salário", 1000.0, "Salário", Income, "2024-01-05")
  const Rent := Transaction("2", "Aluguel", 400.0, "Moradia", Expense, "2024-01-10")

  /**
   * The session still holds an email, but the store's current-user record is
   * gone (signed out in another tab). Deleting Salary from [Salary, Rent]: the
   * request is refused, the service hands back [], and the hook shows an empty
   * list with a success toast while the store still holds both records.
   */
  method SwallowedDeleteFailure() returns (shown: seq<Transaction>, res: OpResult, lastToast: Toast, kept: seq<Transaction>)
    ensures shown == [] && res.success && lastToast == Toast(DeletedMessage, Success)
    ensures kept == [Salary, Rent]
  {
    var store := new LocalStorage();
    store.SaveTransactions(ExampleEmail, [Salary, Rent]);
    var session := new TransactionSession(Some(ExampleEmail));
    session.LoadTransactions(TransactionService.Delivered([Salary, Rent]));
    res := session.DeleteViaService(store, Salary.id, false);
    shown := session.state.transactions;
    lastToast := session.toasts[|session.toasts| - 1];
    kept := Stored(store.transactionLists, ExampleEmail);
  }

  /** The same deletion through the checked service: the list comes back and the error is reported for retry. */
  method CheckedDeleteRestores() returns (shown: seq<Transaction>, res: OpResult, error: Option<SessionError>, kept: seq<Transaction>)
    ensures shown == [Salary, Rent] && kept == [Salary, Rent]
    ensures res == OpResult(false, Some(ApiClient.NotAuthenticated))
    ensures error == Some(SessionError(ApiClient.NotAuthenticated, Retry))
  {
    var store := new LocalStorage();
    store.SaveTransactions(ExampleEmail, [Salary, Rent]);
    var session := new TransactionSession(Some(ExampleEmail));
    session.LoadTransactions(TransactionService.Delivered([Salary, Rent]));
    res := session.DeleteViaCheckedService(store, Salary.id, false);
    shown := session.state.transactions;
    error := session.state.error;
    kept := Stored(store.transactionLists, ExampleEmail);
  }
}
