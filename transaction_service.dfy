/**
 * FinancialService (services/rest/transactions.rest.ts): the transaction
 * operations, each run through the request client and each answering the
 * whole list. A failed request comes back as `data: null`, which every list
 * operation turns into [] and getSummary into a zero summary: none of them
 * raises an error.
 *
 * The clock is not modelled: the id and date of a new transaction are
 * parameters, and whether a request lost its race against the timer is the
 * input `timedOut`.
 */
module TransactionService {
  import opened Model
  import opened Storage
  import ApiClient
  import Validation

  /** The record createTransaction builds from validated form data. */
  function NewTransaction(id: string, date: string, data: Validation.TransactionFormData): (t: Transaction)
    requires Validation.ParseAmount(data.amount).Some?
    ensures t.id == id && t.date == date
    ensures t.description == data.description && t.category == data.category && t.kind == data.kind
    ensures t.amount == Validation.ParseAmount(data.amount).value
  {
    Transaction(id, data.description, Validation.ParseAmount(data.amount).value, data.category, data.kind, date)
  }

  /** The list updateTransaction saves: `transactions.map(t => t.id === id ? {...t, <four fields>} : t)`. */
  function UpdateById(ts: seq<Transaction>, id: string, data: Validation.TransactionFormData): (r: seq<Transaction>)
    requires Validation.ParseAmount(data.amount).Some?
    ensures |r| == |ts|
    ensures forall i :: 0 <= i < |ts| ==> r[i].id == ts[i].id && r[i].date == ts[i].date
    ensures forall i :: 0 <= i < |ts| && ts[i].id == id ==>
      && r[i].description == data.description
      && r[i].amount == Validation.ParseAmount(data.amount).value
      && r[i].category == data.category
      && r[i].kind == data.kind
    ensures forall i :: 0 <= i < |ts| && ts[i].id != id ==> r[i] == ts[i]
    ensures (forall t :: t in ts ==> t.id != id) ==> r == ts
  {
    var amount := Validation.ParseAmount(data.amount).value;
    seq(|ts|, i requires 0 <= i < |ts| =>
      if ts[i].id == id
      then ts[i].(description := data.description, amount := amount, category := data.category, kind := data.kind)
      else ts[i])
  }

  /** getTransactions: the stored list when the request goes through, [] otherwise. */
  method GetTransactions(store: LocalStorage, email: string, timedOut: bool) returns (r: seq<Transaction>)
    ensures ApiClient.IsAuthenticated(store) && !timedOut ==> r == Stored(store.transactionLists, email)
    ensures !ApiClient.IsAuthenticated(store) || timedOut ==> r == []
  {
    var authenticated := ApiClient.IsAuthenticated(store);
    var outcome: ApiClient.Outcome<seq<Transaction>> := ApiClient.TimedOut;  // not consulted when the gate rejects
    if ApiClient.Admitted(false, authenticated) {
      var list := store.GetTransactions(email);
      outcome := ApiClient.Race(list, timedOut);
    }
    var response := ApiClient.Request(false, authenticated, outcome);
    r := response.data.GetOr([]);
  }

  /**
   * createTransaction: with a signed-in user, exactly one new record goes in
   * front of the stored list (even when the timer wins the race); the caller
   * sees that list, or [] if the request failed.
   */
  method CreateTransaction(store: LocalStorage, email: string, data: Validation.TransactionFormData,
                           id: string, date: string, timedOut: bool) returns (r: seq<Transaction>)
    requires Validation.ParseAmount(data.amount).Some?
    modifies store`transactionLists
    ensures var created := [NewTransaction(id, date, data)] + Stored(old(store.transactionLists), email);
      && (ApiClient.IsAuthenticated(store) ==> store.transactionLists == old(store.transactionLists)[email := created])
      && (!ApiClient.IsAuthenticated(store) ==> store.transactionLists == old(store.transactionLists))
      && r == if ApiClient.IsAuthenticated(store) && !timedOut then created else []
  {
    var authenticated := ApiClient.IsAuthenticated(store);
    var outcome: ApiClient.Outcome<seq<Transaction>> := ApiClient.TimedOut;  // not consulted when the gate rejects
    if ApiClient.Admitted(false, authenticated) {
      var t := NewTransaction(id, date, data);
      var list := store.AddTransaction(email, t);
      outcome := ApiClient.Race(list, timedOut);
    }
    var response := ApiClient.Request(false, authenticated, outcome);
    r := response.data.GetOr([]);
  }

  /** updateTransaction: the stored list with the matching records' four fields replaced. */
  method UpdateTransaction(store: LocalStorage, email: string, id: string, data: Validation.TransactionFormData,
                           timedOut: bool) returns (r: seq<Transaction>)
    requires Validation.ParseAmount(data.amount).Some?
    modifies store`transactionLists
    ensures var updated := UpdateById(Stored(old(store.transactionLists), email), id, data);
      && (ApiClient.IsAuthenticated(store) ==> store.transactionLists == old(store.transactionLists)[email := updated])
      && (!ApiClient.IsAuthenticated(store) ==> store.transactionLists == old(store.transactionLists))
      && r == if ApiClient.IsAuthenticated(store) && !timedOut then updated else []
  {
    var authenticated := ApiClient.IsAuthenticated(store);
    var outcome: ApiClient.Outcome<seq<Transaction>> := ApiClient.TimedOut;  // not consulted when the gate rejects
    if ApiClient.Admitted(false, authenticated) {
      var list := store.GetTransactions(email);
      var updated := UpdateById(list, id, data);
      store.SaveTransactions(email, updated);
      outcome := ApiClient.Race(updated, timedOut);
    }
    var response := ApiClient.Request(false, authenticated, outcome);
    r := response.data.GetOr([]);
  }

  /** deleteTransaction: the stored list without the records carrying this id. */
  method DeleteTransaction(store: LocalStorage, email: string, id: string, timedOut: bool) returns (r: seq<Transaction>)
    modifies store`transactionLists
    ensures var remaining := WithoutId(Stored(old(store.transactionLists), email), id);
      && (ApiClient.IsAuthenticated(store) ==> store.transactionLists == old(store.transactionLists)[email := remaining])
      && (!ApiClient.IsAuthenticated(store) ==> store.transactionLists == old(store.transactionLists))
      && r == if ApiClient.IsAuthenticated(store) && !timedOut then remaining else []
  {
    var response := DeleteRequest(store, email, id, timedOut);
    r := response.data.GetOr([]);
  }

  /** The request deleteTransaction sends, before its `?? []`. */
  method DeleteRequest(store: LocalStorage, email: string, id: string, timedOut: bool)
    returns (response: ApiResponse<seq<Transaction>>)
    modifies store`transactionLists
    ensures var remaining := WithoutId(Stored(old(store.transactionLists), email), id);
      && (ApiClient.IsAuthenticated(store) ==> store.transactionLists == old(store.transactionLists)[email := remaining])
      && (!ApiClient.IsAuthenticated(store) ==> store.transactionLists == old(store.transactionLists))
      && response == ApiClient.Request(false, ApiClient.IsAuthenticated(store), ApiClient.Race(remaining, timedOut))
  {
    var authenticated := ApiClient.IsAuthenticated(store);
    var outcome: ApiClient.Outcome<seq<Transaction>> := ApiClient.TimedOut;  // not consulted when the gate rejects
    if ApiClient.Admitted(false, authenticated) {
      var list := store.DeleteTransaction(email, id);
      outcome := ApiClient.Race(list, timedOut);
    }
    response := ApiClient.Request(false, authenticated, outcome);
  }

  /**
   * What a caller of the service can observe: the returned list, or a failure
   * carrying the thrown message (None for a thrown value without one).
   */
  datatype ServiceResult = Delivered(list: seq<Transaction>) | Failed(message: Option<string>)

  /**
   * deleteTransaction as its caller's rollback evidently expects it: a failed
   * request is reported as a failure carrying the client's message, instead of
   * being turned into an empty list.
   */
  method DeleteTransactionChecked(store: LocalStorage, email: string, id: string, timedOut: bool)
    returns (r: ServiceResult)
    modifies store`transactionLists
    ensures var remaining := WithoutId(Stored(old(store.transactionLists), email), id);
      && (ApiClient.IsAuthenticated(store) ==> store.transactionLists == old(store.transactionLists)[email := remaining])
      && (!ApiClient.IsAuthenticated(store) ==> store.transactionLists == old(store.transactionLists))
      && (r.Delivered? <==> ApiClient.IsAuthenticated(store) && !timedOut)
      && (r.Delivered? ==> r.list == remaining)
      && (!ApiClient.IsAuthenticated(store) ==> r == Failed(Some(ApiClient.NotAuthenticated)))
      && (ApiClient.IsAuthenticated(store) && timedOut ==> r == Failed(Some(ApiClient.RequestTimeout)))
  {
    var response := DeleteRequest(store, email, id, timedOut);
    if response.success {
      r := Delivered(response.data.value);
    } else {
      r := Failed(response.error);
    }
  }

  /** getSummary: skips the gate; the summary of its argument, or all zeros if the request fails. */
  function GetSummary(ts: seq<Transaction>, timedOut: bool): (s: Summary)
    ensures !timedOut ==> s == CalculateSummary(ts)
    ensures timedOut ==> s == ZeroSummary
  {
    ApiClient.Request(true, false, ApiClient.Race(CalculateSummary(ts), timedOut)).data.GetOr(ZeroSummary)
  }
}
