/**
 * The browser storage layer (lib/storage.ts): per-user transaction lists under
 * the keys `transactions_<email>`, the user table under "users" and the
 * current-user record under "currentUser", plus the pure summary aggregator.
 */
module Storage {
  import opened Model
  import opened Seqs

  /** What is stored under `transactions_<email>`: the saved list, or [] when the key is absent. */
  function Stored(lists: map<string, seq<Transaction>>, email: string): seq<Transaction> {
    if email in lists then lists[email] else []
  }

  /** `transactions.filter(t => t.id !== id)`. */
  function WithoutId(ts: seq<Transaction>, id: string): (r: seq<Transaction>)
    ensures |r| <= |ts|
    ensures forall t :: t in r ==> t in ts && t.id != id
  {
    if ts == [] then []
    else if ts[0].id != id then [ts[0]] + WithoutId(ts[1..], id)
    else WithoutId(ts[1..], id)
  }

  /** `transactions.filter(t => t.type === kind)`. */
  function OfKind(ts: seq<Transaction>, kind: TxType): (r: seq<Transaction>)
    ensures forall t :: t in r ==> t in ts && t.kind == kind
  {
    if ts == [] then []
    else if ts[0].kind == kind then [ts[0]] + OfKind(ts[1..], kind)
    else OfKind(ts[1..], kind)
  }

  /** The filter keeps every record of the kind, as often as it occurs, and no other record. */
  lemma {:induction false} OfKindCounts(ts: seq<Transaction>, kind: TxType, t: Transaction)
    ensures multiset(OfKind(ts, kind))[t] == if t.kind == kind then multiset(ts)[t] else 0
  {
    if ts != [] {
      OfKindCounts(ts[1..], kind, t);
      assert ts == [ts[0]] + ts[1..];
    }
  }

  /**
   * `reduce((sum, t) => sum + t.amount, 0)`: a left fold, last element added
   * last. Amounts that pass the schema are positive, and so is never less
   * than zero.
   */
  function Total(ts: seq<Transaction>): (r: real)
    ensures (forall t :: t in ts ==> t.amount > 0.0) ==> r >= 0.0
  {
    if ts == [] then 0.0
    else
      assert forall t :: t in ts[..|ts| - 1] ==> t in ts;
      Total(ts[..|ts| - 1]) + ts[|ts| - 1].amount
  }

  /** calculateSummary: income and expense totals, and their difference as the balance. */
  function CalculateSummary(ts: seq<Transaction>): (s: Summary)
    ensures s.balance == s.income - s.expenses
    ensures ts == [] ==> s == ZeroSummary
  {
    var income := Total(OfKind(ts, Income));
    var expenses := Total(OfKind(ts, Expense));
    Summary(income, expenses, income - expenses)
  }

  // ---------------------------------------------------------------------------
  // Deleting by id

  /**
   * Deleting keeps every record with another id, with its multiplicity, and
   * drops every record with this id (ids from `Date.now()` may repeat, and all
   * records sharing the id go).
   */
  lemma {:induction false} WithoutIdCounts(ts: seq<Transaction>, id: string, t: Transaction)
    ensures multiset(WithoutId(ts, id))[t] == if t.id == id then 0 else multiset(ts)[t]
  {
    if ts != [] {
      WithoutIdCounts(ts[1..], id, t);
      assert ts == [ts[0]] + ts[1..];
    }
  }

  /** Deleting keeps the remaining records in their original order. */
  lemma {:induction false} WithoutIdIsSubsequence(ts: seq<Transaction>, id: string)
    ensures IsSubsequence(WithoutId(ts, id), ts)
  {
    if ts != [] {
      WithoutIdIsSubsequence(ts[1..], id);
      var r := WithoutId(ts, id);
      if ts[0].id != id {
        assert r[0] == ts[0] && r[1..] == WithoutId(ts[1..], id);
      } else if r != [] {
        assert r[0] in r;
      }
    }
  }

  /** Deleting an id no record carries leaves the list as it was. */
  lemma {:induction false} WithoutAbsentId(ts: seq<Transaction>, id: string)
    requires forall t :: t in ts ==> t.id != id
    ensures WithoutId(ts, id) == ts
  {
    if ts != [] {
      assert ts[0] in ts;
      assert forall t :: t in ts[1..] ==> t in ts;
      WithoutAbsentId(ts[1..], id);
      assert [ts[0]] + ts[1..] == ts;
    }
  }

  /** Deleting the same id twice is the same as deleting it once. */
  lemma WithoutIdIdempotent(ts: seq<Transaction>, id: string)
    ensures WithoutId(WithoutId(ts, id), id) == WithoutId(ts, id)
  {
    WithoutAbsentId(WithoutId(ts, id), id);
  }

  // ---------------------------------------------------------------------------
  // Summary arithmetic

  /** The left fold agrees with adding the head first. */
  lemma {:induction false} TotalOfCons(t: Transaction, ts: seq<Transaction>)
    ensures Total([t] + ts) == t.amount + Total(ts)
    decreases |ts|
  {
    if ts != [] {
      var s := [t] + ts;
      assert s[..|s| - 1] == [t] + ts[..|ts| - 1];
      TotalOfCons(t, ts[..|ts| - 1]);
    }
  }

  /** With positive amounts (what the form schema admits), income and expenses are both non-negative. */
  lemma SummaryNonNegative(ts: seq<Transaction>)
    requires forall t :: t in ts ==> t.amount > 0.0
    ensures CalculateSummary(ts).income >= 0.0 && CalculateSummary(ts).expenses >= 0.0
  {
  }

  /**
   * Prepending a transaction (what addTransaction does) raises the total of
   * its own kind by its amount and leaves the other total as it was.
   */
  lemma SummaryOfPrepend(t: Transaction, ts: seq<Transaction>)
    ensures var before, after := CalculateSummary(ts), CalculateSummary([t] + ts);
      && after.income == before.income + (if t.kind == Income then t.amount else 0.0)
      && after.expenses == before.expenses + (if t.kind == Expense then t.amount else 0.0)
      && after.balance == before.balance + (if t.kind == Income then t.amount else -t.amount)
  {
    var s := [t] + ts;
    assert s[0] == t && s[1..] == ts;
    if t.kind == Income {
      assert OfKind(s, Income) == [t] + OfKind(ts, Income);
      TotalOfCons(t, OfKind(ts, Income));
    } else {
      assert OfKind(s, Expense) == [t] + OfKind(ts, Expense);
      TotalOfCons(t, OfKind(ts, Expense));
    }
  }

  // ---------------------------------------------------------------------------
  // The store itself

  /**
   * The browser's localStorage as used by this application. Each field is one
   * group of keys; the JSON text under each key is abstracted to its value.
   */
  class LocalStorage {
    /** `transactions_<email>` keys */
    var transactionLists: map<string, seq<Transaction>>
    /** the "users" key (an absent key reads as []) */
    var users: seq<User>
    /** the "currentUser" key, holding `{ email }` */
    var currentUser: Option<string>

    constructor ()
      ensures transactionLists == map[] && users == [] && currentUser == None
    {
      transactionLists := map[];
      users := [];
      currentUser := None;
    }

    method GetUsers() returns (r: seq<User>)
      ensures r == users
    {
      r := users;
    }

    /** saveUser: appends without looking for an existing entry with the same email. */
    method SaveUser(user: User)
      modifies this`users
      ensures users == old(users) + [user]
    {
      var all := GetUsers();
      all := all + [user];
      users := all;
    }

    method GetCurrentUser() returns (r: Option<string>)
      ensures r == currentUser
    {
      r := currentUser;
    }

    method SetCurrentUser(email: string)
      modifies this`currentUser
      ensures currentUser == Some(email)
    {
      currentUser := Some(email);
    }

    method ClearCurrentUser()
      modifies this`currentUser
      ensures currentUser == None
    {
      currentUser := None;
    }

    /** getTransactions: the saved list, or [] for an email with no entry. */
    method GetTransactions(email: string) returns (r: seq<Transaction>)
      ensures email !in transactionLists ==> r == []
      ensures email in transactionLists ==> r == transactionLists[email]
    {
      if email in transactionLists {
        r := transactionLists[email];
      } else {
        r := [];
      }
    }

    /** saveTransactions: a later read of this email returns `ts`; other emails read as before. */
    method SaveTransactions(email: string, ts: seq<Transaction>)
      modifies this`transactionLists
      ensures transactionLists == old(transactionLists)[email := ts]
      ensures Stored(transactionLists, email) == ts
      ensures forall e :: e != email ==> Stored(transactionLists, e) == Stored(old(transactionLists), e)
    {
      transactionLists := transactionLists[email := ts];
    }

    /** addTransaction: the new record goes first; the list is saved and returned. */
    method AddTransaction(email: string, t: Transaction) returns (r: seq<Transaction>)
      modifies this`transactionLists
      ensures |r| == |Stored(old(transactionLists), email)| + 1
      ensures r[0] == t && r[1..] == Stored(old(transactionLists), email)
      ensures r == [t] + Stored(old(transactionLists), email)
      ensures transactionLists == old(transactionLists)[email := r]
    {
      var ts := GetTransactions(email);
      r := [t] + ts;
      SaveTransactions(email, r);
    }

    /** deleteTransaction: every record with this id is dropped; the list is saved and returned. */
    method DeleteTransaction(email: string, id: string) returns (r: seq<Transaction>)
      modifies this`transactionLists
      ensures r == WithoutId(Stored(old(transactionLists), email), id)
      ensures transactionLists == old(transactionLists)[email := r]
    {
      var ts := GetTransactions(email);
      r := WithoutId(ts, id);
      SaveTransactions(email, r);
    }
  }

  // ---------------------------------------------------------------------------
  // A worked session

  /**
   * Record a salary of 1000 and a rent of 400 for one user, then delete the
   * salary: the summaries read 1000/0/1000, then 1000/400/600, then 0/400/-400.
   */
  method SalaryRentScenario() returns (afterSalary: Summary, afterRent: Summary, afterDelete: Summary)
    ensures afterSalary == Summary(1000.0, 0.0, 1000.0)
    ensures afterRent == Summary(1000.0, 400.0, 600.0)
    ensures afterDelete == Summary(0.0, 400.0, -400.0)
  {
    var salary := Transaction("1", "Salary", 1000.0, "Salary", Income, "2024-01-05");
    var rent := Transaction("2", "Rent", 400.0, "Housing", Expense, "2024-01-10");
    var store := new LocalStorage();
    var list := store.AddTransaction("u1", salary);
    SummaryOfPrepend(salary, []);
    afterSalary := CalculateSummary(list);
    list := store.AddTransaction("u1", rent);
    SummaryOfPrepend(rent, [salary]);
    afterRent := CalculateSummary(list);
    list := store.DeleteTransaction("u1", salary.id);
    assert list == [rent];
    SummaryOfPrepend(rent, []);
    afterDelete := CalculateSummary(list);
  }
}
