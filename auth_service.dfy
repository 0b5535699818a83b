/**
 * AuthService (services/rest/auth.rest.ts): registration, login and logout as
 * rules over the user table and the current-user record of the store, each run
 * through the request client with the gate skipped (register, login) or
 * enforced (logout).
 *
 * Whether the request's timer won the race is the input `timedOut`; the
 * operation's writes to the store happen either way.
 */
module AuthService {
  import opened Model
  import opened Storage
  import ApiClient

  const WrongCredentials: string := "Email ou senha incorretos"
  const EmailTaken: string := "Este email já está cadastrado"

  /** What login and register hand back: `{ success, error }` copied from the response. */
  datatype AuthResult = AuthResult(success: bool, error: Option<string>)

  predicate EmailRegistered(users: seq<User>, email: string) {
    exists i :: 0 <= i < |users| && users[i].email == email
  }

  predicate CredentialsMatch(users: seq<User>, email: string, password: string) {
    exists i :: 0 <= i < |users| && users[i].email == email && users[i].password == password
  }

  /** No two entries of the user table share an email. */
  predicate DistinctEmails(users: seq<User>) {
    forall i, j :: 0 <= i < j < |users| ==> users[i].email != users[j].email
  }

  /** `users.find(u => u.email === email)`. */
  function FindByEmail(users: seq<User>, email: string): (r: Option<User>)
    ensures r.Some? <==> EmailRegistered(users, email)
    ensures r.Some? ==> r.value in users && r.value.email == email
  {
    if users == [] then None
    else if users[0].email == email then Some(users[0])
    else
      var r := FindByEmail(users[1..], email);
      assert EmailRegistered(users, email) ==> EmailRegistered(users[1..], email) by {
        if EmailRegistered(users, email) {
          var i :| 0 <= i < |users| && users[i].email == email;
          assert users[1..][i - 1].email == email;
        }
      }
      assert r.Some? ==> EmailRegistered(users, email) by {
        if r.Some? {
          var i :| 0 <= i < |users[1..]| && users[1..][i].email == email;
          assert users[i + 1].email == email;
        }
      }
      r
  }

  /** `users.find(u => u.email === email && u.password === password)`. */
  function FindByCredentials(users: seq<User>, email: string, password: string): (r: Option<User>)
    ensures r.Some? <==> CredentialsMatch(users, email, password)
    ensures r.Some? ==> r.value in users && r.value == User(email, password)
  {
    if users == [] then None
    else if users[0].email == email && users[0].password == password then Some(users[0])
    else
      var r := FindByCredentials(users[1..], email, password);
      assert CredentialsMatch(users, email, password) ==> CredentialsMatch(users[1..], email, password) by {
        if CredentialsMatch(users, email, password) {
          var i :| 0 <= i < |users| && users[i].email == email && users[i].password == password;
          assert users[1..][i - 1] == users[i];
        }
      }
      assert r.Some? ==> CredentialsMatch(users, email, password) by {
        if r.Some? {
          var i :| 0 <= i < |users[1..]| && users[1..][i].email == email && users[1..][i].password == password;
          assert users[i + 1] == users[1..][i];
        }
      }
      r
  }

  /** Appending a user whose email is not yet registered keeps the emails distinct. */
  lemma AppendKeepsDistinct(users: seq<User>, u: User)
    requires DistinctEmails(users)
    requires !EmailRegistered(users, u.email)
    ensures DistinctEmails(users + [u])
  {
    var all := users + [u];
    forall i, j | 0 <= i < j < |all|
      ensures all[i].email != all[j].email
    {
      if j == |users| {
        assert all[i] == users[i];
      }
    }
  }

  /** After registering, the same credentials pass the login check. */
  lemma RegisteredCanLogIn(users: seq<User>, email: string, password: string)
    ensures CredentialsMatch(users + [User(email, password)], email, password)
  {
    var all := users + [User(email, password)];
    assert all[|users|] == User(email, password);
  }

  /**
   * With distinct emails, login is decided by the one entry for that email:
   * it succeeds exactly when that entry holds the given password.
   */
  lemma LoginDecidedByEntry(users: seq<User>, k: nat, email: string, password: string)
    requires DistinctEmails(users)
    requires k < |users| && users[k].email == email
    ensures CredentialsMatch(users, email, password) <==> users[k].password == password
  {
    if CredentialsMatch(users, email, password) {
      var i :| 0 <= i < |users| && users[i].email == email && users[i].password == password;
      assert i == k;
    }
  }

  /**
   * register: refuses an email already in the table (nothing is written);
   * otherwise appends the user and signs them in.
   */
  method Register(store: LocalStorage, email: string, password: string, timedOut: bool) returns (r: AuthResult)
    modifies store`users, store`currentUser
    ensures EmailRegistered(old(store.users), email) ==>
      && store.users == old(store.users)
      && store.currentUser == old(store.currentUser)
      && r == AuthResult(false, Some(if timedOut then ApiClient.RequestTimeout else EmailTaken))
    ensures !EmailRegistered(old(store.users), email) ==>
      && store.users == old(store.users) + [User(email, password)]
      && store.currentUser == Some(email)
      && r == if timedOut then AuthResult(false, Some(ApiClient.RequestTimeout)) else AuthResult(true, None)
    ensures DistinctEmails(old(store.users)) ==> DistinctEmails(store.users)
  {
    var authenticated := ApiClient.IsAuthenticated(store);
    var outcome: ApiClient.Outcome<string> := ApiClient.TimedOut;  // the gate is skipped, so always replaced
    if ApiClient.Admitted(true, authenticated) {
      var users := store.GetUsers();
      var existing := FindByEmail(users, email);
      if existing.Some? {
        outcome := if timedOut then ApiClient.TimedOut else ApiClient.ThrewError(EmailTaken);
      } else {
        if DistinctEmails(users) {
          AppendKeepsDistinct(users, User(email, password));
        }
        store.SaveUser(User(email, password));
        store.SetCurrentUser(email);
        outcome := ApiClient.Race(email, timedOut);
      }
    }
    var response := ApiClient.Request(true, authenticated, outcome);
    r := AuthResult(response.success, response.error);
  }

  /**
   * login: signs in exactly when some entry holds both the email and the
   * password; otherwise the current user stays as it was.
   */
  method Login(store: LocalStorage, email: string, password: string, timedOut: bool) returns (r: AuthResult)
    modifies store`currentUser
    ensures CredentialsMatch(store.users, email, password) ==> store.currentUser == Some(email)
    ensures !CredentialsMatch(store.users, email, password) ==> store.currentUser == old(store.currentUser)
    ensures r.success <==> CredentialsMatch(store.users, email, password) && !timedOut
    ensures r.success <==> r.error.None?
    ensures !CredentialsMatch(store.users, email, password) && !timedOut ==> r.error == Some(WrongCredentials)
    ensures timedOut ==> r.error == Some(ApiClient.RequestTimeout)
  {
    var authenticated := ApiClient.IsAuthenticated(store);
    var outcome: ApiClient.Outcome<string> := ApiClient.TimedOut;  // the gate is skipped, so always replaced
    if ApiClient.Admitted(true, authenticated) {
      var users := store.GetUsers();
      var user := FindByCredentials(users, email, password);
      if user.Some? {
        store.SetCurrentUser(email);
        outcome := ApiClient.Race(user.value.email, timedOut);
      } else {
        outcome := if timedOut then ApiClient.TimedOut else ApiClient.ThrewError(WrongCredentials);
      }
    }
    var response := ApiClient.Request(true, authenticated, outcome);
    r := AuthResult(response.success, response.error);
  }

  /**
   * logout: goes through the gate. With a user signed in the record is
   * cleared; without one the gate refuses, and there is nothing to clear.
   */
  method Logout(store: LocalStorage, timedOut: bool)
    modifies store`currentUser
    ensures store.currentUser == None
  {
    var authenticated := ApiClient.IsAuthenticated(store);
    var outcome: ApiClient.Outcome<string> := ApiClient.TimedOut;  // not consulted when the gate rejects
    if ApiClient.Admitted(false, authenticated) {
      store.ClearCurrentUser();
      outcome := ApiClient.Race("Logout successful", timedOut);
    }
    var _ := ApiClient.Request(false, authenticated, outcome);
  }

  /** getCurrentUser: the stored record, or None. */
  method GetCurrentUser(store: LocalStorage) returns (r: Option<string>)
    ensures r == store.currentUser
  {
    r := store.GetCurrentUser();
  }

  /** isAuthenticated: the same test the request client's gate applies. */
  method IsAuthenticated(store: LocalStorage) returns (b: bool)
    ensures b <==> store.currentUser.Some?
    ensures b == ApiClient.IsAuthenticated(store)
  {
    var current := store.GetCurrentUser();
    b := current != None;
  }
}
