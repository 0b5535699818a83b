/**
 * `ApiClient.request` (services/api/config.ts): an authentication gate in
 * front of an operation, and the normalisation of whatever the operation does
 * into an ApiResponse. It never throws.
 *
 * The operation's outcome is an input: the value it returned, an `Error` it
 * threw, some other thrown value, or losing the race against the configured
 * timeout.
 */
module ApiClient {
  import opened Model
  import Storage

  datatype Outcome<T> = Returned(value: T) | ThrewError(message: string) | ThrewOther | TimedOut

  const NotAuthenticated: string := "User not authenticated"
  const UnknownError: string := "Unknown error"
  const RequestTimeout: string := "Request timeout"

  /** isAuthenticated: the "currentUser" key is present. */
  function IsAuthenticated(store: Storage.LocalStorage): (b: bool)
    reads store
    ensures b <==> store.currentUser != None
  {
    store.currentUser.Some?
  }

  /** The gate: the operation runs only when auth is skipped or a user is signed in. */
  predicate Admitted(skipAuth: bool, authenticated: bool) {
    skipAuth || authenticated
  }

  /**
   * withTimeout: the operation's settled result races a timer; the timer
   * winning rejects with "Request timeout". The operation itself is not
   * cancelled, so its effects on the store stay.
   */
  function Race<T>(value: T, timedOut: bool): (o: Outcome<T>)
    ensures o.Returned? <==> !timedOut
    ensures o.Returned? ==> o.value == value
  {
    if timedOut then TimedOut else Returned(value)
  }

  /** A failed response: no data, not successful, the given message. */
  function Failure<T>(message: string): ApiResponse<T> {
    ApiResponse(None, false, Some(message))
  }

  /** request: the gate, then the operation's outcome turned into a response. */
  function Request<T>(skipAuth: bool, authenticated: bool, outcome: Outcome<T>): (r: ApiResponse<T>)
    // never throws: every outcome yields a response, and a failed one carries no data
    ensures r.success <==> r.data.Some?
    ensures r.success <==> r.error.None?
    ensures r.success <==> Admitted(skipAuth, authenticated) && outcome.Returned?
    ensures r.success ==> r.data.value == outcome.value
    // the gate rejects before the operation's outcome matters
    ensures !Admitted(skipAuth, authenticated) ==> r == Failure(NotAuthenticated)
    // how each failing outcome is reported
    ensures Admitted(skipAuth, authenticated) && outcome.ThrewError? ==> r.error == Some(outcome.message)
    ensures Admitted(skipAuth, authenticated) && outcome.ThrewOther? ==> r.error == Some(UnknownError)
    ensures Admitted(skipAuth, authenticated) && outcome.TimedOut? ==> r.error == Some(RequestTimeout)
  {
    if !Admitted(skipAuth, authenticated) then Failure(NotAuthenticated)
    else match outcome
      case Returned(v) => ApiResponse(Some(v), true, None)
      case ThrewError(m) => Failure(m)
      case ThrewOther => Failure(UnknownError)
      case TimedOut => Failure(RequestTimeout)
  }
}
