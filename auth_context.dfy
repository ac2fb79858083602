/** The session of src/context/AuthContext.tsx: the auth state and the cookie
    holding the session token. The `getUserInfo` lookups are parameters: the
    user, or the failure the promise rejects with. `login` is split at its
    `await`: `BeginLogin` runs before the lookup, `CompleteLogin` after it. */
module AuthContext {
  import opened Types

  /** The `discord_token` cookie: its value and its lifetime in days. */
  datatype StoredToken = StoredToken(value: string, expiresInDays: int)

  const InitialState := AuthState(false, None, true, None)
  const LoginFailedMessage := "Failed to authenticate with Discord"

  /** The invariant: authenticated exactly when a user is present. */
  predicate Consistent(s: AuthState)
  {
    s.isAuthenticated <==> s.user.Some?
  }

  /** The state a finished lookup leaves: the user, or signed out with `failure` as the error. */
  function AfterLookup(lookup: Result<User>, failure: Option<string>): (s: AuthState)
    ensures Consistent(s) && !s.loading
    ensures s.isAuthenticated <==> lookup.Success?
    ensures lookup.Success? ==> s.user == Some(lookup.value) && s.error.None?
    ensures lookup.Failure? ==> s.user.None? && s.error == failure
  {
    match lookup
    case Success(user) => AuthState(true, Some(user), false, None)
    case Failure(_) => AuthState(false, None, false, failure)
  }

  /** The state after `logout`. */
  const SignedOut := AuthState(false, None, false, None)

  lemma {:induction false} InitialAndSignedOutConsistent()
    ensures Consistent(InitialState) && InitialState.loading && InitialState.error.None?
    ensures Consistent(SignedOut) && !SignedOut.loading && SignedOut.error.None?
  {
  }

  class AuthSession {
    var state: AuthState
    var cookie: Option<StoredToken>

    ghost predicate Valid()
      reads this
    {
      Consistent(state)
    }

    constructor (stored: Option<StoredToken>)
      ensures Valid() && state == InitialState && cookie == stored
    {
      state := InitialState;
      cookie := stored;
    }

    /** Whether the startup effect finds a token: `Cookies.get` answers and the answer is truthy. */
    predicate HasToken()
      reads this
    {
      cookie.Some? && cookie.value.value != ""
    }

    /** The startup effect. `lookup` is the outcome of `getUserInfo` for the
        stored token; it is not consulted when there is no token. */
    method Startup(lookup: Result<User>)
      requires Valid()
      modifies this
      ensures Valid()
      ensures !old(HasToken()) ==> state == old(state).(loading := false) && cookie == old(cookie)
      ensures old(HasToken()) ==> state == AfterLookup(lookup, None)
      ensures old(HasToken()) && lookup.Success? ==> cookie == old(cookie)
      ensures old(HasToken()) && lookup.Failure? ==> cookie.None?
    {
      if !HasToken() {
        state := state.(loading := false);
      } else {
        state := AfterLookup(lookup, None);
        if lookup.Failure? {
          cookie := None;
        }
      }
    }

    /** `login(token)` up to its lookup: store the token for seven days and mark loading. */
    method BeginLogin(token: string)
      requires Valid()
      modifies this
      ensures Valid()
      ensures cookie == Some(StoredToken(token, 7))
      ensures state == old(state).(loading := true)
    {
      cookie := Some(StoredToken(token, 7));
      state := state.(loading := true);
    }

    /** The rest of `login`: the lookup's outcome decides the state; a failure also removes the token. */
    method CompleteLogin(lookup: Result<User>)
      requires Valid()
      modifies this
      ensures Valid()
      ensures state == AfterLookup(lookup, Some(LoginFailedMessage))
      ensures lookup.Success? ==> cookie == old(cookie)
      ensures lookup.Failure? ==> cookie.None?
    {
      state := AfterLookup(lookup, Some(LoginFailedMessage));
      if lookup.Failure? {
        cookie := None;
      }
    }

    /** `logout`: drop the token and sign out; no lookup is made. */
    method Logout()
      requires Valid()
      modifies this
      ensures Valid()
      ensures cookie.None? && state == SignedOut
    {
      cookie := None;
      state := SignedOut;
    }
  }

  /** A full login: afterwards the session is authenticated exactly when the
      lookup succeeded, and it keeps the token exactly then. */
  method Login(session: AuthSession, token: string, lookup: Result<User>)
    requires session.Valid()
    modifies session
    ensures session.Valid()
    ensures session.state.isAuthenticated <==> lookup.Success?
    ensures session.cookie == (if lookup.Success? then Some(StoredToken(token, 7)) else None)
    ensures !session.state.loading
    ensures session.state == AfterLookup(lookup, Some(LoginFailedMessage))
    ensures lookup.Success? ==> session.state.user == Some(lookup.value) && session.state.error.None?
    ensures lookup.Failure? ==> session.state.user.None? && session.state.error == Some(LoginFailedMessage)
  {
    session.BeginLogin(token);
    session.CompleteLogin(lookup);
  }
}
