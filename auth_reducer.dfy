/**
 * The authentication state machine (src/context/auth-context/reducer.ts and types.ts):
 * five tagged actions over username, isAuthenticated, isLoading and error.
 */
module AuthContextReducer {
  import opened Wrappers

  datatype AuthState = AuthState(
    username: Option<string>,
    isAuthenticated: bool,
    isLoading: bool,
    error: Option<string>)

  /** One constructor per AuthReducerAction tag; `Unknown` stands for any other tag. */
  datatype AuthAction =
    | LoginStart
    | LoginSuccess(name: string)
    | LoginFailure(failure: string)
    | Logout
    | ClearError
    | Unknown(kind: string)

  const InitialAuthState: AuthState := AuthState(None, false, false, None)

  function AuthReducer(state: AuthState, action: AuthAction): (r: AuthState)
    // the name: set by LOGIN_SUCCESS, cleared by LOGOUT, otherwise kept
    ensures r.username == (if action.LoginSuccess? then Some(action.name)
                           else if action.Logout? then None
                           else state.username)
    ensures r.isAuthenticated == (if action.LoginSuccess? then true
                                  else if action.Logout? then false
                                  else state.isAuthenticated)
    // busy flag: set by LOGIN_START, cleared by LOGIN_SUCCESS and LOGIN_FAILURE; LOGOUT leaves it
    ensures r.isLoading == (if action.LoginStart? then true
                           else if action.LoginSuccess? || action.LoginFailure? then false
                           else state.isLoading)
    // error: cleared by LOGIN_START, LOGIN_SUCCESS and CLEAR_ERROR, set by LOGIN_FAILURE; LOGOUT leaves it
    ensures r.error == (if action.LoginStart? || action.LoginSuccess? || action.ClearError? then None
                        else if action.LoginFailure? then Some(action.failure)
                        else state.error)
    ensures action.Unknown? ==> r == state
  {
    match action
    case LoginStart => state.(isLoading := true, error := None)
    case LoginSuccess(name) => state.(username := Some(name), isAuthenticated := true, isLoading := false, error := None)
    case LoginFailure(e) => state.(isLoading := false, error := Some(e))
    case Logout => state.(username := None, isAuthenticated := false)
    case ClearError => state.(error := None)
    case Unknown(_) => state
  }

  /** A user is authenticated exactly when a username is present. */
  predicate Consistent(s: AuthState) {
    s.isAuthenticated <==> s.username.Some?
  }

  lemma AuthReducerPreservesConsistency(state: AuthState, action: AuthAction)
    requires Consistent(state)
    ensures Consistent(AuthReducer(state, action))
  {
  }

  /** The state after the actions, in order. */
  function RunAuth(state: AuthState, actions: seq<AuthAction>): AuthState
    decreases |actions|
  {
    if actions == [] then state else RunAuth(AuthReducer(state, actions[0]), actions[1..])
  }

  /** Every state reachable from the initial state is consistent. */
  lemma {:induction false} ReachableAuthStatesConsistent(state: AuthState, actions: seq<AuthAction>)
    requires Consistent(state)
    ensures Consistent(RunAuth(state, actions))
    decreases |actions|
  {
    if actions != [] {
      AuthReducerPreservesConsistency(state, actions[0]);
      ReachableAuthStatesConsistent(AuthReducer(state, actions[0]), actions[1..]);
    }
  }

  lemma InitialAuthStateConsistent()
    ensures Consistent(InitialAuthState) && !InitialAuthState.isAuthenticated
  {
  }
}
