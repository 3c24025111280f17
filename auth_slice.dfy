/**
 * The `auth` slice: who is signed in, the session token, and the status of
 * the last register, login or profile-update request. The thunks turn the
 * outcome of a request into a `fulfilled` or `rejected` action; the reducers
 * assign the slice's fields and, on sign-in, sign-up and sign-out, the API
 * client's bearer token.
 */
module AuthSlice {
  import opened Wrappers
  import opened DrugSpeakApi

  datatype Status = Idle | Loading | Succeeded | Failed

  /** The user record the server returns; the slice stores it without looking inside. */
  datatype User = User(id: string, username: string, email: string, gender: string)

  /** The `{ user, token }` answer of sign-up and sign-in. */
  datatype AuthPayload = AuthPayload(user: Option<User>, token: Option<string>)

  datatype AuthState = AuthState(
    user: Option<User>,
    token: Option<string>,
    isLoggedIn: bool,
    status: Status,
    error: Option<string>)

  const Initial := AuthState(None, None, false, Idle, None)

  datatype Thunk = Register | Login | Update

  datatype AuthAction =
    | LogoutUser
    | ClearAuthError
    | Pending(thunk: Thunk)
      /** `registerUser.fulfilled` or `loginUser.fulfilled`. */
    | SignedIn(thunk: Thunk, payload: AuthPayload)
      /** `updateUser.fulfilled`: the payload is the updated user. */
    | Updated(user: Option<User>)
    | Rejected(thunk: Thunk, message: string)

  /** The slice reducer, one case per `addCase` and per plain reducer. */
  function Reduce(s: AuthState, a: AuthAction): AuthState {
    match a
    case LogoutUser => Initial
    case ClearAuthError => s.(error := None)
    case Pending(_) => s.(status := Loading, error := None)
    case SignedIn(_, p) => s.(status := Succeeded, user := p.user, token := p.token, isLoggedIn := true)
    case Updated(u) => s.(status := Succeeded, user := u)
    case Rejected(_, m) => s.(status := Failed, error := Some(m))
  }

  /** The effect of an action on the API client's token: set on sign-in, cleared on sign-out. */
  function TokenAfter(token: Option<string>, a: AuthAction): Option<string> {
    match a
    case LogoutUser => None
    case SignedIn(_, p) => p.token
    case _ => token
  }

  class AuthStore {
    var user: Option<User>
    var token: Option<string>
    var isLoggedIn: bool
    var status: Status
    var error: Option<string>
    /** The module-level token of the API layer, which the reducers also write. */
    const api: ApiClient

    function State(): AuthState
      reads this
    {
      AuthState(user, token, isLoggedIn, status, error)
    }

    constructor (api: ApiClient)
      ensures State() == Initial && this.api == api
    {
      user, token, isLoggedIn, status, error := None, None, false, Idle, None;
      this.api := api;
    }

    method Dispatch(a: AuthAction)
      modifies this, api
      ensures State() == Reduce(old(State()), a)
      ensures api.authToken == TokenAfter(old(api.authToken), a)
    {
      match a
      case LogoutUser =>
        user := None;
        token := None;
        isLoggedIn := false;
        status := Idle;
        error := None;
        api.ClearAuthToken();
      case ClearAuthError =>
        error := None;
      case Pending(_) =>
        status := Loading;
        error := None;
      case SignedIn(_, p) =>
        status := Succeeded;
        user := p.user;
        token := p.token;
        isLoggedIn := true;
        api.SetAuthToken(p.token);
      case Updated(u) =>
        status := Succeeded;
        user := u;
      case Rejected(_, m) =>
        status := Failed;
        error := Some(m);
    }
  }

  // ------------------------------------------------------------------ thunks

  /** What a failed request throws, seen by a thunk's `catch`: only its `message` is read. */
  datatype Thrown = Thrown(message: Option<string>)

  /** The outcome of the remote call a thunk awaits. */
  datatype Remote<T> = Answered(data: T) | Threw(error: Thrown)

  const RegistrationFailed := "Registration failed"
  const InvalidCredentials := "Invalid email or password"
  const UpdateFailed := "Failed to update profile"

  function Fallback(t: Thunk): string {
    match t
    case Register => RegistrationFailed
    case Login => InvalidCredentials
    case Update => UpdateFailed
  }

  /** `rejectWithValue(error.message || <the thunk's fallback>)`. */
  function RejectionOf(t: Thunk, e: Thrown): (a: AuthAction)
    ensures a.Rejected? && a.thunk == t && a.message != ""
    ensures Truthy(e.message) ==> a.message == e.message.value
    ensures !Truthy(e.message) ==> a.message == Fallback(t)
  {
    Rejected(t, OrElse(e.message, Fallback(t)))
  }

  /** The argument `registerUser` passes to `authAPI.signUp`: the fields copied, `gender` defaulted. */
  function RegisterRequest(username: string, email: string, password: string, gender: Option<string>): (r: SignUpRequest)
    ensures r.username == username && r.email == email && r.password == password
    ensures Truthy(gender) ==> r.gender == gender
    ensures !Truthy(gender) ==> r.gender == Some(UnspecifiedGender)
    ensures r.gender.Some? && r.gender.value != ""
  {
    SignUpRequest(username, email, password, Some(OrElse(gender, UnspecifiedGender)))
  }

  /** The settled action of `registerUser`/`loginUser` for the outcome of the call. */
  function SignInThunk(t: Thunk, outcome: Remote<AuthPayload>): (a: AuthAction)
    requires t != Update
    ensures outcome.Answered? ==> a == SignedIn(t, outcome.data)
    ensures outcome.Threw? ==> a == RejectionOf(t, outcome.error)
  {
    match outcome
    case Answered(p) => SignedIn(t, p)
    case Threw(e) => RejectionOf(t, e)
  }

  /** The settled action of `updateUser`. */
  function UpdateThunk(outcome: Remote<Option<User>>): (a: AuthAction)
    ensures outcome.Answered? ==> a == Updated(outcome.data)
    ensures outcome.Threw? ==> a == RejectionOf(Update, outcome.error)
  {
    match outcome
    case Answered(u) => Updated(u)
    case Threw(e) => RejectionOf(Update, e)
  }

  /** An error normalised by `request` always has a message, so no thunk's fallback string is ever used for it. */
  lemma RequestErrorsNeverFallBack(t: Thunk, e: TransportError)
    ensures RejectionOf(t, Thrown(Some(NormalizeError(e).message))) == Rejected(t, NormalizeError(e).message)
  {
  }

  // ------------------------------------------------------------ selectors

  function SelectCurrentUser(s: AuthState): Option<User> { s.user }
  function SelectAuthToken(s: AuthState): Option<string> { s.token }
  function SelectIsLoggedIn(s: AuthState): bool { s.isLoggedIn }
  function SelectAuthStatus(s: AuthState): Status { s.status }
  function SelectAuthError(s: AuthState): Option<string> { s.error }

  // ------------------------------------------------------------------ lemmas

  /** Sign-out restores every field to its initial value and clears the API token, from any state. */
  lemma LogoutRestoresInitial(s: AuthState, token: Option<string>)
    ensures Reduce(s, LogoutUser) == Initial
    ensures TokenAfter(token, LogoutUser) == None
    ensures !SelectIsLoggedIn(Reduce(s, LogoutUser)) && SelectAuthStatus(Reduce(s, LogoutUser)) == Idle
  {
  }

  /** Every pending case starts loading, clears the error and keeps user, token and sign-in flag. */
  lemma PendingStartsLoading(s: AuthState, t: Thunk, token: Option<string>)
    ensures var r := Reduce(s, Pending(t));
      && r.status == Loading && r.error == None
      && r.user == s.user && r.token == s.token && r.isLoggedIn == s.isLoggedIn
      && TokenAfter(token, Pending(t)) == token
  {
  }

  /** Register or login success signs in with the payload's user and token and hands the same token to the API client. */
  lemma SignedInUsesPayload(s: AuthState, t: Thunk, p: AuthPayload, token: Option<string>)
    requires t != Update
    ensures var r := Reduce(s, SignInThunk(t, Answered(p)));
      && r.status == Succeeded && r.isLoggedIn
      && r.user == p.user && r.token == p.token
      && TokenAfter(token, SignInThunk(t, Answered(p))) == r.token
      && r.error == s.error
  {
  }

  /** Every rejected case records the message and keeps user, token and sign-in flag. */
  lemma RejectedRecordsError(s: AuthState, t: Thunk, e: Thrown, token: Option<string>)
    ensures var a := RejectionOf(t, e);
      var r := Reduce(s, a);
      && r.status == Failed && r.error == Some(a.message) && r.error != Some("")
      && r.user == s.user && r.token == s.token && r.isLoggedIn == s.isLoggedIn
      && TokenAfter(token, a) == token
  {
  }

  /** A successful profile update changes only the user and the status. */
  lemma UpdatedKeepsSession(s: AuthState, u: Option<User>, token: Option<string>)
    ensures var r := Reduce(s, UpdateThunk(Answered(u)));
      r == s.(user := u, status := Succeeded)
      && TokenAfter(token, UpdateThunk(Answered(u))) == token
  {
  }

  /** Only sign-in success raises `isLoggedIn` and only sign-out lowers it; clearing the error touches nothing else. */
  lemma LoggedInChangesOnlyOnSession(s: AuthState, a: AuthAction)
    ensures Reduce(s, a).isLoggedIn != s.isLoggedIn ==>
      (a.SignedIn? && !s.isLoggedIn) || (a.LogoutUser? && s.isLoggedIn)
    ensures a.ClearAuthError? ==> Reduce(s, a) == s.(error := None)
  {
  }

  /** A signed-in state always got there through a sign-in success, whose token the API client holds. */
  predicate SessionAgrees(s: AuthState, apiToken: Option<string>) {
    s.isLoggedIn ==> apiToken == s.token
  }

  /** The API token and the slice's token stay in step while signed in, whatever action comes. */
  lemma SessionAgreementPreserved(s: AuthState, apiToken: Option<string>, a: AuthAction)
    requires SessionAgrees(s, apiToken)
    ensures SessionAgrees(Reduce(s, a), TokenAfter(apiToken, a))
  {
  }
}
