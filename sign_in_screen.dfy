/**
 * The sign-in form: two guards before `loginUser` is dispatched with the
 * fields as typed, the alert shown when the login is rejected, and the
 * clear button.
 */
module SignInScreen {
  import opened Wrappers
  import opened Ascii
  import opened DrugSpeakApi
  import AuthSlice

  const BothRequired := "Please enter both email and password"
  const InvalidEmail := "Please enter a valid email address"

  /** What pressing "Sign in" does: an alert, or a `loginUser` dispatch with these credentials. */
  datatype SignInOutcome = Alert(message: string) | Login(credentials: Credentials)

  /** `handleSignIn` up to the dispatch: emptiness first, then the `@` test. */
  function HandleSignIn(email: string, password: string): (r: SignInOutcome)
    ensures r == Alert(BothRequired) <==> email == "" || password == ""
    ensures r == Alert(InvalidEmail) <==> email != "" && password != "" && '@' !in email
    ensures r.Login? <==> email != "" && password != "" && '@' in email
    ensures r.Login? ==> r.credentials == Credentials(email, password)
  {
    if email == "" || password == "" then Alert(BothRequired)
    else if '@' !in email then Alert(InvalidEmail)
    else Login(Credentials(email, password))
  }

  /**
   * The screen passes the e-mail on untouched; only the API layer trims and
   * lower-cases it, and the password is never altered.
   */
  lemma NormalisedOnlyInApi(email: string, password: string)
    requires HandleSignIn(email, password).Login?
    ensures var c := HandleSignIn(email, password).credentials;
      && c.email == email
      && SignInPayload(c) == Credentials(NormalizeEmail(email), password)
  {
  }

  /** Only emptiness of the password is checked: three spaces pass. */
  lemma SpacesPassSignIn()
    ensures HandleSignIn("a@b", "   ") == Login(Credentials("a@b", "   "))
  {
    assert "a@b"[1] == '@';
  }

  /** `handleClear` sets both fields to ""; such a form is stopped by the first guard. */
  lemma ClearedSignInRejected()
    ensures HandleSignIn("", "") == Alert(BothRequired)
  {
  }

  /**
   * The alert of the `catch` as written: `error.response?.data?.message || "Invalid email or password"`.
   * `unwrap` throws the rejection's payload, the bare message string, which has
   * no `response`, so the fallback is always shown.
   */
  function FailureAlertAsWritten(payload: string): (m: string)
    ensures m == AuthSlice.InvalidCredentials
  {
    OrElse(ResponseMessage(ResponseOf(payload)), AuthSlice.InvalidCredentials)
  }

  /** `thrown.response` when what was thrown is a string: there is no such property. */
  function ResponseOf(thrown: string): Option<HttpResponse> {
    None
  }

  /** `response?.data?.message`. */
  function ResponseMessage(response: Option<HttpResponse>): (r: Option<string>)
    ensures response.None? ==> r.None?
  {
    if response.Some? && response.value.data.Some? then response.value.data.value.message else None
  }

  /** The alert as evidently intended: the message the rejection carries. */
  function FailureAlert(payload: string): (m: string)
    ensures payload != "" ==> m == payload
    ensures payload == "" ==> m == AuthSlice.InvalidCredentials
  {
    OrElse(Some(payload), AuthSlice.InvalidCredentials)
  }

  /** The server's message of a rejected login, e.g. "Account locked" for a 403. */
  const LockedAnswer := TransportError(Some("Request failed with status code 403"),
                                       Some(HttpResponse(403, Some(ErrorBody(Some("Account locked"), None)))))

  /** As written, the server's message reaches the rejection but not the alert. */
  lemma ServerMessageIsLost()
    ensures var a := AuthSlice.RejectionOf(AuthSlice.Login, AuthSlice.Thrown(Some(NormalizeError(LockedAnswer).message)));
      && a.message == "Account locked"
      && FailureAlertAsWritten(a.message) == AuthSlice.InvalidCredentials
      && FailureAlertAsWritten(a.message) != a.message
  {
    var m := NormalizeError(LockedAnswer).message;
    assert m == "Account locked";
    assert m[0] != AuthSlice.InvalidCredentials[0];
  }

  /** With the intended alert, whatever the request failed with is what the user is shown. */
  lemma FailureAlertShowsRequestError(e: TransportError)
    ensures var a := AuthSlice.RejectionOf(AuthSlice.Login, AuthSlice.Thrown(Some(NormalizeError(e).message)));
      FailureAlert(a.message) == NormalizeError(e).message
  {
  }
}
