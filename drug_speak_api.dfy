/**
 * The API layer: the module-level bearer token with its request interceptor,
 * the error normalisation of every request, and the bodies of the sign-up
 * and sign-in requests. The HTTP transport itself is not modelled: a request
 * either yields the response data or fails with a `TransportError`.
 */
module DrugSpeakApi {
  import opened Wrappers
  import opened Ascii

  /** JavaScript truthiness of a string that may be missing. */
  predicate Truthy(s: Option<string>) {
    s.Some? && s.value != ""
  }

  /** `s || fallback` on a string that may be missing. */
  function OrElse(s: Option<string>, fallback: string): (r: string)
    ensures Truthy(s) ==> r == s.value
    ensures !Truthy(s) ==> r == fallback
  {
    if Truthy(s) then s.value else fallback
  }

  /** The request configuration the interceptor receives and returns; it edits the headers in place. */
  class RequestConfig {
    var headers: map<string, string>

    constructor (headers: map<string, string>)
      ensures this.headers == headers
    {
      this.headers := headers;
    }
  }

  /** The client's module state: the bearer token shared by every request. */
  class ApiClient {
    var authToken: Option<string>

    constructor ()
      ensures authToken == None
    {
      authToken := None;
    }

    method SetAuthToken(token: Option<string>)
      modifies this
      ensures authToken == token
    {
      authToken := token;
    }

    method ClearAuthToken()
      modifies this
      ensures authToken == None
    {
      authToken := None;
    }

    /** The request interceptor: with a truthy token it sets `Authorization`, and it returns the same config object. */
    method InterceptRequest(config: RequestConfig) returns (r: RequestConfig)
      modifies config
      ensures r == config
      ensures Truthy(authToken) ==>
                config.headers == old(config.headers)["Authorization" := "Bearer " + authToken.value]
      ensures !Truthy(authToken) ==> config.headers == old(config.headers)
    {
      if authToken.Some? && authToken.value != "" {
        config.headers := config.headers["Authorization" := "Bearer " + authToken.value];
      }
      r := config;
    }
  }

  /** A token set by `setAuthToken` reaches the next request; after `clearAuthToken` nothing is added. */
  method TokenReachesRequest(api: ApiClient, token: string, headers: map<string, string>)
    returns (withToken: map<string, string>, cleared: map<string, string>)
    requires token != ""
    modifies api
    ensures withToken == headers["Authorization" := "Bearer " + token]
    ensures cleared == headers
  {
    api.SetAuthToken(Some(token));
    var config := new RequestConfig(headers);
    config := api.InterceptRequest(config);
    withToken := config.headers;
    api.ClearAuthToken();
    var plain := new RequestConfig(headers);
    plain := api.InterceptRequest(plain);
    cleared := plain.headers;
  }

  // ------------------------------------------------------------------ errors

  /** The body of an error response: its `message` and `errors` fields. */
  datatype ErrorBody = ErrorBody(message: Option<string>, errors: Option<seq<string>>)

  /** `error.response`: a status (0 standing for a missing one) and the body, `None` when it is falsy. */
  datatype HttpResponse = HttpResponse(status: int, data: Option<ErrorBody>)

  /** What the transport throws: its own `message` and, when the server answered, the response. */
  datatype TransportError = TransportError(message: Option<string>, response: Option<HttpResponse>)

  /** What `request` throws in turn. */
  datatype ApiError = ApiError(message: string, status: int, data: Option<seq<string>>)

  const NetworkErrorMessage := "Network error occurred"
  const RequestFailedMessage := "Request failed"

  /** The `catch` of `request`: the thrown error is rebuilt from the response body or a fallback. */
  function NormalizeError(e: TransportError): (r: ApiError)
    ensures r.message != ""
    ensures r.status == if e.response.Some? && e.response.value.status != 0 then e.response.value.status else 500
    ensures (e.response.None? || e.response.value.data.None?) ==>
              r.message == OrElse(e.message, NetworkErrorMessage) && r.data == None
    ensures e.response.Some? && e.response.value.data.Some? ==>
              var body := e.response.value.data.value;
              r.message == OrElse(body.message, RequestFailedMessage) && r.data == body.errors
  {
    var errorData :=
      if e.response.Some? && e.response.value.data.Some? then e.response.value.data.value
      else ErrorBody(Some(OrElse(e.message, NetworkErrorMessage)), None);
    var status := if e.response.Some? && e.response.value.status != 0 then e.response.value.status else 500;
    ApiError(OrElse(errorData.message, RequestFailedMessage), status, errorData.errors)
  }

  /** The fallback "Request failed" comes only from a server body; without one the message is the transport's own. */
  lemma RequestFailedOnlyFromServerBody(e: TransportError)
    requires NormalizeError(e).message == RequestFailedMessage
    ensures (e.response.Some? && e.response.value.data.Some?) || e.message == Some(RequestFailedMessage)
  {
    assert NetworkErrorMessage[0] != RequestFailedMessage[0];
  }

  // ---------------------------------------------------------- request bodies

  /** The argument of `authAPI.signUp`; `gender` may be missing. */
  datatype SignUpRequest = SignUpRequest(username: string, email: string, password: string, gender: Option<string>)

  /** The JSON body posted to `/users`. */
  datatype SignUpBody = SignUpBody(username: string, email: string, password: string, gender: string)

  /** The argument of `authAPI.signIn`, and the JSON body posted to `/auth/login`. */
  datatype Credentials = Credentials(email: string, password: string)

  const UnspecifiedGender := "unspecified"

  function SignUpPayload(u: SignUpRequest): (b: SignUpBody)
    ensures Trimmed(b.username) && b.username == Trim(u.username)
    ensures b.email == NormalizeEmail(u.email)
    ensures b.password == u.password
    ensures Truthy(u.gender) ==> b.gender == u.gender.value
    ensures !Truthy(u.gender) ==> b.gender == UnspecifiedGender
    ensures b.gender != ""
  {
    SignUpBody(Trim(u.username), NormalizeEmail(u.email), u.password,
               if Truthy(u.gender) then u.gender.value else UnspecifiedGender)
  }

  /** The sign-up body is already normal: sending it back through `signUp` yields it unchanged. */
  lemma SignUpPayloadIdempotent(u: SignUpRequest)
    ensures var b := SignUpPayload(u);
      SignUpPayload(SignUpRequest(b.username, b.email, b.password, Some(b.gender))) == b
  {
    TrimIdempotent(u.username);
    NormalizeEmailIdempotent(u.email);
  }

  function SignInPayload(c: Credentials): (b: Credentials)
    ensures b.email == NormalizeEmail(c.email)
    ensures b.password == c.password
  {
    Credentials(NormalizeEmail(c.email), c.password)
  }

  /** The sign-in body is already normal, and the password is never trimmed. */
  lemma SignInPayloadIdempotent(c: Credentials)
    ensures SignInPayload(SignInPayload(c)) == SignInPayload(c)
    ensures SignInPayload(Credentials(c.email, " " + c.password)).password != SignInPayload(c).password
  {
    NormalizeEmailIdempotent(c.email);
  }
}
