/** The request and authentication core of `NSGiftsClient` and the user
    methods, as functions from the client's state to an outcome and a new
    state. The classes in module Client follow these step for step.

    The network is a function `net` from the number of requests sent so far
    to the outcome of the next one; the clock is a number that only the
    backoff sleeps advance. */
module RequestCore {
  import opened Text
  import opened JsonData
  import opened Schema
  import opened Errors
  import Endpoints
  import UserRequests

  /** The constructor arguments of `NSGiftsClient`. */
  datatype Settings = Settings(
    baseUrl: string,
    maxRetries: int,
    requestTimeout: int,
    serverErrorCooldown: int,
    tokenRefreshBuffer: int)

  /** One request handed to the session. */
  datatype HttpRequest = HttpRequest(
    verb: string,
    url: string,
    payload: Option<Object>,
    headers: map<string, string>,
    timeout: int)

  /** A decoded response body: the two fields the core reads, and the rest. */
  datatype Body = Body(accessToken: Option<string>, validThru: Option<int>, rest: Object)

  /** What one send comes to: a decoded body, an error status with its reason
      phrase (the session raises for every status of 400 and above), or a
      connection or timeout failure. */
  datatype Outcome =
    | Response(body: Body)
    | Status(code: int, reason: string)
    | ConnFail
    | TimeoutFail

  /** The client fields the core reads and writes, the session reduced to
      whether one is open and how many were created, and the log of what was
      sent and slept. */
  datatype ClientState = ClientState(
    token: Option<string>,
    tokenExpiry: int,
    email: Option<string>,
    password: Option<string>,
    serverErrorDetected: bool,
    serverErrorTimestamp: int,
    sessionOpen: bool,
    sessionsCreated: nat,
    sent: seq<HttpRequest>,
    slept: seq<nat>)

  const INITIAL: ClientState := ClientState(None, 0, None, None, false, 0, false, 0, [], [])

  datatype Result<+T> = Ok(value: T) | Err(error: ApiError)

  /** An operation's outcome, the state it leaves and the clock after it. */
  datatype Step<+T> = Step(out: Result<T>, state: ClientState, clock: int)

  // --- Error messages ---

  const RETRIES_EXHAUSTED: string := "Request failed after all retries."
  const REFRESH_FAILED: string := "Authentication failed after token refresh."
  const CREDENTIALS_MISSING: string := "Token expired, but credentials are not set for refresh. Call login() first."
  const AUTH_REQUIRED: string := "Authentication required. Call login() or signup() first."
  const DEFAULT_TOKEN_LIFETIME: int := 5400

  function CooldownError(remaining: int): ApiError {
    NewServerError("API server error detected. Avoiding requests for " + IntToString(remaining) + " more seconds.", None, None)
  }

  function ClientErrorAt(url: string, code: int, reason: string): ApiError {
    NewClientError("Client error at " + url + ": " + IntToString(code) + " " + reason, None, None)
  }

  function ServerErrorAt(url: string, code: int, reason: string): ApiError {
    NewServerError("Server error at " + url + ": " + IntToString(code) + " " + reason, None, None)
  }

  function TransportError(isTimeout: bool, maxRetries: int): ApiError {
    if isTimeout then Plain(TimeoutError, "Request timeout after " + IntToString(maxRetries) + " attempts.")
    else Plain(ConnectionError, "Connection error after " + IntToString(maxRetries) + " attempts.")
  }

  function Commas(fields: seq<string>): string {
    if fields == [] then "" else if |fields| == 1 then fields[0] else fields[0] + ", " + Commas(fields[1..])
  }

  /** The request model's validation error, naming the failing fields. */
  function ValidationFailure(fields: seq<string>): ApiError {
    Plain(ValidationError, "validation error: " + Commas(fields))
  }

  // --- Small pieces ---

  /** `_get_headers` */
  function Headers(token: Option<string>): (h: map<string, string>)
    ensures "Content-Type" in h && h["Content-Type"] == "application/json"
    ensures "Authorization" in h <==> Truthy(token)
    ensures "Authorization" in h ==> h["Authorization"] == "Bearer " + token.value
    ensures h.Keys <= {"Content-Type", "Authorization"}
  {
    var base := map["Content-Type" := "application/json"];
    if Truthy(token) then base["Authorization" := "Bearer " + token.value] else base
  }

  /** `_is_cooldown_expired` */
  predicate CooldownExpired(st: Settings, s: ClientState, now: int) {
    s.serverErrorTimestamp + st.serverErrorCooldown <= now
  }

  /** The fail-fast test at the top of each attempt. */
  predicate Blocked(st: Settings, s: ClientState, isAuth: bool, now: int) {
    s.serverErrorDetected && !CooldownExpired(st, s, now) && !isAuth
  }

  /** The refresh test of `_ensure_valid_token`. */
  predicate NeedsRefresh(st: Settings, s: ClientState, now: int) {
    !Truthy(s.token) || s.tokenExpiry - now < st.tokenRefreshBuffer
  }

  /** `_ensure_session`: a session is created only when none is open. */
  function EnsureSession(s: ClientState): (r: ClientState)
    ensures r.sessionOpen
    ensures r.sessionsCreated == s.sessionsCreated + (if s.sessionOpen then 0 else 1)
    ensures r == s.(sessionOpen := true, sessionsCreated := r.sessionsCreated)
  {
    if s.sessionOpen then s else s.(sessionOpen := true, sessionsCreated := s.sessionsCreated + 1)
  }

  /** Token capture on a successful response. */
  function Capture(s: ClientState, endpoint: string, body: Body, now: int): ClientState {
    if Endpoints.IsTokenEndpoint(endpoint) && body.accessToken.Some? then
      s.(token := body.accessToken,
         tokenExpiry := if body.validThru.Some? then body.validThru.value else now + DEFAULT_TOKEN_LIFETIME)
    else s
  }

  /** A response field pydantic accepts for an `int` in lax mode: an
      integer, a boolean, a float with no fractional part, or a string of
      decimal digits. */
  predicate IntField(o: Object, key: string) {
    key in o &&
    match o[key]
    case JInt(_) => true
    case JBool(_) => true
    case JFloat(x) => x == x.Floor as real
    case JStr(t) => t != [] && AllDigits(t)
    case _ => false
  }

  /** A response field pydantic accepts for a `str`: a string. */
  predicate StrField(o: Object, key: string) {
    key in o && o[key].JStr?
  }

  /** The fields `LoginResponse(**result)` requires. */
  function LoginResponseChecks(b: Body): seq<Check> {
    [Check("access_token", b.accessToken.Some?), Check("valid_thru", b.validThru.Some?),
     Check("user_id", IntField(b.rest, "user_id"))]
  }

  /** The fields `SignupResponse(**result)` requires. */
  function SignupResponseChecks(b: Body): seq<Check> {
    [Check("access_token", b.accessToken.Some?), Check("token_type", StrField(b.rest, "token_type"))]
  }

  function Pow2(n: nat): (p: nat)
    ensures p >= 1
  {
    if n == 0 then 1 else 2 * Pow2(n - 1)
  }

  /** The request sent on an attempt from state s. The URL is the base URL
      followed by the endpoint's path, as the source intends;
      `Endpoints.UrlSuffixAsWritten` is what its f-string renders instead. */
  function Outgoing(st: Settings, s: ClientState, verb: string, endpoint: string, payload: Option<Object>): HttpRequest {
    HttpRequest(verb, st.baseUrl + endpoint, payload, Headers(s.token), st.requestTimeout)
  }

  // --- The retry loop and the calls built on it ---

  /** The attempts of `_request_with_retries` from `attempt` on. */
  function RetryLoop(st: Settings, s: ClientState, verb: string, endpoint: string, payload: Option<Object>,
                     isAuth: bool, attempt: nat, now: int, net: nat -> Outcome): Step<Body>
    decreases if isAuth then 0 else 4, st.maxRetries - attempt
  {
    if attempt >= st.maxRetries then
      Step(Err(Plain(GenericError, RETRIES_EXHAUSTED)), s, now)
    else if Blocked(st, s, isAuth, now) then
      Step(Err(CooldownError(s.serverErrorTimestamp + st.serverErrorCooldown - now)), s, now)
    else
      var url := st.baseUrl + endpoint;
      var s1 := s.(sent := s.sent + [Outgoing(st, s, verb, endpoint, payload)]);
      match net(|s.sent|)
      case Response(body) =>
        Step(Ok(body), Capture(s1, endpoint, body, now), now)
      case Status(code, reason) =>
        if 400 <= code < 500 then
          if code == 401 && !isAuth then
            var r := EnsureValidToken(st, s1, now, net);
            if r.out.Ok? then RetryLoop(st, r.state, verb, endpoint, payload, isAuth, attempt + 1, r.clock, net)
            else if r.out.error.kind == AuthenticationError then
              Step(Err(Plain(AuthenticationError, REFRESH_FAILED)), r.state, r.clock)
            else Step(Err(r.out.error), r.state, r.clock)
          else Step(Err(ClientErrorAt(url, code, reason)), s1, now)
        else
          Step(Err(ServerErrorAt(url, code, reason)), s1.(serverErrorDetected := true, serverErrorTimestamp := now), now)
      case ConnFail =>
        if attempt < st.maxRetries - 1 then
          RetryLoop(st, s1.(slept := s1.slept + [Pow2(attempt)]), verb, endpoint, payload, isAuth, attempt + 1,
                    now + Pow2(attempt), net)
        else Step(Err(TransportError(false, st.maxRetries)), s1, now)
      case TimeoutFail =>
        if attempt < st.maxRetries - 1 then
          RetryLoop(st, s1.(slept := s1.slept + [Pow2(attempt)]), verb, endpoint, payload, isAuth, attempt + 1,
                    now + Pow2(attempt), net)
        else Step(Err(TransportError(true, st.maxRetries)), s1, now)
  }

  /** `_request_with_retries` */
  function RequestWithRetries(st: Settings, s: ClientState, verb: string, endpoint: string, payload: Option<Object>,
                              isAuth: bool, now: int, net: nat -> Outcome): Step<Body>
    decreases if isAuth then 1 else 5, 0
  {
    RetryLoop(st, EnsureSession(s), verb, endpoint, payload, isAuth, 0, now, net)
  }

  /** `UserMethods.login`: the credentials are stored first, then the
      request model is built, then the authentication request is sent, and
      last the response model is built from the returned body. A body it
      rejects gives the validation error after the token was captured. */
  function Login(st: Settings, s: ClientState, email: string, password: string, now: int, net: nat -> Outcome): Step<Body>
    decreases 2, 0
  {
    var s1 := s.(email := Some(email), password := Some(password));
    match UserRequests.LoginSchema(email, password)
    case Invalid(fields) => Step(Err(ValidationFailure(fields)), s1, now)
    case Valid(v) =>
      var r := RequestWithRetries(st, s1, "POST", Endpoints.LOGIN, Some(UserRequests.LoginPayload(v)), true, now, net);
      if r.out.Ok? && Failing(LoginResponseChecks(r.out.value)) != [] then
        Step(Err(ValidationFailure(Failing(LoginResponseChecks(r.out.value)))), r.state, r.clock)
      else r
  }

  /** `UserMethods.signup`: like login, with the signup models and path;
      the username is not stored. */
  function Signup(st: Settings, s: ClientState, username: string, email: string, password: string,
                  now: int, net: nat -> Outcome): Step<Body>
    decreases 2, 0
  {
    var s1 := s.(email := Some(email), password := Some(password));
    match UserRequests.SignupSchema(username, email, password)
    case Invalid(fields) => Step(Err(ValidationFailure(fields)), s1, now)
    case Valid(v) =>
      var r := RequestWithRetries(st, s1, "POST", Endpoints.SIGNUP, Some(UserRequests.SignupPayload(v)), true, now, net);
      if r.out.Ok? && Failing(SignupResponseChecks(r.out.value)) != [] then
        Step(Err(ValidationFailure(Failing(SignupResponseChecks(r.out.value)))), r.state, r.clock)
      else r
  }

  /** `_ensure_valid_token` */
  function EnsureValidToken(st: Settings, s: ClientState, now: int, net: nat -> Outcome): Step<()>
    decreases 3, 0
  {
    if !NeedsRefresh(st, s, now) then Step(Ok(()), s, now)
    else if !Truthy(s.email) || !Truthy(s.password) then
      Step(Err(Plain(AuthenticationError, CREDENTIALS_MISSING)), s, now)
    else
      var r := Login(st, s, s.email.value, s.password.value, now, net);
      Step(if r.out.Ok? then Ok(()) else Err(r.out.error), r.state, r.clock)
  }

  /** `_make_authenticated_request` */
  function AuthenticatedRequest(st: Settings, s: ClientState, verb: string, endpoint: string, payload: Option<Object>,
                                now: int, net: nat -> Outcome): Step<Body>
    decreases 6, 0
  {
    if !Truthy(s.token) && !(Truthy(s.email) && Truthy(s.password)) then
      Step(Err(Plain(AuthenticationError, AUTH_REQUIRED)), s, now)
    else
      var r := EnsureValidToken(st, s, now, net);
      if r.out.Err? then Step(Err(r.out.error), r.state, r.clock)
      else RequestWithRetries(st, r.state, verb, endpoint, payload, false, r.clock, net)
  }

  /** `UserMethods.check_balance` */
  function CheckBalance(st: Settings, s: ClientState, now: int, net: nat -> Outcome): Step<Body> {
    AuthenticatedRequest(st, s, "POST", Endpoints.UserEndpoint.CheckBalance.Value(), None, now, net)
  }

  /** `UserMethods.get_user_info` */
  function GetUserInfo(st: Settings, s: ClientState, now: int, net: nat -> Outcome): Step<Body> {
    AuthenticatedRequest(st, s, "POST", Endpoints.UserEndpoint.GetUserInfo.Value(), None, now, net)
  }

  /** `is_server_error_detected`: the flag is cleared lazily once the
      cooldown is over, then reported. */
  function CheckServerError(st: Settings, s: ClientState, now: int): (ClientState, bool) {
    var s1 := if s.serverErrorDetected && CooldownExpired(st, s, now) then s.(serverErrorDetected := false) else s;
    (s1, s1.serverErrorDetected)
  }

  /** `reset_server_error_state` */
  function ResetServerError(s: ClientState): ClientState {
    s.(serverErrorDetected := false, serverErrorTimestamp := 0)
  }

  /** `close`: the open session, if any, is closed and dropped. */
  function Close(s: ClientState): ClientState {
    s.(sessionOpen := false)
  }
}
