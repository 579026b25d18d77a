/** `NSGiftsClient` and `UserMethods` as classes whose methods update the
    client's fields in place. Every method is proved to leave the fields
    exactly as the matching function of module RequestCore says, so the
    laws of module RequestLaws hold of these methods too. */
module Client {
  import opened Text
  import opened JsonData
  import opened Schema
  import opened Errors
  import opened RequestCore
  import Endpoints
  import UserRequests

  class NSGiftsClient {
    const baseUrl: string
    const maxRetries: int
    const requestTimeout: int
    const serverErrorCooldown: int
    const tokenRefreshBuffer: int

    var token: Option<string>
    var tokenExpiry: int
    var email: Option<string>
    var password: Option<string>
    var serverErrorDetected: bool
    var serverErrorTimestamp: int
    /** Whether a session is open, and how many were created. */
    var sessionOpen: bool
    var sessionsCreated: nat
    /** Every request handed to the session, and every backoff sleep. */
    var sent: seq<HttpRequest>
    var slept: seq<nat>

    var user: UserMethods?

    /** The constructor arguments. */
    function Config(): Settings {
      Settings(baseUrl, maxRetries, requestTimeout, serverErrorCooldown, tokenRefreshBuffer)
    }

    /** The fields the request core reads and writes. */
    function State(): ClientState
      reads this
    {
      ClientState(token, tokenExpiry, email, password, serverErrorDetected, serverErrorTimestamp,
                  sessionOpen, sessionsCreated, sent, slept)
    }

    /** The user methods are bound to this client. */
    ghost predicate Valid()
      reads this
    {
      user != null && user.client == this
    }

    constructor(baseUrl: string, maxRetries: int, requestTimeout: int, serverErrorCooldown: int,
                tokenRefreshBuffer: int)
      ensures Config() == Settings(baseUrl, maxRetries, requestTimeout, serverErrorCooldown, tokenRefreshBuffer)
      ensures State() == INITIAL
      ensures Valid() && fresh(user)
    {
      this.baseUrl := baseUrl;
      this.maxRetries := maxRetries;
      this.requestTimeout := requestTimeout;
      this.serverErrorCooldown := serverErrorCooldown;
      this.tokenRefreshBuffer := tokenRefreshBuffer;
      token := None;
      tokenExpiry := 0;
      email := None;
      password := None;
      sessionOpen := false;
      sessionsCreated := 0;
      serverErrorDetected := false;
      serverErrorTimestamp := 0;
      sent := [];
      slept := [];
      new;
      user := new UserMethods(this);
    }

    /** `close` */
    method Close()
      modifies this
      ensures State() == RequestCore.Close(old(State())) && user == old(user)
    {
      if sessionOpen {
        sessionOpen := false;
      }
    }

    /** `_get_headers`: the JSON content type, and the bearer token when one
        is set. */
    method GetHeaders() returns (h: map<string, string>)
      ensures h == Headers(token)
    {
      h := map["Content-Type" := "application/json"];
      if token.Some? && token.value != "" {
        h := h["Authorization" := "Bearer " + token.value];
      }
    }

    /** `_ensure_session` */
    method EnsureSession()
      modifies this
      ensures State() == RequestCore.EnsureSession(old(State())) && user == old(user)
    {
      if !sessionOpen {
        sessionOpen := true;
        sessionsCreated := sessionsCreated + 1;
      }
    }

    /** `_is_cooldown_expired`, at time `now`. */
    method IsCooldownExpired(now: int) returns (expired: bool)
      ensures expired <==> CooldownExpired(Config(), State(), now)
    {
      expired := serverErrorTimestamp + serverErrorCooldown <= now;
    }

    /** `is_server_error_detected`, at time `now`. */
    method IsServerErrorDetected(now: int) returns (detected: bool)
      modifies this
      ensures (State(), detected) == CheckServerError(Config(), old(State()), now) && user == old(user)
    {
      var expired := IsCooldownExpired(now);
      if serverErrorDetected && expired {
        serverErrorDetected := false;
      }
      detected := serverErrorDetected;
    }

    /** `reset_server_error_state` */
    method ResetServerErrorState()
      modifies this
      ensures State() == ResetServerError(old(State())) && user == old(user)
    {
      serverErrorDetected := false;
      serverErrorTimestamp := 0;
    }

    /** `_ensure_valid_token`, at time `now`. */
    method EnsureValidToken(now: int, net: nat -> Outcome) returns (r: Result<()>, clock: int)
      requires Valid()
      modifies this
      ensures Valid() && user == old(user)
      ensures var step := RequestCore.EnsureValidToken(Config(), old(State()), now, net);
        r == step.out && State() == step.state && clock == step.clock
      decreases 3, 0
    {
      if token.Some? && token.value != "" && tokenExpiry - now >= tokenRefreshBuffer {
        return Ok(()), now;
      }
      if !Truthy(email) || !Truthy(password) {
        return Err(Plain(AuthenticationError, CREDENTIALS_MISSING)), now;
      }
      var res;
      res, clock := user.Login(email.value, password.value, now, net);
      r := if res.Ok? then Ok(()) else Err(res.error);
    }

    /** `_request_with_retries`, starting at time `now`; `net` answers each
        send and the returned clock is `now` plus the time slept. */
    method RequestWithRetries(verb: string, endpoint: string, payload: Option<Object>, isAuth: bool,
                              now: int, net: nat -> Outcome) returns (r: Result<Body>, clock: int)
      requires Valid()
      modifies this
      ensures Valid() && user == old(user)
      ensures var step := RequestCore.RequestWithRetries(Config(), old(State()), verb, endpoint, payload, isAuth, now, net);
        r == step.out && State() == step.state && clock == step.clock
      decreases if isAuth then 1 else 5, 0
    {
      EnsureSession();
      ghost var target := RetryLoop(Config(), State(), verb, endpoint, payload, isAuth, 0, now, net);
      var attempt: nat := 0;
      clock := now;
      while attempt < maxRetries
        invariant Valid() && user == old(user)
        invariant RetryLoop(Config(), State(), verb, endpoint, payload, isAuth, attempt, clock, net) == target
        decreases maxRetries - attempt
      {
        var finished;
        finished, r, clock := Attempt(verb, endpoint, payload, isAuth, attempt, clock, net);
        if finished {
          return;
        }
        attempt := attempt + 1;
      }
      LoopExhausted(Config(), State(), verb, endpoint, payload, isAuth, attempt, clock, net);
      r := Err(Plain(GenericError, RETRIES_EXHAUSTED));
    }

    /** One pass through the body of the `for attempt` loop: either the call
        ends here with `r`, or the loop goes on with the next attempt. */
    method Attempt(verb: string, endpoint: string, payload: Option<Object>, isAuth: bool, attempt: nat,
                   now: int, net: nat -> Outcome) returns (finished: bool, r: Result<Body>, clock: int)
      requires Valid() && attempt < maxRetries
      modifies this
      ensures Valid() && user == old(user)
      ensures var step := RetryLoop(Config(), old(State()), verb, endpoint, payload, isAuth, attempt, now, net);
        if finished then r == step.out && State() == step.state && clock == step.clock
        else RetryLoop(Config(), State(), verb, endpoint, payload, isAuth, attempt + 1, clock, net) == step
      decreases if isAuth then 0 else 4, maxRetries - attempt, 1
    {
      var url := baseUrl + endpoint;
      ghost var s := State();
      clock := now;
      r := Err(Plain(GenericError, RETRIES_EXHAUSTED));
      var expired := IsCooldownExpired(now);
      if serverErrorDetected && !expired && !isAuth {
        LoopBlocked(Config(), s, verb, endpoint, payload, isAuth, attempt, now, net);
        return true, Err(CooldownError(serverErrorTimestamp + serverErrorCooldown - now)), now;
      }
      var headers := GetHeaders();
      var outcome := net(|sent|);
      sent := sent + [HttpRequest(verb, url, payload, headers, requestTimeout)];
      ghost var s1 := State();
      assert s1 == s.(sent := s.sent + [Outgoing(Config(), s, verb, endpoint, payload)]);
      match outcome {
        case Response(body) =>
          finished, r, clock := OnResponse(verb, endpoint, payload, isAuth, attempt, body, now, net, s);
        case Status(code, reason) =>
          finished, r, clock := OnErrorStatus(verb, endpoint, payload, isAuth, attempt, code, reason, now, net, s);
        case ConnFail =>
          finished, r, clock := OnTransportFailure(verb, endpoint, payload, isAuth, attempt, false, now, net, s);
        case TimeoutFail =>
          finished, r, clock := OnTransportFailure(verb, endpoint, payload, isAuth, attempt, true, now, net, s);
      }
    }

    /** The body of the `async with` block of an attempt that was sent from
        state `s` and answered with `body`: capture the token from the two
        token endpoints, then return the body. */
    method OnResponse(verb: string, endpoint: string, payload: Option<Object>, isAuth: bool, attempt: nat,
                      body: Body, now: int, net: nat -> Outcome, ghost s: ClientState)
      returns (finished: bool, r: Result<Body>, clock: int)
      requires attempt < maxRetries && !Blocked(Config(), s, isAuth, now)
      requires net(|s.sent|) == Response(body)
      requires State() == s.(sent := s.sent + [Outgoing(Config(), s, verb, endpoint, payload)])
      modifies this
      ensures user == old(user)
      ensures var step := RetryLoop(Config(), s, verb, endpoint, payload, isAuth, attempt, now, net);
        finished && r == step.out && State() == step.state && clock == step.clock
    {
      LoopResponse(Config(), s, State(), verb, endpoint, payload, isAuth, attempt, now, net);
      if Endpoints.IsTokenEndpoint(endpoint) && body.accessToken.Some? {
        token := body.accessToken;
        tokenExpiry := if body.validThru.Some? then body.validThru.value else now + DEFAULT_TOKEN_LIFETIME;
      }
      return true, Ok(body), now;
    }

    /** The `except ClientResponseError` handler of an attempt that was sent
        from state `s` and answered with an error status. */
    method OnErrorStatus(verb: string, endpoint: string, payload: Option<Object>, isAuth: bool, attempt: nat,
                         code: int, reason: string, now: int, net: nat -> Outcome, ghost s: ClientState)
      returns (finished: bool, r: Result<Body>, clock: int)
      requires Valid() && attempt < maxRetries && !Blocked(Config(), s, isAuth, now)
      requires net(|s.sent|) == Status(code, reason)
      requires State() == s.(sent := s.sent + [Outgoing(Config(), s, verb, endpoint, payload)])
      modifies this
      ensures Valid() && user == old(user)
      ensures var step := RetryLoop(Config(), s, verb, endpoint, payload, isAuth, attempt, now, net);
        if finished then r == step.out && State() == step.state && clock == step.clock
        else RetryLoop(Config(), State(), verb, endpoint, payload, isAuth, attempt + 1, clock, net) == step
      decreases if isAuth then 0 else 4, maxRetries - attempt, 0
    {
      var url := baseUrl + endpoint;
      ghost var s1 := State();
      clock := now;
      r := Err(Plain(GenericError, RETRIES_EXHAUSTED));
      if 400 <= code < 500 {
        if code == 401 && !isAuth {
          var refreshed;
          refreshed, clock := EnsureValidToken(now, net);
          LoopRefresh(Config(), s, s1, verb, endpoint, payload, isAuth, attempt, now, net);
          if refreshed.Ok? {
            finished := false;
          } else if refreshed.error.kind == AuthenticationError {
            finished, r := true, Err(Plain(AuthenticationError, REFRESH_FAILED));
          } else {
            finished, r := true, Err(refreshed.error);
          }
        } else {
          LoopClientError(Config(), s, s1, verb, endpoint, payload, isAuth, attempt, now, net);
          finished, r := true, Err(ClientErrorAt(url, code, reason));
        }
      } else {
        LoopServerError(Config(), s, s1, verb, endpoint, payload, isAuth, attempt, now, net);
        serverErrorDetected := true;
        serverErrorTimestamp := now;
        finished, r := true, Err(ServerErrorAt(url, code, reason));
      }
    }

    /** The `except` handler for connection and timeout failures of an
        attempt sent from state `s`: back off and go on, or give up on the
        last attempt. */
    method OnTransportFailure(verb: string, endpoint: string, payload: Option<Object>, isAuth: bool,
                              attempt: nat, isTimeout: bool, now: int, net: nat -> Outcome, ghost s: ClientState)
      returns (finished: bool, r: Result<Body>, clock: int)
      requires attempt < maxRetries && !Blocked(Config(), s, isAuth, now)
      requires net(|s.sent|) == (if isTimeout then TimeoutFail else ConnFail)
      requires State() == s.(sent := s.sent + [Outgoing(Config(), s, verb, endpoint, payload)])
      modifies this
      ensures user == old(user)
      ensures var step := RetryLoop(Config(), s, verb, endpoint, payload, isAuth, attempt, now, net);
        if finished then r == step.out && State() == step.state && clock == step.clock
        else RetryLoop(Config(), State(), verb, endpoint, payload, isAuth, attempt + 1, clock, net) == step
    {
      ghost var s1 := State();
      LoopTransport(Config(), s, s1, verb, endpoint, payload, isAuth, attempt, now, net);
      if attempt < maxRetries - 1 {
        var waitTime := Pow2(attempt);
        slept := slept + [waitTime];
        assert State() == s1.(slept := s1.slept + [waitTime]);
        return false, Err(Plain(GenericError, RETRIES_EXHAUSTED)), now + waitTime;
      } else {
        assert net(|s.sent|).TimeoutFail? == isTimeout;
        return true, Err(TransportError(isTimeout, maxRetries)), now;
      }
    }

    /** `_make_authenticated_request`, at time `now`. */
    method MakeAuthenticatedRequest(verb: string, endpoint: string, payload: Option<Object>, now: int,
                                    net: nat -> Outcome) returns (r: Result<Body>, clock: int)
      requires Valid()
      modifies this
      ensures Valid() && user == old(user)
      ensures var step := AuthenticatedRequest(Config(), old(State()), verb, endpoint, payload, now, net);
        r == step.out && State() == step.state && clock == step.clock
      decreases 6, 0
    {
      if !Truthy(token) && !(Truthy(email) && Truthy(password)) {
        return Err(Plain(AuthenticationError, AUTH_REQUIRED)), now;
      }
      var checked;
      checked, clock := EnsureValidToken(now, net);
      if checked.Err? {
        return Err(checked.error), clock;
      }
      r, clock := RequestWithRetries(verb, endpoint, payload, false, clock, net);
    }
  }

  /** The user methods, bound to one client. */
  class UserMethods {
    const client: NSGiftsClient

    constructor(client: NSGiftsClient)
      ensures this.client == client
    {
      this.client := client;
    }

    /** `login`: the credentials are stored on the client first. */
    method Login(email: string, password: string, now: int, net: nat -> Outcome) returns (r: Result<Body>, clock: int)
      requires client.Valid()
      modifies client
      ensures client.Valid() && client.user == old(client.user)
      ensures var step := RequestCore.Login(client.Config(), old(client.State()), email, password, now, net);
        r == step.out && client.State() == step.state && clock == step.clock
      decreases 2, 0
    {
      client.email := Some(email);
      client.password := Some(password);
      match UserRequests.LoginSchema(email, password)
      case Invalid(fields) =>
        r, clock := Err(ValidationFailure(fields)), now;
      case Valid(v) =>
        r, clock := client.RequestWithRetries("POST", Endpoints.LOGIN, Some(UserRequests.LoginPayload(v)), true, now, net);
        if r.Ok? {
          var failing := Failing(LoginResponseChecks(r.value));
          if failing != [] {
            r := Err(ValidationFailure(failing));
          }
        }
    }

    /** `signup`: the email and password are stored on the client first. */
    method Signup(username: string, email: string, password: string, now: int, net: nat -> Outcome)
      returns (r: Result<Body>, clock: int)
      requires client.Valid()
      modifies client
      ensures client.Valid() && client.user == old(client.user)
      ensures var step := RequestCore.Signup(client.Config(), old(client.State()), username, email, password, now, net);
        r == step.out && client.State() == step.state && clock == step.clock
    {
      client.email := Some(email);
      client.password := Some(password);
      match UserRequests.SignupSchema(username, email, password)
      case Invalid(fields) =>
        r, clock := Err(ValidationFailure(fields)), now;
      case Valid(v) =>
        r, clock := client.RequestWithRetries("POST", Endpoints.SIGNUP, Some(UserRequests.SignupPayload(v)), true, now, net);
        if r.Ok? {
          var failing := Failing(SignupResponseChecks(r.value));
          if failing != [] {
            r := Err(ValidationFailure(failing));
          }
        }
    }

    /** `check_balance` */
    method CheckBalance(now: int, net: nat -> Outcome) returns (r: Result<Body>, clock: int)
      requires client.Valid()
      modifies client
      ensures client.Valid() && client.user == old(client.user)
      ensures var step := RequestCore.CheckBalance(client.Config(), old(client.State()), now, net);
        r == step.out && client.State() == step.state && clock == step.clock
    {
      r, clock := client.MakeAuthenticatedRequest("POST", Endpoints.UserEndpoint.CheckBalance.Value(), None, now, net);
    }

    /** `get_user_info` */
    method GetUserInfo(now: int, net: nat -> Outcome) returns (r: Result<Body>, clock: int)
      requires client.Valid()
      modifies client
      ensures client.Valid() && client.user == old(client.user)
      ensures var step := RequestCore.GetUserInfo(client.Config(), old(client.State()), now, net);
        r == step.out && client.State() == step.state && clock == step.clock
    {
      r, clock := client.MakeAuthenticatedRequest("POST", Endpoints.UserEndpoint.GetUserInfo.Value(), None, now, net);
    }
  }

  // --- One attempt of the retry loop, case by case ---

  lemma LoopExhausted(st: Settings, s: ClientState, verb: string, endpoint: string, payload: Option<Object>,
                      isAuth: bool, attempt: nat, now: int, net: nat -> Outcome)
    requires attempt >= st.maxRetries
    ensures RetryLoop(st, s, verb, endpoint, payload, isAuth, attempt, now, net)
            == Step(Err(Plain(GenericError, RETRIES_EXHAUSTED)), s, now)
  {
  }

  lemma LoopBlocked(st: Settings, s: ClientState, verb: string, endpoint: string, payload: Option<Object>,
                    isAuth: bool, attempt: nat, now: int, net: nat -> Outcome)
    requires attempt < st.maxRetries && Blocked(st, s, isAuth, now)
    ensures RetryLoop(st, s, verb, endpoint, payload, isAuth, attempt, now, net)
            == Step(Err(CooldownError(s.serverErrorTimestamp + st.serverErrorCooldown - now)), s, now)
  {
  }

  lemma LoopResponse(st: Settings, s: ClientState, s1: ClientState, verb: string, endpoint: string,
                     payload: Option<Object>, isAuth: bool, attempt: nat, now: int, net: nat -> Outcome)
    requires attempt < st.maxRetries && !Blocked(st, s, isAuth, now) && net(|s.sent|).Response?
    requires s1 == s.(sent := s.sent + [Outgoing(st, s, verb, endpoint, payload)])
    ensures RetryLoop(st, s, verb, endpoint, payload, isAuth, attempt, now, net)
            == Step(Ok(net(|s.sent|).body), Capture(s1, endpoint, net(|s.sent|).body, now), now)
  {
  }

  lemma LoopRefresh(st: Settings, s: ClientState, s1: ClientState, verb: string, endpoint: string,
                    payload: Option<Object>, isAuth: bool, attempt: nat, now: int, net: nat -> Outcome)
    requires attempt < st.maxRetries && !Blocked(st, s, isAuth, now)
    requires net(|s.sent|).Status? && net(|s.sent|).code == 401 && !isAuth
    requires s1 == s.(sent := s.sent + [Outgoing(st, s, verb, endpoint, payload)])
    ensures var e := RequestCore.EnsureValidToken(st, s1, now, net);
      RetryLoop(st, s, verb, endpoint, payload, isAuth, attempt, now, net)
      == if e.out.Ok? then RetryLoop(st, e.state, verb, endpoint, payload, isAuth, attempt + 1, e.clock, net)
         else if e.out.error.kind == AuthenticationError then
           Step(Err(Plain(AuthenticationError, REFRESH_FAILED)), e.state, e.clock)
         else Step(Err(e.out.error), e.state, e.clock)
  {
  }

  lemma LoopClientError(st: Settings, s: ClientState, s1: ClientState, verb: string, endpoint: string,
                        payload: Option<Object>, isAuth: bool, attempt: nat, now: int, net: nat -> Outcome)
    requires attempt < st.maxRetries && !Blocked(st, s, isAuth, now)
    requires net(|s.sent|).Status? && 400 <= net(|s.sent|).code < 500 && (net(|s.sent|).code != 401 || isAuth)
    requires s1 == s.(sent := s.sent + [Outgoing(st, s, verb, endpoint, payload)])
    ensures RetryLoop(st, s, verb, endpoint, payload, isAuth, attempt, now, net)
            == Step(Err(ClientErrorAt(st.baseUrl + endpoint, net(|s.sent|).code, net(|s.sent|).reason)), s1, now)
  {
  }

  lemma LoopServerError(st: Settings, s: ClientState, s1: ClientState, verb: string, endpoint: string,
                        payload: Option<Object>, isAuth: bool, attempt: nat, now: int, net: nat -> Outcome)
    requires attempt < st.maxRetries && !Blocked(st, s, isAuth, now)
    requires net(|s.sent|).Status? && !(400 <= net(|s.sent|).code < 500)
    requires s1 == s.(sent := s.sent + [Outgoing(st, s, verb, endpoint, payload)])
    ensures RetryLoop(st, s, verb, endpoint, payload, isAuth, attempt, now, net)
            == Step(Err(ServerErrorAt(st.baseUrl + endpoint, net(|s.sent|).code, net(|s.sent|).reason)),
                    s1.(serverErrorDetected := true, serverErrorTimestamp := now), now)
  {
  }

  lemma LoopTransport(st: Settings, s: ClientState, s1: ClientState, verb: string, endpoint: string,
                      payload: Option<Object>, isAuth: bool, attempt: nat, now: int, net: nat -> Outcome)
    requires attempt < st.maxRetries && !Blocked(st, s, isAuth, now)
    requires net(|s.sent|).ConnFail? || net(|s.sent|).TimeoutFail?
    requires s1 == s.(sent := s.sent + [Outgoing(st, s, verb, endpoint, payload)])
    ensures RetryLoop(st, s, verb, endpoint, payload, isAuth, attempt, now, net)
            == if attempt < st.maxRetries - 1 then
                 RetryLoop(st, s1.(slept := s1.slept + [Pow2(attempt)]), verb, endpoint, payload, isAuth,
                           attempt + 1, now + Pow2(attempt), net)
               else Step(Err(TransportError(net(|s.sent|).TimeoutFail?, st.maxRetries)), s1, now)
  {
  }
}
