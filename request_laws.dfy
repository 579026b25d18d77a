/** What the request core guarantees: the logs only grow and the clock moves
    only by the backoff sleeps, the send bounds, and the outcome of each kind
    of response. */
module RequestLaws {
  import opened Text
  import opened JsonData
  import opened Schema
  import opened Errors
  import Endpoints
  import UserRequests
  import opened RequestCore

  function Sum(xs: seq<nat>): nat {
    if xs == [] then 0 else xs[0] + Sum(xs[1..])
  }

  lemma {:induction false} SumConcat(xs: seq<nat>, ys: seq<nat>)
    ensures Sum(xs + ys) == Sum(xs) + Sum(ys)
  {
    if xs != [] {
      assert (xs + ys)[0] == xs[0] && (xs + ys)[1..] == xs[1..] + ys;
      SumConcat(xs[1..], ys);
    } else {
      assert xs + ys == ys;
    }
  }

  predicate IsPrefix<T(==)>(a: seq<T>, b: seq<T>) {
    |a| <= |b| && b[..|a|] == a
  }

  /** r is a later state than s: the request and sleep logs were only
      appended to, the clock moved by exactly the new sleeps, and no session
      count was lost. */
  predicate Extends(s: ClientState, r: ClientState, now: int, clock: int) {
    && IsPrefix(s.sent, r.sent)
    && IsPrefix(s.slept, r.slept)
    && clock == now + Sum(r.slept[|s.slept|..])
    && s.sessionsCreated <= r.sessionsCreated
  }

  lemma ExtendsRefl(s: ClientState, now: int)
    ensures Extends(s, s, now, now)
  {
    assert s.slept[|s.slept|..] == [];
  }

  lemma ExtendsTrans(a: ClientState, b: ClientState, c: ClientState, t0: int, t1: int, t2: int)
    requires Extends(a, b, t0, t1) && Extends(b, c, t1, t2)
    ensures Extends(a, c, t0, t2)
  {
    assert c.sent[..|a.sent|] == c.sent[..|b.sent|][..|a.sent|];
    assert c.slept[..|a.slept|] == c.slept[..|b.slept|][..|a.slept|];
    assert c.slept[|a.slept|..] == b.slept[|a.slept|..] + c.slept[|b.slept|..];
    SumConcat(b.slept[|a.slept|..], c.slept[|b.slept|..]);
  }

  /** One send, and possibly one sleep, taken by a single attempt. */
  lemma ExtendsBySendAndSleep(s: ClientState, q: HttpRequest, d: nat, now: int)
    ensures Extends(s, s.(sent := s.sent + [q]), now, now)
    ensures Extends(s, s.(sent := s.sent + [q], slept := s.slept + [d]), now, now + d)
  {
    var s2 := s.(sent := s.sent + [q], slept := s.slept + [d]);
    assert s2.slept[|s.slept|..] == [d];
    assert Sum([d]) == d + Sum([]);
    assert s.slept[|s.slept|..] == [];
  }

  // --- The logs only grow; the credentials survive every request ---

  lemma {:induction false} RetryLoopLogs(st: Settings, s: ClientState, verb: string, endpoint: string,
                                         payload: Option<Object>, isAuth: bool, attempt: nat, now: int,
                                         net: nat -> Outcome)
    ensures var r := RetryLoop(st, s, verb, endpoint, payload, isAuth, attempt, now, net);
      Extends(s, r.state, now, r.clock) && r.state.email == s.email && r.state.password == s.password
    decreases if isAuth then 0 else 4, st.maxRetries - attempt, 1
  {
    if attempt >= st.maxRetries || Blocked(st, s, isAuth, now) {
      ExtendsRefl(s, now);
    } else {
      var q := Outgoing(st, s, verb, endpoint, payload);
      var s1 := s.(sent := s.sent + [q]);
      match net(|s.sent|) {
        case Response(body) =>
          ExtendsBySendAndSleep(s, q, 0, now);
        case Status(code, reason) =>
          if code == 401 && !isAuth {
            RetryLoopLogs401(st, s, verb, endpoint, payload, isAuth, attempt, now, net);
          } else if 400 <= code < 500 {
            ExtendsBySendAndSleep(s, q, 0, now);
          } else {
            ExtendsBySendAndSleep(s, q, 0, now);
            var s2 := s1.(serverErrorDetected := true, serverErrorTimestamp := now);
            assert s2.slept[|s.slept|..] == [];
          }
        case ConnFail =>
          RetryLoopLogsTransport(st, s, verb, endpoint, payload, isAuth, attempt, now, net);
        case TimeoutFail =>
          RetryLoopLogsTransport(st, s, verb, endpoint, payload, isAuth, attempt, now, net);
      }
    }
  }

  /** A 401 on a non-auth request: the token check, then the next attempt. */
  lemma {:induction false} RetryLoopLogs401(st: Settings, s: ClientState, verb: string, endpoint: string,
                                            payload: Option<Object>, isAuth: bool, attempt: nat, now: int,
                                            net: nat -> Outcome)
    requires attempt < st.maxRetries && !Blocked(st, s, isAuth, now) && !isAuth
    requires net(|s.sent|).Status? && net(|s.sent|).code == 401
    ensures var r := RetryLoop(st, s, verb, endpoint, payload, isAuth, attempt, now, net);
      Extends(s, r.state, now, r.clock) && r.state.email == s.email && r.state.password == s.password
    decreases if isAuth then 0 else 4, st.maxRetries - attempt, 0
  {
    var q := Outgoing(st, s, verb, endpoint, payload);
    var s1 := s.(sent := s.sent + [q]);
    ExtendsBySendAndSleep(s, q, 0, now);
    var e := EnsureValidToken(st, s1, now, net);
    EnsureValidTokenLogs(st, s1, now, net);
    ExtendsTrans(s, s1, e.state, now, now, e.clock);
    if e.out.Ok? {
      RetryLoopLogs(st, e.state, verb, endpoint, payload, isAuth, attempt + 1, e.clock, net);
      var r := RetryLoop(st, s, verb, endpoint, payload, isAuth, attempt, now, net);
      assert r == RetryLoop(st, e.state, verb, endpoint, payload, isAuth, attempt + 1, e.clock, net);
      ExtendsTrans(s, e.state, r.state, now, e.clock, r.clock);
    }
  }

  /** A connection failure or timeout: a backoff sleep and the next attempt,
      or the final error. */
  lemma {:induction false} RetryLoopLogsTransport(st: Settings, s: ClientState, verb: string, endpoint: string,
                                                  payload: Option<Object>, isAuth: bool, attempt: nat, now: int,
                                                  net: nat -> Outcome)
    requires attempt < st.maxRetries && !Blocked(st, s, isAuth, now)
    requires net(|s.sent|).ConnFail? || net(|s.sent|).TimeoutFail?
    ensures var r := RetryLoop(st, s, verb, endpoint, payload, isAuth, attempt, now, net);
      Extends(s, r.state, now, r.clock) && r.state.email == s.email && r.state.password == s.password
    decreases if isAuth then 0 else 4, st.maxRetries - attempt, 0
  {
    var q := Outgoing(st, s, verb, endpoint, payload);
    var s1 := s.(sent := s.sent + [q]);
    if attempt < st.maxRetries - 1 {
      var s2 := s1.(slept := s1.slept + [Pow2(attempt)]);
      ExtendsBySendAndSleep(s, q, Pow2(attempt), now);
      RetryLoopLogs(st, s2, verb, endpoint, payload, isAuth, attempt + 1, now + Pow2(attempt), net);
      var r := RetryLoop(st, s, verb, endpoint, payload, isAuth, attempt, now, net);
      assert r == RetryLoop(st, s2, verb, endpoint, payload, isAuth, attempt + 1, now + Pow2(attempt), net);
      ExtendsTrans(s, s2, r.state, now, now + Pow2(attempt), r.clock);
    } else {
      ExtendsBySendAndSleep(s, q, 0, now);
    }
  }

  lemma {:induction false} RequestWithRetriesLogs(st: Settings, s: ClientState, verb: string, endpoint: string,
                                                  payload: Option<Object>, isAuth: bool, now: int,
                                                  net: nat -> Outcome)
    ensures var r := RequestWithRetries(st, s, verb, endpoint, payload, isAuth, now, net);
      Extends(s, r.state, now, r.clock) && r.state.email == s.email && r.state.password == s.password
    decreases if isAuth then 1 else 5, 0
  {
    var s0 := EnsureSession(s);
    assert s0.slept[|s.slept|..] == [];
    RetryLoopLogs(st, s0, verb, endpoint, payload, isAuth, 0, now, net);
    var r := RequestWithRetries(st, s, verb, endpoint, payload, isAuth, now, net);
    ExtendsTrans(s, s0, r.state, now, now, r.clock);
  }

  /** `login` stores the credentials it was given, whatever follows. */
  lemma {:induction false} LoginLogs(st: Settings, s: ClientState, email: string, password: string, now: int,
                                     net: nat -> Outcome)
    ensures var r := Login(st, s, email, password, now, net);
      Extends(s, r.state, now, r.clock) && r.state.email == Some(email) && r.state.password == Some(password)
    decreases 2, 0
  {
    var s1 := s.(email := Some(email), password := Some(password));
    assert s1.slept[|s.slept|..] == [];
    match UserRequests.LoginSchema(email, password)
    case Invalid(fields) =>
    case Valid(v) =>
      RequestWithRetriesLogs(st, s1, "POST", Endpoints.LOGIN, Some(UserRequests.LoginPayload(v)), true, now, net);
      var r := Login(st, s, email, password, now, net);
      ExtendsTrans(s, s1, r.state, now, now, r.clock);
  }

  lemma {:induction false} EnsureValidTokenLogs(st: Settings, s: ClientState, now: int, net: nat -> Outcome)
    ensures var r := EnsureValidToken(st, s, now, net);
      Extends(s, r.state, now, r.clock) && r.state.email == s.email && r.state.password == s.password
    decreases 3, 0
  {
    if !NeedsRefresh(st, s, now) || !Truthy(s.email) || !Truthy(s.password) {
      ExtendsRefl(s, now);
    } else {
      LoginLogs(st, s, s.email.value, s.password.value, now, net);
    }
  }

  /** `signup` stores the email and password it was given, whatever follows. */
  lemma SignupLogs(st: Settings, s: ClientState, username: string, email: string, password: string, now: int,
                   net: nat -> Outcome)
    ensures var r := Signup(st, s, username, email, password, now, net);
      Extends(s, r.state, now, r.clock) && r.state.email == Some(email) && r.state.password == Some(password)
  {
    var s1 := s.(email := Some(email), password := Some(password));
    assert s1.slept[|s.slept|..] == [];
    match UserRequests.SignupSchema(username, email, password)
    case Invalid(fields) =>
    case Valid(v) =>
      RequestWithRetriesLogs(st, s1, "POST", Endpoints.SIGNUP, Some(UserRequests.SignupPayload(v)), true, now, net);
      var r := Signup(st, s, username, email, password, now, net);
      ExtendsTrans(s, s1, r.state, now, now, r.clock);
  }

  /** An authenticated request keeps the stored credentials. */
  lemma AuthenticatedRequestLogs(st: Settings, s: ClientState, verb: string, endpoint: string,
                                 payload: Option<Object>, now: int, net: nat -> Outcome)
    ensures var r := AuthenticatedRequest(st, s, verb, endpoint, payload, now, net);
      Extends(s, r.state, now, r.clock) && r.state.email == s.email && r.state.password == s.password
  {
    var r := AuthenticatedRequest(st, s, verb, endpoint, payload, now, net);
    if !Truthy(s.token) && !(Truthy(s.email) && Truthy(s.password)) {
      ExtendsRefl(s, now);
    } else {
      var e := EnsureValidToken(st, s, now, net);
      EnsureValidTokenLogs(st, s, now, net);
      if e.out.Ok? {
        RequestWithRetriesLogs(st, e.state, verb, endpoint, payload, false, e.clock, net);
        ExtendsTrans(s, e.state, r.state, now, e.clock, r.clock);
      }
    }
  }

  // --- Send bounds ---

  /** The attempts left from `attempt` on. */
  function Budget(st: Settings, attempt: nat): nat {
    if attempt < st.maxRetries then st.maxRetries - attempt else 0
  }

  /** What one attempt may send: itself, and for an ordinary request also
      a whole login after a 401. */
  function PerAttempt(st: Settings, isAuth: bool): nat {
    if isAuth then 1 else 1 + Budget(st, 0)
  }

  /** What the attempts from `attempt` on may send together. */
  function Allowance(st: Settings, isAuth: bool, attempt: nat): nat {
    Budget(st, attempt) * PerAttempt(st, isAuth)
  }

  lemma AllowanceStep(st: Settings, isAuth: bool, attempt: nat)
    requires attempt < st.maxRetries
    ensures Allowance(st, isAuth, attempt) == Allowance(st, isAuth, attempt + 1) + PerAttempt(st, isAuth)
  {
    var b := Budget(st, attempt + 1);
    var k := PerAttempt(st, isAuth);
    assert Budget(st, attempt) == b + 1;
    assert (b + 1) * k == b * k + k;
  }

  /** Each attempt sends within its share of the allowance. */
  lemma {:induction false} RetryLoopSends(st: Settings, s: ClientState, verb: string, endpoint: string,
                                          payload: Option<Object>, isAuth: bool, attempt: nat, now: int,
                                          net: nat -> Outcome)
    ensures |RetryLoop(st, s, verb, endpoint, payload, isAuth, attempt, now, net).state.sent|
            <= |s.sent| + Allowance(st, isAuth, attempt)
    decreases if isAuth then 0 else 4, st.maxRetries - attempt
  {
    var r := RetryLoop(st, s, verb, endpoint, payload, isAuth, attempt, now, net);
    if attempt < st.maxRetries && !Blocked(st, s, isAuth, now) {
      var q := Outgoing(st, s, verb, endpoint, payload);
      var s1 := s.(sent := s.sent + [q]);
      AllowanceStep(st, isAuth, attempt);
      match net(|s.sent|)
      case Response(body) =>
      case Status(code, reason) =>
        if 400 <= code < 500 && code == 401 && !isAuth {
          var e := EnsureValidToken(st, s1, now, net);
          EnsureValidTokenSends(st, s1, now, net);
          if e.out.Ok? {
            RetryLoopSends(st, e.state, verb, endpoint, payload, isAuth, attempt + 1, e.clock, net);
          }
        }
      case ConnFail =>
        if attempt < st.maxRetries - 1 {
          RetryLoopSends(st, s1.(slept := s1.slept + [Pow2(attempt)]), verb, endpoint, payload, isAuth,
                         attempt + 1, now + Pow2(attempt), net);
        }
      case TimeoutFail =>
        if attempt < st.maxRetries - 1 {
          RetryLoopSends(st, s1.(slept := s1.slept + [Pow2(attempt)]), verb, endpoint, payload, isAuth,
                         attempt + 1, now + Pow2(attempt), net);
        }
    }
  }

  /** An authentication request sends at most `max_retries` times; any
      other request at most `max_retries` times itself plus one login per
      attempt. */
  lemma {:induction false} RequestWithRetriesSends(st: Settings, s: ClientState, verb: string, endpoint: string,
                                                   payload: Option<Object>, isAuth: bool, now: int,
                                                   net: nat -> Outcome)
    ensures |RequestWithRetries(st, s, verb, endpoint, payload, isAuth, now, net).state.sent|
            <= |s.sent| + Allowance(st, isAuth, 0)
    decreases if isAuth then 1 else 5, 0
  {
    RetryLoopSends(st, EnsureSession(s), verb, endpoint, payload, isAuth, 0, now, net);
  }

  lemma {:induction false} LoginSends(st: Settings, s: ClientState, email: string, password: string, now: int,
                                      net: nat -> Outcome)
    ensures |Login(st, s, email, password, now, net).state.sent| <= |s.sent| + Budget(st, 0)
    decreases 2, 0
  {
    var s1 := s.(email := Some(email), password := Some(password));
    match UserRequests.LoginSchema(email, password)
    case Invalid(fields) =>
    case Valid(v) =>
      assert Allowance(st, true, 0) == Budget(st, 0);
      RequestWithRetriesSends(st, s1, "POST", Endpoints.LOGIN, Some(UserRequests.LoginPayload(v)), true, now, net);
  }

  lemma {:induction false} EnsureValidTokenSends(st: Settings, s: ClientState, now: int, net: nat -> Outcome)
    ensures |EnsureValidToken(st, s, now, net).state.sent| <= |s.sent| + Budget(st, 0)
    decreases 3, 0
  {
    if NeedsRefresh(st, s, now) && Truthy(s.email) && Truthy(s.password) {
      LoginSends(st, s, s.email.value, s.password.value, now, net);
    }
  }

  /** With `max_retries` at zero or below nothing is sent and the generic
      error is raised. */
  lemma NoRetriesNoSend(st: Settings, s: ClientState, verb: string, endpoint: string, payload: Option<Object>,
                        isAuth: bool, now: int, net: nat -> Outcome)
    requires st.maxRetries <= 0
    ensures RequestWithRetries(st, s, verb, endpoint, payload, isAuth, now, net)
            == Step(Err(Plain(GenericError, RETRIES_EXHAUSTED)), EnsureSession(s), now)
  {
  }

  // --- The first attempt ---

  /** When the first attempt is not stopped by the cooldown, the first
      request sent is this call's own, with the headers of the current
      token. */
  lemma FirstAttemptSends(st: Settings, s: ClientState, verb: string, endpoint: string, payload: Option<Object>,
                          isAuth: bool, now: int, net: nat -> Outcome)
    requires st.maxRetries > 0 && !Blocked(st, s, isAuth, now)
    ensures var r := RequestWithRetries(st, s, verb, endpoint, payload, isAuth, now, net);
      |r.state.sent| > |s.sent| && r.state.sent[|s.sent|] == Outgoing(st, s, verb, endpoint, payload)
  {
    var s0 := EnsureSession(s);
    var q := Outgoing(st, s, verb, endpoint, payload);
    var s1 := s0.(sent := s0.sent + [q]);
    var r := RequestWithRetries(st, s, verb, endpoint, payload, isAuth, now, net);
    assert r == RetryLoop(st, s0, verb, endpoint, payload, isAuth, 0, now, net);
    assert Outgoing(st, s0, verb, endpoint, payload) == q;
    match net(|s.sent|)
    case Response(body) =>
    case Status(code, reason) =>
      if 400 <= code < 500 && code == 401 && !isAuth {
        var e := EnsureValidToken(st, s1, now, net);
        EnsureValidTokenLogs(st, s1, now, net);
        if e.out.Ok? {
          RetryLoopLogs(st, e.state, verb, endpoint, payload, isAuth, 1, e.clock, net);
          assert r.state.sent[..|e.state.sent|][..|s1.sent|] == r.state.sent[..|s1.sent|];
        }
        assert e.state.sent[|s.sent|] == e.state.sent[..|s1.sent|][|s.sent|];
      }
    case ConnFail =>
      if 0 < st.maxRetries - 1 {
        RetryLoopLogs(st, s1.(slept := s1.slept + [Pow2(0)]), verb, endpoint, payload, isAuth, 1, now + Pow2(0), net);
        assert r.state.sent[|s.sent|] == r.state.sent[..|s1.sent|][|s.sent|];
      }
    case TimeoutFail =>
      if 0 < st.maxRetries - 1 {
        RetryLoopLogs(st, s1.(slept := s1.slept + [Pow2(0)]), verb, endpoint, payload, isAuth, 1, now + Pow2(0), net);
        assert r.state.sent[|s.sent|] == r.state.sent[..|s1.sent|][|s.sent|];
      }
  }

  /** A request that is not for authentication fails fast while the
      cooldown runs: nothing is sent, and the remaining seconds it reports
      are positive. */
  lemma CooldownFailFast(st: Settings, s: ClientState, verb: string, endpoint: string, payload: Option<Object>,
                         now: int, net: nat -> Outcome)
    requires st.maxRetries > 0 && s.serverErrorDetected && !CooldownExpired(st, s, now)
    ensures var r := RequestWithRetries(st, s, verb, endpoint, payload, false, now, net);
      var remaining := s.serverErrorTimestamp + st.serverErrorCooldown - now;
      && remaining > 0
      && r == Step(Err(CooldownError(remaining)), EnsureSession(s), now)
      && r.out.error.kind == ServerError
  {
  }

  /** Authentication requests are sent even while the cooldown runs. */
  lemma AuthBypassesCooldown(st: Settings, s: ClientState, verb: string, endpoint: string, payload: Option<Object>,
                             now: int, net: nat -> Outcome)
    requires st.maxRetries > 0
    ensures var r := RequestWithRetries(st, s, verb, endpoint, payload, true, now, net);
      |r.state.sent| > |s.sent| && r.state.sent[|s.sent|] == Outgoing(st, s, verb, endpoint, payload)
  {
    FirstAttemptSends(st, s, verb, endpoint, payload, true, now, net);
  }

  /** A successful response is returned at once. It sets the token only on
      a token endpoint whose body has an access token, with the body's
      expiry or 5400 seconds from now; otherwise nothing but the log and the
      session changes. */
  lemma SuccessReturns(st: Settings, s: ClientState, verb: string, endpoint: string, payload: Option<Object>,
                       isAuth: bool, now: int, net: nat -> Outcome)
    requires st.maxRetries > 0 && !Blocked(st, s, isAuth, now) && net(|s.sent|).Response?
    ensures var r := RequestWithRetries(st, s, verb, endpoint, payload, isAuth, now, net);
      var body := net(|s.sent|).body;
      var base := EnsureSession(s).(sent := s.sent + [Outgoing(st, s, verb, endpoint, payload)]);
      && r.out == Ok(body) && r.clock == now
      && (Endpoints.IsTokenEndpoint(endpoint) && body.accessToken.Some? ==>
            r.state == base.(token := body.accessToken,
                             tokenExpiry := if body.validThru.Some? then body.validThru.value else now + 5400))
      && (!(Endpoints.IsTokenEndpoint(endpoint) && body.accessToken.Some?) ==> r.state == base)
  {
  }

  /** Only the login and signup endpoints capture a token. */
  lemma OnlyAuthEndpointsSetToken(st: Settings, s: ClientState, verb: string, e: Endpoints.Endpoint,
                                  payload: Option<Object>, isAuth: bool, now: int, net: nat -> Outcome)
    requires st.maxRetries > 0 && !Blocked(st, s, isAuth, now) && net(|s.sent|).Response?
    requires e != Endpoints.User(Endpoints.Login) && e != Endpoints.User(Endpoints.Signup)
    ensures var r := RequestWithRetries(st, s, verb, e.Path(), payload, isAuth, now, net);
      r.state.token == s.token && r.state.tokenExpiry == s.tokenExpiry
  {
    Endpoints.TokenEndpointIff(e);
    SuccessReturns(st, s, verb, e.Path(), payload, isAuth, now, net);
  }

  /** A status outside 400-499 records the server error at the current time
      and is raised without a retry. */
  lemma ServerErrorTrips(st: Settings, s: ClientState, verb: string, endpoint: string, payload: Option<Object>,
                         isAuth: bool, now: int, net: nat -> Outcome)
    requires st.maxRetries > 0 && !Blocked(st, s, isAuth, now)
    requires net(|s.sent|).Status? && !(400 <= net(|s.sent|).code < 500)
    ensures var r := RequestWithRetries(st, s, verb, endpoint, payload, isAuth, now, net);
      var o := net(|s.sent|);
      && r.out == Err(ServerErrorAt(st.baseUrl + endpoint, o.code, o.reason))
      && r.state == EnsureSession(s).(sent := s.sent + [Outgoing(st, s, verb, endpoint, payload)],
                                      serverErrorDetected := true, serverErrorTimestamp := now)
      && r.clock == now
  {
  }

  /** After a server error, a further ordinary request within the cooldown
      fails fast without sending. */
  lemma ServerErrorThenFailFast(st: Settings, s: ClientState, verb: string, endpoint: string,
                                payload: Option<Object>, isAuth: bool, now: int, net: nat -> Outcome,
                                verb2: string, endpoint2: string, payload2: Option<Object>, later: int)
    requires st.maxRetries > 0 && !Blocked(st, s, isAuth, now)
    requires net(|s.sent|).Status? && !(400 <= net(|s.sent|).code < 500)
    requires now <= later < now + st.serverErrorCooldown
    ensures var r := RequestWithRetries(st, s, verb, endpoint, payload, isAuth, now, net);
      var r2 := RequestWithRetries(st, r.state, verb2, endpoint2, payload2, false, later, net);
      r2.out.Err? && r2.out.error.kind == ServerError && r2.state.sent == r.state.sent
  {
    ServerErrorTrips(st, s, verb, endpoint, payload, isAuth, now, net);
    var r := RequestWithRetries(st, s, verb, endpoint, payload, isAuth, now, net);
    CooldownFailFast(st, r.state, verb2, endpoint2, payload2, later, net);
  }

  /** Any other status of 400-499, a 401 on an authentication request
      included, is raised as a client error without a retry; the token and
      the cooldown state are untouched. */
  lemma ClientErrorFails(st: Settings, s: ClientState, verb: string, endpoint: string, payload: Option<Object>,
                         isAuth: bool, now: int, net: nat -> Outcome)
    requires st.maxRetries > 0 && !Blocked(st, s, isAuth, now)
    requires net(|s.sent|).Status? && 400 <= net(|s.sent|).code < 500
    requires net(|s.sent|).code != 401 || isAuth
    ensures var r := RequestWithRetries(st, s, verb, endpoint, payload, isAuth, now, net);
      var o := net(|s.sent|);
      && r.out == Err(ClientErrorAt(st.baseUrl + endpoint, o.code, o.reason))
      && r.state == EnsureSession(s).(sent := s.sent + [Outgoing(st, s, verb, endpoint, payload)])
      && r.clock == now
  {
  }

  // --- Transport failures and backoff ---

  /** The sleeps before the retries of attempts `lo` up to `hi` - 1. */
  function Backoffs(lo: nat, hi: nat): seq<nat>
    decreases hi as int - lo
  {
    if lo >= hi then [] else [Pow2(lo)] + Backoffs(lo + 1, hi)
  }

  /** The backoff schedule doubles from `2**lo` on, and its total is the
      difference of two powers of two. */
  lemma {:induction false} BackoffsShape(lo: nat, hi: nat)
    requires lo <= hi
    ensures |Backoffs(lo, hi)| == hi - lo
    ensures forall i :: 0 <= i < hi - lo ==> Backoffs(lo, hi)[i] == Pow2(lo + i)
    ensures Sum(Backoffs(lo, hi)) == Pow2(hi) - Pow2(lo)
    decreases hi as int - lo
  {
    if lo < hi {
      BackoffsShape(lo + 1, hi);
      var b := Backoffs(lo, hi);
      assert b[1..] == Backoffs(lo + 1, hi);
      forall i | 0 < i < hi - lo
        ensures b[i] == Pow2(lo + i)
      {
        assert b[i] == Backoffs(lo + 1, hi)[i - 1];
      }
      assert Pow2(lo + 1) == 2 * Pow2(lo);
    }
  }

  /** One transport-failure attempt that is not the last: sleep `2**attempt`
      and go on with the next attempt. */
  lemma TransportRetryStep(st: Settings, s: ClientState, verb: string, endpoint: string,
                           payload: Option<Object>, isAuth: bool, attempt: nat, now: int, net: nat -> Outcome)
    requires net(|s.sent|).ConnFail? || net(|s.sent|).TimeoutFail?
    requires attempt < st.maxRetries - 1 && !Blocked(st, s, isAuth, now)
    ensures RetryLoop(st, s, verb, endpoint, payload, isAuth, attempt, now, net)
            == RetryLoop(st, s.(sent := s.sent + [Outgoing(st, s, verb, endpoint, payload)],
                                slept := s.slept + [Pow2(attempt)]),
                         verb, endpoint, payload, isAuth, attempt + 1, now + Pow2(attempt), net)
  {
  }

  /** The last attempt failing in transport raises the transport error. */
  lemma TransportLastStep(st: Settings, s: ClientState, verb: string, endpoint: string,
                          payload: Option<Object>, isAuth: bool, attempt: nat, now: int, net: nat -> Outcome)
    requires net(|s.sent|).ConnFail? || net(|s.sent|).TimeoutFail?
    requires attempt == st.maxRetries - 1 && !Blocked(st, s, isAuth, now)
    ensures RetryLoop(st, s, verb, endpoint, payload, isAuth, attempt, now, net)
            == Step(Err(TransportError(net(|s.sent|).TimeoutFail?, st.maxRetries)),
                    s.(sent := s.sent + [Outgoing(st, s, verb, endpoint, payload)]), now)
  {
  }

  lemma ConsAssoc(xs: seq<nat>, d: nat, ys: seq<nat>)
    ensures (xs + [d]) + ys == xs + ([d] + ys)
  {
  }

  lemma BackoffsCons(lo: nat, hi: nat)
    requires lo < hi
    ensures Backoffs(lo, hi) == [Pow2(lo)] + Backoffs(lo + 1, hi)
  {
  }

  /** Where the transport failures from `attempt` on leave a call, given
      the number of requests sent, the sleeps and the token at that attempt
      and its clock: one send per attempt, the backoffs slept, and the error
      of the last failure. */
  predicate TransportOutcome(st: Settings, sent: nat, slept: seq<nat>, token: Option<string>, attempt: nat,
                             now: int, net: nat -> Outcome, r: Step<Body>)
    requires attempt < st.maxRetries
  {
    && |r.state.sent| == sent + (st.maxRetries - attempt)
    && r.state.slept == slept + Backoffs(attempt, st.maxRetries - 1)
    && r.clock == now + Sum(Backoffs(attempt, st.maxRetries - 1))
    && r.out == Err(TransportError(net(sent + st.maxRetries - attempt - 1).TimeoutFail?, st.maxRetries))
    && r.state.token == token
  }

  /** The outcome from the next attempt, after one send and one sleep, is
      the outcome from this one. */
  lemma TransportOutcomeStep(st: Settings, sent: nat, slept: seq<nat>, token: Option<string>, attempt: nat,
                             now: int, net: nat -> Outcome, r: Step<Body>)
    requires attempt < st.maxRetries - 1
    requires TransportOutcome(st, sent + 1, slept + [Pow2(attempt)], token, attempt + 1, now + Pow2(attempt), net, r)
    ensures TransportOutcome(st, sent, slept, token, attempt, now, net, r)
  {
    BackoffStep(slept, attempt, st.maxRetries - 1);
    var k := sent + st.maxRetries - attempt - 1;
    assert sent + 1 + st.maxRetries - (attempt + 1) - 1 == k;
    assert net(sent + 1 + st.maxRetries - (attempt + 1) - 1) == net(k);
  }

  /** One more sleep in front of the remaining backoffs. */
  lemma BackoffStep(xs: seq<nat>, lo: nat, hi: nat)
    requires lo < hi
    ensures (xs + [Pow2(lo)]) + Backoffs(lo + 1, hi) == xs + Backoffs(lo, hi)
    ensures Pow2(lo) + Sum(Backoffs(lo + 1, hi)) == Sum(Backoffs(lo, hi))
  {
    var d := Pow2(lo);
    var rest := Backoffs(lo + 1, hi);
    BackoffsCons(lo, hi);
    ConsAssoc(xs, d, rest);
    SumConcat([d], rest);
    assert Sum([d]) == d + Sum([d][1..]);
  }

  /** Through the transport failures, each attempt sends once and all but
      the last sleep before the next. */
  lemma {:induction false} TransportLoop(st: Settings, s: ClientState, verb: string, endpoint: string,
                                         payload: Option<Object>, isAuth: bool, attempt: nat, now: int,
                                         net: nat -> Outcome)
    requires forall k :: net(k).ConnFail? || net(k).TimeoutFail?
    requires attempt < st.maxRetries && !Blocked(st, s, isAuth, now)
    ensures TransportOutcome(st, |s.sent|, s.slept, s.token, attempt, now, net,
                             RetryLoop(st, s, verb, endpoint, payload, isAuth, attempt, now, net))
    decreases st.maxRetries - attempt
  {
    var r := RetryLoop(st, s, verb, endpoint, payload, isAuth, attempt, now, net);
    var q := Outgoing(st, s, verb, endpoint, payload);
    if attempt < st.maxRetries - 1 {
      var d := Pow2(attempt);
      var s2 := s.(sent := s.sent + [q], slept := s.slept + [d]);
      TransportRetryStep(st, s, verb, endpoint, payload, isAuth, attempt, now, net);
      assert !Blocked(st, s2, isAuth, now + d);
      TransportLoop(st, s2, verb, endpoint, payload, isAuth, attempt + 1, now + d, net);
      TransportOutcomeStep(st, |s.sent|, s.slept, s.token, attempt, now, net, r);
    } else {
      TransportLastStep(st, s, verb, endpoint, payload, isAuth, attempt, now, net);
      assert Backoffs(attempt, st.maxRetries - 1) == [];
      assert r.state.slept == s.slept + [];
    }
  }

  /** The shape of a run where all `max_retries` attempts failed in
      transport, starting from `sent` requests and the sleeps `slept`: every
      attempt was sent, the sleeps between them are 1, 2, 4, ... seconds,
      the clock moved by their sum, and the error raised names the kind of
      the last failure. */
  ghost predicate TransportExhausted(st: Settings, sent: nat, slept: seq<nat>, token: Option<string>, now: int,
                                     net: nat -> Outcome, r: Step<Body>)
    requires st.maxRetries > 0
  {
    && |r.state.sent| == sent + st.maxRetries
    && |r.state.slept| >= |slept|
    && var waits := r.state.slept[|slept|..];
    && |waits| == st.maxRetries - 1
    && (forall i :: 0 <= i < |waits| ==> waits[i] == Pow2(i))
    && r.clock == now + Pow2(st.maxRetries - 1) - 1
    && r.out.Err?
    && (r.out.error.kind == TimeoutError <==> net(sent + st.maxRetries - 1).TimeoutFail?)
    && (r.out.error.kind == ConnectionError <==> net(sent + st.maxRetries - 1).ConnFail?)
    && r.state.token == token
  }

  /** When every send fails in transport, the request ends as
      `TransportExhausted` says. */
  lemma TransportExhaustion(st: Settings, s: ClientState, verb: string, endpoint: string, payload: Option<Object>,
                            isAuth: bool, now: int, net: nat -> Outcome)
    requires forall k :: net(k).ConnFail? || net(k).TimeoutFail?
    requires st.maxRetries > 0 && !Blocked(st, s, isAuth, now)
    ensures TransportExhausted(st, |s.sent|, s.slept, s.token, now, net,
                               RequestWithRetries(st, s, verb, endpoint, payload, isAuth, now, net))
  {
    var s0 := EnsureSession(s);
    TransportLoop(st, s0, verb, endpoint, payload, isAuth, 0, now, net);
    var r := RequestWithRetries(st, s, verb, endpoint, payload, isAuth, now, net);
    assert r == RetryLoop(st, s0, verb, endpoint, payload, isAuth, 0, now, net);
    assert |s0.sent| == |s.sent| && s0.slept == s.slept && s0.token == s.token;
    ExhaustionOutcome(st, |s.sent|, s.slept, s.token, now, net, r);
  }

  /** The outcome of transport failures from the first attempt on, read
      off as counts, sleeps, clock and error kind. */
  lemma ExhaustionOutcome(st: Settings, sent: nat, slept: seq<nat>, token: Option<string>, now: int,
                          net: nat -> Outcome, r: Step<Body>)
    requires st.maxRetries > 0 && TransportOutcome(st, sent, slept, token, 0, now, net, r)
    requires net(sent + st.maxRetries - 1).ConnFail? || net(sent + st.maxRetries - 1).TimeoutFail?
    ensures TransportExhausted(st, sent, slept, token, now, net, r)
  {
    WaitsAfter(slept, st.maxRetries - 1);
    var last := net(sent + st.maxRetries - 1);
    assert r.out == Err(TransportError(last.TimeoutFail?, st.maxRetries));
    assert TransportError(last.TimeoutFail?, st.maxRetries).kind
           == (if last.TimeoutFail? then TimeoutError else ConnectionError);
  }

  /** The sleeps appended by a whole transport exhaustion are 1, 2, 4, ...
      and add up to one less than the next power of two. */
  lemma WaitsAfter(xs: seq<nat>, n: nat)
    ensures var w := (xs + Backoffs(0, n))[|xs|..];
      && |w| == n && (forall i :: 0 <= i < n ==> w[i] == Pow2(i))
      && Sum(Backoffs(0, n)) == Pow2(n) - 1
  {
    BackoffsShape(0, n);
    SliceAfterPrefix(xs, Backoffs(0, n));
  }

  lemma SliceAfterPrefix(xs: seq<nat>, ys: seq<nat>)
    ensures (xs + ys)[|xs|..] == ys
  {
  }

  // --- 401 on an ordinary request ---

  lemma {:induction false} Repeated401Loop(st: Settings, s: ClientState, verb: string, endpoint: string,
                                           payload: Option<Object>, attempt: nat, now: int, net: nat -> Outcome)
    requires forall k :: net(k).Status? && net(k).code == 401
    requires !NeedsRefresh(st, s, now) && !Blocked(st, s, false, now)
    ensures var r := RetryLoop(st, s, verb, endpoint, payload, false, attempt, now, net);
      && r.out == Err(Plain(GenericError, RETRIES_EXHAUSTED))
      && |r.state.sent| == |s.sent| + Budget(st, attempt)
      && r.state.token == s.token && r.state.tokenExpiry == s.tokenExpiry && r.clock == now
    decreases st.maxRetries - attempt
  {
    if attempt < st.maxRetries {
      var s1 := s.(sent := s.sent + [Outgoing(st, s, verb, endpoint, payload)]);
      assert EnsureValidToken(st, s1, now, net) == Step(Ok(()), s1, now);
      Repeated401Loop(st, s1, verb, endpoint, payload, attempt + 1, now, net);
    }
  }

  /** A 401 on an ordinary request triggers the refresh check and then
      uses up the attempt: with a token that is still valid every attempt
      gets its 401, all `max_retries` are sent, and the generic error ends
      the call. */
  lemma Repeated401Exhausts(st: Settings, s: ClientState, verb: string, endpoint: string, payload: Option<Object>,
                            now: int, net: nat -> Outcome)
    requires forall k :: net(k).Status? && net(k).code == 401
    requires !NeedsRefresh(st, s, now) && !Blocked(st, s, false, now)
    ensures var r := RequestWithRetries(st, s, verb, endpoint, payload, false, now, net);
      && r.out == Err(Plain(GenericError, RETRIES_EXHAUSTED))
      && |r.state.sent| == |s.sent| + Budget(st, 0)
      && r.state.token == s.token
  {
    Repeated401Loop(st, EnsureSession(s), verb, endpoint, payload, 0, now, net);
  }

  /** A 401 whose refresh finds no credentials is reported as a failed
      refresh after that single send. */
  lemma Unauthorized401WithoutCredentials(st: Settings, s: ClientState, verb: string, endpoint: string,
                                          payload: Option<Object>, now: int, net: nat -> Outcome)
    requires st.maxRetries > 0 && !Blocked(st, s, false, now)
    requires net(|s.sent|).Status? && net(|s.sent|).code == 401
    requires NeedsRefresh(st, s, now) && (!Truthy(s.email) || !Truthy(s.password))
    ensures var r := RequestWithRetries(st, s, verb, endpoint, payload, false, now, net);
      && r.out == Err(Plain(AuthenticationError, REFRESH_FAILED))
      && r.state == EnsureSession(s).(sent := s.sent + [Outgoing(st, s, verb, endpoint, payload)])
  {
  }

  // --- The token check and the authenticated path ---

  /** No refresh is needed: nothing happens. */
  lemma EnsureValidTokenNoRefresh(st: Settings, s: ClientState, now: int, net: nat -> Outcome)
    requires !NeedsRefresh(st, s, now)
    ensures EnsureValidToken(st, s, now, net) == Step(Ok(()), s, now)
  {
  }

  /** A refresh is needed but the credentials are missing: the
      authentication error, with the state untouched. */
  lemma EnsureValidTokenNoCredentials(st: Settings, s: ClientState, now: int, net: nat -> Outcome)
    requires NeedsRefresh(st, s, now) && (!Truthy(s.email) || !Truthy(s.password))
    ensures EnsureValidToken(st, s, now, net) == Step(Err(Plain(AuthenticationError, CREDENTIALS_MISSING)), s, now)
  {
  }

  /** Without a token and without both credentials, nothing is sent. */
  lemma AuthenticationRequired(st: Settings, s: ClientState, verb: string, endpoint: string,
                               payload: Option<Object>, now: int, net: nat -> Outcome)
    requires !Truthy(s.token) && !(Truthy(s.email) && Truthy(s.password))
    ensures AuthenticatedRequest(st, s, verb, endpoint, payload, now, net)
            == Step(Err(Plain(AuthenticationError, AUTH_REQUIRED)), s, now)
  {
  }

  /** Without a token but with valid credentials, the first request sent is
      the login, ahead of the call's own request. */
  lemma LoginComesFirst(st: Settings, s: ClientState, verb: string, endpoint: string,
                        payload: Option<Object>, now: int, net: nat -> Outcome)
    requires !Truthy(s.token) && Truthy(s.email) && Truthy(s.password) && st.maxRetries > 0
    requires UserRequests.LoginSchema(s.email.value, s.password.value).Valid?
    ensures var r := AuthenticatedRequest(st, s, verb, endpoint, payload, now, net);
      |r.state.sent| > |s.sent| && r.state.sent[|s.sent|].url == st.baseUrl + Endpoints.LOGIN
  {
    var s1 := s.(email := Some(s.email.value), password := Some(s.password.value));
    assert s1 == s;
    var v := UserRequests.LoginSchema(s.email.value, s.password.value).value;
    AuthBypassesCooldown(st, s, "POST", Endpoints.LOGIN, Some(UserRequests.LoginPayload(v)), now, net);
    var e := EnsureValidToken(st, s, now, net);
    assert e.state == Login(st, s, s.email.value, s.password.value, now, net).state;
    var r := AuthenticatedRequest(st, s, verb, endpoint, payload, now, net);
    if e.out.Ok? {
      RequestWithRetriesLogs(st, e.state, verb, endpoint, payload, false, e.clock, net);
      assert r.state.sent[|s.sent|] == r.state.sent[..|e.state.sent|][|s.sent|];
    }
  }

  /** With a token that needs no refresh, `check_balance` sends one POST to
      its own path without a payload, carrying the bearer token. */
  lemma CheckBalanceSends(st: Settings, s: ClientState, now: int, net: nat -> Outcome)
    requires !NeedsRefresh(st, s, now) && st.maxRetries > 0 && !Blocked(st, s, false, now)
    ensures var r := CheckBalance(st, s, now, net);
      && |r.state.sent| > |s.sent|
      && r.state.sent[|s.sent|] == HttpRequest("POST", st.baseUrl + "/api/v1/check_balance", None,
                                               Headers(s.token), st.requestTimeout)
      && r.state.sent[|s.sent|].headers["Authorization"] == "Bearer " + s.token.value
  {
    FirstAttemptSends(st, s, "POST", Endpoints.UserEndpoint.CheckBalance.Value(), None, false, now, net);
  }

  /** Likewise `get_user_info`, on its own path. */
  lemma GetUserInfoSends(st: Settings, s: ClientState, now: int, net: nat -> Outcome)
    requires !NeedsRefresh(st, s, now) && st.maxRetries > 0 && !Blocked(st, s, false, now)
    ensures var r := GetUserInfo(st, s, now, net);
      && |r.state.sent| > |s.sent|
      && r.state.sent[|s.sent|] == HttpRequest("POST", st.baseUrl + "/api/v1/user", None,
                                               Headers(s.token), st.requestTimeout)
  {
    FirstAttemptSends(st, s, "POST", Endpoints.UserEndpoint.GetUserInfo.Value(), None, false, now, net);
  }

  // --- Login and signup ---

  /** A login whose request model fails sends nothing, but the credentials
      are already stored. */
  lemma LoginValidationFails(st: Settings, s: ClientState, email: string, password: string, now: int,
                             net: nat -> Outcome)
    requires !(1 <= |email| <= 255 && 1 <= |password| <= 255)
    ensures var r := Login(st, s, email, password, now, net);
      && r.out.Err? && r.out.error.kind == ValidationError
      && r.state == s.(email := Some(email), password := Some(password))
  {
  }

  /** A login is an authentication request to the login path: a 401 is a
      client error, not a refresh. */
  lemma Login401IsClientError(st: Settings, s: ClientState, email: string, password: string, now: int,
                              net: nat -> Outcome)
    requires st.maxRetries > 0 && 1 <= |email| <= 255 && 1 <= |password| <= 255
    requires net(|s.sent|).Status? && net(|s.sent|).code == 401
    ensures var r := Login(st, s, email, password, now, net);
      && r.out == Err(ClientErrorAt(st.baseUrl + "/api/v1/get_token", 401, net(|s.sent|).reason))
      && |r.state.sent| == |s.sent| + 1
      && r.state.token == s.token
  {
    var s1 := s.(email := Some(email), password := Some(password));
    var v := UserRequests.LoginSchema(email, password).value;
    Endpoints.AuthPathValues();
    ClientErrorFails(st, s1, "POST", Endpoints.LOGIN, Some(UserRequests.LoginPayload(v)), true, now, net);
  }

  /** A login answered with an access token stores that token and its
      expiry, after one send. The call returns the body exactly when the
      response model accepts it (`valid_thru` present, `user_id` an
      integer); otherwise it ends in the validation error with the token
      already stored. */
  lemma LoginStoresToken(st: Settings, s: ClientState, email: string, password: string, now: int,
                         net: nat -> Outcome)
    requires st.maxRetries > 0 && 1 <= |email| <= 255 && 1 <= |password| <= 255
    requires net(|s.sent|).Response? && net(|s.sent|).body.accessToken.Some?
    ensures var r := Login(st, s, email, password, now, net);
      var b := net(|s.sent|).body;
      && r.state.token == b.accessToken
      && r.state.tokenExpiry == (if b.validThru.Some? then b.validThru.value else now + DEFAULT_TOKEN_LIFETIME)
      && |r.state.sent| == |s.sent| + 1
      && (r.out.Ok? <==> b.validThru.Some? && IntField(b.rest, "user_id"))
      && (r.out.Ok? ==> r.out.value == b)
      && (r.out.Err? ==> r.out.error.kind == ValidationError)
  {
    var s1 := s.(email := Some(email), password := Some(password));
    var v := UserRequests.LoginSchema(email, password).value;
    Endpoints.TokenEndpointIff(Endpoints.User(Endpoints.Login));
    SuccessReturns(st, s1, "POST", Endpoints.LOGIN, Some(UserRequests.LoginPayload(v)), true, now, net);
    var b := net(|s.sent|).body;
    var checks := LoginResponseChecks(b);
    FailingEmptyIff(checks);
    assert (forall i :: 0 <= i < |checks| ==> checks[i].ok) <==> b.validThru.Some? && IntField(b.rest, "user_id") by {
      assert checks[1].ok == b.validThru.Some? && checks[2].ok == IntField(b.rest, "user_id");
    }
  }

  /** Likewise signup: the token is stored, and the body is returned exactly
      when `token_type` is a string. */
  lemma SignupStoresToken(st: Settings, s: ClientState, username: string, email: string, password: string,
                          now: int, net: nat -> Outcome)
    requires st.maxRetries > 0 && 3 <= |username| <= 50 && 8 <= |password| <= 255 && 1 <= |email| <= 255
    requires net(|s.sent|).Response? && net(|s.sent|).body.accessToken.Some?
    ensures var r := Signup(st, s, username, email, password, now, net);
      var b := net(|s.sent|).body;
      && r.state.token == b.accessToken
      && |r.state.sent| == |s.sent| + 1
      && (r.out.Ok? <==> StrField(b.rest, "token_type"))
      && (r.out.Ok? ==> r.out.value == b)
      && (r.out.Err? ==> r.out.error.kind == ValidationError)
  {
    var s1 := s.(email := Some(email), password := Some(password));
    var v := UserRequests.SignupSchema(username, email, password).value;
    Endpoints.TokenEndpointIff(Endpoints.User(Endpoints.Signup));
    SuccessReturns(st, s1, "POST", Endpoints.SIGNUP, Some(UserRequests.SignupPayload(v)), true, now, net);
    var b := net(|s.sent|).body;
    var checks := SignupResponseChecks(b);
    FailingEmptyIff(checks);
    assert (forall i :: 0 <= i < |checks| ==> checks[i].ok) <==> StrField(b.rest, "token_type") by {
      assert checks[1].ok == StrField(b.rest, "token_type");
    }
  }

  /** A 401 on a non-auth request whose refresh login is answered with a
      body the response model rejects ends the request with that validation
      error, since the 401 handler catches only the authentication error;
      the new token stays stored and no further attempt is made. */
  lemma RefreshRejectedAborts(st: Settings, s: ClientState, verb: string, endpoint: string,
                              payload: Option<Object>, now: int, net: nat -> Outcome)
    requires st.maxRetries > 0 && !Blocked(st, s, false, now)
    requires net(|s.sent|).Status? && net(|s.sent|).code == 401
    requires NeedsRefresh(st, s, now) && Truthy(s.email) && Truthy(s.password)
    requires |s.email.value| <= 255 && |s.password.value| <= 255
    requires net(|s.sent| + 1).Response? && net(|s.sent| + 1).body.accessToken.Some?
    requires !IntField(net(|s.sent| + 1).body.rest, "user_id")
    ensures var r := RequestWithRetries(st, s, verb, endpoint, payload, false, now, net);
      && r.out.Err? && r.out.error.kind == ValidationError
      && |r.state.sent| == |s.sent| + 2
      && r.state.token == net(|s.sent| + 1).body.accessToken
  {
    var s1 := EnsureSession(s).(sent := s.sent + [Outgoing(st, s, verb, endpoint, payload)]);
    assert s1.(email := Some(s1.email.value), password := Some(s1.password.value)) == s1;
    LoginStoresToken(st, s1, s1.email.value, s1.password.value, now, net);
  }

  // --- Cooldown state and session ---

  /** `is_server_error_detected` reports an active cooldown exactly, clears
      only the flag, and asking twice gives the same answer. A true answer
      means an ordinary request would fail fast. */
  lemma CheckServerErrorLaws(st: Settings, s: ClientState, now: int)
    ensures var (s1, detected) := CheckServerError(st, s, now);
      && (detected <==> s.serverErrorDetected && !CooldownExpired(st, s, now))
      && s1 == s.(serverErrorDetected := detected)
      && CheckServerError(st, s1, now) == (s1, detected)
      && (detected ==> Blocked(st, s1, false, now))
  {
  }

  /** After a reset no request is stopped by the cooldown. */
  lemma ResetUnblocks(st: Settings, s: ClientState, isAuth: bool, now: int)
    ensures !Blocked(st, ResetServerError(s), isAuth, now)
    ensures ResetServerError(s) == s.(serverErrorDetected := false, serverErrorTimestamp := 0)
  {
  }

  /** `_ensure_session` leaves an open session alone, so applying it twice
      is applying it once. */
  lemma EnsureSessionIdempotent(s: ClientState)
    ensures EnsureSession(EnsureSession(s)) == EnsureSession(s)
    ensures s.sessionOpen ==> EnsureSession(s) == s
  {
  }

  /** `close` leaves no open session, a second close changes nothing, and
      the next session check creates a new session and nothing else. */
  lemma CloseThenReopen(s: ClientState)
    ensures !Close(s).sessionOpen && Close(Close(s)) == Close(s)
    ensures EnsureSession(Close(s)) == s.(sessionOpen := true, sessionsCreated := s.sessionsCreated + 1)
  {
  }
}
