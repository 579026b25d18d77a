# nsgifts_api in Dafny

A model of the request and authentication core of the `nsgifts_api` client
library (its `NSGiftsClient` and the `UserMethods` login/signup/balance calls),
of the endpoint path table, of the client configuration validator, of the
error classes, and of the request-payload validators, with proofs of what
each of them promises.

Layout, one module per part of the library:

- `Text` (text.dfy): Python truthiness of optional text, prefixes and
  suffixes, ASCII digits, decimal rendering of integers, `str.upper` on ASCII.
- `JsonData`, `Schema` (json.dfy): JSON values and objects; a
  request model's validation as a list of field checks that gives either
  the record or the names of the failing fields.
- `Endpoints` (endpoints.dfy): the endpoint enums and their paths.
- `Errors` (errors.py → errors.dfy): the exception classes as one record
  with a kind, the `from_status_code` tables and `__str__`.
- `Config` (config.dfy): `ClientConfig`, its `__post_init__` checks,
  `from_dict` and `to_dict`.
- `UserRequests`, `OrderRequests`, `ServiceRequests`, `IpWhitelistRequests`,
  `SteamRequests`: the pydantic request models' constraints, their
  validators' regular expressions (each with its language defined
  separately and proved equal to the recogniser), and the payloads the
  method wrappers dump from them.
- `RequestCore` (request_core.dfy): the client's request, retry, cooldown and
  token logic as functions from a `ClientState` to a `Step` (result, new
  state, clock). The network is a parameter `net: nat -> Outcome` giving the
  outcome of the k-th send (a decoded body, an error status, a connection
  failure or a timeout); every send is logged in `sent` and every backoff
  sleep in `slept`; the clock is the `now` parameter and advances only by
  the sleeps.
- `Client` (client.dfy): the classes `NSGiftsClient` and `UserMethods` with
  the library's fields, whose methods update them in place — the attempt
  loop is a `while` loop — each proved to leave exactly the state and
  result the matching `RequestCore` function gives.
- `RequestLaws` (request_laws.dfy): the properties of the core: send bounds,
  the cooldown, the per-status rules, backoff, the token rules, and that
  logs only grow and credentials survive.

## Model

The `Client` methods rest on small unfolding lemmas of `RetryLoop`, one per
branch of an attempt: `Client.LoopExhausted`, `LoopBlocked`, `LoopResponse`,
`LoopRefresh`, `LoopClientError`, `LoopServerError` and `LoopTransport`.
They are proof steps and have no rows of their own.

| member | source | states |
|---|---|---|
| RequestCore.Headers | nsgifts_api/client.py:125-135 | the content type is always JSON; an Authorization header is present exactly when the token is truthy, and is "Bearer " followed by the token; no other headers |
| RequestCore.EnsureSession | nsgifts_api/client.py:137-145 | afterwards a session is open; a new one is created only when none was open; nothing else changes |
| RequestCore.EnsureValidToken | nsgifts_api/client.py:147-170 | the specification of `_ensure_validate_token`: no refresh while the token is truthy and `expiry - now >= buffer`, otherwise the authentication error without credentials, otherwise the nested login; its meaning is stated by `RequestLaws.EnsureValidTokenNoRefresh`, `EnsureValidTokenNoCredentials`, `EnsureValidTokenLogs` and `EnsureValidTokenSends` |
| RequestCore.RetryLoop | nsgifts_api/client.py:205-297 | the specification of the attempt loop from a given attempt on; its meaning is stated by `RequestLaws.RetryLoopSends`, `RetryLoopLogs`, `TransportLoop`, `Repeated401Loop`, `CooldownFailFast`, `SuccessReturns`, `ServerErrorTrips` and `ClientErrorFails` |
| RequestCore.RequestWithRetries | nsgifts_api/client.py:172-297 | the specification of `_request_with_retries`: the session check, then the loop from attempt 0; its meaning is stated by `RequestLaws.RequestWithRetriesSends`, `RequestWithRetriesLogs`, `FirstAttemptSends`, `NoRetriesNoSend`, `TransportExhaustion` and `Repeated401Exhausts` |
| RequestCore.Capture | nsgifts_api/client.py:231-240 | the token capture on a successful response; its meaning is stated by `RequestLaws.SuccessReturns`, `OnlyAuthEndpointsSetToken`, `LoginStoresToken` and `SignupStoresToken` |
| RequestCore.CheckServerError | nsgifts_api/client.py:306-314 | the specification of `is_server_error_detected`; its meaning is stated by `RequestLaws.CheckServerErrorLaws` |
| RequestCore.ResetServerError | nsgifts_api/client.py:316-319 | the specification of `reset_server_error_state`; its meaning is stated by `RequestLaws.ResetUnblocks` |
| RequestCore.Close | nsgifts_api/client.py:119-123 | the specification of `close`; its meaning is stated by `RequestLaws.CloseThenReopen` |
| RequestLaws.CloseThenReopen | nsgifts_api/client.py:119-145 | after `close` no session is open and a second close changes nothing; the next session check creates a new session and changes nothing else |
| RequestCore.AuthenticatedRequest | nsgifts_api/client.py:322-344 | the specification of `_make_authenticated_request`; its meaning is stated by `RequestLaws.AuthenticationRequired`, `AuthenticatedRequestLogs` and `LoginComesFirst` |
| RequestCore.Login | nsgifts_api/methods/user.py:26-51 | the specification of `login`, ending with `LoginResponse(**result)` (`LoginResponseChecks`); its meaning is stated by `RequestLaws.LoginLogs`, `LoginSends`, `LoginValidationFails`, `Login401IsClientError` and `LoginStoresToken` |
| RequestCore.Signup | nsgifts_api/methods/user.py:54-89 | the specification of `signup`, ending with `SignupResponse(**result)` (`SignupResponseChecks`); its meaning is stated by `RequestLaws.SignupLogs` and `SignupStoresToken` |
| RequestCore.CheckBalance | nsgifts_api/methods/user.py:92-102 | the specification of `check_balance`; its meaning is stated by `RequestLaws.CheckBalanceSends` |
| RequestCore.GetUserInfo | nsgifts_api/methods/user.py:105-118 | the specification of `get_user_info`; its meaning is stated by `RequestLaws.GetUserInfoSends` |
| Client.NSGiftsClient.constructor | nsgifts_api/client.py:71-108 | stores the five settings, starts with no token, no credentials, no cooldown and no session, and attaches its `UserMethods` |
| Client.NSGiftsClient.Close | nsgifts_api/client.py:119-123 | closes the session and changes nothing else |
| Client.NSGiftsClient.GetHeaders | nsgifts_api/client.py:125-135 | the header map built step by step equals `Headers` of the stored token |
| Client.NSGiftsClient.EnsureSession | nsgifts_api/client.py:137-145 | the fields afterwards are `EnsureSession` of the fields before |
| RequestLaws.EnsureSessionIdempotent | nsgifts_api/client.py:137-145 | a second session check changes nothing, and an open session is left untouched |
| Client.NSGiftsClient.EnsureValidToken | nsgifts_api/client.py:147-170 | result, fields and clock equal `RequestCore.EnsureValidToken`, which calls the nested login through `UserMethods.Login` |
| RequestLaws.EnsureValidTokenNoRefresh | nsgifts_api/client.py:153-163 | with a truthy token and `expiry - now >= buffer`, nothing is sent and the state is unchanged |
| RequestLaws.EnsureValidTokenNoCredentials | nsgifts_api/client.py:164-168 | a refresh that is needed without a truthy email and password fails with the authentication error, sends nothing and leaves the state unchanged |
| RequestLaws.EnsureValidTokenLogs | nsgifts_api/client.py:147-170 | the token check keeps the stored credentials; sends and sleeps are only appended and the clock equals the start plus the sleeps |
| RequestLaws.EnsureValidTokenSends | nsgifts_api/client.py:147-170 | a token check sends at most `max_retries` requests (the nested login's budget) |
| Client.NSGiftsClient.RequestWithRetries | nsgifts_api/client.py:172-297 | the attempt loop, with its invariant that the rest of the loop still gives the specification's result; result, fields and clock equal `RequestCore.RequestWithRetries` |
| Client.NSGiftsClient.Attempt | nsgifts_api/client.py:205-242 | one loop iteration: when it finishes the call its result is the loop's result from this attempt; otherwise the loop from the next attempt and the new state gives the same result |
| Client.NSGiftsClient.OnResponse | nsgifts_api/client.py:229-242 | a successful response captures the token (and its expiry, or now plus 5400 seconds) only from the two token endpoints, and returns the body, as the loop's specification does |
| Client.NSGiftsClient.OnErrorStatus | nsgifts_api/client.py:244-271 | the error-status branch (401 refresh, other 4xx, 5xx) agrees with the loop's specification |
| Client.NSGiftsClient.OnTransportFailure | nsgifts_api/client.py:272-295 | the transport branch records the backoff sleep and continues, or ends with the connection or timeout error on the last attempt, as the specification does |
| RequestLaws.RetryLoopLogs | nsgifts_api/client.py:205-297 | the loop keeps the credentials; sends and sleeps are only appended and the clock equals the start plus the sleeps |
| RequestLaws.RequestWithRetriesLogs | nsgifts_api/client.py:172-297 | the same for a whole request, including its session check |
| RequestLaws.RetryLoopSends | nsgifts_api/client.py:205-297 | from a given attempt the loop sends at most the remaining attempts times the sends one attempt can cost (one; for a non-auth request also a nested login's) |
| RequestLaws.RequestWithRetriesSends | nsgifts_api/client.py:205-297 | an auth request sends at most `max_retries` requests; a non-auth one at most `max_retries * (1 + max_retries)`, counting the nested refresh logins |
| RequestLaws.NoRetriesNoSend | nsgifts_api/client.py:205-297 | with `max_retries <= 0` nothing is sent and the result is the generic "Request failed after all retries." error |
| RequestLaws.FirstAttemptSends | nsgifts_api/client.py:201-228 | with attempts left and no cooldown, the first send is the verb to base URL plus endpoint, with the payload, the current headers and the configured timeout |
| RequestLaws.CooldownFailFast | nsgifts_api/client.py:206-219 | in an active cooldown a non-auth request fails before any send with a server error naming the remaining seconds, which are positive; the state is unchanged but for the session |
| RequestLaws.AuthBypassesCooldown | nsgifts_api/client.py:206-210 | an auth request is never blocked by the cooldown |
| RequestLaws.SuccessReturns | nsgifts_api/client.py:229-242 | a decoded body is returned as is; the token is taken from it exactly when the endpoint ends with "/get_token" or "/signup" and the body has an access token, with the expiry from `valid_thru` or else `now + 5400` |
| RequestLaws.OnlyAuthEndpointsSetToken | nsgifts_api/client.py:231-242 | a success on any table endpoint other than login and signup leaves the token and expiry unchanged |
| RequestLaws.ServerErrorTrips | nsgifts_api/client.py:266-271 | a 5xx raises the server error at once, sets the flag and the timestamp to `now`, and changes nothing else after one send |
| RequestLaws.ServerErrorThenFailFast | nsgifts_api/client.py:206-271 | after a 5xx, a non-auth request made before the cooldown ends fails fast with nothing sent |
| RequestLaws.ClientErrorFails | nsgifts_api/client.py:244-265 | any 4xx other than a non-auth 401 raises the client error "Client error at url: status reason" after one send, leaving the token and the cooldown state unchanged |
| RequestLaws.BackoffsShape | nsgifts_api/client.py:284-286 | the backoff sleeps from attempt lo to hi are 2 to the power of each attempt, and they add up to `2^hi - 2^lo` |
| RequestLaws.TransportLoop | nsgifts_api/client.py:272-295 | when every remaining send fails in transport, the loop sends once per remaining attempt, sleeps the backoffs, ends with the error of the last failure's kind, and keeps the token |
| RequestLaws.TransportExhaustion | nsgifts_api/client.py:272-295 | `TransportExhausted`: when all sends fail in transport, `max_retries` sends, sleeps 1, 2, 4, … (one fewer than the sends), the clock advances by `2^(max_retries-1) - 1`, and the error is timeout or connection according to the last failure |
| RequestLaws.Repeated401Loop | nsgifts_api/client.py:247-297 | repeated 401s on a non-auth request with a token that needs no refresh each use up an attempt |
| RequestLaws.Repeated401Exhausts | nsgifts_api/client.py:247-297 | such a request ends in the generic error after exactly `max_retries` sends, with the token unchanged |
| RequestLaws.Unauthorized401WithoutCredentials | nsgifts_api/client.py:252-261 | a 401 whose refresh finds no credentials becomes "Authentication failed after token refresh." after one send |
| Client.NSGiftsClient.IsCooldownExpired | nsgifts_api/client.py:299-304 | true exactly when timestamp plus cooldown is at most `now` |
| Client.NSGiftsClient.IsServerErrorDetected | nsgifts_api/client.py:306-314 | new fields and result equal `RequestCore.CheckServerError` |
| RequestLaws.CheckServerErrorLaws | nsgifts_api/client.py:306-314 | reports detected exactly when the flag is set and the cooldown is still running; clears only the flag, and only once the cooldown is over; a second check changes nothing; a detected error blocks non-auth requests |
| Client.NSGiftsClient.ResetServerErrorState | nsgifts_api/client.py:316-319 | the fields afterwards are `RequestCore.ResetServerError` of the fields before |
| RequestLaws.ResetUnblocks | nsgifts_api/client.py:316-319 | after a reset the flag is false, the timestamp 0, nothing else changed, and no request is blocked |
| Client.NSGiftsClient.MakeAuthenticatedRequest | nsgifts_api/client.py:322-344 | result, fields and clock equal `RequestCore.AuthenticatedRequest` |
| RequestLaws.AuthenticationRequired | nsgifts_api/client.py:339-342 | with no token and no full credentials, "Authentication required. …" is raised before any send and the state is unchanged |
| RequestLaws.AuthenticatedRequestLogs | nsgifts_api/client.py:322-344 | an authenticated request keeps the credentials; sends and sleeps are only appended |
| RequestLaws.LoginComesFirst | nsgifts_api/client.py:339-344 | without a token but with valid credentials, the first request sent is the login to base URL plus "/api/v1/get_token" |
| Client.UserMethods.Login | nsgifts_api/methods/user.py:26-51 | stores the credentials, then fails with a validation error or runs the auth request to the login path; fields and result equal `RequestCore.Login` |
| Client.UserMethods.Signup | nsgifts_api/methods/user.py:54-89 | the same for the signup path; fields and result equal `RequestCore.Signup` |
| Client.UserMethods.CheckBalance | nsgifts_api/methods/user.py:92-102 | goes through the authenticated path to "/api/v1/check_balance"; equals `RequestCore.CheckBalance` |
| Client.UserMethods.GetUserInfo | nsgifts_api/methods/user.py:105-118 | goes through the authenticated path to "/api/v1/user"; equals `RequestCore.GetUserInfo` |
| RequestLaws.LoginLogs | nsgifts_api/methods/user.py:41-49 | login leaves the given email and password stored whatever follows |
| RequestLaws.SignupLogs | nsgifts_api/methods/user.py:74-87 | signup leaves the given email and password stored whatever follows |
| RequestLaws.LoginSends | nsgifts_api/methods/user.py:41-49 | a login sends at most `max_retries` requests |
| RequestLaws.LoginValidationFails | nsgifts_api/methods/user.py:41-43 | credentials outside the login schema give a validation error with nothing sent, the credentials already stored |
| RequestLaws.Login401IsClientError | nsgifts_api/methods/user.py:44-49 | a 401 on login is a client error for the login URL after one send, with no refresh and the token unchanged |
| RequestLaws.LoginStoresToken | nsgifts_api/methods/user.py:44-51 | a login answered with an access token stores that token and its expiry (`valid_thru`, or now plus 5400) after one send; it returns the body exactly when `valid_thru` is present and `user_id` is an integer as pydantic reads one, and otherwise ends in the validation error with the token already stored |
| RequestLaws.SignupStoresToken | nsgifts_api/methods/user.py:82-89 | a signup answered with an access token stores that token after one send; it returns the body exactly when `token_type` is a string, and otherwise ends in the validation error with the token already stored |
| RequestLaws.RefreshRejectedAborts | nsgifts_api/client.py:252-261 | a 401 whose refresh login is answered with a body that `LoginResponse` rejects ends the outer request with that validation error after two sends, not with a further attempt, and the new token stays stored |
| RequestLaws.CheckBalanceSends | nsgifts_api/methods/user.py:99-102 | with a valid token the first request is POST to base URL plus "/api/v1/check_balance" with no payload and the Bearer header |
| RequestLaws.GetUserInfoSends | nsgifts_api/methods/user.py:114-117 | with a valid token the first request is POST to base URL plus "/api/v1/user" with no payload and the Bearer header |
| Endpoints.AuthPathValues | nsgifts_api/enums/endpoints.py:21-22 | the login path is "/api/v1/get_token" and the signup path "/api/v1/signup" |
| Endpoints.AllUnderBasePath | nsgifts_api/enums/endpoints.py:9-59 | every endpoint path starts with "/api/v1" |
| Endpoints.TokenEndpointIff | nsgifts_api/enums/endpoints.py:21-59 | a path ends with "/get_token" exactly for login and with "/signup" exactly for signup, so only those two capture a token |
| Endpoints.FromPathRoundTrip | nsgifts_api/enums/endpoints.py:18-59 | every endpoint is recovered from its path |
| Endpoints.PathsDistinct | nsgifts_api/enums/endpoints.py:18-59 | different endpoints have different paths |
| Endpoints.UrlSuffixAsWrittenDiffers | nsgifts_api/client.py:201 | as written on Python 3.11 and later, the URL of every endpoint outside the services group is the base URL followed by the member's name (login: "UserEndpoint.LOGIN"), which differs from its path and is not under "/api/v1"; the services methods pass plain paths |
| Endpoints.CreateOrderSuffixShared | nsgifts_api/enums/endpoints.py:38-51 | exactly the order and gift-order creation paths end with "/create_order", and they differ |
| Config.PostInitIff | nsgifts_api/config.py:50-85 | the checks pass exactly for a well-formed configuration; each of the nine errors is reported exactly when its own check fails and every earlier check passes, in the source's order |
| Config.LogLevelIff | nsgifts_api/config.py:74-79 | a log level passes exactly when its upper-case form is one of the five level names |
| Config.ZeroBounds | nsgifts_api/config.py:56-66 | zero retries, cooldown and buffer are accepted; a zero timeout is rejected |
| Config.DefaultIsValid | nsgifts_api/config.py:39-48 | the default configuration passes the checks |
| Config.ToDict | nsgifts_api/config.py:110-128 | the dictionary has the nine fields other than the password, each with its field's value |
| Config.FromDictIgnoresUnknownKeys | nsgifts_api/config.py:105-108 | keys that are not fields make no difference |
| Config.FromDictValid | nsgifts_api/config.py:105-108 | whatever `from_dict` builds passes the checks |
| Config.DictRoundTrip | nsgifts_api/config.py:105-128 | `from_dict(to_dict(c))` gives c without the password when the email is falsy, and the missing-password error otherwise |
| Errors.ApiError.ToString | nsgifts_api/errors.py:31-34 | exactly `f"{status}: {message}"` when the status is truthy (prefix, suffix and length fix the text), and the message alone otherwise |
| Errors.ToStringShowsStatus | nsgifts_api/errors.py:31-34 | the status can be read back from the front of the text |
| Errors.Plain | nsgifts_api/errors.py:4-17 | the plain kinds carry only their message |
| Errors.StoredData | nsgifts_api/errors.py:28-29 | absent or empty response data is stored as `{}`, other data as given |
| Errors.NewServerError | nsgifts_api/errors.py:21-29 | a server error stores its message and status as given |
| Errors.NewClientError | nsgifts_api/errors.py:58-66 | a client error stores its message and status as given |
| Errors.ServerFromStatusCode | nsgifts_api/errors.py:37-54 | a non-empty message wins; else the table's text for 500, 502, 503, 504 and 507; else "Server error " and the code; status and data passed through |
| Errors.ClientFromStatusCode | nsgifts_api/errors.py:74-93 | the same with the table for 400, 401, 403, 404, 409, 422 and 429 and "Client error " |
| Errors.FallbackNamesStatus | nsgifts_api/errors.py:52 | different statuses outside the table never share a fallback message |
| UserRequests.LoginSchema | nsgifts_api/models/requests/user.py:14-15 | accepted exactly when email and password are 1–255 characters |
| UserRequests.SignupSchema | nsgifts_api/models/requests/user.py:27-29 | accepted exactly when username is 3–50, password 8–255 and email 1–255 characters |
| UserRequests.UserSchema | nsgifts_api/models/requests/user.py:41-43 | accepted exactly when email is 1–255, role 1–50 characters, and the deposit matches the decimal pattern |
| UserRequests.IsDecimalIff | nsgifts_api/models/requests/user.py:43 | the recogniser accepts exactly the language digits, optionally "." and digits |
| UserRequests.DecimalExamples | nsgifts_api/models/requests/user.py:43 | the default "0" and "12.50" match; "", "1.", ".5", "1.2.3" and "1e5" do not |
| UserRequests.LoginPayloadRoundTrip | nsgifts_api/methods/user.py:43 | the login payload has the keys email and password and determines the credentials |
| UserRequests.SignupPayloadRoundTrip | nsgifts_api/methods/user.py:76-80 | the signup payload has the keys username, password and email and determines them |
| OrderRequests.CreateOrderSchema | nsgifts_api/models/requests/orders.py:21-24 | accepted exactly when service id and quantity are positive, the custom id is 1–255 characters and the data absent or at most 1000 |
| OrderRequests.PayOrderSchema | nsgifts_api/models/requests/orders.py:34 | accepted exactly when the custom id is 1–255 characters |
| OrderRequests.CreateOrderPayload | nsgifts_api/methods/orders.py:57-62 | the payload has "data" exactly when data is present, and always the other three keys |
| OrderRequests.CreateOrderPayloadRoundTrip | nsgifts_api/methods/orders.py:57-62 | the payload determines the order |
| OrderRequests.CreateOrderRequest | nsgifts_api/methods/orders.py:54-62 | with a falsy custom id a generated 36-character id is used; accepted exactly when service id and quantity are positive and the id and data are within bounds |
| OrderRequests.InvalidIdMeansCallersId | nsgifts_api/methods/orders.py:54-55 | a rejected custom id was always the caller's, never the generated one |
| OrderRequests.PayOrderPayload | nsgifts_api/methods/orders.py:99 | the payload is exactly `{"custom_id": id}` |
| ServiceRequests.CategorySchema | nsgifts_api/models/requests/services.py:13 | accepted exactly when the category id is positive |
| ServiceRequests.NonPositiveRejected | nsgifts_api/models/requests/services.py:13 | 0 and negative ids are rejected, naming the field |
| ServiceRequests.CategoryPayload | nsgifts_api/methods/services.py:73 | the payload is exactly `{"category_id": id}` |
| IpWhitelistRequests.OctetPatternIff | nsgifts_api/models/requests/ip_whitelist.py:32-33 | an octet matches exactly when it is 1–3 digits of value at most 255, leading zeros allowed |
| IpWhitelistRequests.QuadIff | nsgifts_api/models/requests/ip_whitelist.py:31-34 | the recogniser accepts exactly four matching octets joined by dots |
| IpWhitelistRequests.QuadLength | nsgifts_api/models/requests/ip_whitelist.py:31-34 | every dotted quad is 7–15 characters |
| IpWhitelistRequests.PyMatchIff | nsgifts_api/models/requests/ip_whitelist.py:31-35 | the validator accepts a dotted quad, optionally followed by one "\n" |
| IpWhitelistRequests.IpSchema | nsgifts_api/models/requests/ip_whitelist.py:15-37 | accepted exactly when the length is 7–45 and the pattern matches; the address is kept unchanged |
| IpWhitelistRequests.LengthBoundRedundant | nsgifts_api/models/requests/ip_whitelist.py:15-35 | the length bounds never reject an address the pattern accepts |
| IpWhitelistRequests.IpAcceptsLeadingZeros | nsgifts_api/models/requests/ip_whitelist.py:32-33 | "010.001.0.1" is accepted |
| IpWhitelistRequests.IpAcceptsTrailingNewline | nsgifts_api/models/requests/ip_whitelist.py:31-35 | "1.2.3.4\n" is accepted |
| IpWhitelistRequests.IpAcceptsMaximum | nsgifts_api/models/requests/ip_whitelist.py:32-33 | "255.255.255.255" is accepted |
| IpWhitelistRequests.IpRejectsLargeOctet | nsgifts_api/models/requests/ip_whitelist.py:32-33 | an octet of 256 is rejected |
| IpWhitelistRequests.IpRejectsThreeOctets | nsgifts_api/models/requests/ip_whitelist.py:31-34 | three octets are rejected |
| IpWhitelistRequests.IpRejectsFiveOctets | nsgifts_api/models/requests/ip_whitelist.py:31-34 | five octets are rejected |
| IpWhitelistRequests.IpRejectsEmptyOctet | nsgifts_api/models/requests/ip_whitelist.py:31-34 | an empty octet is rejected |
| IpWhitelistRequests.IpRejectsOtherText | nsgifts_api/models/requests/ip_whitelist.py:31-36 | letters and IPv6 text are rejected |
| IpWhitelistRequests.IpRejectsSecondNewline | nsgifts_api/models/requests/ip_whitelist.py:31-35 | two trailing newlines are rejected |
| IpWhitelistRequests.IpPayload | nsgifts_api/methods/ip_whitelist.py:37 | the payload is exactly `{"ip": address}` |
| SteamRequests.ParseRegion | nsgifts_api/enums/common.py:15-17 | a parsed region has the given text as its value |
| SteamRequests.RegionRoundTrip | nsgifts_api/enums/common.py:15-17 | each region parses back from its value, and only "ru", "kz" and "ua" parse |
| SteamRequests.RubCalculateSchema | nsgifts_api/models/requests/steam.py:18 | accepted exactly when the amount is positive |
| SteamRequests.GiftCalculateSchema | nsgifts_api/models/requests/steam.py:34-36 | accepted exactly when the package id is positive and the region one of the three values |
| SteamRequests.GiftCalculatePayload | nsgifts_api/methods/steam.py:94-97 | the payload has keys "subId" and "region" with the record's values |
| SteamRequests.SteamUrlIff | nsgifts_api/models/requests/steam.py:79-81 | the prefix check accepts exactly the texts the start-anchored pattern matches |
| SteamRequests.SteamUrlExamples | nsgifts_api/models/requests/steam.py:79-81 | both schemes pass with any tail, even empty or with spaces; other hosts fail |
| SteamRequests.GiftOrderSchema | nsgifts_api/models/requests/steam.py:52-82 | accepted exactly when the link is 1–500 characters with a Steam prefix, the package id positive, the region valid, the name absent or at most 100 characters and the description absent or at most 500 |
| SteamRequests.GiftOrderPayload | nsgifts_api/methods/steam.py:133-139 | the payload has "friendLink", "sub_id", "region", and "giftName"/"giftDescription" exactly when present |
| SteamRequests.GiftOrderPayloadRoundTrip | nsgifts_api/methods/steam.py:133-139 | the payload determines the order |

## Findings

| source | as written | input that shows it | evidently intended | confidence | as-written member | corrected member |
|---|---|---|---|---|---|---|
| nsgifts_api/client.py:201 | `url = f"{self.base_url}{endpoint}"` formats an endpoint enum member; the group enums are `(str, Enum)` without `__str__` (only `BaseEndpoint` overrides it), so on Python 3.11 and later the member renders as its name | `login("a@b.c", "pw")` is sent to the base URL followed by "UserEndpoint.LOGIN", and its error messages name that URL | the base URL followed by the endpoint's path, as on Python 3.10 and earlier | high on Python 3.11 and later, from the language's enum formatting rule; not executed | Endpoints.UrlSuffixAsWrittenDiffers | RequestLaws.FirstAttemptSends |

## Left out

- The request URL is the base URL followed by the endpoint's path everywhere in `RequestCore`, `Client` and `RequestLaws` (for instance in `RequestLaws.FirstAttemptSends`, `LoginComesFirst`, `CheckBalanceSends`, `GetUserInfoSends`, `Login401IsClientError`, `ClientErrorFails` and `ServerErrorTrips`): that is the source on Python 3.10 and earlier; on Python 3.11 and later its f-string renders the member's name instead, as the Findings row records. The token rule reads the value with `endswith`, so it holds on every version.

- The aiohttp session, sending, JSON decoding and logging: a send is an abstract `Outcome` and the session is a flag with a creation count.
- Concurrency: the two locks and their double-checked re-test collapse to one sequential check.
- The clock: `time.time()` is the `now` parameter, and `asyncio.sleep` is a record in `slept` that moves the clock forward; no other time passes during a call.
- The cooldown message recomputes `time.time()` in the source; the model uses the same `now` as the check it follows.
- Response bodies: the capture reads only `access_token` (as text) and `valid_thru` (as an integer); other types for these two are not modelled. The response models also check `user_id` and `token_type`.
- Python's dispatch of transport exceptions: client.py line 272 names aiohttp's `ClientTimeout`, which is a configuration class and not an exception; the model takes connection and timeout failures as two abstract outcomes.
- Exception chaining (`from e`).
- RequestCore.Login, RequestCore.Signup: the response models are reduced to their field checks, and a body they accept is returned as the body rather than as a record. A string counts as an integer `user_id` only when it is plain decimal digits; the other spellings pydantic's lax mode accepts (a sign, surrounding spaces) are rejected. A rejected body gives the validation error after the token was captured, and on the refresh path that error ends the outer request, as `RequestLaws.RefreshRejectedAborts` states.
- The `async with` protocol of `NSGiftsClient`.
- The error classifier that `nsgifts_api/__init__.py` names (rate-limit errors and `from_http_status`): errors.py does not define it, so only errors.py is modelled.
- Pydantic behaviour beyond the declared constraints: type coercion, alias-versus-field-name population, validator message texts, and the `Region` import from `enums/steam.py`; the model uses the `Region` of `enums/common.py`.
- Config.FromDict: the source does no type check and passes each kept value to the dataclass unchanged, so `{"max_retries": 2.5}` is accepted and `{"base_url": null}` fails as an empty base URL; the model's fields are typed, so it rejects any value of another JSON type with `WrongType`.
- `\d` and `\s` are ASCII digits and ASCII whitespace; `str.upper` is ASCII only.
- `quantity` is a real number, not a float; response models with floats are not modelled.
- OrderRequests.CreateOrderRequest: the UUID is a 36-character parameter, not `uuid.uuid4()`.
- The legacy wrappers in `nsgifts_api/endpoints/*`, the unvalidated legacy models, the other thin method wrappers beyond their payloads, and the other enums: none has logic of its own.
- Client.NSGiftsClient.Attempt: when the attempt does not finish the call, its `r` is a placeholder and is not specified.
- The loop body of `_request_with_retries` is split into `Attempt`, `OnResponse`, `OnErrorStatus` and `OnTransportFailure` so that each part's proof stays small; together they do what the loop body does.
