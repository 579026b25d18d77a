/** The library's exception classes as one tagged record. `APIServerError`
    and `APIClientError` carry a status code and response data; the other
    kinds carry only their message, as plain `Exception`s do. */
module Errors {
  import opened Text
  import opened JsonData

  datatype ErrorKind =
    | GenericError          // APIError
    | ConnectionError       // APIConnectionError
    | TimeoutError          // APITimeoutError
    | AuthenticationError   // APIAuthenticationError
    | ServerError           // APIServerError
    | ClientError           // APIClientError
    | ValidationError       // pydantic's ValidationError, raised by the request models

  datatype ApiError = ApiError(
    kind: ErrorKind,
    message: string,
    statusCode: Option<int>,
    responseData: Object)
  {
    /** `__str__`: the status in front of the message when it is truthy. */
    function ToString(): (s: string)
      ensures EndsWith(s, message)
      ensures statusCode.Some? && statusCode.value != 0 ==> StartsWith(s, IntToString(statusCode.value) + ": ")
      ensures statusCode.Some? && statusCode.value != 0 ==> |s| == |IntToString(statusCode.value)| + 2 + |message|
      ensures statusCode.None? || statusCode.value == 0 ==> s == message
    {
      if statusCode.Some? && statusCode.value != 0 then
        var prefix := IntToString(statusCode.value) + ": ";
        StartsWithConcat(prefix, message);
        EndsWithConcat(prefix, message);
        prefix + message
      else message
    }
  }

  /** An error that carries nothing but its message. */
  function Plain(kind: ErrorKind, message: string): (e: ApiError)
    requires kind != ServerError && kind != ClientError
    ensures e.kind == kind && e.message == message
    ensures e.statusCode.None? && e.responseData == map[]
  {
    ApiError(kind, message, None, map[])
  }

  /** `response_data or {}`: an absent or empty dict is stored as `{}`. */
  function StoredData(responseData: Option<Object>): (d: Object)
    ensures responseData.Some? ==> d == responseData.value
    ensures responseData.None? ==> d == map[]
  {
    if responseData.Some? && responseData.value != map[] then responseData.value else map[]
  }

  /** `APIServerError(message, status_code, response_data)` */
  function NewServerError(message: string, statusCode: Option<int>, responseData: Option<Object>): (e: ApiError)
    ensures e.kind == ServerError && e.message == message && e.statusCode == statusCode
    ensures e.responseData == StoredData(responseData)
  {
    ApiError(ServerError, message, statusCode, StoredData(responseData))
  }

  /** `APIClientError(message, status_code, response_data)` */
  function NewClientError(message: string, statusCode: Option<int>, responseData: Option<Object>): (e: ApiError)
    ensures e.kind == ClientError && e.message == message && e.statusCode == statusCode
    ensures e.responseData == StoredData(responseData)
  {
    ApiError(ClientError, message, statusCode, StoredData(responseData))
  }

  const SERVER_MESSAGES: map<int, string> := map[
    500 := "Internal Server Error - Unexpected server condition",
    502 := "Bad Gateway - Invalid response from upstream server",
    503 := "Service Unavailable - Server temporarily unavailable",
    504 := "Gateway Timeout - Upstream server timeout",
    507 := "Insufficient Storage - Server storage limit reached"
  ]

  const CLIENT_MESSAGES: map<int, string> := map[
    400 := "Bad Request - Invalid parameters",
    401 := "Unauthorized - Authentication required",
    403 := "Forbidden - Insufficient permissions",
    404 := "Not Found - Resource does not exist",
    409 := "Conflict - Request conflicts with current state",
    422 := "Unprocessable Entity - Invalid request format",
    429 := "Too Many Requests - Rate limit exceeded"
  ]

  /** The message `from_status_code` settles on: an explicit non-empty
      message, else the table's entry, else the fallback. */
  function ChooseMessage(message: Option<string>, table: map<int, string>, statusCode: int, fallback: string): string
  {
    if Truthy(message) then message.value
    else if statusCode in table then table[statusCode]
    else fallback + IntToString(statusCode)
  }

  /** `APIServerError.from_status_code` */
  function ServerFromStatusCode(statusCode: int, message: Option<string>, responseData: Option<Object>): (e: ApiError)
    ensures e.kind == ServerError && e.statusCode == Some(statusCode)
    ensures e.responseData == StoredData(responseData)
    ensures Truthy(message) ==> e.message == message.value
    ensures !Truthy(message) && statusCode in {500, 502, 503, 504, 507} ==> e.message == SERVER_MESSAGES[statusCode]
    ensures !Truthy(message) && statusCode !in {500, 502, 503, 504, 507} ==> e.message == "Server error " + IntToString(statusCode)
  {
    NewServerError(ChooseMessage(message, SERVER_MESSAGES, statusCode, "Server error "), Some(statusCode), responseData)
  }

  /** `APIClientError.from_status_code` */
  function ClientFromStatusCode(statusCode: int, message: Option<string>, responseData: Option<Object>): (e: ApiError)
    ensures e.kind == ClientError && e.statusCode == Some(statusCode)
    ensures e.responseData == StoredData(responseData)
    ensures Truthy(message) ==> e.message == message.value
    ensures !Truthy(message) && statusCode in {400, 401, 403, 404, 409, 422, 429} ==> e.message == CLIENT_MESSAGES[statusCode]
    ensures !Truthy(message) && statusCode !in {400, 401, 403, 404, 409, 422, 429} ==> e.message == "Client error " + IntToString(statusCode)
  {
    NewClientError(ChooseMessage(message, CLIENT_MESSAGES, statusCode, "Client error "), Some(statusCode), responseData)
  }

  /** The fallback message names its status, and different statuses never
      share a fallback message. */
  lemma FallbackNamesStatus(a: int, b: int)
    requires a !in SERVER_MESSAGES && b !in SERVER_MESSAGES
    requires ServerFromStatusCode(a, None, None).message == ServerFromStatusCode(b, None, None).message
    ensures a == b
  {
    var p := "Server error ";
    assert (p + IntToString(a))[|p|..] == IntToString(a);
    assert (p + IntToString(b))[|p|..] == IntToString(b);
    IntToStringInjective(a, b);
  }

  /** `str()` of an error with a truthy status shows that status: reading
      the digits back in front of ": " recovers it. */
  lemma ToStringShowsStatus(e: ApiError, n: nat)
    requires e.statusCode == Some(n) && n != 0
    ensures var s := e.ToString(); var d := NatToString(n);
      s[..|d|] == d && AllDigits(s[..|d|]) && DecimalValue(s[..|d|]) == n
  {
    var d := NatToString(n);
    assert e.ToString() == d + ": " + e.message;
    assert (d + ": " + e.message)[..|d|] == d;
    NatToStringValue(n);
  }
}
