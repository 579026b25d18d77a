/** `ClientConfig`: the client's settings as a record, the checks its
    `__post_init__` runs in order, and its dictionary form. */
module Config {
  import opened Text
  import opened JsonData

  datatype ClientConfig = ClientConfig(
    baseUrl: string,
    email: Option<string>,
    password: Option<string>,
    autoAuth: bool,
    maxRetries: int,
    requestTimeout: int,
    serverErrorCooldown: int,
    tokenRefreshBuffer: int,
    enableLogging: bool,
    logLevel: string)

  /** The dataclass defaults. */
  const DEFAULT: ClientConfig := ClientConfig(
    "https://api.ns.gifts", None, None, true, 3, 30, 300, 300, false, "INFO")

  /** The `ValueError`s `__post_init__` raises, in the order it checks. A
      dictionary value of the wrong JSON kind is reported as `WrongType`. */
  datatype ConfigError =
    | MaxRetriesNegative
    | TimeoutNotPositive
    | CooldownNegative
    | BufferNegative
    | BaseUrlEmpty
    | BaseUrlScheme
    | BadLogLevel
    | PasswordRequired
    | EmailRequired
    | WrongType(key: string)

  const VALID_LEVELS: set<string> := {"DEBUG", "INFO", "WARNING", "ERROR", "CRITICAL"}

  predicate LogLevelOk(level: string) {
    Upper(level) in VALID_LEVELS
  }

  predicate SchemeOk(url: string) {
    StartsWith(url, "http://") || StartsWith(url, "https://")
  }

  /** `__post_init__`: the first failing check, if any. */
  function PostInit(c: ClientConfig): Option<ConfigError>
  {
    if c.maxRetries < 0 then Some(MaxRetriesNegative)
    else if c.requestTimeout <= 0 then Some(TimeoutNotPositive)
    else if c.serverErrorCooldown < 0 then Some(CooldownNegative)
    else if c.tokenRefreshBuffer < 0 then Some(BufferNegative)
    else if c.baseUrl == "" then Some(BaseUrlEmpty)
    else if !SchemeOk(c.baseUrl) then Some(BaseUrlScheme)
    else if !LogLevelOk(c.logLevel) then Some(BadLogLevel)
    else if Truthy(c.email) && !Truthy(c.password) then Some(PasswordRequired)
    else if Truthy(c.password) && !Truthy(c.email) then Some(EmailRequired)
    else None
  }

  /** The four numeric bounds. */
  predicate BoundsOk(c: ClientConfig) {
    && c.maxRetries >= 0
    && c.requestTimeout > 0
    && c.serverErrorCooldown >= 0
    && c.tokenRefreshBuffer >= 0
  }

  /** The constraints a valid configuration meets, stated independently of
      the order of the checks. */
  predicate WellFormed(c: ClientConfig) {
    && BoundsOk(c)
    && c.baseUrl != ""
    && SchemeOk(c.baseUrl)
    && (exists l :: l in VALID_LEVELS && EqualsIgnoreCase(c.logLevel, l))
    && Truthy(c.email) == Truthy(c.password)
  }

  /** The log level passes exactly when it is a case variant of one of the
      five level names. */
  lemma LogLevelIff(level: string)
    ensures LogLevelOk(level) <==> exists l :: l in VALID_LEVELS && EqualsIgnoreCase(level, l)
  {
    forall l | l in VALID_LEVELS
      ensures Upper(level) == l <==> EqualsIgnoreCase(level, l)
    {
      UpperIsWordIff(level, l);
    }
  }

  /** `__post_init__` accepts exactly the well-formed configurations, and
      each error it reports names a constraint that fails while every
      earlier one holds. */
  lemma PostInitIff(c: ClientConfig)
    ensures PostInit(c).None? <==> WellFormed(c)
    ensures PostInit(c) == Some(MaxRetriesNegative) <==> c.maxRetries < 0
    ensures PostInit(c) == Some(TimeoutNotPositive) <==> c.maxRetries >= 0 && c.requestTimeout <= 0
    ensures PostInit(c) == Some(CooldownNegative) <==>
              c.maxRetries >= 0 && c.requestTimeout > 0 && c.serverErrorCooldown < 0
    ensures PostInit(c) == Some(BufferNegative) <==>
              c.maxRetries >= 0 && c.requestTimeout > 0 && c.serverErrorCooldown >= 0 && c.tokenRefreshBuffer < 0
    ensures PostInit(c) == Some(BaseUrlEmpty) <==> BoundsOk(c) && c.baseUrl == ""
    ensures PostInit(c) == Some(BaseUrlScheme) <==> BoundsOk(c) && c.baseUrl != "" && !SchemeOk(c.baseUrl)
    ensures PostInit(c) == Some(BadLogLevel) <==>
              BoundsOk(c) && c.baseUrl != "" && SchemeOk(c.baseUrl)
              && !(exists l :: l in VALID_LEVELS && EqualsIgnoreCase(c.logLevel, l))
    ensures PostInit(c) == Some(PasswordRequired) <==>
              BoundsOk(c) && c.baseUrl != "" && SchemeOk(c.baseUrl) && LogLevelOk(c.logLevel)
              && Truthy(c.email) && !Truthy(c.password)
    ensures PostInit(c) == Some(EmailRequired) <==>
              BoundsOk(c) && c.baseUrl != "" && SchemeOk(c.baseUrl) && LogLevelOk(c.logLevel)
              && Truthy(c.password) && !Truthy(c.email)
  {
    LogLevelIff(c.logLevel);
  }

  /** Zero is accepted for the retry count, the cooldown and the refresh
      buffer, but not for the timeout. */
  lemma ZeroBounds(c: ClientConfig)
    requires WellFormed(c)
    ensures PostInit(c.(maxRetries := 0, serverErrorCooldown := 0, tokenRefreshBuffer := 0)).None?
    ensures PostInit(c.(requestTimeout := 0)) == Some(TimeoutNotPositive)
  {
    PostInitIff(c);
    PostInitIff(c.(maxRetries := 0, serverErrorCooldown := 0, tokenRefreshBuffer := 0));
  }

  /** The defaults pass validation. */
  lemma DefaultIsValid()
    ensures PostInit(DEFAULT).None? && WellFormed(DEFAULT)
  {
    assert Upper("INFO") == "INFO";
    PostInitIff(DEFAULT);
  }

  /** The dataclass fields: the keys `from_dict` keeps. */
  const FIELDS: set<string> := {
    "base_url", "email", "password", "auto_auth", "max_retries", "request_timeout",
    "server_error_cooldown", "token_refresh_buffer", "enable_logging", "log_level"}

  function OptionalText(o: Option<string>): Json {
    if o.None? then JNull else JStr(o.value)
  }

  /** `to_dict`: nine of the ten fields; the password is never written out. */
  function ToDict(c: ClientConfig): (d: Object)
    ensures d.Keys == FIELDS - {"password"}
    ensures d["base_url"] == JStr(c.baseUrl) && d["email"] == OptionalText(c.email)
    ensures d["auto_auth"] == JBool(c.autoAuth) && d["enable_logging"] == JBool(c.enableLogging)
    ensures d["max_retries"] == JInt(c.maxRetries) && d["request_timeout"] == JInt(c.requestTimeout)
    ensures d["server_error_cooldown"] == JInt(c.serverErrorCooldown)
    ensures d["token_refresh_buffer"] == JInt(c.tokenRefreshBuffer)
    ensures d["log_level"] == JStr(c.logLevel)
  {
    map[
      "base_url" := JStr(c.baseUrl),
      "email" := OptionalText(c.email),
      "auto_auth" := JBool(c.autoAuth),
      "max_retries" := JInt(c.maxRetries),
      "request_timeout" := JInt(c.requestTimeout),
      "server_error_cooldown" := JInt(c.serverErrorCooldown),
      "token_refresh_buffer" := JInt(c.tokenRefreshBuffer),
      "enable_logging" := JBool(c.enableLogging),
      "log_level" := JStr(c.logLevel)
    ]
  }

  /** Field readers for `from_dict`: a missing key takes the default. */
  function TextField(d: Object, key: string, default: string): Result<string>
  {
    if key !in d then Ok(default)
    else match d[key]
      case JStr(s) => Ok(s)
      case _ => Err(WrongType(key))
  }

  function OptionalTextField(d: Object, key: string): Result<Option<string>>
  {
    if key !in d then Ok(None)
    else match d[key]
      case JStr(s) => Ok(Some(s))
      case JNull => Ok(None)
      case _ => Err(WrongType(key))
  }

  function BoolField(d: Object, key: string, default: bool): Result<bool>
  {
    if key !in d then Ok(default)
    else match d[key]
      case JBool(b) => Ok(b)
      case _ => Err(WrongType(key))
  }

  function IntField(d: Object, key: string, default: int): Result<int>
  {
    if key !in d then Ok(default)
    else match d[key]
      case JInt(i) => Ok(i)
      case _ => Err(WrongType(key))
  }

  datatype Result<+T> = Ok(value: T) | Err(error: ConfigError)

  /** `cls(**{k: v for k, v in d.items() if k in FIELDS})` followed by
      `__post_init__`. */
  function FromDict(d: Object): Result<ClientConfig>
  {
    var kept := map k | k in d && k in FIELDS :: d[k];
    var baseUrl := TextField(kept, "base_url", DEFAULT.baseUrl);
    var email := OptionalTextField(kept, "email");
    var password := OptionalTextField(kept, "password");
    var autoAuth := BoolField(kept, "auto_auth", DEFAULT.autoAuth);
    var maxRetries := IntField(kept, "max_retries", DEFAULT.maxRetries);
    var requestTimeout := IntField(kept, "request_timeout", DEFAULT.requestTimeout);
    var cooldown := IntField(kept, "server_error_cooldown", DEFAULT.serverErrorCooldown);
    var buffer := IntField(kept, "token_refresh_buffer", DEFAULT.tokenRefreshBuffer);
    var enableLogging := BoolField(kept, "enable_logging", DEFAULT.enableLogging);
    var logLevel := TextField(kept, "log_level", DEFAULT.logLevel);
    if baseUrl.Err? then Err(baseUrl.error)
    else if email.Err? then Err(email.error)
    else if password.Err? then Err(password.error)
    else if autoAuth.Err? then Err(autoAuth.error)
    else if maxRetries.Err? then Err(maxRetries.error)
    else if requestTimeout.Err? then Err(requestTimeout.error)
    else if cooldown.Err? then Err(cooldown.error)
    else if buffer.Err? then Err(buffer.error)
    else if enableLogging.Err? then Err(enableLogging.error)
    else if logLevel.Err? then Err(logLevel.error)
    else
      var c := ClientConfig(baseUrl.value, email.value, password.value, autoAuth.value,
                            maxRetries.value, requestTimeout.value, cooldown.value, buffer.value,
                            enableLogging.value, logLevel.value);
      match PostInit(c)
      case Some(e) => Err(e)
      case None => Ok(c)
  }

  /** Keys that are not dataclass fields make no difference. */
  lemma FromDictIgnoresUnknownKeys(d: Object, extra: Object)
    requires extra.Keys !! FIELDS
    ensures FromDict(d + extra) == FromDict(d - extra.Keys)
  {
    var kept1 := map k | k in d + extra && k in FIELDS :: (d + extra)[k];
    var kept2 := map k | k in d - extra.Keys && k in FIELDS :: (d - extra.Keys)[k];
    assert kept1 == kept2;
  }

  /** Whatever dictionary it is given, `from_dict` returns only
      configurations that pass validation. */
  lemma FromDictValid(d: Object)
    ensures FromDict(d).Ok? ==> WellFormed(FromDict(d).value)
  {
    if FromDict(d).Ok? {
      PostInitIff(FromDict(d).value);
    }
  }

  /** Round trip through the dictionary form. The password is not written
      out, so the rebuilt configuration has none: without an email that is
      the original up to the (falsy) password, with an email it fails
      validation. */
  lemma {:induction false} DictRoundTrip(c: ClientConfig)
    requires PostInit(c).None?
    ensures !Truthy(c.email) ==> FromDict(ToDict(c)) == Ok(c.(password := None))
    ensures Truthy(c.email) ==> FromDict(ToDict(c)) == Err(PasswordRequired)
  {
    var r := c.(password := None);
    DictReadsBack(c);
    assert FromDict(ToDict(c)) == if PostInit(r).Some? then Err(PostInit(r).value) else Ok(r);
    PostInitIff(c);
    PostInitIff(r);
  }

  /** Every field reader gets back from `to_dict` the value written, and
      the password reads as absent. */
  lemma DictReadsBack(c: ClientConfig)
    ensures var d := ToDict(c);
      && (map k | k in d && k in FIELDS :: d[k]) == d
      && TextField(d, "base_url", DEFAULT.baseUrl) == Ok(c.baseUrl)
      && OptionalTextField(d, "email") == Ok(c.email)
      && OptionalTextField(d, "password") == Ok(None)
      && BoolField(d, "auto_auth", DEFAULT.autoAuth) == Ok(c.autoAuth)
      && IntField(d, "max_retries", DEFAULT.maxRetries) == Ok(c.maxRetries)
      && IntField(d, "request_timeout", DEFAULT.requestTimeout) == Ok(c.requestTimeout)
      && IntField(d, "server_error_cooldown", DEFAULT.serverErrorCooldown) == Ok(c.serverErrorCooldown)
      && IntField(d, "token_refresh_buffer", DEFAULT.tokenRefreshBuffer) == Ok(c.tokenRefreshBuffer)
      && BoolField(d, "enable_logging", DEFAULT.enableLogging) == Ok(c.enableLogging)
      && TextField(d, "log_level", DEFAULT.logLevel) == Ok(c.logLevel)
  {
    var d := ToDict(c);
    assert (map k | k in d && k in FIELDS :: d[k]) == d;
  }
}
