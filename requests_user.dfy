/** The user request models: login, signup and the user record with its
    decimal `bybit_deposit` pattern. */
module UserRequests {
  import opened Text
  import opened JsonData
  import opened Schema

  datatype UserLogin = UserLogin(email: string, password: string)
  datatype UserSignup = UserSignup(username: string, password: string, email: string)
  datatype User = User(email: string, role: string, bybitDeposit: string)

  /** `UserLoginSchema(email=..., password=...)` */
  function LoginSchema(email: string, password: string): (r: Checked<UserLogin>)
    ensures r.Valid? <==> 1 <= |email| <= 255 && 1 <= |password| <= 255
    ensures r.Valid? ==> r.value == UserLogin(email, password)
    ensures r.Invalid? ==> forall f :: f in r.fields ==> f in {"email", "password"}
  {
    var checks := [Check("email", LengthWithin(email, 1, 255)),
                   Check("password", LengthWithin(password, 1, 255))];
    assert checks[0].ok == LengthWithin(email, 1, 255) && checks[1].ok == LengthWithin(password, 1, 255);
    Construct(checks, UserLogin(email, password))
  }

  /** `UserSignupSchema(username=..., email=..., password=...)` */
  function SignupSchema(username: string, email: string, password: string): (r: Checked<UserSignup>)
    ensures r.Valid? <==> 3 <= |username| <= 50 && 8 <= |password| <= 255 && 1 <= |email| <= 255
    ensures r.Valid? ==> r.value == UserSignup(username, password, email)
    ensures r.Invalid? && !(8 <= |password| <= 255) ==> "password" in r.fields
  {
    var checks := [Check("username", LengthWithin(username, 3, 50)),
                   Check("password", LengthWithin(password, 8, 255)),
                   Check("email", LengthWithin(email, 1, 255))];
    assert checks[0].ok == LengthWithin(username, 3, 50) && checks[1] == Check("password", LengthWithin(password, 8, 255));
    assert checks[2].ok == LengthWithin(email, 1, 255);
    Construct(checks, UserSignup(username, password, email))
  }

  /** `model_dump()` of a login request. */
  function LoginPayload(u: UserLogin): Object {
    map["email" := JStr(u.email), "password" := JStr(u.password)]
  }

  /** `model_dump()` of a signup request. */
  function SignupPayload(u: UserSignup): Object {
    map["username" := JStr(u.username), "password" := JStr(u.password), "email" := JStr(u.email)]
  }

  function ParseLogin(m: Object): Option<UserLogin> {
    if "email" in m && "password" in m && m["email"].JStr? && m["password"].JStr? then
      Some(UserLogin(m["email"].s, m["password"].s))
    else None
  }

  function ParseSignup(m: Object): Option<UserSignup> {
    if "username" in m && "password" in m && "email" in m
       && m["username"].JStr? && m["password"].JStr? && m["email"].JStr? then
      Some(UserSignup(m["username"].s, m["password"].s, m["email"].s))
    else None
  }

  /** The login payload carries exactly the two credentials. */
  lemma LoginPayloadRoundTrip(u: UserLogin)
    ensures LoginPayload(u).Keys == {"email", "password"}
    ensures ParseLogin(LoginPayload(u)) == Some(u)
  {
  }

  lemma SignupPayloadRoundTrip(u: UserSignup)
    ensures SignupPayload(u).Keys == {"username", "password", "email"}
    ensures ParseSignup(SignupPayload(u)) == Some(u)
  {
  }

  // --- The `bybit_deposit` pattern `^\d+(\.\d+)?$` ---

  /** The language of the pattern: a run of digits, or two runs of digits
      around one dot. */
  ghost predicate InDecimalLanguage(s: string) {
    || (|s| > 0 && AllDigits(s))
    || (exists i :: 0 < i < |s| - 1 && s[i] == '.' && AllDigits(s[..i]) && AllDigits(s[i + 1..]))
  }

  /** The recogniser: split at the first dot and check both sides. */
  predicate IsDecimal(s: string) {
    var k := IndexOf(s, '.');
    if k == |s| then |s| > 0 && AllDigits(s)
    else 0 < k && k < |s| - 1 && AllDigits(s[..k]) && AllDigits(s[k + 1..])
  }

  /** The recogniser accepts exactly the pattern's language. */
  lemma IsDecimalIff(s: string)
    ensures IsDecimal(s) <==> InDecimalLanguage(s)
  {
    var k := IndexOf(s, '.');
    if InDecimalLanguage(s) && !(|s| > 0 && AllDigits(s)) {
      var i :| 0 < i < |s| - 1 && s[i] == '.' && AllDigits(s[..i]) && AllDigits(s[i + 1..]);
      FirstDotAt(s, i);
    }
    if IsDecimal(s) && k < |s| {
      assert 0 < k < |s| - 1 && s[k] == '.' && AllDigits(s[..k]) && AllDigits(s[k + 1..]);
    }
  }

  /** A dot preceded only by digits is the first dot. */
  lemma FirstDotAt(s: string, i: nat)
    requires i < |s| && s[i] == '.' && AllDigits(s[..i])
    ensures IndexOf(s, '.') == i
  {
    forall j | 0 <= j < i
      ensures s[j] != '.'
    {
      assert s[..i][j] == s[j];
    }
  }

  /** `UserSchema(email=..., role=..., bybit_deposit=...)` */
  function UserSchema(email: string, role: string, bybitDeposit: string): (r: Checked<User>)
    ensures r.Valid? <==> 1 <= |email| <= 255 && 1 <= |role| <= 50 && InDecimalLanguage(bybitDeposit)
    ensures r.Valid? ==> r.value == User(email, role, bybitDeposit)
  {
    IsDecimalIff(bybitDeposit);
    var checks := [Check("email", LengthWithin(email, 1, 255)),
                   Check("role", LengthWithin(role, 1, 50)),
                   Check("bybit_deposit", IsDecimal(bybitDeposit))];
    assert checks[0].ok == LengthWithin(email, 1, 255) && checks[1].ok == LengthWithin(role, 1, 50);
    assert checks[2].ok == IsDecimal(bybitDeposit);
    Construct(checks, User(email, role, bybitDeposit))
  }

  const DEFAULT_BYBIT_DEPOSIT: string := "0"

  /** The default deposit satisfies its own pattern, as do plain and
      dotted amounts; an empty string, a dangling or leading dot and a
      second dot are rejected. */
  lemma DecimalExamples()
    ensures InDecimalLanguage(DEFAULT_BYBIT_DEPOSIT)
    ensures InDecimalLanguage("12.50")
    ensures !InDecimalLanguage("") && !InDecimalLanguage("1.") && !InDecimalLanguage(".5")
    ensures !InDecimalLanguage("1.2.3") && !InDecimalLanguage("1e5")
  {
    DecimalAccepted();
    DecimalRejected();
    DecimalRejectedDots();
  }

  lemma DecimalAccepted()
    ensures InDecimalLanguage(DEFAULT_BYBIT_DEPOSIT) && InDecimalLanguage("12.50")
  {
    IsDecimalIff(DEFAULT_BYBIT_DEPOSIT);
    IsDecimalIff("12.50");
    assert IndexOf("12.50", '.') == 2;
  }

  lemma DecimalRejected()
    ensures !InDecimalLanguage("") && !InDecimalLanguage("1e5")
  {
    IsDecimalIff("");
    IsDecimalIff("1e5");
    assert !IsDigit("1e5"[1]) && IndexOf("1e5", '.') == 3;
  }

  lemma DecimalRejectedDots()
    ensures !InDecimalLanguage("1.") && !InDecimalLanguage(".5") && !InDecimalLanguage("1.2.3")
  {
    IsDecimalIff("1.");
    IsDecimalIff(".5");
    IsDecimalIff("1.2.3");
    assert IndexOf("1.", '.') == 1;
    assert IndexOf(".5", '.') == 0;
    assert IndexOf("1.2.3", '.') == 1;
    assert "1.2.3"[2..] == "2.3" && !IsDigit("2.3"[1]);
  }
}
