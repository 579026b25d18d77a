/** The API's endpoint paths: a base path and a handful of group paths, and
    each endpoint's path as a group path followed by one suffix. */
module Endpoints {
  import opened Text

  /** `BaseEndpoint`: the paths the endpoint groups are built on. It is the
      only endpoint class that overrides `__str__` (to yield the value), so
      only its members format as their paths; the group paths below are
      built from them. */
  const BASE_PATH: string := "/api/v1"
  const PRODUCTS_PATH: string := "/api/v1/products"
  const STEAM_PATH: string := "/api/v1/steam"
  const STEAM_GIFT_PATH: string := "/api/v1/steam_gift"
  const IP_WHITELIST_PATH: string := "/api/v1/ip-whitelist"

  datatype UserEndpoint = Login | Signup | CheckBalance | GetUserInfo {
    function Value(): string {
      match this
      case Login => BASE_PATH + "/get_token"
      case Signup => BASE_PATH + "/signup"
      case CheckBalance => BASE_PATH + "/check_balance"
      case GetUserInfo => BASE_PATH + "/user"
    }
  }

  datatype ServicesEndpoint = GetAllServices | GetCategories | GetServicesByCategory {
    function Value(): string {
      match this
      case GetAllServices => PRODUCTS_PATH + "/get_all_services"
      case GetCategories => PRODUCTS_PATH + "/get_categories"
      case GetServicesByCategory => PRODUCTS_PATH + "/get_services"
    }
  }

  datatype OrdersEndpoint = CreateOrder | PayOrder | GetOrderInfo {
    function Value(): string {
      match this
      case CreateOrder => BASE_PATH + "/create_order"
      case PayOrder => BASE_PATH + "/pay_order"
      case GetOrderInfo => BASE_PATH + "/order_info"
    }
  }

  datatype SteamEndpoint =
    | CalculateAmount | GetCurrencyRate | CalculateGift
    | CreateGiftOrder | PayGiftOrder | GetApps
  {
    function Value(): string {
      match this
      case CalculateAmount => STEAM_PATH + "/get_amount"
      case GetCurrencyRate => STEAM_PATH + "/get_currency_rate"
      case CalculateGift => STEAM_GIFT_PATH + "/calculate"
      case CreateGiftOrder => STEAM_GIFT_PATH + "/create_order"
      case PayGiftOrder => STEAM_GIFT_PATH + "/pay_order"
      case GetApps => STEAM_GIFT_PATH + "/get_apps"
    }
  }

  datatype IPWhitelistEndpoint = AddIp | RemoveIp | ListIps {
    function Value(): string {
      match this
      case AddIp => IP_WHITELIST_PATH + "/add"
      case RemoveIp => IP_WHITELIST_PATH + "/remove"
      case ListIps => IP_WHITELIST_PATH + "/list"
    }
  }

  /** The `Endpoint` grouping: every endpoint of every group. */
  datatype Endpoint =
    | User(u: UserEndpoint)
    | Services(sv: ServicesEndpoint)
    | Orders(o: OrdersEndpoint)
    | Steam(st: SteamEndpoint)
    | IPWhitelist(ip: IPWhitelistEndpoint)
  {
    function Path(): string {
      match this
      case User(u) => u.Value()
      case Services(sv) => sv.Value()
      case Orders(o) => o.Value()
      case Steam(st) => st.Value()
      case IPWhitelist(ip) => ip.Value()
    }
  }

  const LOGIN: string := UserEndpoint.Login.Value()
  const SIGNUP: string := UserEndpoint.Signup.Value()

  /** The request core's token-capture test on an endpoint path. */
  predicate IsTokenEndpoint(path: string) {
    EndsWith(path, "/get_token") || EndsWith(path, "/signup")
  }

  /** Length and last character of each path, one group at a time; no two
      paths agree on both. */
  lemma UserSignatures()
    ensures |UserEndpoint.Login.Value()| == 17 && UserEndpoint.Login.Value()[16] == 'n'
    ensures |UserEndpoint.Signup.Value()| == 14 && UserEndpoint.Signup.Value()[13] == 'p'
    ensures |UserEndpoint.CheckBalance.Value()| == 21 && UserEndpoint.CheckBalance.Value()[20] == 'e'
    ensures |UserEndpoint.GetUserInfo.Value()| == 12 && UserEndpoint.GetUserInfo.Value()[11] == 'r'
  {
  }

  lemma ServicesSignatures()
    ensures |ServicesEndpoint.GetAllServices.Value()| == 33 && ServicesEndpoint.GetAllServices.Value()[32] == 's'
    ensures |ServicesEndpoint.GetCategories.Value()| == 31 && ServicesEndpoint.GetCategories.Value()[30] == 's'
    ensures |ServicesEndpoint.GetServicesByCategory.Value()| == 29 && ServicesEndpoint.GetServicesByCategory.Value()[28] == 's'
  {
  }

  lemma OrdersSignatures()
    ensures |OrdersEndpoint.CreateOrder.Value()| == 20 && OrdersEndpoint.CreateOrder.Value()[19] == 'r'
    ensures |OrdersEndpoint.PayOrder.Value()| == 17 && OrdersEndpoint.PayOrder.Value()[16] == 'r'
    ensures |OrdersEndpoint.GetOrderInfo.Value()| == 18 && OrdersEndpoint.GetOrderInfo.Value()[17] == 'o'
  {
  }

  lemma SteamSignatures()
    ensures |SteamEndpoint.CalculateAmount.Value()| == 24 && SteamEndpoint.CalculateAmount.Value()[23] == 't'
    ensures |SteamEndpoint.GetCurrencyRate.Value()| == 31 && SteamEndpoint.GetCurrencyRate.Value()[30] == 'e'
    ensures |SteamEndpoint.CalculateGift.Value()| == 28 && SteamEndpoint.CalculateGift.Value()[27] == 'e'
    ensures |SteamEndpoint.CreateGiftOrder.Value()| == 31 && SteamEndpoint.CreateGiftOrder.Value()[30] == 'r'
    ensures |SteamEndpoint.PayGiftOrder.Value()| == 28 && SteamEndpoint.PayGiftOrder.Value()[27] == 'r'
    ensures |SteamEndpoint.GetApps.Value()| == 27 && SteamEndpoint.GetApps.Value()[26] == 's'
  {
  }

  lemma IpSignatures()
    ensures |IPWhitelistEndpoint.AddIp.Value()| == 24 && IPWhitelistEndpoint.AddIp.Value()[23] == 'd'
    ensures |IPWhitelistEndpoint.RemoveIp.Value()| == 27 && IPWhitelistEndpoint.RemoveIp.Value()[26] == 'e'
    ensures |IPWhitelistEndpoint.ListIps.Value()| == 25 && IPWhitelistEndpoint.ListIps.Value()[24] == 't'
  {
  }

  /** `Enum.__str__` of a member of one of the group enumerations: the
      class name, a dot and the member name. */
  function MemberName(e: Endpoint): string {
    match e
    case User(u) =>
      "UserEndpoint." + (match u
        case Login => "LOGIN" case Signup => "SIGNUP"
        case CheckBalance => "CHECK_BALANCE" case GetUserInfo => "GET_USER_INFO")
    case Services(sv) =>
      "ServicesEndpoint." + (match sv
        case GetAllServices => "GET_ALL_SERVICES" case GetCategories => "GET_CATEGORIES"
        case GetServicesByCategory => "GET_SERVICES_BY_CATEGORY")
    case Orders(o) =>
      "OrdersEndpoint." + (match o
        case CreateOrder => "CREATE_ORDER" case PayOrder => "PAY_ORDER" case GetOrderInfo => "GET_ORDER_INFO")
    case Steam(st) =>
      "SteamEndpoint." + (match st
        case CalculateAmount => "CALCULATE_AMOUNT" case GetCurrencyRate => "GET_CURRENCY_RATE"
        case CalculateGift => "CALCULATE_GIFT" case CreateGiftOrder => "CREATE_GIFT_ORDER"
        case PayGiftOrder => "PAY_GIFT_ORDER" case GetApps => "GET_APPS")
    case IPWhitelist(ip) =>
      "IPWhitelistEndpoint." + (match ip
        case AddIp => "ADD_IP" case RemoveIp => "REMOVE_IP" case ListIps => "LIST_IPS")
  }

  /** What `f"{self.base_url}{endpoint}"` appends to the base URL, as
      written, on Python 3.11 and later, where formatting an enum member
      uses its `__str__`: the user, order, Steam and IP-whitelist methods
      pass enum members, which render as their names; the services methods
      pass plain path strings, which render as themselves. */
  function UrlSuffixAsWritten(e: Endpoint): string {
    if e.Services? then e.Path() else MemberName(e)
  }

  /** As written, every endpoint outside the services group is sent to the
      base URL followed by its member name rather than its path: the text
      differs from the path and is not under the base path. Login, for one,
      goes to the base URL followed by "UserEndpoint.LOGIN". */
  lemma UrlSuffixAsWrittenDiffers(e: Endpoint)
    ensures UrlSuffixAsWritten(e) == e.Path() <==> e.Services?
    ensures !e.Services? ==> !StartsWith(UrlSuffixAsWritten(e), BASE_PATH)
    ensures UrlSuffixAsWritten(User(Login)) == "UserEndpoint.LOGIN"
  {
    AllUnderBasePath(e);
    assert e.Path()[0] == e.Path()[..|BASE_PATH|][0] == '/';
    if !e.Services? {
      assert MemberName(e)[0] != '/';
      assert UrlSuffixAsWritten(e)[0] != e.Path()[0];
    }
  }

  /** A string agrees with any suffix it has, character by character. */
  lemma EndsWithAt(s: string, suffix: string, k: nat)
    requires k < |suffix|
    ensures EndsWith(s, suffix) ==> s[|s| - |suffix| + k] == suffix[k]
  {
    if EndsWith(s, suffix) {
      assert s[|s| - |suffix|..][k] == s[|s| - |suffix| + k];
    }
  }

  /** The two authentication paths, written out. */
  lemma AuthPathValues()
    ensures LOGIN == "/api/v1/get_token"
    ensures SIGNUP == "/api/v1/signup"
  {
  }

  /** Every endpoint lives under the API's base path. */
  lemma AllUnderBasePath(e: Endpoint)
    ensures StartsWith(e.Path(), BASE_PATH)
  {
    match e
    case User(u) => StartsWithConcat(BASE_PATH, u.Value()[|BASE_PATH|..]);
    case Services(sv) => GroupUnderBase(PRODUCTS_PATH, sv.Value());
    case Orders(o) => StartsWithConcat(BASE_PATH, o.Value()[|BASE_PATH|..]);
    case Steam(st) =>
      if st.Value()[..|STEAM_GIFT_PATH|] == STEAM_GIFT_PATH {
        GroupUnderBase(STEAM_GIFT_PATH, st.Value());
      } else {
        GroupUnderBase(STEAM_PATH, st.Value());
      }
    case IPWhitelist(ip) => GroupUnderBase(IP_WHITELIST_PATH, ip.Value());
  }

  /** A path under a group path that starts with the base path is under
      the base path too. */
  lemma GroupUnderBase(group: string, path: string)
    requires StartsWith(group, BASE_PATH) && StartsWith(path, group)
    ensures StartsWith(path, BASE_PATH)
  {
    assert path[..|BASE_PATH|] == path[..|group|][..|BASE_PATH|];
  }

  /** Only LOGIN ends with "/get_token" and only SIGNUP with "/signup", so the
      token-capture test picks out exactly the two authentication endpoints. */
  lemma TokenEndpointIff(e: Endpoint)
    ensures EndsWith(e.Path(), "/get_token") <==> e == User(Login)
    ensures EndsWith(e.Path(), "/signup") <==> e == User(Signup)
    ensures IsTokenEndpoint(e.Path()) <==> e == User(Login) || e == User(Signup)
  {
    match e
    case User(u) => TokenSuffixesUser(u);
    case Services(sv) => TokenSuffixesOther(e);
    case Orders(o) => TokenSuffixesOther(e);
    case Steam(st) => TokenSuffixesOther(e);
    case IPWhitelist(ip) => TokenSuffixesOther(e);
  }

  lemma TokenSuffixesUser(u: UserEndpoint)
    ensures EndsWith(u.Value(), "/get_token") <==> u == Login
    ensures EndsWith(u.Value(), "/signup") <==> u == Signup
  {
    UserSignatures();
    EndsWithAt(u.Value(), "/get_token", 9);
    EndsWithAt(u.Value(), "/signup", 6);
  }

  lemma TokenSuffixesOther(e: Endpoint)
    requires !e.User?
    ensures !EndsWith(e.Path(), "/get_token") && !EndsWith(e.Path(), "/signup")
  {
    ServicesSignatures();
    OrdersSignatures();
    SteamSignatures();
    IpSignatures();
    NoTokenSuffix(e.Path());
  }

  /** A path whose last character is neither 'n' nor 'p' has neither suffix. */
  lemma NoTokenSuffix(p: string)
    requires |p| > 0 && p[|p| - 1] != 'n' && p[|p| - 1] != 'p'
    ensures !EndsWith(p, "/get_token") && !EndsWith(p, "/signup")
  {
    EndsWithAt(p, "/get_token", 9);
    EndsWithAt(p, "/signup", 6);
  }

  /** Reads an endpoint back from its path. */
  function FromPath(path: string): (r: Option<Endpoint>)
  {
    if path == LOGIN then Some(User(Login))
    else if path == SIGNUP then Some(User(Signup))
    else if path == UserEndpoint.CheckBalance.Value() then Some(User(CheckBalance))
    else if path == UserEndpoint.GetUserInfo.Value() then Some(User(GetUserInfo))
    else if path == ServicesEndpoint.GetAllServices.Value() then Some(Services(GetAllServices))
    else if path == ServicesEndpoint.GetCategories.Value() then Some(Services(GetCategories))
    else if path == ServicesEndpoint.GetServicesByCategory.Value() then Some(Services(GetServicesByCategory))
    else if path == OrdersEndpoint.CreateOrder.Value() then Some(Orders(CreateOrder))
    else if path == OrdersEndpoint.PayOrder.Value() then Some(Orders(PayOrder))
    else if path == OrdersEndpoint.GetOrderInfo.Value() then Some(Orders(GetOrderInfo))
    else if path == SteamEndpoint.CalculateAmount.Value() then Some(Steam(CalculateAmount))
    else if path == SteamEndpoint.GetCurrencyRate.Value() then Some(Steam(GetCurrencyRate))
    else if path == SteamEndpoint.CalculateGift.Value() then Some(Steam(CalculateGift))
    else if path == SteamEndpoint.CreateGiftOrder.Value() then Some(Steam(CreateGiftOrder))
    else if path == SteamEndpoint.PayGiftOrder.Value() then Some(Steam(PayGiftOrder))
    else if path == SteamEndpoint.GetApps.Value() then Some(Steam(GetApps))
    else if path == IPWhitelistEndpoint.AddIp.Value() then Some(IPWhitelist(AddIp))
    else if path == IPWhitelistEndpoint.RemoveIp.Value() then Some(IPWhitelist(RemoveIp))
    else if path == IPWhitelistEndpoint.ListIps.Value() then Some(IPWhitelist(ListIps))
    else None
  }

  /** Every path reads back as its own endpoint. */
  lemma FromPathRoundTrip(e: Endpoint)
    ensures FromPath(e.Path()) == Some(e)
  {
    match e
    case User(u) => FromUserPath(u);
    case Services(sv) => FromServicesPath(sv);
    case Orders(o) => FromOrdersPath(o);
    case Steam(st) => FromSteamPath(st);
    case IPWhitelist(ip) => FromIpPath(ip);
  }

  lemma FromUserPath(u: UserEndpoint)
    ensures FromPath(u.Value()) == Some(User(u))
  {
    UserSignatures();
  }

  lemma FromServicesPath(sv: ServicesEndpoint)
    ensures FromPath(sv.Value()) == Some(Services(sv))
  {
    UserSignatures();
    ServicesSignatures();
  }

  lemma FromOrdersPath(o: OrdersEndpoint)
    ensures FromPath(o.Value()) == Some(Orders(o))
  {
    UserSignatures();
    ServicesSignatures();
    OrdersSignatures();
  }

  lemma FromSteamPath(st: SteamEndpoint)
    ensures FromPath(st.Value()) == Some(Steam(st))
  {
    UserSignatures();
    ServicesSignatures();
    OrdersSignatures();
    SteamSignatures();
  }

  lemma FromIpPath(ip: IPWhitelistEndpoint)
    ensures FromPath(ip.Value()) == Some(IPWhitelist(ip))
  {
    UserSignatures();
    ServicesSignatures();
    OrdersSignatures();
    SteamSignatures();
    IpSignatures();
  }

  /** The endpoint values are pairwise distinct. */
  lemma PathsDistinct(e1: Endpoint, e2: Endpoint)
    requires e1.Path() == e2.Path()
    ensures e1 == e2
  {
    FromPathRoundTrip(e1);
    FromPathRoundTrip(e2);
  }

  /** The order endpoint and the Steam gift order endpoint share the suffix
      "/create_order" and are still different paths; no other endpoint ends
      with it. */
  lemma CreateOrderSuffixShared(e: Endpoint)
    ensures EndsWith(e.Path(), "/create_order") <==> e == Orders(CreateOrder) || e == Steam(CreateGiftOrder)
    ensures OrdersEndpoint.CreateOrder.Value() != SteamEndpoint.CreateGiftOrder.Value()
  {
    match e
    case Orders(o) => CreateOrderSuffixOrders(o);
    case Steam(st) => CreateOrderSuffixSteam(st);
    case User(u) => CreateOrderSuffixOther(e);
    case Services(sv) => CreateOrderSuffixOther(e);
    case IPWhitelist(ip) => CreateOrderSuffixOther(e);
  }

  lemma CreateOrderSuffixOrders(o: OrdersEndpoint)
    ensures EndsWith(o.Value(), "/create_order") <==> o == CreateOrder
  {
    OrdersSignatures();
    EndsWithConcat(BASE_PATH, "/create_order");
    EndsWithAt(o.Value(), "/create_order", 12);
    EndsWithAt(o.Value(), "/create_order", 6);
  }

  lemma CreateOrderSuffixSteam(st: SteamEndpoint)
    ensures EndsWith(st.Value(), "/create_order") <==> st == CreateGiftOrder
  {
    SteamSignatures();
    EndsWithConcat(STEAM_GIFT_PATH, "/create_order");
    EndsWithAt(st.Value(), "/create_order", 12);
    EndsWithAt(st.Value(), "/create_order", 10);
    EndsWithAt(st.Value(), "/create_order", 6);
  }

  lemma CreateOrderSuffixOther(e: Endpoint)
    requires e.User? || e.Services? || e.IPWhitelist?
    ensures !EndsWith(e.Path(), "/create_order")
  {
    UserSignatures();
    ServicesSignatures();
    IpSignatures();
    EndsWithAt(e.Path(), "/create_order", 12);
    EndsWithAt(e.Path(), "/create_order", 10);
  }
}
