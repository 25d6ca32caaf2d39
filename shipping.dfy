/** The shipping-provider client: a login token cached in two static fields
    (`token`, `tokenExpiry`), reused while it is unexpired and refreshed by a
    login otherwise, and the API methods, each of which authenticates first
    and then sends one request carrying the token as a bearer credential
    (section 2.1 of RFC 6750). The clock and the HTTP replies are parameters. */
module Shipping {
  import opened JsText

  /** SHIPROCKET_EMAIL and SHIPROCKET_PASSWORD. */
  datatype ShipEnv = ShipEnv(email: Option<string>, password: Option<string>)

  /** The cached login: `token` (null is `None`) and `tokenExpiry` in ms. */
  datatype Session = Session(token: Option<string>, tokenExpiry: int)

  const InitialSession := Session(None, 0)

  /** Ten hours in milliseconds. */
  const TokenLifetime := 10 * 60 * 60 * 1000

  /** What the login request ended in; `token` is the reply's `token` field. */
  datatype LoginReply = LoginThrew(message: string) | LoginHttpError(status: int) | LoginOk(token: Option<string>)

  datatype AuthResult = Authenticated(token: string) | AuthFailed(message: string)

  /** The result of `authenticate`, the session after it, and whether it sent a login request. */
  datatype AuthStep = AuthStep(result: AuthResult, session: Session, loggedIn: bool)

  const CredentialsMissing := "Shiprocket credentials not configured"

  predicate Configured(env: ShipEnv) {
    Present(env.email) && Present(env.password)
  }

  /** `this.token && Date.now() < this.tokenExpiry` */
  predicate Fresh(s: Session, now: int) {
    Present(s.token) && now < s.tokenExpiry
  }

  /** A template string's rendering of a token that may be absent. */
  function TokenText(t: Option<string>): string {
    if t.Some? then t.value else "undefined"
  }

  /** `authenticate`: every failure is rethrown as "Authentication failed: "
      followed by the inner message. */
  function Authentication(s: Session, now: int, env: ShipEnv, reply: LoginReply): (a: AuthStep)
    ensures Fresh(s, now) ==> a == AuthStep(Authenticated(s.token.value), s, false)
    ensures a.loggedIn <==> !Fresh(s, now) && Configured(env)
    ensures !Fresh(s, now) && !Configured(env) ==>
      a == AuthStep(AuthFailed("Authentication failed: " + CredentialsMissing), s, false)
    ensures a.result.AuthFailed? ==> a.session == s
    ensures a.loggedIn && reply.LoginOk? ==>
      a.session == Session(reply.token, now + TokenLifetime) && a.result == Authenticated(TokenText(reply.token))
    ensures a.loggedIn && reply.LoginHttpError? ==>
      a.result == AuthFailed("Authentication failed: Authentication failed: " + IntToString(reply.status))
  {
    if Fresh(s, now) then AuthStep(Authenticated(s.token.value), s, false)
    else if !Present(env.email) || !Present(env.password) then
      AuthStep(AuthFailed("Authentication failed: " + CredentialsMissing), s, false)
    else match reply
      case LoginThrew(m) => AuthStep(AuthFailed("Authentication failed: " + m), s, true)
      case LoginHttpError(status) =>
        AuthStep(AuthFailed("Authentication failed: Authentication failed: " + IntToString(status)), s, true)
      case LoginOk(token) => AuthStep(Authenticated(TokenText(token)), Session(token, now + TokenLifetime), true)
  }

  /** A login that returns a token makes every later call before the expiry
      reuse it, whatever the credentials and whatever the login endpoint
      would answer. */
  lemma LoginIsReusedUntilExpiry(s: Session, now: int, env: ShipEnv, token: string,
                                 later: int, env2: ShipEnv, reply2: LoginReply)
    requires !Fresh(s, now) && Configured(env) && token != ""
    requires later < now + TokenLifetime
    ensures var first := Authentication(s, now, env, LoginOk(Some(token)));
      Authentication(first.session, later, env2, reply2) == AuthStep(Authenticated(token), first.session, false)
  {
  }

  /** Once the expiry has passed, a call with credentials logs in again and
      replaces both fields, or fails and keeps them. */
  lemma ExpiredTokenLogsInAgain(s: Session, now: int, env: ShipEnv, reply: LoginReply)
    requires now >= s.tokenExpiry && Configured(env)
    ensures Authentication(s, now, env, reply).loggedIn
    ensures Authentication(s, now, env, reply).result.Authenticated? ==>
      Authentication(s, now, env, reply).session.tokenExpiry == now + TokenLifetime
    ensures Authentication(s, now, env, reply).result.AuthFailed? ==>
      Authentication(s, now, env, reply).session == s
  {
  }

  // ---------------------------------------------------------------------------
  // API methods
  // ---------------------------------------------------------------------------

  /** The API methods with their arguments; a JSON body is given already serialised. */
  datatype ApiOp =
    | CreateOrder(payload: string)
    | GetOrders(page: int, perPage: int)
    | GetOrderDetails(orderId: string)
    | CancelOrder(payload: string)
    | CheckServiceability(payload: string)
    | AssignAwb(payload: string)
    | TrackOrder(orderId: string)
    | GenerateLabel(payload: string)
    | GetPickupLocations
    | CreateReturn(payload: string)
    | CancelRto(payload: string)
    | GetAccountDetails
    | GetChannels
    | GetManifest(shipmentId: string)

  datatype ApiRequest = ApiRequest(verb: string, path: string, authorization: string, body: Option<string>)

  datatype ApiReply = ApiThrew(message: string) | ApiHttpError(status: int) | ApiOk(json: string)

  datatype ApiResult = ApiSucceeded(json: string) | ApiFailed(message: string)

  /** The result of an API method, the session after it, whether it logged
      in, and the API request it sent, if any. */
  datatype CallStep = CallStep(result: ApiResult, session: Session, loggedIn: bool, sent: Option<ApiRequest>)

  /** The message of the error thrown on a non-OK reply. */
  function InnerPrefix(op: ApiOp): string {
    match op
    case CreateOrder(_) => "Order creation failed"
    case GetOrders(_, _) => "Failed to fetch orders"
    case GetOrderDetails(_) => "Failed to fetch order details"
    case CancelOrder(_) => "Order cancellation failed"
    case CheckServiceability(_) => "Serviceability check failed"
    case AssignAwb(_) => "AWB assignment failed"
    case TrackOrder(_) => "Order tracking failed"
    case GenerateLabel(_) => "Label generation failed"
    case GetPickupLocations => "Failed to fetch pickup locations"
    case CreateReturn(_) => "Return creation failed"
    case CancelRto(_) => "RTO cancellation failed"
    case GetAccountDetails => "Failed to fetch account details"
    case GetChannels => "Failed to fetch channels"
    case GetManifest(_) => "Failed to fetch manifest"
  }

  /** The prefix the method's catch puts before any error. */
  function OuterPrefix(op: ApiOp): string {
    match op
    case CreateOrder(_) => "Failed to create order"
    case GetOrders(_, _) => "Failed to fetch orders"
    case GetOrderDetails(_) => "Failed to fetch order details"
    case CancelOrder(_) => "Failed to cancel order"
    case CheckServiceability(_) => "Failed to check serviceability"
    case AssignAwb(_) => "Failed to assign AWB"
    case TrackOrder(_) => "Failed to track order"
    case GenerateLabel(_) => "Failed to generate label"
    case GetPickupLocations => "Failed to fetch pickup locations"
    case CreateReturn(_) => "Failed to create return"
    case CancelRto(_) => "Failed to cancel RTO"
    case GetAccountDetails => "Failed to fetch account details"
    case GetChannels => "Failed to fetch channels"
    case GetManifest(_) => "Failed to fetch manifest"
  }

  function Verb(op: ApiOp): string {
    match op
    case GetOrders(_, _) => "GET"
    case GetOrderDetails(_) => "GET"
    case TrackOrder(_) => "GET"
    case GetPickupLocations => "GET"
    case GetAccountDetails => "GET"
    case GetChannels => "GET"
    case GetManifest(_) => "GET"
    case _ => "POST"
  }

  function Path(op: ApiOp): string {
    match op
    case CreateOrder(_) => "/v1/external/orders/create/adhoc"
    case GetOrders(page, perPage) => "/v1/external/orders?page=" + IntToString(page) + "&per_page=" + IntToString(perPage)
    case GetOrderDetails(orderId) => "/v1/external/orders/show/" + orderId
    case CancelOrder(_) => "/v1/external/orders/cancel"
    case CheckServiceability(_) => "/v1/external/courier/serviceability"
    case AssignAwb(_) => "/v1/external/courier/assign/awb"
    case TrackOrder(orderId) => "/v1/external/courier/track?order_id=" + orderId
    case GenerateLabel(_) => "/v1/external/courier/generate/label"
    case GetPickupLocations => "/v1/external/settings/company/pickup"
    case CreateReturn(_) => "/v1/external/orders/create/return"
    case CancelRto(_) => "/v1/external/orders/rto/cancel"
    case GetAccountDetails => "/v1/external/account/details"
    case GetChannels => "/v1/external/channels"
    case GetManifest(shipmentId) => "/v1/external/manifests/" + shipmentId
  }

  function Body(op: ApiOp): Option<string> {
    if Verb(op) == "POST" then Some(op.payload) else None
  }

  /** `Bearer ${token}` */
  function Bearer(token: string): string {
    "Bearer " + token
  }

  /** What one API method does: authenticate, then one request. */
  function ApiCall(s: Session, now: int, env: ShipEnv, loginReply: LoginReply, op: ApiOp, reply: ApiReply)
    : (c: CallStep)
    ensures var a := Authentication(s, now, env, loginReply);
      && c.session == a.session && c.loggedIn == a.loggedIn
      && (c.sent.Some? <==> a.result.Authenticated?)
      && (a.result.AuthFailed? ==> c.result == ApiFailed(OuterPrefix(op) + ": " + a.result.message))
      && (a.result.Authenticated? ==>
            c.sent == Some(ApiRequest(Verb(op), Path(op), Bearer(a.result.token), Body(op))))
    ensures c.sent.Some? ==>
      && (reply.ApiOk? ==> c.result == ApiSucceeded(reply.json))
      && (reply.ApiHttpError? ==>
            c.result == ApiFailed(OuterPrefix(op) + ": " + InnerPrefix(op) + ": " + IntToString(reply.status)))
      && (reply.ApiThrew? ==> c.result == ApiFailed(OuterPrefix(op) + ": " + reply.message))
  {
    var a := Authentication(s, now, env, loginReply);
    match a.result
    case AuthFailed(m) => CallStep(ApiFailed(OuterPrefix(op) + ": " + m), a.session, a.loggedIn, None)
    case Authenticated(token) =>
      var request := ApiRequest(Verb(op), Path(op), Bearer(token), Body(op));
      var result := match reply
        case ApiThrew(m) => ApiFailed(OuterPrefix(op) + ": " + m)
        case ApiHttpError(status) => ApiFailed(OuterPrefix(op) + ": " + InnerPrefix(op) + ": " + IntToString(status))
        case ApiOk(json) => ApiSucceeded(json);
      CallStep(result, a.session, a.loggedIn, Some(request))
  }

  /** Any call made while the cached token is fresh sends that token and no login. */
  lemma FreshTokenIsSentAsBearer(s: Session, now: int, env: ShipEnv, loginReply: LoginReply, op: ApiOp, reply: ApiReply)
    requires Fresh(s, now)
    ensures var c := ApiCall(s, now, env, loginReply, op, reply);
      && !c.loggedIn && c.session == s
      && c.sent.Some? && c.sent.value.authorization == "Bearer " + s.token.value
  {
  }

  /** The service's two static fields and the requests it has sent. */
  class ShippingService {
    var token: Option<string>
    var tokenExpiry: int
    /** How many login requests were sent. */
    ghost var logins: nat
    /** The API requests sent, in order. */
    ghost var sent: seq<ApiRequest>

    function CurrentSession(): Session
      reads this
    {
      Session(token, tokenExpiry)
    }

    constructor ()
      ensures CurrentSession() == InitialSession
      ensures logins == 0 && sent == []
    {
      token := None;
      tokenExpiry := 0;
      logins := 0;
      sent := [];
    }

    /** `authenticate` */
    method Authenticate(now: int, env: ShipEnv, reply: LoginReply) returns (r: AuthResult)
      modifies this
      ensures var a := Authentication(old(CurrentSession()), now, env, reply);
        && r == a.result && CurrentSession() == a.session
        && logins == old(logins) + (if a.loggedIn then 1 else 0)
      ensures sent == old(sent)
    {
      if Present(token) && now < tokenExpiry {
        return Authenticated(token.value);
      }
      if !Present(env.email) || !Present(env.password) {
        return AuthFailed("Authentication failed: " + CredentialsMissing);
      }
      logins := logins + 1;
      match reply {
        case LoginThrew(m) =>
          r := AuthFailed("Authentication failed: " + m);
        case LoginHttpError(status) =>
          r := AuthFailed("Authentication failed: Authentication failed: " + IntToString(status));
        case LoginOk(t) =>
          token := t;
          tokenExpiry := now + TokenLifetime;
          r := Authenticated(TokenText(t));
      }
    }

    /** Any of the API methods: authenticate, then send the request. */
    method Call(op: ApiOp, now: int, env: ShipEnv, loginReply: LoginReply, reply: ApiReply) returns (r: ApiResult)
      modifies this
      ensures var c := ApiCall(old(CurrentSession()), now, env, loginReply, op, reply);
        && r == c.result && CurrentSession() == c.session
        && logins == old(logins) + (if c.loggedIn then 1 else 0)
        && sent == old(sent) + (if c.sent.Some? then [c.sent.value] else [])
    {
      var auth := Authenticate(now, env, loginReply);
      if auth.AuthFailed? {
        return ApiFailed(OuterPrefix(op) + ": " + auth.message);
      }
      sent := sent + [ApiRequest(Verb(op), Path(op), Bearer(auth.token), Body(op))];
      match reply {
        case ApiThrew(m) =>
          r := ApiFailed(OuterPrefix(op) + ": " + m);
        case ApiHttpError(status) =>
          r := ApiFailed(OuterPrefix(op) + ": " + InnerPrefix(op) + ": " + IntToString(status));
        case ApiOk(json) =>
          r := ApiSucceeded(json);
      }
    }
  }
}
