/** The server-side client of the payment provider: reading the credentials
    from the environment, creating an order over the provider's REST API,
    checking a payment signature, and fetching a payment with retries.
    The HTTP exchange is an outside outcome given as a parameter; the keyed
    hash (HMAC-SHA256 of RFC 2104, hex-encoded) and the base64 encoding of the
    Basic credentials are functions passed in, since neither is computed here. */
module PaymentGateway {
  import opened JsText

  /** RAZORPAY_KEY_ID, NEXT_PUBLIC_RAZORPAY_KEY_ID and RAZORPAY_KEY_SECRET. */
  datatype ProviderEnv = ProviderEnv(keyId: Option<string>, publicKeyId: Option<string>, keySecret: Option<string>)

  datatype Keys = Keys(keyId: string, keySecret: string)

  datatype EnvCheck = EnvOk(keys: Keys) | EnvMissing(message: string)

  const KeyIdMissing := "RAZORPAY_KEY_ID environment variable is not set"
  const SecretMissing := "RAZORPAY_KEY_SECRET environment variable is not set"

  /** `process.env.RAZORPAY_KEY_ID || process.env.NEXT_PUBLIC_RAZORPAY_KEY_ID` */
  function KeyIdOf(env: ProviderEnv): Option<string> {
    if Present(env.keyId) then env.keyId else env.publicKeyId
  }

  /** `getEnvironmentVariables` */
  function GetEnvironmentVariables(env: ProviderEnv): (r: EnvCheck)
    ensures r.EnvOk? <==> (Present(env.keyId) || Present(env.publicKeyId)) && Present(env.keySecret)
    ensures r.EnvOk? ==> r.keys.keySecret == env.keySecret.value
    ensures r.EnvOk? && Present(env.keyId) ==> r.keys.keyId == env.keyId.value
    ensures r.EnvOk? && !Present(env.keyId) ==> r.keys.keyId == env.publicKeyId.value
    ensures !Present(env.keyId) && !Present(env.publicKeyId) ==> r == EnvMissing(KeyIdMissing)
    ensures (Present(env.keyId) || Present(env.publicKeyId)) && !Present(env.keySecret) ==> r == EnvMissing(SecretMissing)
  {
    var keyId := KeyIdOf(env);
    if !Present(keyId) then EnvMissing(KeyIdMissing)
    else if !Present(env.keySecret) then EnvMissing(SecretMissing)
    else EnvOk(Keys(keyId.value, env.keySecret.value))
  }

  // ---------------------------------------------------------------------------
  // Order creation
  // ---------------------------------------------------------------------------

  /** The `amount` option as it arrives at run time: a number, or some other value. */
  datatype AmountArg = Number(value: int) | NotANumber

  /** The options of `createRazorpayOrder`; a currency or receipt that is not
      a string is `None`. */
  datatype OrderOptions = OrderOptions(amount: AmountArg, currency: Option<string>, receipt: Option<string>,
                                       notes: Option<map<string, string>>)

  /** The JSON body posted to the orders endpoint. */
  datatype OrderBody = OrderBody(amount: int, currency: string, receipt: string,
                                 notes: map<string, string>, paymentCapture: int)

  datatype OrderRequest = OrderRequest(authorization: string, body: OrderBody)

  /** The body of a non-OK reply: text that is not JSON, or the two fields read from it. */
  datatype ErrorBody = Unparseable(text: string) | Parsed(description: Option<string>, message: Option<string>)

  /** What the `fetch` call ended in. */
  datatype HttpOutcome =
    | Failed(name: string, code: string, message: string)   // the call threw: an abort, a socket error, ...
    | HttpError(status: int, statusText: string, body: ErrorBody)
    | HttpOk(id: Option<string>)

  datatype OrderResult = OrderCreated(orderId: string) | OrderFailed(error: string)

  /** The result together with the request that was sent, if one was. */
  datatype OrderCall = OrderCall(result: OrderResult, sent: Option<OrderRequest>)

  const TimeoutError := "Request timeout: Razorpay API took too long to respond"
  const NetworkError := "Network error: Unable to connect to Razorpay"

  /** The message of a non-OK reply: the description, else the message,
      else the status text. */
  function ApiError(status: int, statusText: string, body: ErrorBody): (m: string)
    ensures Take(m, 20) == "Razorpay API Error ("
    ensures var head := "Razorpay API Error (" + IntToString(status) + "): ";
      && (body.Parsed? && Present(body.description) ==> m == head + body.description.value)
      && (body.Parsed? && !Present(body.description) && Present(body.message) ==> m == head + body.message.value)
      && (body.Parsed? && !Present(body.description) && !Present(body.message) ==> m == head + statusText)
      && (body.Unparseable? && body.text != "" ==> m == head + body.text)
      && (body.Unparseable? && body.text == "" ==> m == head + statusText)
  {
    var detail := match body
      case Unparseable(text) => if text != "" then text else statusText
      case Parsed(description, message) => OrElse(description, OrElse(message, statusText));
    "Razorpay API Error (" + IntToString(status) + "): " + detail
  }

  /** The catch of `createRazorpayOrder`. */
  function Caught(name: string, code: string, message: string): (m: string)
    ensures name == "AbortError" ==> m == TimeoutError
    ensures name != "AbortError" && (code == "ENOTFOUND" || code == "ECONNREFUSED") ==> m == NetworkError
    ensures name != "AbortError" && code != "ENOTFOUND" && code != "ECONNREFUSED" ==>
      m == if message != "" then message else "Unknown Razorpay error"
  {
    if name == "AbortError" then TimeoutError
    else if code == "ENOTFOUND" || code == "ECONNREFUSED" then NetworkError
    else if message != "" then message
    else "Unknown Razorpay error"
  }

  /** Why the options are refused, checked after the credentials, in the
      source's order. */
  function OptionsError(options: OrderOptions): (e: Option<string>)
    ensures e.None? <==>
      options.amount.Number? && options.amount.value > 0 && Present(options.currency) && Present(options.receipt)
  {
    if !options.amount.Number? || options.amount.value <= 0 then Some("Invalid amount: must be positive number")
    else if !Present(options.currency) then Some("Currency is required")
    else if !Present(options.receipt) then Some("Receipt is required")
    else None
  }

  function Body(options: OrderOptions): OrderBody
    requires OptionsError(options).None?
  {
    OrderBody(options.amount.value, options.currency.value, options.receipt.value,
              if options.notes.Some? then options.notes.value else map[], 1)
  }

  /** `createRazorpayOrder`: every failure, thrown or not, comes back as
      `OrderFailed`. `base64` encodes the Basic credentials. */
  function CreateRazorpayOrder(env: ProviderEnv, options: OrderOptions, base64: string -> string, reply: HttpOutcome)
    : (c: OrderCall)
    ensures c.sent.Some? <==> GetEnvironmentVariables(env).EnvOk? && OptionsError(options).None?
    ensures GetEnvironmentVariables(env).EnvMissing? ==> c.result == OrderFailed(GetEnvironmentVariables(env).message)
    ensures GetEnvironmentVariables(env).EnvOk? && OptionsError(options).Some? ==>
      c.result == OrderFailed(OptionsError(options).value)
    ensures c.sent.Some? ==>
      && c.sent.value.body == OrderBody(options.amount.value, options.currency.value, options.receipt.value,
                                        if options.notes.Some? then options.notes.value else map[], 1)
      && c.sent.value.authorization ==
           "Basic " + base64(GetEnvironmentVariables(env).keys.keyId + ":" + GetEnvironmentVariables(env).keys.keySecret)
    ensures c.result.OrderCreated? <==> c.sent.Some? && reply.HttpOk? && Present(reply.id)
    ensures c.result.OrderCreated? ==> c.result.orderId == reply.id.value
    ensures c.sent.Some? && reply.HttpError? ==>
      c.result == OrderFailed(ApiError(reply.status, reply.statusText, reply.body))
    ensures c.sent.Some? && reply.Failed? ==>
      c.result == OrderFailed(Caught(reply.name, reply.code, reply.message))
  {
    match GetEnvironmentVariables(env)
    case EnvMissing(m) => OrderCall(OrderFailed(Caught("Error", "", m)), None)
    case EnvOk(keys) =>
      match OptionsError(options)
      case Some(m) => OrderCall(OrderFailed(Caught("Error", "", m)), None)
      case None =>
        var request := OrderRequest("Basic " + base64(keys.keyId + ":" + keys.keySecret), Body(options));
        var result := match reply
          case Failed(name, code, message) => OrderFailed(Caught(name, code, message))
          case HttpError(status, statusText, body) => OrderFailed(Caught("Error", "", ApiError(status, statusText, body)))
          case HttpOk(id) =>
            if Present(id) then OrderCreated(id.value)
            else OrderFailed(Caught("Error", "", "Invalid order response from Razorpay"));
        OrderCall(result, Some(request))
  }

  // ---------------------------------------------------------------------------
  // Signature check
  // ---------------------------------------------------------------------------

  /** The message the provider signs: order id, '|', payment id. */
  function SignedMessage(orderId: string, paymentId: string): string {
    orderId + "|" + paymentId
  }

  /** `verifyRazorpaySignature`. `hmacHex(key, message)` is the hex digest of
      HMAC-SHA256; any exception makes the check false. */
  function VerifyRazorpaySignature(env: ProviderEnv, hmacHex: (string, string) -> string,
                                   orderId: string, paymentId: string, signature: string): (ok: bool)
    ensures ok <==>
      && orderId != "" && paymentId != "" && signature != ""
      && GetEnvironmentVariables(env).EnvOk?
      && signature == hmacHex(env.keySecret.value, SignedMessage(orderId, paymentId))
  {
    if orderId == "" || paymentId == "" || signature == "" then false
    else match GetEnvironmentVariables(env)
      case EnvMissing(_) => false
      case EnvOk(keys) => hmacHex(keys.keySecret, SignedMessage(orderId, paymentId)) == signature
  }

  /** A signature produced with the configured secret over the pair is accepted. */
  lemma SignedPairVerifies(env: ProviderEnv, hmacHex: (string, string) -> string, orderId: string, paymentId: string)
    requires GetEnvironmentVariables(env).EnvOk? && orderId != "" && paymentId != ""
    requires hmacHex(env.keySecret.value, SignedMessage(orderId, paymentId)) != ""
    ensures VerifyRazorpaySignature(env, hmacHex, orderId, paymentId,
                                    hmacHex(env.keySecret.value, SignedMessage(orderId, paymentId)))
  {
  }

  /** When order ids carry no '|', the signed message determines the pair, so
      one signature cannot be replayed for another order and payment unless the
      hash itself collides. */
  lemma {:induction false} SignedMessageDeterminesPair(o1: string, p1: string, o2: string, p2: string)
    requires '|' !in o1 && '|' !in o2
    requires SignedMessage(o1, p1) == SignedMessage(o2, p2)
    ensures o1 == o2 && p1 == p2
  {
    var m := SignedMessage(o1, p1);
    assert m[|o1|] == '|';
    assert m[|o2|] == '|';
    if |o1| < |o2| {
      assert false;
    } else if |o2| < |o1| {
      assert false;
    }
    assert o1 == m[..|o1|] == o2;
    assert p1 == m[|o1| + 1..] == p2;
  }

  // ---------------------------------------------------------------------------
  // Fetching a payment
  // ---------------------------------------------------------------------------

  /** What one fetch attempt produced, once the credentials were read. */
  datatype FetchReply =
    | FetchThrew(message: string)
    | FetchHttpError(status: int, statusText: string, description: Option<string>, bodyMessage: Option<string>)
    | FetchOk(payment: string)

  datatype FetchResult = PaymentFetched(payment: string) | FetchFailed(error: string)

  const FetchDefault := "Failed to fetch payment details"
  const AfterRetries := "Failed to fetch payment details after retries"

  /** One attempt: the credentials are read inside the `try`, so missing
      credentials make every attempt fail with that message. */
  function AttemptResult(env: ProviderEnv, reply: FetchReply): (r: FetchResult)
    ensures r.PaymentFetched? <==> GetEnvironmentVariables(env).EnvOk? && reply.FetchOk?
    ensures r.FetchFailed? ==> r.error != ""
  {
    match GetEnvironmentVariables(env)
    case EnvMissing(m) => FetchFailed(m)
    case EnvOk(_) =>
      match reply
      case FetchThrew(m) => FetchFailed(if m != "" then m else FetchDefault)
      case FetchHttpError(status, statusText, description, bodyMessage) =>
        FetchFailed(ApiError(status, statusText, Parsed(description, bodyMessage)))
      case FetchOk(payment) => PaymentFetched(payment)
  }

  /** The first attempt number in [from, to] that fetched the payment, or the
      first number past the range. */
  function FirstFetched(env: ProviderEnv, replies: nat -> FetchReply, from: nat, to: int): (k: nat)
    decreases to - from
    ensures from <= k
    ensures k <= to ==> AttemptResult(env, replies(k)).PaymentFetched?
    ensures forall j | from <= j < k && j <= to :: AttemptResult(env, replies(j)).FetchFailed?
    ensures k > to ==> k == if from <= to then to + 1 else from
  {
    if from > to then from
    else if AttemptResult(env, replies(from)).PaymentFetched? then from
    else FirstFetched(env, replies, from + 1, to)
  }

  lemma {:induction false} FirstFetchedIsLeast(env: ProviderEnv, replies: nat -> FetchReply, from: nat, to: int, k: nat)
    requires from <= k <= to && AttemptResult(env, replies(k)).PaymentFetched?
    requires forall j | from <= j < k :: AttemptResult(env, replies(j)).FetchFailed?
    ensures FirstFetched(env, replies, from, to) == k
    decreases k - from
  {
    if from < k {
      FirstFetchedIsLeast(env, replies, from + 1, to, k);
    }
  }

  /** The waits after attempts 1 .. n: 1000 * k ms after attempt k. */
  function LinearBackoff(n: nat): (d: seq<nat>)
    ensures |d| == n
    ensures forall i | 0 <= i < n :: d[i] == 1000 * (i + 1)
  {
    seq(n, i requires 0 <= i < n => 1000 * (i + 1))
  }

  /** `fetchPaymentDetails`: at most `retries` attempts, a linear wait
      between them, and a failure value instead of a throw at the end. */
  method FetchPaymentDetails(env: ProviderEnv, retries: int, replies: nat -> FetchReply)
    returns (r: FetchResult, ghost attempts: nat, ghost delays: seq<nat>)
    ensures retries <= 0 ==> r == FetchFailed(AfterRetries) && attempts == 0 && delays == []
    ensures retries >= 1 ==>
      && (r.PaymentFetched? <==> exists k | 1 <= k <= retries :: AttemptResult(env, replies(k)).PaymentFetched?)
      && attempts == (if FirstFetched(env, replies, 1, retries) <= retries then FirstFetched(env, replies, 1, retries) else retries)
      && r == AttemptResult(env, replies(attempts))
      && delays == LinearBackoff(attempts - 1)
  {
    attempts := 0;
    delays := [];
    var attempt := 1;
    while attempt <= retries
      invariant 1 <= attempt && (retries >= 1 ==> attempt <= retries) && (retries <= 0 ==> attempt == 1)
      invariant attempts == attempt - 1
      invariant forall j | 1 <= j < attempt :: AttemptResult(env, replies(j)).FetchFailed?
      invariant delays == LinearBackoff(attempt - 1)
      decreases retries - attempt
    {
      attempts := attempts + 1;
      var result := AttemptResult(env, replies(attempt));
      if result.PaymentFetched? {
        FirstFetchedIsLeast(env, replies, 1, retries, attempt);
        return result, attempts, delays;
      }
      if attempt == retries {
        assert FirstFetched(env, replies, 1, retries) == retries + 1;
        return result, attempts, delays;
      }
      delays := delays + [1000 * attempt];
      attempt := attempt + 1;
    }
    r := FetchFailed(AfterRetries);
  }
}
