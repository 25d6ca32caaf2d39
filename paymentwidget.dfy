/** The client-side payment service of the storefront: loads the provider's
    checkout script, fetches the public key, validates the payment options,
    opens the provider's widget and routes the widget's events to the caller's
    `onSuccess` / `onError` callbacks. Loading the script, the configuration
    request and the widget itself are outside; their outcomes are parameters. */
module PaymentWidget {
  import opened JsText

  datatype PaymentOptions = PaymentOptions(
    amount: int,          // whole rupees
    currency: string,
    orderId: string,
    customerName: string,
    customerEmail: string,
    customerPhone: string)

  /** What the request for the public key produced. */
  datatype ConfigReply =
    | ConfigHttpError                        // response not OK
    | ConfigRejected(error: Option<string>)  // OK, but `success` is false
    | ConfigThrew                            // the request itself failed
    | ConfigOk(keyId: string)

  /** The fields the widget's success handler receives. */
  datatype HandlerResponse = HandlerResponse(
    paymentId: Option<string>, orderId: Option<string>, signature: Option<string>)

  /** An event the opened widget reports. With the provider's retry enabled,
      a failure can be followed by a later success; each is one event. */
  datatype WidgetEvent =
    | Completed(response: HandlerResponse)
    | Dismissed
    | ProviderFailed(description: Option<string>)

  /** The verification triple handed to `onSuccess`. */
  datatype PaymentTriple = PaymentTriple(orderId: string, paymentId: string, signature: string)

  /** Which callback the service invoked, and with what. */
  datatype Callback =
    | OnSuccess(triple: PaymentTriple)
    | OnError(error: string, description: string)

  /** The options the widget is opened with. */
  datatype WidgetConfig = WidgetConfig(key: string, amountPaise: int, currency: string, orderId: string)

  datatype Initiation = Initiation(widget: Option<WidgetConfig>, callback: Callback)

  const ScriptError := "Failed to load Razorpay SDK. Please check your internet connection and try again."
  const ConfigError := "Unable to load payment configuration"

  /** `handler`, `modal.ondismiss` and the `payment.failed` listener. */
  function Dispatch(event: WidgetEvent): (c: Callback)
    ensures event.Completed? ==>
      (c.OnSuccess? <==>
        Present(event.response.paymentId) && Present(event.response.orderId) && Present(event.response.signature))
    ensures c.OnSuccess? ==> event.Completed? && c.triple == PaymentTriple(
      event.response.orderId.value, event.response.paymentId.value, event.response.signature.value)
    ensures event.Completed? && c.OnError? ==>
      c == OnError("Invalid payment response", "Payment response is missing required fields")
    ensures event.Dismissed? ==> c == OnError("Payment cancelled", "Payment was cancelled by user")
    ensures event.ProviderFailed? ==>
      c == OnError("Payment failed", OrElse(event.description, "Payment could not be processed"))
  {
    match event
    case Completed(r) =>
      if Present(r.paymentId) && Present(r.orderId) && Present(r.signature) then
        OnSuccess(PaymentTriple(r.orderId.value, r.paymentId.value, r.signature.value))
      else
        OnError("Invalid payment response", "Payment response is missing required fields")
    case Dismissed => OnError("Payment cancelled", "Payment was cancelled by user")
    case ProviderFailed(d) => OnError("Payment failed", OrElse(d, "Payment could not be processed"))
  }

  /** The reason a setup step threw, or None when the widget can be opened. */
  function SetupError(options: PaymentOptions, scriptLoaded: bool, config: ConfigReply): (e: Option<string>)
    ensures e.None? <==> scriptLoaded && config.ConfigOk? && options.amount > 0 && options.orderId != ""
    ensures !scriptLoaded ==> e == Some(ScriptError)
    ensures scriptLoaded && !config.ConfigOk? ==> e == Some(ConfigError)
    ensures scriptLoaded && config.ConfigOk? && options.amount <= 0 ==> e == Some("Invalid payment amount")
    ensures scriptLoaded && config.ConfigOk? && options.amount > 0 && options.orderId == "" ==>
      e == Some("Order ID is required")
  {
    if !scriptLoaded then Some(ScriptError)
    else if !config.ConfigOk? then Some(ConfigError)
    else if options.amount <= 0 then Some("Invalid payment amount")
    else if options.orderId == "" then Some("Order ID is required")
    else None
  }

  /** `PaymentService.initiatePayment`: never throws to its caller; every
      failure reaches `onError`. */
  function InitiatePayment(options: PaymentOptions, scriptLoaded: bool, config: ConfigReply, event: WidgetEvent)
    : (r: Initiation)
    ensures r.widget.Some? <==> SetupError(options, scriptLoaded, config).None?
    ensures r.widget.None? ==>
      r.callback == OnError("Payment setup failed", SetupError(options, scriptLoaded, config).value)
    ensures r.widget.Some? ==>
      && r.widget.value.amountPaise == options.amount * 100
      && r.widget.value.key == config.keyId
      && r.widget.value.orderId == options.orderId
      && r.widget.value.currency == options.currency
      && r.callback == Dispatch(event)
  {
    match SetupError(options, scriptLoaded, config)
    case Some(reason) => Initiation(None, OnError("Payment setup failed", reason))
    case None =>
      Initiation(Some(WidgetConfig(config.keyId, options.amount * 100, options.currency, options.orderId)),
                 Dispatch(event))
  }
}
