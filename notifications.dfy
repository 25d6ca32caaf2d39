/** The notification service: it maps the mail sender's and the admin
    endpoint's results to `{success, error?, method?}` objects, runs the
    composite flows (a customer email first, then an admin notice, the flow
    succeeding only when both did), picks the status-update texts from a fixed
    table, and decides which optional sections an email carries. The HTML
    markup and the admin notice bodies are not modelled; what each message is
    (recipient, subject, kind) and which sections it holds are. */
module Notifications {
  import opened JsText
  import Mailer

  /** What an awaited call settled into: a value, or a thrown error's message. */
  datatype Settled<T> = Resolved(value: T) | Rejected(message: string)

  /** The object the customer path resolves to; `via` is the `method` key. */
  datatype CustomerResult = CustomerResult(success: bool, error: Option<string>, via: Option<string>)

  /** The object the admin path resolves to. */
  datatype AdminResult = AdminResult(success: bool, error: Option<string>)

  /** `sendCustomerEmail`: the mail sender's report becomes `{success, method}`
      or `{success: false, error}`; a thrown error becomes its message. */
  function SendCustomerEmail(sent: Settled<Mailer.SafeResult>): (r: CustomerResult)
    ensures r.success <==> sent.Resolved? && sent.value.success
    ensures r.success ==> r.error == None && r.via == sent.value.via
    ensures sent.Resolved? && !sent.value.success ==> r.error == sent.value.error && r.via == None
    ensures sent.Rejected? ==> r.error == Some(sent.message) && r.via == None
  {
    match sent
    case Rejected(m) => CustomerResult(false, Some(m), None)
    case Resolved(s) =>
      if s.success then CustomerResult(true, None, s.via) else CustomerResult(false, s.error, None)
  }

  /** A report of the mail sender in which success and a named transport go
      together, as the sender guarantees. */
  predicate WellFormed(s: Mailer.SafeResult) {
    s.success <==> s.via.Some?
  }

  /** A successful customer result always names the transport that carried
      the email, and a failed one never does. */
  lemma CustomerResultNamesTransport(sent: Settled<Mailer.SafeResult>)
    requires sent.Resolved? ==> WellFormed(sent.value)
    ensures SendCustomerEmail(sent).success <==> SendCustomerEmail(sent).via.Some?
    ensures SendCustomerEmail(sent).success ==> SendCustomerEmail(sent).error.None?
  {
  }

  /** `sendAdminNotification`: success keeps no error; a failure keeps the
      endpoint's error; a thrown error becomes its message. */
  function SendAdminNotification(sent: Settled<AdminResult>): (r: AdminResult)
    ensures r.success <==> sent.Resolved? && sent.value.success
    ensures r.success ==> r.error == None
    ensures sent.Resolved? && !sent.value.success ==> r.error == sent.value.error
    ensures sent.Rejected? ==> r.error == Some(sent.message)
  {
    match sent
    case Rejected(m) => AdminResult(false, Some(m))
    case Resolved(a) => if a.success then AdminResult(true, None) else AdminResult(false, a.error)
  }

  // ---------------------------------------------------------------------------
  // Composite flows
  // ---------------------------------------------------------------------------

  /** A message the service hands on: an email to the customer through the
      mail sender, or a notice to the admin endpoint. */
  datatype Message =
    | CustomerEmail(to: string, subject: string, kind: string)
    | AdminNotice(kind: string, subject: string)

  /** What a composite flow resolves to. */
  datatype FlowResult = FlowResult(success: bool, customerEmail: CustomerResult, adminNotification: AdminResult)

  /** A flow's result with the messages it handed on, in order. */
  datatype FlowRun = FlowRun(result: FlowResult, sent: seq<Message>)

  /** The shape every composite flow shares: the customer email is sent and
      awaited, then the admin notice is sent whatever the email's outcome, and
      the flow succeeds only when both did. */
  function Flow(email: Message, emailSent: Settled<Mailer.SafeResult>, notice: Message, admin: AdminResult)
    : (run: FlowRun)
    requires email.CustomerEmail? && notice.AdminNotice?
    ensures run.sent == [email, notice]
    ensures run.result.customerEmail == SendCustomerEmail(emailSent)
    ensures run.result.adminNotification == admin
    ensures run.result.success <==> emailSent.Resolved? && emailSent.value.success && admin.success
  {
    var customer := SendCustomerEmail(emailSent);
    FlowRun(FlowResult(customer.success && admin.success, customer, admin), [email, notice])
  }

  const ContactSubject := "Message Received - SPARSH Natural Hair Care"

  /** `sendContactMessage`. */
  function ContactMessage(name: string, email: string, emailSent: Settled<Mailer.SafeResult>, admin: AdminResult)
    : (run: FlowRun)
    ensures |run.sent| == 2
    ensures run.sent[0] == CustomerEmail(email, ContactSubject, "contact_confirmation")
    ensures run.sent[1].kind == "contact_message"
    ensures run.result.success <==> emailSent.Resolved? && emailSent.value.success && admin.success
  {
    Flow(CustomerEmail(email, ContactSubject, "contact_confirmation"), emailSent,
         AdminNotice("contact_message", "\U{1F4AC} New Contact Message from " + name), admin)
  }

  const WelcomeSubject := "Welcome to SPARSH Natural Hair Care - Account Created!"

  /** `sendSignupConfirmation`; the admin subject names the user by full name,
      or by email when no full name was given. */
  function SignupConfirmation(email: string, fullName: Option<string>, emailSent: Settled<Mailer.SafeResult>,
                              admin: AdminResult): (run: FlowRun)
    ensures |run.sent| == 2
    ensures run.sent[0] == CustomerEmail(email, WelcomeSubject, "signup_confirmation")
    ensures run.sent[1] == AdminNotice("new_signup", "\U{1F464} New User Signup - " + OrElse(fullName, email))
    ensures run.result.success <==> emailSent.Resolved? && emailSent.value.success && admin.success
  {
    Flow(CustomerEmail(email, WelcomeSubject, "signup_confirmation"), emailSent,
         AdminNotice("new_signup", "\U{1F464} New User Signup - " + OrElse(fullName, email)), admin)
  }

  // ---------------------------------------------------------------------------
  // Order confirmation
  // ---------------------------------------------------------------------------

  /** The customer subject names the order by the first 8 characters of its id. */
  function ConfirmationSubject(orderId: string): string {
    "Order Confirmation #" + Take(orderId, 8) + " - SPARSH Natural Hair Care"
  }

  /** The download button is included only when an invoice URL is present. */
  datatype OrderSection = InvoiceButton(url: string)

  function ConfirmationSections(invoiceUrl: Option<string>): (s: seq<OrderSection>)
    ensures |s| <= 1
    ensures s != [] <==> Present(invoiceUrl)
    ensures s != [] ==> s[0].url == invoiceUrl.value
  {
    if Present(invoiceUrl) then [InvoiceButton(invoiceUrl.value)] else []
  }

  /** `sendOrderConfirmation`: a customer email only, no admin notice. */
  function OrderConfirmation(orderId: string, to: string, emailSent: Settled<Mailer.SafeResult>)
    : (r: (CustomerResult, Message))
    ensures r.1 == CustomerEmail(to, ConfirmationSubject(orderId), "order_confirmation")
    ensures r.0 == SendCustomerEmail(emailSent)
  {
    (SendCustomerEmail(emailSent), CustomerEmail(to, ConfirmationSubject(orderId), "order_confirmation"))
  }

  /** Two texts built as `before + x + after` from the same fixed parts agree
      exactly when the middles agree. */
  lemma {:induction false} MiddleDetermined(before: string, x: string, y: string, after: string)
    ensures before + x + after == before + y + after <==> x == y
  {
    if before + x + after == before + y + after {
      var t := before + x + after;
      assert |x| == |y|;
      assert x == t[|before|..|before| + |x|];
      assert y == t[|before|..|before| + |y|];
    }
  }

  /** Orders whose ids share their first 8 characters get the same
      confirmation subject, and only those do. */
  lemma ConfirmationSubjectSeesPrefix(a: string, b: string)
    ensures ConfirmationSubject(a) == ConfirmationSubject(b) <==> Take(a, 8) == Take(b, 8)
  {
    MiddleDetermined("Order Confirmation #", Take(a, 8), Take(b, 8), " - SPARSH Natural Hair Care");
  }

  // ---------------------------------------------------------------------------
  // Return request
  // ---------------------------------------------------------------------------

  datatype ReturnDetails = ReturnDetails(
    orderId: string,
    customerName: string,
    customerEmail: string,
    refundAmount: Option<int>,
    refundPercentage: Option<int>,
    photoUrls: Option<seq<string>>)

  /** The optional blocks of the customer's return email. */
  datatype ReturnSection = PhotoGallery(urls: seq<string>) | ExpectedRefund(amount: int, percentage: Option<int>)

  function Photos(d: ReturnDetails): seq<string> {
    if d.photoUrls.Some? then d.photoUrls.value else []
  }

  /** A number is truthy unless it is absent or zero. */
  predicate Truthy(n: Option<int>) {
    n.Some? && n.value != 0
  }

  /** The refund block only when a refund amount is truthy, then the photo
      block only when photos were uploaded; the percentage is printed as
      given. */
  function ReturnSections(d: ReturnDetails): (s: seq<ReturnSection>)
    ensures |s| == (if Truthy(d.refundAmount) then 1 else 0) + (if |Photos(d)| > 0 then 1 else 0)
    ensures |s| == 2 ==> s[0].ExpectedRefund? && s[1].PhotoGallery?
    ensures |Photos(d)| > 0 <==> PhotoGallery(Photos(d)) in s
    ensures Truthy(d.refundAmount) ==> ExpectedRefund(d.refundAmount.value, d.refundPercentage) in s
    ensures forall x | x in s :: x.PhotoGallery? ==> x.urls == Photos(d)
    ensures forall x | x in s :: x.ExpectedRefund? ==>
      Truthy(d.refundAmount) && x.amount == d.refundAmount.value && x.percentage == d.refundPercentage
  {
    (if Truthy(d.refundAmount) then [ExpectedRefund(d.refundAmount.value, d.refundPercentage)] else [])
    + (if |Photos(d)| > 0 then [PhotoGallery(Photos(d))] else [])
  }

  /** The photo lines of the admin notice: empty without photos. */
  function PhotoInfo(d: ReturnDetails): (s: string)
    ensures s == "" <==> |Photos(d)| == 0
  {
    if |Photos(d)| > 0 then
      "\n\U{1F4F8} Photos uploaded: " + IntToString(|Photos(d)|) + " images\nPhoto URLs: " + Join(Photos(d), ", ")
    else ""
  }

  /** The amount in the admin notice's "Expected Refund" line: "TBD" only when
      no amount was given (an amount of 0 is still printed). */
  function RefundAmountText(amount: Option<int>): (s: string)
    ensures s == "TBD" <==> amount.None?
  {
    if amount.Some? then IntToString(amount.value) else "TBD"
  }

  /** The percentage in that line: 60 when absent or zero. */
  function RefundPercentageShown(p: Option<int>): (n: int)
    ensures Truthy(p) ==> n == p.value
    ensures !Truthy(p) ==> n == 60
    ensures n != 0
  {
    if Truthy(p) then p.value else 60
  }

  /** The admin notice's refund line, after its "- Expected Refund: " label. */
  function RefundLine(d: ReturnDetails): string {
    "\U{20B9}" + RefundAmountText(d.refundAmount) + " (" + IntToString(RefundPercentageShown(d.refundPercentage)) + "%)"
  }

  /** The number of photos recorded in the notice's metadata. */
  function PhotoCount(d: ReturnDetails): (n: nat)
    ensures n == |Photos(d)|
  {
    if d.photoUrls.Some? then |d.photoUrls.value| else 0
  }

  const ReturnSubject := "Return Request Received - SPARSH Natural Hair Care"

  /** `sendReturnRequest`. */
  function ReturnRequest(d: ReturnDetails, emailSent: Settled<Mailer.SafeResult>, admin: AdminResult): (run: FlowRun)
    ensures |run.sent| == 2
    ensures run.sent[0] == CustomerEmail(d.customerEmail, ReturnSubject, "return_confirmation")
    ensures run.sent[1] == AdminNotice("return_request",
      "\U{1F504} Return Request from " + d.customerName + " - Order #" + d.orderId)
    ensures run.result.success <==> emailSent.Resolved? && emailSent.value.success && admin.success
  {
    Flow(CustomerEmail(d.customerEmail, ReturnSubject, "return_confirmation"), emailSent,
         AdminNotice("return_request", "\U{1F504} Return Request from " + d.customerName + " - Order #" + d.orderId),
         admin)
  }

  /** A return with a zero refund amount shows no refund block to the
      customer, while the admin notice still prints the amount 0, not "TBD". */
  lemma ZeroRefundIsPrintedButNotShown(d: ReturnDetails)
    requires d.refundAmount == Some(0)
    ensures forall x | x in ReturnSections(d) :: !x.ExpectedRefund?
    ensures RefundAmountText(d.refundAmount) == "0"
  {
  }

  // ---------------------------------------------------------------------------
  // Status update
  // ---------------------------------------------------------------------------

  datatype StatusInfo = StatusInfo(title: string, message: string, color: string, icon: string)

  const DefaultIcon := "\U{1F4CB}"

  /** The fixed table of status texts, keyed by the new status. */
  function StatusTable(newStatus: string): Option<StatusInfo> {
    if newStatus == "shipped" then
      Some(StatusInfo("\U{1F4E6} Your Order Has Been Shipped!", "Great news! Your order is on its way to you.",
                      "#8b5cf6", "\U{1F69A}"))
    else if newStatus == "delivered" then
      Some(StatusInfo("\U{2705} Your Order Has Been Delivered!",
                      "Your order has been successfully delivered. We hope you love your SPARSH products!",
                      "#10b981", "\U{1F4E6}"))
    else if newStatus == "cancelled" then
      Some(StatusInfo("\U{274C} Your Order Has Been Cancelled",
                      "Your order has been cancelled. If you have any questions, please contact our support team.",
                      "#ef4444", "\U{1F6AB}"))
    else None
  }

  predicate Listed(newStatus: string) {
    newStatus == "shipped" || newStatus == "delivered" || newStatus == "cancelled"
  }

  /** The table entry for the status, or the default that names the status. */
  function StatusInfoFor(newStatus: string): (i: StatusInfo)
    ensures Listed(newStatus) ==> Some(i) == StatusTable(newStatus)
    ensures !Listed(newStatus) ==>
      i == StatusInfo("\U{1F4CB} Order Status Updated", "Your order status has been updated to: " + newStatus,
                      "#6b7280", DefaultIcon)
  {
    match StatusTable(newStatus)
    case Some(info) => info
    case None => StatusInfo("\U{1F4CB} Order Status Updated", "Your order status has been updated to: " + newStatus,
                            "#6b7280", DefaultIcon)
  }

  /** The default icon marks exactly the statuses outside the table, and the
      default message tells those statuses apart. */
  lemma DefaultMarksUnlistedStatus(s: string, t: string)
    ensures StatusInfoFor(s).icon == DefaultIcon <==> !Listed(s)
    ensures !Listed(s) && !Listed(t) && StatusInfoFor(s).message == StatusInfoFor(t).message ==> s == t
  {
    if !Listed(s) && !Listed(t) && StatusInfoFor(s).message == StatusInfoFor(t).message {
      MiddleDetermined("Your order status has been updated to: ", s, t, "");
    }
  }

  /** The customer subject: the status icon, then the first 8 characters of
      the order id. */
  function StatusSubject(orderId: string, newStatus: string): string {
    StatusInfoFor(newStatus).icon + " Order Status Update - " + Take(orderId, 8) + " - SPARSH"
  }

  /** The admin subject: the first 8 characters of the order id and the new status. */
  function StatusNoticeSubject(orderId: string, newStatus: string): string {
    "\U{1F4CB} Order Status Updated: " + Take(orderId, 8) + " \U{2192} " + newStatus
  }

  /** Order ids that share their first 8 characters give the same customer
      status subject, and only those do. */
  lemma StatusSubjectSeesPrefix(a: string, b: string, newStatus: string)
    ensures StatusSubject(a, newStatus) == StatusSubject(b, newStatus) <==> Take(a, 8) == Take(b, 8)
  {
    var before := StatusInfoFor(newStatus).icon + " Order Status Update - ";
    assert StatusSubject(a, newStatus) == before + Take(a, 8) + " - SPARSH";
    assert StatusSubject(b, newStatus) == before + Take(b, 8) + " - SPARSH";
    MiddleDetermined(before, Take(a, 8), Take(b, 8), " - SPARSH");
  }

  /** The same for the admin subject. */
  lemma NoticeSubjectSeesPrefix(a: string, b: string, newStatus: string)
    ensures StatusNoticeSubject(a, newStatus) == StatusNoticeSubject(b, newStatus) <==> Take(a, 8) == Take(b, 8)
  {
    var before, after := "\U{1F4CB} Order Status Updated: ", " \U{2192} " + newStatus;
    assert StatusNoticeSubject(a, newStatus) == before + Take(a, 8) + after;
    assert StatusNoticeSubject(b, newStatus) == before + Take(b, 8) + after;
    MiddleDetermined(before, Take(a, 8), Take(b, 8), after);
  }

  datatype OrderItem = OrderItem(productName: string, quantity: int, productPrice: int)

  /** The items block appears only when the update lists some items. */
  function StatusSections(orderItems: Option<seq<OrderItem>>): (s: seq<seq<OrderItem>>)
    ensures s != [] <==> orderItems.Some? && |orderItems.value| > 0
    ensures s != [] ==> s == [orderItems.value]
  {
    if orderItems.Some? && |orderItems.value| > 0 then [orderItems.value] else []
  }

  /** `sendStatusUpdateNotification`. */
  function StatusUpdate(orderId: string, customerEmail: string, newStatus: string,
                        emailSent: Settled<Mailer.SafeResult>, admin: AdminResult): (run: FlowRun)
    ensures |run.sent| == 2
    ensures run.sent[0] == CustomerEmail(customerEmail, StatusSubject(orderId, newStatus), "status_update")
    ensures run.sent[1] == AdminNotice("status_update", StatusNoticeSubject(orderId, newStatus))
    ensures run.result.success <==> emailSent.Resolved? && emailSent.value.success && admin.success
  {
    Flow(CustomerEmail(customerEmail, StatusSubject(orderId, newStatus), "status_update"), emailSent,
         AdminNotice("status_update", StatusNoticeSubject(orderId, newStatus)), admin)
  }
}
