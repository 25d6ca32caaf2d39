# Storefront, payments, notifications and the clothing-exchange demo, in Dafny

This project models the logic underneath an online clothing store and a
small clothing-exchange demo app. It is written in Dafny, and the
properties below are proved of the model.

The store side covers:
- the storefront page's cart (lines keyed by product id, with their totals);
- the receipt id, the checkout guards and the payment chain. The chain creates the provider order, goes through the payment widget and ends in the verification request;
- the client-side payment service that opens the widget and routes its events;
- the server-side payment-provider client: credentials, order creation, the signature check and the payment fetch with retries;
- the mail sender, with its retrying TLS and SSL transports and the fallback that never throws;
- the shipping client's login-token cache and its authenticate-then-request API methods;
- the notification service that combines the customer email and the admin notice;
- the invoice generator's millimetre cursor and page breaks;
- the contact form.

The demo side covers:
- the browse filters;
- the landing-page carousel;
- the add-item page, with its five-image cap;
- the admin approval page;
- the in-memory mock routes for sign-up, log-in, items, pending items and swaps.

Everything outside the program is a parameter. This covers network replies,
SMTP attempts, widget events, the clock and random suffixes. Retry loops
read their outcomes from an oracle (`nat -> Attempt`). Ghost logs record what
was sent, the attempts made and the waits that would have been slept.

Stateful pieces are classes whose methods are proved against pure
specification functions:
- the storefront page, `Storefront.StorefrontPage`;
- the token cache, `Shipping.ShippingService`;
- the invoice cursor, `Invoice.InvoiceCursor`;
- the contact form, the browse page, the carousel, the add-item page and the admin page;
- the three mutable route stores, `Signup.UserStore`, `Items.ItemStore` and `Swaps.SwapStore`.

The retry loops in `Mailer.SendEmail`, `PaymentGateway.FetchPaymentDetails`
and the invoice's address and row loops are `while`/`for` loops with
invariants.

Shared helpers:
- `JsText` models the JavaScript string operations used: `trim` over the JavaScript white-space set, ASCII `toLowerCase`/`toUpperCase`, `slice(0, n)`, `includes`, `split` and `String(n)`.
- `JsArray` models `filter` and `find`.
- `Records` models the JSON objects the mock routes read and spread.

## Model

| member | source | states |
|---|---|---|
| Storefront.IndexOf | page.tsx:261 | `find` on the id followed by its truthiness test, as a first-index search: -1 exactly when no line has the id, otherwise the first line with that id |
| Storefront.Added | page.tsx:259-276 | after `addToCart` the product has a line; the cart grows by one line exactly when the product had none |
| Storefront.Removed | page.tsx:278-280 | the `filter` of `removeFromCart`; what it keeps is stated by `Storefront.RemovedKeeps` and `Storefront.RemovedAt` |
| Storefront.WithQuantity | page.tsx:282-288 | the `map` of `updateQuantity` keeps every line in place with its id and price; only quantities change |
| Storefront.TotalPrice | page.tsx:290-292 | `getTotalPrice`, the sum of price×quantity over the lines; its behaviour under each update is stated by `TotalsOfEmptyAndAppend`, `AddToCartTotals` and `RemoveFromCartEffect` |
| Storefront.TotalItems | page.tsx:294-296 | `getTotalItems`, the sum of the quantities; its behaviour under each update is stated by `TotalsOfEmptyAndAppend`, `AddToCartTotals`, `RemoveFromCartEffect` and `SetQuantityEffect` |
| Storefront.AddToCartLines | page.tsx:259-276 | adding a product already in the cart increments only that line's quantity; a new product is appended with quantity 1; ids stay pairwise distinct |
| Storefront.AddToCartTotals | page.tsx:259-296 | adding raises the item count by one and the price total by the price of the line it lands on |
| Storefront.RemovedKeeps | page.tsx:278-280 | the filter keeps exactly the lines with another id; removing an absent id changes nothing |
| Storefront.RemovedAt | page.tsx:278-280 | with distinct ids, removing the line at k leaves the lines before and after it in order |
| Storefront.RemoveFromCartEffect | page.tsx:278-296 | removing keeps ids distinct, leaves no line with the id and lowers both totals by the removed line |
| Storefront.SetQuantityEffect | page.tsx:282-288 | a non-zero quantity replaces only that line's quantity and changes the item count accordingly |
| Storefront.TotalsOfEmptyAndAppend | page.tsx:290-296 | both totals are 0 for an empty cart and grow by price×quantity and by quantity per appended line |
| Storefront.SumAppend | page.tsx:290-296 | the fold over the lines distributes over concatenation |
| Storefront.ReceiptId | page.tsx:224-228 | the receipt id starts with "SP_" and has at most 40 characters |
| Storefront.ReceiptIdNotTruncated | page.tsx:224-228 | with a 13-digit clock and a suffix of at most 6 characters, the cut to 40 never removes anything |
| Storefront.CheckoutGuard | page.tsx:311-329 | the guards in order: a blank field, then no user, then an empty cart, each with its message; none fails exactly when all pass |
| Storefront.Items | page.tsx:351-356 | the order items are the cart lines, one per line, in order |
| Storefront.OrderStep | page.tsx:381-405 | the order reply is accepted exactly when it succeeded and carries a provider order id; every failure has a non-empty message |
| Storefront.VerifyStep | page.tsx:436-453 | verification succeeds exactly on a successful reply; a non-OK status gives "Verification failed (status)" |
| Storefront.AfterWidget | page.tsx:417-466 | the verification request is sent only after the widget's success; payment completes exactly when verification succeeds |
| Storefront.WidgetErrorMessage | page.tsx:461-463 | the error shown after `onError` is never empty: the description, else the error, else "Payment failed" |
| Storefront.Checkout | page.tsx:310-472 | a guard rejection sends nothing; otherwise the order request goes first; a payment happens exactly when the guards, the order creation, the widget success and the verification all succeed, and then exactly two requests are sent |
| Storefront.AfterGuards | page.tsx:331-472 | once the guards pass the order request is always the first request sent; a failed order creation fails with its message and sends nothing else; a created order continues exactly as the widget step and verification determine |
| Storefront.StorefrontPage.constructor | page.tsx:231-245 | the page starts with an empty cart and form and no error |
| Storefront.StorefrontPage.AddToCart | page.tsx:259-276 | the cart becomes the added-to cart; distinct ids and positive quantities are kept |
| Storefront.StorefrontPage.RemoveFromCart | page.tsx:278-280 | the cart becomes the filtered cart; the invariant is kept |
| Storefront.StorefrontPage.UpdateQuantity | page.tsx:282-288 | quantity 0 removes the line, any other quantity replaces it |
| Storefront.StorefrontPage.EditForm | page.tsx:940-972 | the checkout form takes the edited value |
| Storefront.StorefrontPage.HandleCheckout | page.tsx:299-308 | an empty cart changes nothing; a visitor who is not logged in goes to /login; otherwise the checkout dialog replaces the cart drawer |
| Storefront.StorefrontPage.ProcessPayment | page.tsx:310-472 | the requests sent are the checkout run's; the cart, form and success flag change only on a paid run; every failure sets the error and keeps the cart |
| Storefront.StorefrontPage.SubmitOrder | page.tsx:331-472 | after the guards, the requests sent are the run's; processing always ends; a failure sets the error and keeps the cart, a payment clears cart and form and sets success |
| Storefront.StorefrontPage.FinishPayment | page.tsx:417-466 | the widget callbacks: success with a verified reply clears the cart and form and sets success; any failure keeps the cart and sets the error |
| PaymentWidget.Dispatch | payment-service.ts:90-146 | success only when all three provider ids are present; a dismissal and a provider failure reach `onError` with their fixed texts |
| PaymentWidget.SetupError | payment-service.ts:64-79 | the setup checks in order (script, configuration, amount, order id); none fails exactly when all pass |
| PaymentWidget.InitiatePayment | payment-service.ts:53-156 | the widget opens exactly when setup succeeds, with the amount ×100 in paise; otherwise `onError("Payment setup failed", reason)` |
| Mailer.ValidateEmailConfig | lib/nodemailer.ts:19-42 | the configuration is valid exactly on the server with both variables set; missing credentials give the fixed error |
| Mailer.Backoff | lib/nodemailer.ts:242-245 | the wait after failed attempt k is 1000·2^(k−1) ms |
| Mailer.Delay | lib/nodemailer.ts:243 | the wait 1000·2^(k−1) ms; the loop is proved to wait exactly these by `Mailer.SendEmail` |
| Mailer.ExhaustedError | lib/nodemailer.ts:239 | the text thrown after the last failed attempt, naming the transport, the retry count and the last error; used by `Mailer.Delivery` |
| Mailer.FirstSent | lib/nodemailer.ts:195-228 | the first attempt in range that sent, with no earlier one |
| Mailer.FirstSentIsLeast | lib/nodemailer.ts:195-228 | an attempt that sent, with none before it, is the first |
| Mailer.Delivery | lib/nodemailer.ts:195-247 | a send returns exactly when one of its `retries` attempts sent; otherwise it throws "after {retries} attempts" with the last message |
| Mailer.AttemptCount | lib/nodemailer.ts:195-247 | attempts stop at the first success and never exceed `retries` |
| Mailer.SendEmail | lib/nodemailer.ts:178-321 | `sendEmail`/`sendEmailAlternative`: no attempt in the browser or without credentials; otherwise the delivery, the attempt count and the waits (none after the last attempt) |
| Mailer.SendEmailSafe | lib/nodemailer.ts:324-373 | TLS first, SSL only after TLS threw, a combined "TLS: …, SSL: …" report when both threw; success exactly when some attempt of either transport sent |
| Mailer.ZeroRetriesReportsDelivery | lib/nodemailer.ts:195-247 | as written, zero retries returns normally after zero attempts |
| Mailer.CheckedDelivery | lib/nodemailer.ts:195-247 | corrected delivery: a normal return exactly when some attempt sent |
| Mailer.CheckedDeliveryAgrees | lib/nodemailer.ts:195-247 | the corrected and the written delivery agree for every `retries` ≥ 1 |
| PaymentGateway.GetEnvironmentVariables | lib/razorpay.ts:4-34 | the key id (with its public fallback) and the secret are both needed; each absence has its own error |
| PaymentGateway.ApiError | lib/razorpay.ts:121-145 | the message is "Razorpay API Error (status): " followed by the description, else the message, else the status text; for a body that is not JSON, the text itself unless it is empty |
| PaymentGateway.Caught | lib/razorpay.ts:162-184 | an abort becomes the timeout message, ENOTFOUND/ECONNREFUSED the network message, anything else its own message or a default |
| PaymentGateway.OptionsError | lib/razorpay.ts:67-78 | the options are refused exactly when the amount is not a positive number or the currency or receipt is missing |
| PaymentGateway.CreateRazorpayOrder | lib/razorpay.ts:60-185 | a request is sent exactly when credentials and options are valid, with the fixed body and Basic credentials; success exactly on an OK reply with an id; every failure is a value |
| PaymentGateway.VerifyRazorpaySignature | lib/razorpay.ts:188-222 | true exactly when all three arguments are non-empty, the secret is set and the signature is the HMAC hex of "orderId\|paymentId" |
| PaymentGateway.SignedPairVerifies | lib/razorpay.ts:206-217 | a signature made with the secret over the pair is accepted |
| PaymentGateway.SignedMessageDeterminesPair | lib/razorpay.ts:206-209 | for order ids without '\|', the signed message determines the order and payment ids |
| PaymentGateway.AttemptResult | lib/razorpay.ts:227-274 | one fetch attempt succeeds exactly with credentials and an OK reply; failures have a message |
| PaymentGateway.FirstFetched | lib/razorpay.ts:226-279 | the first attempt in range that fetched the payment |
| PaymentGateway.FirstFetchedIsLeast | lib/razorpay.ts:226-279 | an attempt that fetched, with none before it, is the first |
| PaymentGateway.LinearBackoff | lib/razorpay.ts:277 | the wait after attempt k is 1000·k ms |
| PaymentGateway.FetchPaymentDetails | lib/razorpay.ts:225-285 | at most `retries` attempts, stopping at the first fetch, with linear waits between them; the result is that of the last attempt, never a throw |
| Shipping.Authentication | lib/shiprocket.ts:129-173 | a fresh token is reused without a login; a stale one logs in exactly when credentials are set; a successful login stores the token with a 10 h expiry; every failure leaves the cache alone |
| Shipping.Fresh | lib/shiprocket.ts:132 | a cached token is reused exactly when it is present and the clock is before its expiry; used by `Shipping.Authentication` and `Shipping.LoginIsReusedUntilExpiry` |
| Shipping.LoginIsReusedUntilExpiry | lib/shiprocket.ts:132-168 | after a login, every call before the expiry reuses the token whatever the credentials or the login reply |
| Shipping.ExpiredTokenLogsInAgain | lib/shiprocket.ts:132-172 | past the expiry, a call with credentials logs in again and refreshes both fields, or fails and keeps them |
| Shipping.ApiCall | lib/shiprocket.ts:176-549 | every API method authenticates first and sends no request when that fails; the request carries "Bearer token"; errors get the operation's prefixes |
| Shipping.FreshTokenIsSentAsBearer | lib/shiprocket.ts:129-204 | with a fresh cached token, a call sends that token and no login |
| Shipping.ShippingService.constructor | lib/shiprocket.ts:124-126 | the cache starts with no token and expiry 0 |
| Shipping.ShippingService.Authenticate | lib/shiprocket.ts:129-173 | the static fields become the authentication's session, and a login is counted exactly when one was sent |
| Shipping.ShippingService.Call | lib/shiprocket.ts:176-549 | the result, session, logins and sent requests are those of the API call |
| Notifications.SendCustomerEmail | email-service.ts:6-27 | success exactly when the mail sender resolved with success, keeping its transport; a failure or a thrown error keeps the error |
| Notifications.CustomerResultNamesTransport | email-service.ts:6-27 | for a well-formed report, a successful customer result names its transport and carries no error |
| Notifications.SendAdminNotification | email-service.ts:30-47 | the same mapping for the admin notice |
| Notifications.Flow | email-service.ts:196-221 | a composite flow sends the customer email, then the admin notice, and succeeds exactly when both did |
| Notifications.ContactMessage | email-service.ts:149-221 | the contact flow's two messages and its combined success |
| Notifications.SignupConfirmation | email-service.ts:373-454 | the sign-up flow's two messages, the admin subject naming the full name or else the email, and the combined success |
| Notifications.ConfirmationSections | email-service.ts:52-60 | the invoice button appears exactly when an invoice URL is present |
| Notifications.OrderConfirmation | email-service.ts:50-141 | the order confirmation is one customer email, reported as that email's result |
| Notifications.ConfirmationSubjectSeesPrefix | email-service.ts:137 | two order ids give the same confirmation subject exactly when their first 8 characters agree |
| Notifications.ConfirmationSubject | email-service.ts:137 | the confirmation subject with the first 8 characters of the order id; its dependence on them is stated by `ConfirmationSubjectSeesPrefix` |
| Notifications.ReturnSections | email-service.ts:237-299 | the refund block appears only with a truthy amount and comes first; the photo block appears exactly when photos were uploaded and comes after it |
| Notifications.PhotoInfo | email-service.ts:330-333 | the notice's photo lines are empty exactly when there are no photos |
| Notifications.RefundAmountText | email-service.ts:351 | the notice prints "TBD" exactly when no amount was given |
| Notifications.RefundPercentageShown | email-service.ts:351 | the notice shows the given percentage, or 60 when it is absent or zero |
| Notifications.PhotoCount | email-service.ts:361 | the recorded photo count is the number of photos |
| Notifications.ReturnRequest | email-service.ts:224-370 | the return flow's two messages and its combined success |
| Notifications.ZeroRefundIsPrintedButNotShown | email-service.ts:253-351 | a zero refund is printed as "0" in the admin notice but shows no block to the customer |
| Notifications.StatusInfoFor | email-service.ts:470-496 | a listed status gets its table entry; any other gets the default that names it |
| Notifications.StatusTable | email-service.ts:470-490 | the `statusMessages` literal: the entries for the listed statuses, none for any other; its use is stated by `StatusInfoFor` and `DefaultMarksUnlistedStatus` |
| Notifications.DefaultMarksUnlistedStatus | email-service.ts:470-496 | the default icon marks exactly the unlisted statuses, and distinct unlisted statuses get distinct messages |
| Notifications.StatusSubjectSeesPrefix | email-service.ts:579 | the customer status subject depends on exactly the first 8 characters of the order id |
| Notifications.NoticeSubjectSeesPrefix | email-service.ts:587 | the same for the admin subject |
| Notifications.StatusSubject | email-service.ts:579 | the customer subject: the status icon and the first 8 characters of the order id; stated by `StatusSubjectSeesPrefix` |
| Notifications.StatusNoticeSubject | email-service.ts:587 | the admin subject: the first 8 characters of the order id and the new status; stated by `NoticeSubjectSeesPrefix` |
| Notifications.StatusSections | email-service.ts:497-512 | the items block appears exactly when the update lists items |
| Notifications.StatusUpdate | email-service.ts:457-616 | the status flow's two messages and its combined success |
| Invoice.InvoiceNumber | lib/invoice-generator.ts:56 | "INV-" followed by the first 8 characters of the id, upper-cased, character by character; a shorter id is kept whole |
| Invoice.InvoiceNumberSeesPrefix | lib/invoice-generator.ts:56 | ids that share their first 8 characters get the same invoice number |
| Invoice.TrackingLine | lib/invoice-generator.ts:66-68 | the tracking line exists exactly when a tracking number is present |
| Invoice.MethodText | lib/invoice-generator.ts:184 | the payment method, or "Online Payment" |
| Invoice.StatusText | lib/invoice-generator.ts:185 | the upper-cased status, or "COMPLETED" |
| Invoice.TransactionId | lib/invoice-generator.ts:187-188 | the payment id, else the provider's payment id, else none |
| Invoice.PaymentLines | lib/invoice-generator.ts:182-188 | the method and status lines, plus the transaction line exactly when an id exists; every line lies below the start and within the payment block |
| Invoice.SegmentsAreClean | lib/invoice-generator.ts:95-101 | every printed address segment is non-empty, trimmed and free of commas |
| Invoice.Segments | lib/invoice-generator.ts:93-101 | the address splits into at most one segment per comma piece |
| Invoice.SegmentsArePieces | lib/invoice-generator.ts:93-101 | every segment is the non-empty trim of some comma piece, and every piece whose trim is non-empty gives a segment |
| Invoice.Stacked | lib/invoice-generator.ts:95-101 | segment i is printed 5 mm below segment i−1 |
| Invoice.RowsStayOnPage | lib/invoice-generator.ts:136-152 | every row is drawn between 64 and 270 mm, striped at even positions, with price×quantity, on a page that never decreases |
| Invoice.PlaceRows | lib/invoice-generator.ts:136-152 | the row loop as a function: one row per item appended after the rows already placed, and the page never decreases |
| Invoice.SummaryAt | lib/invoice-generator.ts:155-157 | the summary breaks the page exactly when the cursor is past the threshold |
| Invoice.RowsEndBounds | lib/invoice-generator.ts:125-152 | below the table header, the invoice has one row per item, each between 64 and 270 mm, striped at even positions, with price×quantity |
| Invoice.LayoutBounds | lib/invoice-generator.ts:136-157 | one row per item within the page bounds, and a summary starting between 74 and 250 mm |
| Invoice.InvoiceLayout | lib/invoice-generator.ts:30-210 | the layout the generator produces: every payment line lies below the summary start and no lower than the last baseline |
| Invoice.AddressLayout | lib/invoice-generator.ts:93-109 | the address lines are the clean segments, 5 mm apart, and the table starts 30 mm below them |
| Invoice.InvoiceCursor.constructor | lib/invoice-generator.ts:34 | the cursor starts at 0 on page 1 |
| Invoice.InvoiceCursor.AddPageHeader | lib/invoice-generator.ts:41-50 | the header leaves the cursor at 50 |
| Invoice.InvoiceCursor.DrawTableHeader | lib/invoice-generator.ts:112-123 | the table header moves the cursor 14 mm down |
| Invoice.InvoiceCursor.AddPageBreak | lib/invoice-generator.ts:129-134 | a page break opens the next page and leaves the cursor at 64 |
| Invoice.InvoiceCursor.PlaceHeading | lib/invoice-generator.ts:41-109 | the header, invoice number, tracking line, customer name and address land at their fixed positions and the cursor ends 30 mm below the address |
| Invoice.InvoiceCursor.PlaceAddress | lib/invoice-generator.ts:95-101 | the address loop places exactly the clean segments and advances 5 mm per segment |
| Invoice.InvoiceCursor.PlaceItems | lib/invoice-generator.ts:136-152 | the row loop ends in the state the row placement function gives |
| Invoice.InvoiceCursor.PlaceTable | lib/invoice-generator.ts:125-152 | the table header, then the rows placed exactly as the row placement function gives, 14 mm lower |
| Invoice.InvoiceCursor.PlaceSummary | lib/invoice-generator.ts:155-157 | the summary starts where the summary placement function puts it, breaking the page past 240 mm |
| Invoice.GenerateInvoice | lib/invoice-generator.ts:30-210 | the step-by-step generator produces exactly the specified layout |
| Invoice.FooterOverflowsPage | lib/invoice-generator.ts:155-206 | as written, an order of two items puts the last payment line at 309 mm, below the 297 mm page |
| Invoice.SummaryThresholdTooLow | lib/invoice-generator.ts:155-206 | any cursor between 187 and 240 pushes the payment block off the page |
| Invoice.FittingSummaryAt | lib/invoice-generator.ts:155-206 | with the threshold that fits, every line down to the last stays on the page |
| Contact.ValidEmailIffPattern | ContactUs.tsx:43-44 | the character-level email rule accepts exactly the strings that `^[^\s@]+@[^\s@]+\.[^\s@]+$` matches |
| Contact.ValidEmailIsTrimmed | ContactUs.tsx:43-57 | a valid email has no white space at either end |
| Contact.Validate | ContactUs.tsx:35-48 | the blank check comes first, then the email pattern on the untrimmed email; none fails exactly when the form is acceptable |
| Contact.AcceptedFormIsSentClean | ContactUs.tsx:54-58 | an accepted form is sent with the email as typed and every field non-empty |
| Contact.WithField | ContactUs.tsx:26 | an edit changes only the named field |
| Contact.SendError | ContactUs.tsx:60-71 | no error exactly when the service resolved with success |
| Contact.ContactForm.constructor | ContactUs.tsx:15-23 | an empty form, nothing submitted, no error |
| Contact.ContactForm.HandleChange | ContactUs.tsx:25-28 | the field changes and the error clears |
| Contact.ContactForm.HandleSubmit | ContactUs.tsx:30-74 | a rejected form sends nothing and keeps its fields; an accepted one is sent trimmed and cleared only on success; loading ends on every path |
| Browse.NarrowIsFilter | rewear-platform/app/browse/page.js:40-59 | a skipped filter step is a filter that keeps everything |
| Browse.Visible | rewear-platform/app/browse/page.js:37-59 | the four filter steps in the page's order keep a subset of the items, in order; `Browse.VisibleIsOneFilter` states which |
| Browse.MatchesSearch | rewear-platform/app/browse/page.js:41-46 | the search test: the lower-cased query inside the lower-cased title, description or tags; used by `Browse.VisibleIsOneFilter` |
| Browse.VisibleIsOneFilter | rewear-platform/app/browse/page.js:37-61 | the successive filters keep exactly the items passing every active filter, in stored order |
| Browse.NoFiltersShowEverything | rewear-platform/app/browse/page.js:37-61 | with every filter empty, the whole list is shown |
| Browse.WithFilter | rewear-platform/app/browse/page.js:64-69 | a filter change sets only the named key |
| Browse.CountLabel | rewear-platform/app/browse/page.js:444 | "1 item found" exactly for one result, and "N items found" for every other count N |
| Browse.BrowsePage.constructor | rewear-platform/app/browse/page.js:7-15 | no items, no filters, loading |
| Browse.BrowsePage.ApplyFilters | rewear-platform/app/browse/page.js:37-62 | the filtered list equals the specified filtering of the items |
| Browse.BrowsePage.FetchItems | rewear-platform/app/browse/page.js:25-35 | a fetched list replaces the items and a failure keeps them; loading ends; the filtered list stays current |
| Browse.BrowsePage.HandleFilterChange | rewear-platform/app/browse/page.js:64-69 | only the named filter changes, and the filtered list stays current |
| Browse.BrowsePage.ClearFilters | rewear-platform/app/browse/page.js:71-78 | every filter is emptied and every item is shown |
| Carousel.NextIndex | rewear-platform/app/page.js:24-26 | the next slide stays in range, and the last slide wraps to 0 |
| Carousel.PrevIndex | rewear-platform/app/page.js:28-30 | the previous slide stays in range, and slide 0 wraps to the last |
| Carousel.PrevUndoesNext | rewear-platform/app/page.js:24-30 | on an index in range, previous undoes next and next undoes previous |
| Carousel.AdvanceWraps | rewear-platform/app/page.js:24-37 | k ≤ n forward steps land on i+k wrapped once; n steps return to the start |
| Carousel.FeaturedCarousel.SetItems | rewear-platform/app/page.js:32-37 | the interval is registered exactly when there are items |
| Carousel.FeaturedCarousel.Next | rewear-platform/app/page.js:24-26 | the index becomes the next one |
| Carousel.FeaturedCarousel.Prev | rewear-platform/app/page.js:28-30 | the index becomes the previous one |
| Carousel.FeaturedCarousel.SelectDot | rewear-platform/app/page.js:396-401 | clicking dot k sets the index to k |
| Carousel.FeaturedCarousel.Tick | rewear-platform/app/page.js:32-37 | the interval steps forward only while registered |
| AddItem.UploadUrls | rewear-platform/app/add-item/page.js:48-50 | one placeholder address per uploaded file, in order, each carrying the clock read for that file and its index |
| AddItem.Without | rewear-platform/app/add-item/page.js:56-58 | removing index i deletes exactly that entry and keeps the others in order; an index out of range changes nothing |
| AddItem.SubmitError | rewear-platform/app/add-item/page.js:84-93 | no error exactly when the item was created; the endpoint's error or a default; the network message when no response came |
| AddItem.AddItemPage.Mount | rewear-platform/app/add-item/page.js:23-30 | without a stored user the page goes to /login; otherwise the stored user is kept; the form, images, error and loading flag are unchanged |
| AddItem.AddItemPage.HandleInputChange | rewear-platform/app/add-item/page.js:32-37 | only the named field changes; the images, error, user, loading flag and redirect are unchanged |
| AddItem.AddItemPage.HandleImageUpload | rewear-platform/app/add-item/page.js:39-54 | an upload that would pass five images is refused whole with an error; otherwise its images follow the existing ones; never more than five; the form, user, loading flag and redirect are unchanged |
| AddItem.AddItemPage.RemoveImage | rewear-platform/app/add-item/page.js:56-58 | the images become the list without that entry; the form, error, user, loading flag and redirect are unchanged |
| AddItem.AddItemPage.HandleSubmit | rewear-platform/app/add-item/page.js:60-96 | without images nothing is sent and the error is set; otherwise the listing is sent and success goes to /dashboard; loading ends |
| Admin.WithoutItem | rewear-platform/app/admin/page.js:52-54 | exactly the items with another id remain |
| Admin.WithoutItemKeepsOrder | rewear-platform/app/admin/page.js:52-54 | removal keeps the remaining items in order |
| Admin.WithoutAbsentItem | rewear-platform/app/admin/page.js:52-54 | removing an unlisted id changes nothing |
| Admin.AdminPage.Mount | rewear-platform/app/admin/page.js:13-40 | no user goes to /login and a non-admin to /dashboard, neither fetching; an admin fetches once and loading ends |
| Admin.AdminPage.HandleApproval | rewear-platform/app/admin/page.js:42-60 | the decision is sent; only an accepted one removes the item; the user, loading flag, fetch count and redirect are unchanged |
| Admin.AdminPage.Render | rewear-platform/app/admin/page.js:62-68 | the dashboard is drawn only for an admin once loading ends |
| Accounts.SeedIsWellFormed | rewear-platform/app/api/auth/signup/route.js:4-9 | the seeded users have ids 1–4 at their positions and distinct emails |
| Signup.NewUser | rewear-platform/app/api/auth/signup/route.js:22-29 | the new user gets id count+1, 100 points, no admin rights and the body's name, email and password |
| Signup.UserStore.constructor | rewear-platform/app/api/auth/signup/route.js:4-9 | the store starts with the seeded users |
| Signup.UserStore.Post | rewear-platform/app/api/auth/signup/route.js:11-43 | an unreadable body gives 500 and a taken email 400, both leaving the store alone; otherwise one user is appended and returned without its password |
| Signup.SignupTakesEmail | rewear-platform/app/api/auth/signup/route.js:16-31 | after a sign-up, its email is taken |
| Signup.SignupKeepsStoreWellFormed | rewear-platform/app/api/auth/signup/route.js:16-31 | a sign-up keeps ids as positions and emails pairwise distinct |
| Login.Post | rewear-platform/app/api/auth/login/route.js:11-32 | welcome exactly when some user matches both fields, returning the first match without its password; otherwise 401; 500 for an unreadable body |
| Login.OnlySeededEmailsLogIn | rewear-platform/app/api/auth/login/route.js:4-20 | an email that no seeded user has is refused with 401 |
| Login.AdminLogsIn | rewear-platform/app/api/auth/login/route.js:4-28 | the seeded admin logs in as id 1 with admin rights |
| JsArray.Find | rewear-platform/app/api/auth/login/route.js:16 | `find`: the first element passing the test, or none exactly when none passes |
| Records.Spread | rewear-platform/app/api/items/route.js:34-40 | object spread: the union of keys, each taking the last value written |
| Items.Available | rewear-platform/app/api/items/route.js:21-28 | GET keeps exactly the approved, available items |
| Items.NewItem | rewear-platform/app/api/items/route.js:34-40 | the body can replace the id but not the status, approval or time; its other keys are copied |
| Items.SubmissionIsNotListed | rewear-platform/app/api/items/route.js:23-42 | a submitted item is never listed, so a submission leaves the listing unchanged |
| Items.ItemStore.Post | rewear-platform/app/api/items/route.js:30-51 | an unreadable body gives 500 and changes nothing; otherwise one item is appended and returned; the listing is unchanged |
| Items.SeedIsListed | rewear-platform/app/api/items/route.js:4-24 | the seeded item is listed |
| PendingItems.Get | rewear-platform/app/api/admin/pending-items/route.js:35-42 | GET keeps exactly the unapproved items |
| PendingItems.ApprovedIsNotPending | rewear-platform/app/api/admin/pending-items/route.js:37 | an item whose `approved` flag is true is not listed |
| PendingItems.SeedIsAllPending | rewear-platform/app/api/admin/pending-items/route.js:4-38 | with the seeded data, items 5 and 6 are listed in that order |
| Swaps.NewSwap | rewear-platform/app/api/swaps/route.js:10-15 | the body can replace the id but not the pending status or the time |
| Swaps.RequestKeepsSwapsPending | rewear-platform/app/api/swaps/route.js:10-17 | appending a request keeps every swap pending and every id equal to its position plus one unless a body named it |
| Swaps.SwapStore.constructor | rewear-platform/app/api/swaps/route.js:4 | the store starts empty |
| Swaps.SwapStore.Post | rewear-platform/app/api/swaps/route.js:6-25 | an unreadable body gives 500 and changes nothing; otherwise one pending swap is appended and returned |

## Left out

- The script loader's DOM work (payment-service.ts:21-34) and the widget itself are outside the model; their outcomes are parameters.
- The product search `filteredProducts` (page.tsx:250-256) is left out: it reads a field no product defines, so it is not a working search.
- `toLocaleString`, `toLocaleDateString` and date formatting depend on the locale and the time zone. Numbers are printed with plain decimal digits (`IntToString`), and dates are not printed.
- Amounts are whole rupees: `Math.round` on fractional amounts (payment-service.ts:83) and all floating point are left out.
- HMAC-SHA256 with hex output, and the base64 encoding of Basic credentials, are functions passed in; they are not computed.
- The network, SMTP, the clock, timers and randomness are parameters or ghost logs, never real I/O.
- Email HTML markup and the admin notice bodies are left out; only subjects, the sections chosen and the recorded metadata are modelled.
- `Lower` and `Upper` map ASCII letters only.
- jsPDF drawing calls are left out; only the cursor arithmetic and the texts the generator decides are modelled.
- `alert()` calls are left out.
- Route bodies are flat JSON objects of strings, numbers, booleans and null. Nested objects, arrays and non-object JSON bodies are left out. A body that `request.json()` cannot parse is `None`.
- Inherited object keys such as "constructor", which a lookup in the `statusMessages` literal would also find, are not modelled.
- `testEmailConnection` and `testAlternativeEmailConnection` are diagnostics that no modelled flow calls.
- The wrapping of authentication failures inside the shipping client's other helpers, beyond the prefixes modelled in `Shipping.ApiCall`, is left out.
- The GET error branches of the items and pending-items routes are left out: filtering fixed in-memory data cannot throw, so they are unreachable.
- `sendAdminOrderNotification` (email-service.ts:144-146) only forwards to the admin-notification client, which is not part of this model.
- The admin page's "Loading..." markup is reduced to the `Loading` view.
- The featured-items route, the dashboard page and the login and sign-up pages only fetch and display, and are not modelled.
- The sign-up and log-in routes keep separate user lists, modelled as independent stores (`Signup.UserStore`, and the seed read by `Login.Post`). `Login.OnlySeededEmailsLogIn` states the consequence.
- Carousel.NextIndex: requires a non-empty list, since the arrows and the timer that call it exist only when there are items.
- Concurrency, React state batching and the timing of asynchronous callbacks are left out. Callbacks run as sequential events.
- Shipping.Authentication: one clock reading serves both the freshness test and the new expiry. The source reads `Date.now()` again after the login request returns, so login latency is ignored and the stored expiry can be earlier than the source's by that latency.
- The payment widget's retry setting (`retry` with `enabled: true` and `max_count: 3`, payment-service.ts:122-125) lets a `payment.failed` be followed by a successful `handler` call. `PaymentWidget.WidgetEvent` models one reported event per checkout run. Later callbacks are modelled as further `Storefront.StorefrontPage.FinishPayment` calls.
- Invoice.GenerateInvoice keeps the summary threshold of 240 as written, so its layout is the code's. The corrected placement is `Invoice.FittingSummaryAt`, proved on its own.

## Findings

| source | as written | input that shows it | evidently intended | confidence | as-written member | corrected member |
|---|---|---|---|---|---|---|
| lib/nodemailer.ts:195-247 | with `retries` ≤ 0 the attempt loop never runs and the send returns normally | `retries = 0` | a send that made no attempt throws, as `fetchPaymentDetails` fails in the same case | not executed | Mailer.ZeroRetriesReportsDelivery | Mailer.CheckedDelivery |
| lib/invoice-generator.ts:155-206 | the summary moves to a new page only when the cursor is past 240 mm, but the payment block ends 111 mm below the cursor | an order with two items and an empty address: cursor 198, last line at 309 mm on a 297 mm page | the summary breaks early enough that the payment block fits, a threshold of 186 mm | not executed | Invoice.FooterOverflowsPage | Invoice.FittingSummaryAt |
