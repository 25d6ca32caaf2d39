/** The storefront page: the shopping cart (a list of lines keyed by product
    id), its totals, the receipt id, the checkout guards and the payment chain
    that runs from creating the provider order, through the payment widget, to
    the verification request. Network replies, the widget's events, the clock
    and the random suffix are parameters. */
module Storefront {
  import opened JsText
  import PaymentWidget

  datatype Product = Product(id: int, name: string, price: int, image: string)

  datatype CartLine = CartLine(id: int, name: string, price: int, quantity: int, image: string)

  datatype CheckoutForm = CheckoutForm(name: string, email: string, phone: string, address: string)

  const EmptyForm := CheckoutForm("", "", "", "")

  // ---------------------------------------------------------------------------
  // Cart updaters and totals (the pure callbacks given to `setCart` and `reduce`)
  // ---------------------------------------------------------------------------

  predicate HasLine(cart: seq<CartLine>, id: int) {
    exists i | 0 <= i < |cart| :: cart[i].id == id
  }

  predicate DistinctIds(cart: seq<CartLine>) {
    forall i, j | 0 <= i < j < |cart| :: cart[i].id != cart[j].id
  }

  predicate PositiveQuantities(cart: seq<CartLine>) {
    forall i | 0 <= i < |cart| :: cart[i].quantity >= 1
  }

  /** `cart.find(item => item.id === id)` with its truthiness test, as a
      search for the first line with that id: its index, or -1 when there is none. */
  function IndexOf(cart: seq<CartLine>, id: int): (k: int)
    ensures -1 <= k < |cart|
    ensures k >= 0 ==> cart[k].id == id && forall j | 0 <= j < k :: cart[j].id != id
    ensures k == -1 <==> !HasLine(cart, id)
  {
    if cart == [] then -1
    else if cart[0].id == id then 0
    else
      var k := IndexOf(cart[1..], id);
      if k == -1 then -1 else k + 1
  }

  function NewLine(p: Product): CartLine {
    CartLine(p.id, p.name, p.price, 1, p.image)
  }

  /** The `map` that adds one to the quantity of the lines with that id. */
  function Bumped(cart: seq<CartLine>, id: int): seq<CartLine> {
    seq(|cart|, i requires 0 <= i < |cart| =>
      if cart[i].id == id then cart[i].(quantity := cart[i].quantity + 1) else cart[i])
  }

  /** The updater of `addToCart`. */
  function Added(cart: seq<CartLine>, p: Product): (r: seq<CartLine>)
    ensures HasLine(r, p.id)
    ensures |r| == if HasLine(cart, p.id) then |cart| else |cart| + 1
  {
    var k := IndexOf(cart, p.id);
    if k >= 0 then
      assert Bumped(cart, p.id)[k].id == p.id;
      Bumped(cart, p.id)
    else
      assert (cart + [NewLine(p)])[|cart|].id == p.id;
      cart + [NewLine(p)]
  }

  /** The updater of `removeFromCart`: `filter(item => item.id !== id)`. */
  function Removed(cart: seq<CartLine>, id: int): seq<CartLine> {
    if cart == [] then []
    else (if cart[0].id == id then [] else [cart[0]]) + Removed(cart[1..], id)
  }

  /** The updater of `updateQuantity` for a non-zero quantity. */
  function WithQuantity(cart: seq<CartLine>, id: int, q: int): (r: seq<CartLine>)
    ensures |r| == |cart|
    ensures forall i | 0 <= i < |cart| :: r[i].id == cart[i].id && r[i].price == cart[i].price
  {
    seq(|cart|, i requires 0 <= i < |cart| =>
      if cart[i].id == id then cart[i].(quantity := q) else cart[i])
  }

  /** A left fold over the lines, as `reduce((total, item) => total + f(item), 0)`. */
  function Sum(cart: seq<CartLine>, f: CartLine -> int): int {
    if cart == [] then 0 else Sum(cart[..|cart| - 1], f) + f(cart[|cart| - 1])
  }

  function LineTotal(l: CartLine): int { l.price * l.quantity }

  function Quantity(l: CartLine): int { l.quantity }

  /** `getTotalPrice` */
  function TotalPrice(cart: seq<CartLine>): int { Sum(cart, LineTotal) }

  /** `getTotalItems` */
  function TotalItems(cart: seq<CartLine>): int { Sum(cart, Quantity) }

  lemma {:induction false} SumAppend(a: seq<CartLine>, b: seq<CartLine>, f: CartLine -> int)
    ensures Sum(a + b, f) == Sum(a, f) + Sum(b, f)
  {
    if b == [] {
      assert a + b == a;
    } else {
      assert (a + b)[..|a + b| - 1] == a + b[..|b| - 1];
      SumAppend(a, b[..|b| - 1], f);
    }
  }

  lemma SumSingle(l: CartLine, f: CartLine -> int)
    ensures Sum([l], f) == f(l)
  {
    assert [l][..0] == [];
  }

  /** Replacing one line changes a fold by the difference of the two lines. */
  lemma SumReplace(cart: seq<CartLine>, k: int, l: CartLine, f: CartLine -> int)
    requires 0 <= k < |cart|
    ensures Sum(cart[k := l], f) == Sum(cart, f) - f(cart[k]) + f(l)
  {
    var before, after := cart[..k], cart[k + 1..];
    SplitAround(cart, k);
    assert cart[k := l] == (before + [l]) + after;
    SumAppend(before + [cart[k]], after, f);
    SumAppend(before, [cart[k]], f);
    SumAppend(before + [l], after, f);
    SumAppend(before, [l], f);
    SumSingle(cart[k], f);
    SumSingle(l, f);
  }

  /** Leaving one line out lowers a fold by that line. */
  lemma SumDrop(cart: seq<CartLine>, k: int, f: CartLine -> int)
    requires 0 <= k < |cart|
    ensures Sum(cart[..k] + cart[k + 1..], f) == Sum(cart, f) - f(cart[k])
  {
    var before, after := cart[..k], cart[k + 1..];
    SplitAround(cart, k);
    SumAppend(before + [cart[k]], after, f);
    SumAppend(before, [cart[k]], f);
    SumAppend(before, after, f);
    SumSingle(cart[k], f);
  }

  /** A list is its prefix, the element at k, and its suffix. */
  lemma SplitAround(cart: seq<CartLine>, k: int)
    requires 0 <= k < |cart|
    ensures cart == (cart[..k] + [cart[k]]) + cart[k + 1..]
  {
    assert cart[k..] == [cart[k]] + cart[k + 1..];
  }

  /** Both totals of an empty cart are 0; appending a line adds its share. */
  lemma TotalsOfEmptyAndAppend(cart: seq<CartLine>, l: CartLine)
    ensures TotalPrice([]) == 0 && TotalItems([]) == 0
    ensures TotalPrice(cart + [l]) == TotalPrice(cart) + l.price * l.quantity
    ensures TotalItems(cart + [l]) == TotalItems(cart) + l.quantity
  {
    SumAppend(cart, [l], LineTotal);
    SumAppend(cart, [l], Quantity);
    SumSingle(l, LineTotal);
    SumSingle(l, Quantity);
  }

  /** With distinct ids, the `map` over the lines touches only the line at k. */
  lemma BumpedAt(cart: seq<CartLine>, id: int, k: int)
    requires DistinctIds(cart) && 0 <= k < |cart| && cart[k].id == id
    ensures Bumped(cart, id) == cart[k := cart[k].(quantity := cart[k].quantity + 1)]
  {
    var b := Bumped(cart, id);
    var u := cart[k := cart[k].(quantity := cart[k].quantity + 1)];
    forall i | 0 <= i < |cart| ensures b[i] == u[i] {
      if i != k {
        assert cart[i].id != id;
      }
    }
  }

  lemma WithQuantityAt(cart: seq<CartLine>, id: int, q: int, k: int)
    requires DistinctIds(cart) && 0 <= k < |cart| && cart[k].id == id
    ensures WithQuantity(cart, id, q) == cart[k := cart[k].(quantity := q)]
  {
    var w := WithQuantity(cart, id, q);
    var u := cart[k := cart[k].(quantity := q)];
    forall i | 0 <= i < |cart| ensures w[i] == u[i] {
      if i != k {
        assert cart[i].id != id;
      }
    }
  }

  lemma MulSucc(a: int, b: int)
    ensures a * (b + 1) == a * b + a
  {
  }

  /** Adding a product already in the cart increments that line only; a new
      product is appended with quantity 1; ids stay distinct. */
  lemma AddToCartLines(cart: seq<CartLine>, p: Product)
    requires DistinctIds(cart)
    ensures DistinctIds(Added(cart, p))
    ensures forall k | 0 <= k < |cart| && cart[k].id == p.id ::
      Added(cart, p) == cart[k := cart[k].(quantity := cart[k].quantity + 1)]
    ensures !HasLine(cart, p.id) ==> Added(cart, p) == cart + [NewLine(p)]
  {
    var a := Added(cart, p);
    if IndexOf(cart, p.id) >= 0 {
      forall k | 0 <= k < |cart| && cart[k].id == p.id
        ensures a == cart[k := cart[k].(quantity := cart[k].quantity + 1)]
      {
        BumpedAt(cart, p.id, k);
      }
      forall i, j | 0 <= i < j < |a| ensures a[i].id != a[j].id {
        assert a[i].id == cart[i].id && a[j].id == cart[j].id;
      }
    } else {
      forall i, j | 0 <= i < j < |a| ensures a[i].id != a[j].id {
        if j == |cart| {
          assert a[i] == cart[i];
        }
      }
    }
  }

  /** Incrementing the quantity of line k raises the item count by one and
      the price total by that line's price. */
  lemma BumpTotals(cart: seq<CartLine>, k: int)
    requires 0 <= k < |cart|
    ensures var bumped := cart[k := cart[k].(quantity := cart[k].quantity + 1)];
      && TotalItems(bumped) == TotalItems(cart) + 1
      && TotalPrice(bumped) == TotalPrice(cart) + cart[k].price
  {
    var line := cart[k].(quantity := cart[k].quantity + 1);
    MulSucc(cart[k].price, cart[k].quantity);
    SumReplace(cart, k, line, LineTotal);
    SumReplace(cart, k, line, Quantity);
  }

  /** Adding a product raises the item count by one and the price total by
      the price of the line it lands on. */
  lemma AddToCartTotals(cart: seq<CartLine>, p: Product)
    requires DistinctIds(cart)
    ensures TotalItems(Added(cart, p)) == TotalItems(cart) + 1
    ensures HasLine(cart, p.id) ==> TotalPrice(Added(cart, p)) == TotalPrice(cart) + cart[IndexOf(cart, p.id)].price
    ensures !HasLine(cart, p.id) ==> TotalPrice(Added(cart, p)) == TotalPrice(cart) + p.price
  {
    var k := IndexOf(cart, p.id);
    if k >= 0 {
      BumpedAt(cart, p.id, k);
      BumpTotals(cart, k);
    } else {
      TotalsOfEmptyAndAppend(cart, NewLine(p));
    }
  }

  /** `filter` keeps every line with another id, in order, and drops the others. */
  lemma {:induction false} RemovedKeeps(cart: seq<CartLine>, id: int)
    ensures forall l :: l in Removed(cart, id) <==> l in cart && l.id != id
    ensures !HasLine(cart, id) ==> Removed(cart, id) == cart
  {
    if cart != [] {
      RemovedKeeps(cart[1..], id);
      assert cart == [cart[0]] + cart[1..];
      if !HasLine(cart, id) {
        assert !HasLine(cart[1..], id) by {
          forall i | 0 <= i < |cart[1..]| ensures cart[1..][i].id != id {
            assert cart[1..][i] == cart[i + 1];
          }
        }
      }
    }
  }

  /** With distinct ids, removing the line at index k leaves the lines before
      and after it, in their original order. */
  lemma {:induction false} RemovedAt(cart: seq<CartLine>, id: int, k: int)
    requires DistinctIds(cart) && 0 <= k < |cart| && cart[k].id == id
    ensures Removed(cart, id) == cart[..k] + cart[k + 1..]
  {
    if k == 0 {
      RemovedKeeps(cart[1..], id);
      assert !HasLine(cart[1..], id) by {
        forall i | 0 <= i < |cart[1..]| ensures cart[1..][i].id != id {
          assert cart[1..][i] == cart[i + 1];
        }
      }
    } else {
      assert DistinctIds(cart[1..]) by {
        forall i, j | 0 <= i < j < |cart[1..]| ensures cart[1..][i].id != cart[1..][j].id {
          assert cart[1..][i] == cart[i + 1] && cart[1..][j] == cart[j + 1];
        }
      }
      RemovedAt(cart[1..], id, k - 1);
      assert cart[0].id != id;
      assert cart[..k] == [cart[0]] + cart[1..][..k - 1];
      assert cart[k + 1..] == cart[1..][k..];
    }
  }

  /** Removing keeps the ids distinct and lowers the totals by the removed line. */
  lemma RemoveFromCartEffect(cart: seq<CartLine>, id: int)
    requires DistinctIds(cart)
    ensures DistinctIds(Removed(cart, id))
    ensures !HasLine(Removed(cart, id), id)
    ensures HasLine(cart, id) ==>
      var k := IndexOf(cart, id);
      && TotalItems(Removed(cart, id)) == TotalItems(cart) - cart[k].quantity
      && TotalPrice(Removed(cart, id)) == TotalPrice(cart) - cart[k].price * cart[k].quantity
    ensures !HasLine(cart, id) ==> Removed(cart, id) == cart
  {
    RemovedKeeps(cart, id);
    if HasLine(cart, id) {
      var k := IndexOf(cart, id);
      RemovedAt(cart, id, k);
      SumDrop(cart, k, LineTotal);
      SumDrop(cart, k, Quantity);
      DropKeepsDistinct(cart, k);
    }
    var r := Removed(cart, id);
    forall i | 0 <= i < |r| ensures r[i].id != id {
      assert r[i] in r;
    }
  }

  /** Leaving one line out keeps the other ids distinct. */
  lemma DropKeepsDistinct(cart: seq<CartLine>, k: int)
    requires DistinctIds(cart) && 0 <= k < |cart|
    ensures DistinctIds(cart[..k] + cart[k + 1..])
  {
    var r := cart[..k] + cart[k + 1..];
    forall i, j | 0 <= i < j < |r| ensures r[i].id != r[j].id {
      var i' := if i < k then i else i + 1;
      var j' := if j < k then j else j + 1;
      assert r[i] == cart[i'] && r[j] == cart[j'];
    }
  }

  /** A non-zero quantity replaces the quantity of that line and nothing else. */
  lemma SetQuantityEffect(cart: seq<CartLine>, id: int, q: int)
    requires DistinctIds(cart)
    ensures DistinctIds(WithQuantity(cart, id, q))
    ensures HasLine(cart, id) ==>
      var k := IndexOf(cart, id);
      && WithQuantity(cart, id, q) == cart[k := cart[k].(quantity := q)]
      && TotalItems(WithQuantity(cart, id, q)) == TotalItems(cart) - cart[k].quantity + q
    ensures !HasLine(cart, id) ==> WithQuantity(cart, id, q) == cart
  {
    if HasLine(cart, id) {
      var k := IndexOf(cart, id);
      WithQuantityAt(cart, id, q, k);
      SumReplace(cart, k, cart[k].(quantity := q), Quantity);
    }
    var w := WithQuantity(cart, id, q);
    forall i, j | 0 <= i < j < |w| ensures w[i].id != w[j].id {
      assert w[i].id == cart[i].id && w[j].id == cart[j].id;
    }
  }

  // ---------------------------------------------------------------------------
  // Receipt id and checkout guards
  // ---------------------------------------------------------------------------

  /** `generateReceiptId`: "SP_" + the millisecond clock + "_" + a random
      base-36 suffix, cut to 40 characters. */
  function ReceiptId(timestamp: nat, random: string): (r: string)
    ensures |r| <= 40
    ensures |r| >= 3 && r[..3] == "SP_"
  {
    Take("SP_" + NatToString(timestamp) + "_" + random, 40)
  }

  /** With a 13-digit clock and the at most 6 characters that
      `substring(2, 8)` leaves, the cut to 40 characters never bites. */
  lemma ReceiptIdNotTruncated(timestamp: nat, random: string)
    requires timestamp < Pow10(13) && |random| <= 6
    ensures ReceiptId(timestamp, random) == "SP_" + NatToString(timestamp) + "_" + random
  {
    NatToStringDigits(timestamp, 13);
  }

  /** The guards at the top of `processPayment`, in their order. */
  function CheckoutGuard(form: CheckoutForm, userId: Option<string>, cart: seq<CartLine>): (e: Option<string>)
    ensures e.None? <==>
      !Blank(form.name) && !Blank(form.email) && !Blank(form.phone) && !Blank(form.address)
      && Present(userId) && |cart| > 0
    ensures (Blank(form.name) || Blank(form.email) || Blank(form.phone) || Blank(form.address)) ==>
      e == Some("Please fill in all required fields")
    ensures (!Blank(form.name) && !Blank(form.email) && !Blank(form.phone) && !Blank(form.address)
             && !Present(userId)) ==> e == Some("Please log in to continue")
    ensures (!Blank(form.name) && !Blank(form.email) && !Blank(form.phone) && !Blank(form.address)
             && Present(userId) && |cart| == 0) ==> e == Some("Your cart is empty")
  {
    if Blank(form.name) || Blank(form.email) || Blank(form.phone) || Blank(form.address) then
      Some("Please fill in all required fields")
    else if !Present(userId) then Some("Please log in to continue")
    else if |cart| == 0 then Some("Your cart is empty")
    else None
  }

  // ---------------------------------------------------------------------------
  // The payment chain
  // ---------------------------------------------------------------------------

  /** What the order-creation request produced. An unparseable error body
      arrives as `details` = the body text and `error` = "Server error (status)". */
  datatype OrderReply =
    | OrderThrew(message: string)
    | OrderHttpError(status: int, details: Option<string>, error: Option<string>)
    | OrderReplied(success: bool, details: Option<string>, error: Option<string>,
                   providerOrderId: Option<string>, orderId: string)

  /** What the verification request produced. */
  datatype VerifyReply =
    | VerifyThrew(message: string)
    | VerifyHttpError(status: int)
    | VerifyReplied(success: bool, error: Option<string>)

  datatype OrderItem = OrderItem(id: int, name: string, price: int, quantity: int)

  /** The requests the page sends, in the order it sends them. */
  datatype Request =
    | CreateOrderRequest(amount: int, currency: string, receipt: string, userId: string,
                         customer: CheckoutForm, items: seq<OrderItem>)
    | VerifyRequest(triple: PaymentWidget.PaymentTriple, orderId: string)

  datatype CheckoutResult = Rejected(message: string) | Failed(message: string) | Paid

  datatype CheckoutRun = CheckoutRun(result: CheckoutResult, requests: seq<Request>)

  datatype Created = Created(providerOrderId: string, orderId: string)

  datatype Step<T> = Ok(value: T) | Err(message: string)

  function Items(cart: seq<CartLine>): (items: seq<OrderItem>)
    ensures |items| == |cart|
    ensures forall i | 0 <= i < |cart| ::
      items[i] == OrderItem(cart[i].id, cart[i].name, cart[i].price, cart[i].quantity)
  {
    seq(|cart|, i requires 0 <= i < |cart| => OrderItem(cart[i].id, cart[i].name, cart[i].price, cart[i].quantity))
  }

  function TrimmedForm(form: CheckoutForm): CheckoutForm {
    CheckoutForm(Trim(form.name), Trim(form.email), Trim(form.phone), Trim(form.address))
  }

  /** `error.message || "Failed to process payment"` in the outer catch. */
  function CaughtMessage(m: string): string {
    if m == "" then "Failed to process payment" else m
  }

  /** The handling of the order-creation reply. */
  function OrderStep(reply: OrderReply): (s: Step<Created>)
    ensures s.Ok? <==> reply.OrderReplied? && reply.success && Present(reply.providerOrderId)
    ensures s.Ok? ==> s.value == Created(reply.providerOrderId.value, reply.orderId)
    ensures s.Err? ==> s.message != ""
  {
    match reply
    case OrderThrew(m) => Err(CaughtMessage(m))
    case OrderHttpError(status, details, error) =>
      Err(CaughtMessage(OrElse(details, OrElse(error, "Server error (" + IntToString(status) + ")"))))
    case OrderReplied(success, details, error, providerOrderId, orderId) =>
      if !success then Err(CaughtMessage(OrElse(details, OrElse(error, "Failed to create order"))))
      else if !Present(providerOrderId) then Err("Invalid order response from server")
      else Ok(Created(providerOrderId.value, orderId))
  }

  /** The `onSuccess` handler's treatment of the verification reply. */
  function VerifyStep(reply: VerifyReply): (s: Step<bool>)
    ensures s.Ok? <==> reply.VerifyReplied? && reply.success
    ensures s.Err? ==> s.message != ""
    ensures reply.VerifyHttpError? ==> s == Err("Verification failed (" + IntToString(reply.status) + ")")
  {
    match reply
    case VerifyThrew(m) => Err(if m == "" then "Payment verification failed" else m)
    case VerifyHttpError(status) => Err("Verification failed (" + IntToString(status) + ")")
    case VerifyReplied(success, error) =>
      if success then Ok(true) else Err(OrElse(error, "Payment verification failed"))
  }

  /** `error.description || error.error || "Payment failed"` in `onError`. */
  function WidgetErrorMessage(error: string, description: string): (m: string)
    ensures m != ""
    ensures description != "" ==> m == description
    ensures description == "" && error != "" ==> m == error
    ensures description == "" && error == "" ==> m == "Payment failed"
  {
    if description != "" then description else if error != "" then error else "Payment failed"
  }

  /** The order-creation request `processPayment` sends. */
  function CreateRequest(form: CheckoutForm, userId: string, cart: seq<CartLine>, receipt: string): Request {
    CreateOrderRequest(TotalPrice(cart), "INR", receipt, userId, TrimmedForm(form), Items(cart))
  }

  /** The callback the payment service ends in, for the provider order just created. */
  function WidgetOutcome(form: CheckoutForm, cart: seq<CartLine>, providerOrderId: string, scriptLoaded: bool,
                         config: PaymentWidget.ConfigReply, event: PaymentWidget.WidgetEvent): PaymentWidget.Callback
  {
    var options := PaymentWidget.PaymentOptions(TotalPrice(cart), "INR", providerOrderId,
                                                Trim(form.name), Trim(form.email), Trim(form.phone));
    PaymentWidget.InitiatePayment(options, scriptLoaded, config, event).callback
  }

  /** The `onSuccess` / `onError` callbacks of `processPayment`. */
  function AfterWidget(create: Request, orderId: string, callback: PaymentWidget.Callback,
                       verifyReply: VerifyReply): (run: CheckoutRun)
    ensures |run.requests| >= 1 && run.requests[0] == create
    ensures run.result.Paid? <==> callback.OnSuccess? && verifyReply.VerifyReplied? && verifyReply.success
    ensures callback.OnSuccess? ==>
      run.requests == [create, VerifyRequest(callback.triple, orderId)]
    ensures callback.OnError? ==>
      run == CheckoutRun(Failed(WidgetErrorMessage(callback.error, callback.description)), [create])
    ensures !run.result.Rejected?
    ensures run.result.Failed? ==> run.result.message != ""
  {
    match callback
    case OnError(error, description) => CheckoutRun(Failed(WidgetErrorMessage(error, description)), [create])
    case OnSuccess(triple) =>
      var verify := VerifyRequest(triple, orderId);
      match VerifyStep(verifyReply)
      case Err(m) => CheckoutRun(Failed(m), [create, verify])
      case Ok(_) => CheckoutRun(Paid, [create, verify])
  }

  /** Everything `processPayment` does, as a function of the page's state
      and of the outside outcomes. */
  function Checkout(form: CheckoutForm, userId: Option<string>, cart: seq<CartLine>, receipt: string,
                    orderReply: OrderReply, scriptLoaded: bool, config: PaymentWidget.ConfigReply,
                    event: PaymentWidget.WidgetEvent, verifyReply: VerifyReply): (run: CheckoutRun)
    ensures run.result.Rejected? <==> CheckoutGuard(form, userId, cart).Some?
    ensures run.result.Rejected? ==>
      run.requests == [] && run.result.message == CheckoutGuard(form, userId, cart).value
    ensures !run.result.Rejected? ==>
      |run.requests| >= 1 && run.requests[0] == CreateRequest(form, userId.value, cart, receipt)
    ensures run.result.Paid? ==>
      && OrderStep(orderReply).Ok?
      && WidgetOutcome(form, cart, OrderStep(orderReply).value.providerOrderId, scriptLoaded, config, event).OnSuccess?
      && verifyReply.VerifyReplied? && verifyReply.success
      && |run.requests| == 2
    ensures (&& CheckoutGuard(form, userId, cart).None? && OrderStep(orderReply).Ok?
             && WidgetOutcome(form, cart, OrderStep(orderReply).value.providerOrderId, scriptLoaded, config, event).OnSuccess?
             && verifyReply.VerifyReplied? && verifyReply.success)
      ==> run.result.Paid?
    ensures run.result.Failed? ==> run.result.message != ""
  {
    match CheckoutGuard(form, userId, cart)
    case Some(m) => CheckoutRun(Rejected(m), [])
    case None =>
      AfterGuards(form, cart, CreateRequest(form, userId.value, cart, receipt), orderReply, scriptLoaded, config,
                  event, verifyReply)
  }

  /** The chain once the guards pass and the order request `create` is sent. */
  function AfterGuards(form: CheckoutForm, cart: seq<CartLine>, create: Request, orderReply: OrderReply,
                       scriptLoaded: bool, config: PaymentWidget.ConfigReply, event: PaymentWidget.WidgetEvent,
                       verifyReply: VerifyReply): (run: CheckoutRun)
    ensures |run.requests| >= 1 && run.requests[0] == create
    ensures !run.result.Rejected?
    ensures run.result.Failed? ==> run.result.message != ""
    ensures OrderStep(orderReply).Err? ==> run == CheckoutRun(Failed(OrderStep(orderReply).message), [create])
    ensures OrderStep(orderReply).Ok? ==>
      run == AfterWidget(create, OrderStep(orderReply).value.orderId,
                         WidgetOutcome(form, cart, OrderStep(orderReply).value.providerOrderId, scriptLoaded, config, event),
                         verifyReply)
  {
    match OrderStep(orderReply)
    case Err(m) => CheckoutRun(Failed(m), [create])
    case Ok(created) =>
      var callback := WidgetOutcome(form, cart, created.providerOrderId, scriptLoaded, config, event);
      AfterWidget(create, created.orderId, callback, verifyReply)
  }

  /** The page's state: the cart and the checkout dialog. */
  class StorefrontPage {
    var cart: seq<CartLine>
    var isCartOpen: bool
    var isCheckoutOpen: bool
    var form: CheckoutForm
    var isProcessingPayment: bool
    var paymentError: string
    var orderSuccess: bool
    /** Where `window.location.href` was sent, if anywhere. */
    var redirect: Option<string>
    /** The requests sent so far, in order. */
    ghost var requests: seq<Request>

    ghost predicate Valid()
      reads this
    {
      DistinctIds(cart) && PositiveQuantities(cart)
    }

    constructor ()
      ensures Valid()
      ensures cart == [] && form == EmptyForm && !isCartOpen && !isCheckoutOpen
      ensures !isProcessingPayment && paymentError == "" && !orderSuccess && redirect == None
      ensures requests == []
    {
      cart := [];
      isCartOpen := false;
      isCheckoutOpen := false;
      form := EmptyForm;
      isProcessingPayment := false;
      paymentError := "";
      orderSuccess := false;
      redirect := None;
      requests := [];
    }

    /** `addToCart` */
    method AddToCart(p: Product)
      requires Valid()
      modifies this`cart
      ensures Valid()
      ensures cart == Added(old(cart), p)
    {
      AddToCartLines(cart, p);
      var k := IndexOf(cart, p.id);
      if k >= 0 {
        cart := Bumped(cart, p.id);
      } else {
        cart := cart + [NewLine(p)];
      }
    }

    /** `removeFromCart` */
    method RemoveFromCart(id: int)
      requires Valid()
      modifies this`cart
      ensures Valid()
      ensures cart == Removed(old(cart), id)
    {
      RemoveFromCartEffect(cart, id);
      RemovedKeeps(cart, id);
      cart := Removed(cart, id);
      forall i | 0 <= i < |cart| ensures cart[i].quantity >= 1 {
        assert cart[i] in cart;
      }
    }

    /** `updateQuantity`; the page passes the current quantity minus or plus one. */
    method UpdateQuantity(id: int, newQuantity: int)
      requires Valid() && newQuantity >= 0
      modifies this`cart
      ensures Valid()
      ensures newQuantity == 0 ==> cart == Removed(old(cart), id)
      ensures newQuantity != 0 ==> cart == WithQuantity(old(cart), id, newQuantity)
    {
      if newQuantity == 0 {
        RemoveFromCart(id);
        return;
      }
      SetQuantityEffect(cart, id, newQuantity);
      cart := WithQuantity(cart, id, newQuantity);
    }

    /** `setCheckoutForm` from the form's inputs. */
    method EditForm(f: CheckoutForm)
      modifies this`form
      ensures form == f
    {
      form := f;
    }

    /** `handleCheckout`: an empty cart does nothing, a visitor who is not
        logged in is sent to the login page, otherwise the checkout dialog
        replaces the cart drawer. */
    method HandleCheckout(loggedIn: bool)
      modifies this`isCheckoutOpen, this`isCartOpen, this`redirect
      ensures |cart| == 0 ==> unchanged(this)
      ensures |cart| > 0 && !loggedIn ==>
        redirect == Some("/login") && isCheckoutOpen == old(isCheckoutOpen) && isCartOpen == old(isCartOpen)
      ensures |cart| > 0 && loggedIn ==> isCheckoutOpen && !isCartOpen && redirect == old(redirect)
    {
      if |cart| == 0 {
        return;
      }
      if !loggedIn {
        redirect := Some("/login");
        return;
      }
      isCheckoutOpen := true;
      isCartOpen := false;
    }

    /** `processPayment`, with the widget's callbacks run to completion. */
    method ProcessPayment(userId: Option<string>, timestamp: nat, random: string,
                          orderReply: OrderReply, scriptLoaded: bool, config: PaymentWidget.ConfigReply,
                          event: PaymentWidget.WidgetEvent, verifyReply: VerifyReply)
      requires Valid()
      modifies this
      ensures Valid()
      ensures var run := Checkout(old(form), userId, old(cart), ReceiptId(timestamp, random),
                                  orderReply, scriptLoaded, config, event, verifyReply);
        && requests == old(requests) + run.requests
        && isCartOpen == old(isCartOpen) && redirect == old(redirect)
        && (run.result.Rejected? ==>
              && paymentError == run.result.message && isProcessingPayment == old(isProcessingPayment)
              && cart == old(cart) && form == old(form) && orderSuccess == old(orderSuccess)
              && isCheckoutOpen == old(isCheckoutOpen))
        && (run.result.Failed? ==>
              && paymentError == run.result.message && !isProcessingPayment
              && cart == old(cart) && form == old(form) && orderSuccess == old(orderSuccess)
              && isCheckoutOpen == old(isCheckoutOpen))
        && (run.result.Paid? ==>
              && paymentError == "" && !isProcessingPayment
              && cart == [] && form == EmptyForm && orderSuccess && !isCheckoutOpen)
    {
      var guard := CheckoutGuard(form, userId, cart);
      if guard.Some? {
        paymentError := guard.value;
        return;
      }
      var create := CreateRequest(form, userId.value, cart, ReceiptId(timestamp, random));
      SubmitOrder(create, orderReply, scriptLoaded, config, event, verifyReply);
    }

    /** The rest of `processPayment` once the guards pass: the order request
        is sent, then the widget's callbacks run. */
    method SubmitOrder(create: Request, orderReply: OrderReply, scriptLoaded: bool, config: PaymentWidget.ConfigReply,
                       event: PaymentWidget.WidgetEvent, verifyReply: VerifyReply)
      requires Valid()
      modifies this
      ensures Valid()
      ensures var run := AfterGuards(old(form), old(cart), create, orderReply, scriptLoaded, config, event, verifyReply);
        && requests == old(requests) + run.requests
        && isCartOpen == old(isCartOpen) && redirect == old(redirect)
        && !isProcessingPayment
        && (run.result.Failed? ==>
              && paymentError == run.result.message
              && cart == old(cart) && form == old(form) && orderSuccess == old(orderSuccess)
              && isCheckoutOpen == old(isCheckoutOpen))
        && (run.result.Paid? ==>
              && paymentError == ""
              && cart == [] && form == EmptyForm && orderSuccess && !isCheckoutOpen)
    {
      isProcessingPayment := true;
      paymentError := "";
      requests := requests + [create];
      var created := OrderStep(orderReply);
      if created.Err? {
        paymentError := created.message;
        isProcessingPayment := false;
        return;
      }
      var callback := WidgetOutcome(form, cart, created.value.providerOrderId, scriptLoaded, config, event);
      FinishPayment(create, created.value.orderId, callback, verifyReply);
    }

    /** The widget's `onSuccess` / `onError` callbacks, once the order request
        `create` has been sent. */
    method FinishPayment(create: Request, orderId: string, callback: PaymentWidget.Callback, verifyReply: VerifyReply)
      requires Valid()
      modifies this
      ensures Valid()
      ensures var run := AfterWidget(create, orderId, callback, verifyReply);
        && requests == old(requests) + run.requests[1..]
        && isCartOpen == old(isCartOpen) && redirect == old(redirect)
        && !isProcessingPayment
        && (run.result.Failed? ==>
              && paymentError == run.result.message
              && cart == old(cart) && form == old(form) && orderSuccess == old(orderSuccess)
              && isCheckoutOpen == old(isCheckoutOpen))
        && (run.result.Paid? ==>
              && paymentError == old(paymentError)
              && cart == [] && form == EmptyForm && orderSuccess && !isCheckoutOpen)
    {
      match callback {
        case OnError(error, description) =>
          paymentError := WidgetErrorMessage(error, description);
        case OnSuccess(triple) =>
          requests := requests + [VerifyRequest(triple, orderId)];
          var verified := VerifyStep(verifyReply);
          if verified.Ok? {
            orderSuccess := true;
            cart := [];
            isCheckoutOpen := false;
            form := EmptyForm;
          } else {
            paymentError := verified.message;
          }
      }
      isProcessingPayment := false;
    }
  }
}
