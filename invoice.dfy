/** The invoice layout: the vertical cursor, in millimetres from the top of
    an A4 page, that the invoice generator advances while it places the
    header, the customer block, the address lines, the item rows, the
    summary and the payment block, with the page breaks it takes before a
    row and before the summary. Only positions, page numbers and the texts
    whose content the generator decides are modelled; the drawing calls are
    not. */
module Invoice {
  import opened JsText

  datatype OrderItem = OrderItem(productName: string, productPrice: int, quantity: int)

  datatype Order = Order(
    id: string,
    customerName: string,
    shippingAddress: string,
    paymentStatus: Option<string>,
    paymentMethod: Option<string>,
    paymentId: Option<string>,
    razorpayPaymentId: Option<string>,
    trackingNumber: Option<string>,
    items: seq<OrderItem>)

  /** The height of an A4 portrait page. */
  const PageHeight := 297
  /** Where the page header leaves the cursor. */
  const HeaderBottom := 50
  const TableHeaderHeight := 14
  const RowHeight := 12
  const AddressLineHeight := 5
  /** A row is moved to a new page when the cursor is below this. */
  const RowBreak := 270
  /** The summary is moved to a new page when the cursor is below this. */
  const SummaryBreak := 240
  /** Where a page break (header and table header) leaves the cursor. */
  const BreakTop := HeaderBottom + TableHeaderHeight
  /** The summary's first baseline is this far below the cursor. */
  const SummaryGap := 10
  /** The payment block starts this far below the summary's first baseline. */
  const PaymentGap := 48
  /** The lowest baseline of the payment block, below its first one. */
  const PaymentDepth := 53

  /** A text placed at a baseline. */
  datatype Line = Line(text: string, y: int)

  /** An item row: its position in the order, where it is drawn, whether it
      carries the background stripe, and the total it prints. */
  datatype Row = Row(index: nat, name: string, y: int, page: nat, striped: bool, total: int)

  // ---------------------------------------------------------------------------
  // Texts decided by the generator
  // ---------------------------------------------------------------------------

  /** The first 8 characters of the order id, upper-cased, after "INV-". */
  function InvoiceNumber(orderId: string): (r: string)
    ensures 4 <= |r| <= 12 && r[..4] == "INV-"
    ensures |r| == 4 + (if |orderId| < 8 then |orderId| else 8)
    ensures forall k | 0 <= k < |r| - 4 :: r[4 + k] == UpperChar(orderId[k])
  {
    "INV-" + Upper(Take(orderId, 8))
  }

  /** Ids that agree on their first 8 characters get the same invoice number. */
  lemma InvoiceNumberSeesPrefix(a: string, b: string)
    requires Take(a, 8) == Take(b, 8)
    ensures InvoiceNumber(a) == InvoiceNumber(b)
  {
  }

  /** The tracking line appears only when a tracking number is present. */
  function TrackingLine(order: Order): (l: Option<Line>)
    ensures l.Some? <==> Present(order.trackingNumber)
    ensures l.Some? ==> l.value == Line("Tracking: " + order.trackingNumber.value, HeaderBottom + 21)
  {
    if Present(order.trackingNumber) then Some(Line("Tracking: " + order.trackingNumber.value, HeaderBottom + 21))
    else None
  }

  /** The payment method, "Online Payment" when there is none. */
  function MethodText(order: Order): (s: string)
    ensures Present(order.paymentMethod) ==> s == "Method: " + order.paymentMethod.value
    ensures !Present(order.paymentMethod) ==> s == "Method: Online Payment"
  {
    "Method: " + OrElse(order.paymentMethod, "Online Payment")
  }

  /** The payment status upper-cased, "COMPLETED" when there is none. */
  function StatusText(order: Order): (s: string)
    ensures Present(order.paymentStatus) ==> s == "Status: " + Upper(order.paymentStatus.value)
    ensures !Present(order.paymentStatus) ==> s == "Status: COMPLETED"
  {
    "Status: " + if Present(order.paymentStatus) then Upper(order.paymentStatus.value) else "COMPLETED"
  }

  /** The transaction id: the payment id, else the provider's payment id,
      else none. */
  function TransactionId(order: Order): (t: Option<string>)
    ensures t.Some? <==> Present(order.paymentId) || Present(order.razorpayPaymentId)
    ensures Present(order.paymentId) ==> t == order.paymentId
    ensures !Present(order.paymentId) && t.Some? ==> t == order.razorpayPaymentId
    ensures t.Some? ==> t.value != ""
  {
    if Present(order.paymentId) then order.paymentId
    else if Present(order.razorpayPaymentId) then order.razorpayPaymentId
    else None
  }

  /** The payment block's lines below the block's first baseline `y`. */
  function PaymentLines(order: Order, y: int): (ls: seq<Line>)
    ensures |ls| == 2 || |ls| == 3
    ensures ls[0] == Line(MethodText(order), y + 8) && ls[1] == Line(StatusText(order), y + 15)
    ensures |ls| == 3 <==> TransactionId(order).Some?
    ensures |ls| == 3 ==> ls[2] == Line("Transaction ID: " + TransactionId(order).value, y + 22)
    ensures forall l | l in ls :: y < l.y <= y + PaymentDepth
  {
    [Line(MethodText(order), y + 8), Line(StatusText(order), y + 15)]
    + (match TransactionId(order)
       case Some(t) => [Line("Transaction ID: " + t, y + 22)]
       case None => [])
  }

  // ---------------------------------------------------------------------------
  // Address lines
  // ---------------------------------------------------------------------------

  /** The address pieces between commas, trimmed, with the blank ones dropped. */
  function Segments(parts: seq<string>): (segs: seq<string>)
    ensures |segs| <= |parts|
  {
    if |parts| == 0 then []
    else
      var before := Segments(parts[..|parts| - 1]);
      var last := Trim(parts[|parts| - 1]);
      if last != "" then before + [last] else before
  }

  /** The segments are exactly the non-blank trims of the pieces: each
      segment is one, and each piece whose trim is not blank gives one. */
  lemma {:induction false} SegmentsArePieces(parts: seq<string>)
    ensures forall s | s in Segments(parts) :: s != "" && exists i | 0 <= i < |parts| :: s == Trim(parts[i])
    ensures forall i | 0 <= i < |parts| && Trim(parts[i]) != "" :: Trim(parts[i]) in Segments(parts)
  {
    if |parts| > 0 {
      var init := parts[..|parts| - 1];
      SegmentsArePieces(init);
      forall s | s in Segments(init)
        ensures exists i | 0 <= i < |parts| :: s == Trim(parts[i])
      {
        var i :| 0 <= i < |init| && s == Trim(init[i]);
        assert init[i] == parts[i];
      }
      forall i | 0 <= i < |init| && Trim(parts[i]) != ""
        ensures Trim(parts[i]) in Segments(parts)
      {
        assert init[i] == parts[i];
      }
    }
  }

  /** Every kept segment is non-blank, trimmed, and free of commas when the
      pieces are. */
  lemma {:induction false} SegmentsAreClean(parts: seq<string>)
    requires forall i | 0 <= i < |parts| :: ',' !in parts[i]
    ensures forall i | 0 <= i < |Segments(parts)| ::
      Segments(parts)[i] != "" && Trim(Segments(parts)[i]) == Segments(parts)[i] && ',' !in Segments(parts)[i]
  {
    if |parts| > 0 {
      SegmentsAreClean(parts[..|parts| - 1]);
      var last := parts[|parts| - 1];
      TrimIsSlice(last);
      if Trim(last) != "" {
        TrimIdempotent(last);
      }
    }
  }

  /** Trimming keeps a contiguous piece of the string. */
  lemma TrimIsSlice(s: string)
    ensures exists i, j | 0 <= i <= j <= |s| :: Trim(s) == s[i..j]
  {
    TrimStartStops(s);
    var t := TrimStart(s);
    TrimEndStops(t);
    var i := |s| - |t|;
    assert t == s[i..];
    assert Trim(s) == t[..|TrimEnd(t)|] == s[i..i + |TrimEnd(t)|];
  }

  /** A trimmed string that is not empty starts and ends with non-space, so
      trimming it again changes nothing. */
  lemma TrimIdempotent(s: string)
    requires Trim(s) != ""
    ensures Trim(Trim(s)) == Trim(s)
  {
    var t := Trim(s);
    TrimmedEnds(s);
    assert TrimStart(t) == t;
    assert TrimEnd(t) == t;
  }

  /** The address segments of a shipping address. */
  function AddressSegments(address: string): seq<string> {
    Segments(Split(address, ','))
  }

  /** Segments placed one below the other from `y`. */
  function Stacked(segs: seq<string>, y: int): (ls: seq<Line>)
    ensures |ls| == |segs|
    ensures forall i | 0 <= i < |segs| :: ls[i] == Line(segs[i], y + AddressLineHeight * i)
  {
    seq(|segs|, i requires 0 <= i < |segs| => Line(segs[i], y + AddressLineHeight * i))
  }

  // ---------------------------------------------------------------------------
  // Item rows
  // ---------------------------------------------------------------------------

  /** The cursor, the page, and the rows placed so far. */
  datatype Cursor = Cursor(y: int, page: nat, rows: seq<Row>)

  /** One row: a page break first when the cursor is past the row threshold,
      then the row at the cursor, then the cursor one row lower. */
  function PlaceRow(c: Cursor, item: OrderItem): Cursor {
    var y := if c.y > RowBreak then BreakTop else c.y;
    var page := if c.y > RowBreak then c.page + 1 else c.page;
    var i := |c.rows|;
    Cursor(y + RowHeight, page,
           c.rows + [Row(i, item.productName, y, page, i % 2 == 0, item.productPrice * item.quantity)])
  }

  /** The rows of the items in order. */
  function PlaceRows(c: Cursor, items: seq<OrderItem>): (r: Cursor)
    ensures |r.rows| == |c.rows| + |items| && r.rows[..|c.rows|] == c.rows
    ensures r.page >= c.page
    decreases |items|
  {
    if |items| == 0 then c else PlaceRow(PlaceRows(c, items[..|items| - 1]), items[|items| - 1])
  }

  /** Every row is drawn on a page between the header and the row threshold,
      striped exactly at even positions, with the item's name and its total
      price; the cursor never rises above the break top, and pages only grow. */
  lemma {:induction false} RowsStayOnPage(c: Cursor, items: seq<OrderItem>)
    requires c.y >= BreakTop && c.rows == []
    ensures PlaceRows(c, items).y >= BreakTop
    ensures PlaceRows(c, items).page >= c.page
    ensures |PlaceRows(c, items).rows| == |items|
    ensures forall i | 0 <= i < |items| ::
      var r := PlaceRows(c, items).rows[i];
      && BreakTop <= r.y <= RowBreak
      && r.index == i && r.name == items[i].productName
      && r.striped == (i % 2 == 0)
      && r.total == items[i].productPrice * items[i].quantity
      && c.page <= r.page <= PlaceRows(c, items).page
    decreases |items|
  {
    if |items| > 0 {
      var init := items[..|items| - 1];
      RowsStayOnPage(c, init);
      forall i | 0 <= i < |init|
        ensures init[i] == items[i]
      {
      }
    }
  }

  // ---------------------------------------------------------------------------
  // Summary
  // ---------------------------------------------------------------------------

  /** The summary's first baseline and page, breaking the page first when the
      cursor is past `threshold`. */
  function SummaryAt(y: int, page: nat, threshold: int): (r: (int, nat))
    ensures y > threshold ==> r == (BreakTop + SummaryGap, page + 1)
    ensures y <= threshold ==> r == (y + SummaryGap, page)
  {
    if y > threshold then (BreakTop + SummaryGap, page + 1) else (y + SummaryGap, page)
  }

  /** The lowest baseline the generator writes, for a summary starting at `footerY`. */
  function LastBaseline(footerY: int): int {
    footerY + PaymentGap + PaymentDepth
  }

  // ---------------------------------------------------------------------------
  // The whole layout
  // ---------------------------------------------------------------------------

  datatype Layout = Layout(
    invoiceNumber: Line,
    tracking: Option<Line>,
    customer: Line,
    address: seq<Line>,
    tableTop: int,
    rows: seq<Row>,
    footerY: int,
    footerPage: nat,
    paymentLines: seq<Line>,
    lastBaseline: int)

  /** Where the customer block starts. */
  const CustomerTop := HeaderBottom + 60
  /** Where the address starts. */
  const AddressTop := CustomerTop + 20

  /** Where the item table starts: 30 mm below the last address line. */
  function TableTop(order: Order): int {
    AddressTop + AddressLineHeight * |AddressSegments(order.shippingAddress)| + 30
  }

  /** The cursor after the last item row. */
  function RowsEnd(order: Order): Cursor {
    PlaceRows(Cursor(TableTop(order) + TableHeaderHeight, 1, []), order.items)
  }

  /** The summary's first baseline and page. */
  function Footer(order: Order): (int, nat) {
    SummaryAt(RowsEnd(order).y, RowsEnd(order).page, SummaryBreak)
  }

  /** The layout the generator produces for an order. */
  function InvoiceLayout(order: Order): (l: Layout)
    ensures forall p | p in l.paymentLines :: l.footerY < p.y <= l.lastBaseline
  {
    var footerY := Footer(order).0;
    Layout(Line("Invoice no: " + InvoiceNumber(order.id), HeaderBottom), TrackingLine(order),
           Line(Upper(order.customerName), CustomerTop + 10), Stacked(AddressSegments(order.shippingAddress), AddressTop),
           TableTop(order), RowsEnd(order).rows, footerY, Footer(order).1, PaymentLines(order, footerY + PaymentGap),
           LastBaseline(footerY))
  }

  /** The rows of an invoice, before the summary: one per item, each
      between the header and the row threshold, with its total and stripe. */
  lemma RowsEndBounds(order: Order)
    ensures RowsEnd(order).y >= BreakTop
    ensures |RowsEnd(order).rows| == |order.items|
    ensures forall i | 0 <= i < |order.items| ::
      && BreakTop <= RowsEnd(order).rows[i].y <= RowBreak
      && RowsEnd(order).rows[i].total == order.items[i].productPrice * order.items[i].quantity
      && RowsEnd(order).rows[i].striped == (i % 2 == 0)
  {
    RowsStayOnPage(Cursor(TableTop(order) + TableHeaderHeight, 1, []), order.items);
  }

  /** Every row lies between the header and the row threshold, and the
      summary starts no lower than 250 (and below the header). */
  lemma LayoutBounds(order: Order)
    ensures |InvoiceLayout(order).rows| == |order.items|
    ensures forall i | 0 <= i < |order.items| ::
      && BreakTop <= InvoiceLayout(order).rows[i].y <= RowBreak
      && InvoiceLayout(order).rows[i].total == order.items[i].productPrice * order.items[i].quantity
      && InvoiceLayout(order).rows[i].striped == (i % 2 == 0)
    ensures BreakTop + SummaryGap <= InvoiceLayout(order).footerY <= SummaryBreak + SummaryGap
  {
    RowsEndBounds(order);
    assert InvoiceLayout(order).rows == RowsEnd(order).rows;
    assert InvoiceLayout(order).footerY == Footer(order).0;
  }

  /** The address lines are exactly the trimmed, non-blank comma-separated
      pieces of the shipping address, 5 mm apart from the address top, and
      the table starts 30 mm below the last of them. */
  lemma AddressLayout(order: Order)
    ensures |InvoiceLayout(order).address| == |AddressSegments(order.shippingAddress)|
    ensures forall i | 0 <= i < |InvoiceLayout(order).address| ::
      var l := InvoiceLayout(order).address[i];
      l.text != "" && ',' !in l.text && l.y == AddressTop + AddressLineHeight * i
    ensures InvoiceLayout(order).tableTop == AddressTop + AddressLineHeight * |InvoiceLayout(order).address| + 30
  {
    SegmentsAreClean(Split(order.shippingAddress, ','));
  }

  // ---------------------------------------------------------------------------
  // The generator's state, step by step
  // ---------------------------------------------------------------------------

  /** The cursor the generator's closures share, with the page count and
      what has been placed so far. */
  class InvoiceCursor {
    var currentY: int
    var page: nat
    var address: seq<Line>
    var rows: seq<Row>

    /** A blank first page, cursor at the top. */
    constructor ()
      ensures currentY == 0 && page == 1 && address == [] && rows == []
    {
      currentY := 0;
      page := 1;
      address := [];
      rows := [];
    }

    /** `addPageHeader`: the banner leaves the cursor at 50. */
    method AddPageHeader()
      modifies this
      ensures currentY == HeaderBottom
      ensures page == old(page) && address == old(address) && rows == old(rows)
    {
      currentY := HeaderBottom;
    }

    /** `drawTableHeader`: the column titles, then 14 mm lower. */
    method DrawTableHeader()
      modifies this
      ensures currentY == old(currentY) + TableHeaderHeight
      ensures page == old(page) && address == old(address) && rows == old(rows)
    {
      currentY := currentY + TableHeaderHeight;
    }

    /** `addPageBreak`: a new page with its header and table header. */
    method AddPageBreak()
      modifies this
      ensures currentY == BreakTop && page == old(page) + 1
      ensures address == old(address) && rows == old(rows)
    {
      page := page + 1;
      currentY := 20;
      AddPageHeader();
      DrawTableHeader();
    }

    /** The first page down to the rule above the table: the header, the
        invoice number and tracking lines, the customer's name and address,
        and the gap before the table. */
    method PlaceHeading(order: Order) returns (number: Line, tracking: Option<Line>, customer: Line)
      modifies this
      ensures number == Line("Invoice no: " + InvoiceNumber(order.id), HeaderBottom)
      ensures tracking == TrackingLine(order)
      ensures customer == Line(Upper(order.customerName), CustomerTop + 10)
      ensures address == old(address) + Stacked(AddressSegments(order.shippingAddress), AddressTop)
      ensures currentY == AddressTop + AddressLineHeight * |AddressSegments(order.shippingAddress)| + 30
      ensures page == old(page) && rows == old(rows)
    {
      AddPageHeader();
      number := Line("Invoice no: " + InvoiceNumber(order.id), currentY);
      tracking := TrackingLine(order);
      currentY := currentY + 60;
      customer := Line(Upper(order.customerName), currentY + 10);
      currentY := currentY + 20;
      PlaceAddress(Split(order.shippingAddress, ','));
      currentY := currentY + 20;
      currentY := currentY + 10;
    }

    /** The address loop: each non-blank trimmed piece is placed at the
        cursor, which then moves 5 mm down. */
    method PlaceAddress(parts: seq<string>)
      modifies this
      ensures address == old(address) + Stacked(Segments(parts), old(currentY))
      ensures currentY == old(currentY) + AddressLineHeight * |Segments(parts)|
      ensures page == old(page) && rows == old(rows)
    {
      ghost var y0 := currentY;
      ghost var a0 := address;
      for i := 0 to |parts|
        invariant address == a0 + Stacked(Segments(parts[..i]), y0)
        invariant currentY == y0 + AddressLineHeight * |Segments(parts[..i])|
        invariant page == old(page) && rows == old(rows)
      {
        assert parts[..i + 1][..i] == parts[..i];
        var line := Trim(parts[i]);
        if line != "" {
          address := address + [Line(line, currentY)];
          currentY := currentY + AddressLineHeight;
        }
      }
      assert parts[..|parts|] == parts;
    }

    /** The row loop: a page break when the cursor is past 270, then the row,
        then 12 mm lower. */
    method PlaceItems(items: seq<OrderItem>)
      requires rows == []
      modifies this
      ensures Cursor(currentY, page, rows) == PlaceRows(Cursor(old(currentY), old(page), []), items)
      ensures address == old(address)
    {
      ghost var start := Cursor(currentY, page, []);
      for i := 0 to |items|
        invariant Cursor(currentY, page, rows) == PlaceRows(start, items[..i])
        invariant |rows| == i
        invariant address == old(address)
      {
        assert items[..i + 1][..i] == items[..i];
        if currentY > RowBreak {
          AddPageBreak();
        }
        var item := items[i];
        rows := rows + [Row(i, item.productName, currentY, page, i % 2 == 0, item.productPrice * item.quantity)];
        currentY := currentY + RowHeight;
      }
      assert items[..|items|] == items;
    }

    /** The table header, then the rows below it. */
    method PlaceTable(items: seq<OrderItem>)
      requires rows == []
      modifies this
      ensures Cursor(currentY, page, rows) == PlaceRows(Cursor(old(currentY) + TableHeaderHeight, old(page), []), items)
      ensures address == old(address)
    {
      DrawTableHeader();
      PlaceItems(items);
    }

    /** The summary's first baseline and page: a page break first when the
        cursor is past 240. */
    method PlaceSummary() returns (footerY: int, footerPage: nat)
      modifies this
      ensures (footerY, footerPage) == SummaryAt(old(currentY), old(page), SummaryBreak)
      ensures address == old(address) && rows == old(rows)
    {
      if currentY > SummaryBreak {
        AddPageBreak();
      }
      footerY, footerPage := currentY + SummaryGap, page;
    }
  }

  /** `generateInvoicePDF`, reduced to its layout. */
  method GenerateInvoice(order: Order) returns (layout: Layout)
    ensures layout == InvoiceLayout(order)
  {
    var cursor := new InvoiceCursor();
    var number, tracking, customer := cursor.PlaceHeading(order);
    var tableTop := cursor.currentY;
    cursor.PlaceTable(order.items);
    assert Cursor(cursor.currentY, cursor.page, cursor.rows) == RowsEnd(order);
    var footerY, footerPage := cursor.PlaceSummary();
    var paymentY := footerY + PaymentGap;
    layout := Layout(number, tracking, customer, cursor.address, tableTop, cursor.rows, footerY, footerPage,
                     PaymentLines(order, paymentY), LastBaseline(footerY));
  }


  // ---------------------------------------------------------------------------
  // The summary threshold leaves too little room
  // ---------------------------------------------------------------------------

  /** As written, an order of two items with no address lines leaves the
      cursor at 198, below no threshold, and the payment block's last line
      lands below the bottom of the page. */
  lemma FooterOverflowsPage()
    ensures var order := Order("", "", "", None, None, None, None, None, [OrderItem("", 0, 1), OrderItem("", 0, 1)]);
      InvoiceLayout(order).lastBaseline > PageHeight
  {
    var order := Order("", "", "", None, None, None, None, None, [OrderItem("", 0, 1), OrderItem("", 0, 1)]);
    assert Split("", ',') == [""];
    assert Trim("") == "";
    assert AddressSegments("") == [];
    var c0 := Cursor(AddressTop + 30 + TableHeaderHeight, 1, []);
    assert order.items[..1][..0] == [];
    assert PlaceRows(c0, order.items[..1]).y == 186;
    assert PlaceRows(c0, order.items).y == 198;
  }

  /** Any summary the row threshold lets start between 186 and 240 pushes
      the payment block off the page. */
  lemma SummaryThresholdTooLow(y: int, page: nat)
    requires PageHeight - (SummaryGap + PaymentGap + PaymentDepth) < y <= SummaryBreak
    ensures LastBaseline(SummaryAt(y, page, SummaryBreak).0) > PageHeight
  {
  }

  /** The threshold that leaves room for the whole summary and payment block. */
  const FittingBreak := PageHeight - (SummaryGap + PaymentGap + PaymentDepth)

  /** The summary placement with the threshold that fits: whatever the
      cursor below the header, every line down to the last one stays on the
      page. */
  function FittingSummaryAt(y: int, page: nat): (r: (int, nat))
    requires y >= BreakTop
    ensures BreakTop + SummaryGap <= r.0 && LastBaseline(r.0) <= PageHeight
    ensures r.1 == page || r.1 == page + 1
  {
    SummaryAt(y, page, FittingBreak)
  }
}
