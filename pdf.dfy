/**
 * `generate-pdf`: the quote or receipt document for a stored order, and the
 * conversion step that turns it into a PDF or falls back to the HTML. The
 * document is described by a view (every text it shows, with the defaults
 * for missing fields applied) and a rendering of that view; the generation
 * date is an input.
 */
module Pdf {
  import opened Wrappers
  import opened Text
  import opened Numbers

  /** An `order_items` row as read back; any field may be null. */
  datatype ItemRecord = ItemRecord(
    product_title: Option<string>, product_price: Option<Num>, quantity: Option<int>, line_total: Option<Num>)

  /** An `orders` row with its items; `order_items` is absent when the join yields nothing. */
  datatype StoredOrder = StoredOrder(
    order_number: string, customer_name: string, company_name: string, customer_email: string,
    customer_phone: string, event_name: string, event_start_date: Option<string>, event_end_date: Option<string>,
    shipping_address: Option<string>, message: Option<string>,
    shipping_cost: Option<Num>, collection_cost: Option<Num>, total_amount: Option<Num>,
    order_items: Option<seq<ItemRecord>>)

  const DefaultNote := "Chargers and cables will be included with the order."

  /** `text || fallback`: the empty string counts as missing. */
  function TextOr(o: Option<string>, fallback: string): (r: string)
    ensures o.Some? && o.value != "" ==> r == o.value
    ensures o.None? || o.value == "" ==> r == fallback
  {
    if o.Some? && o.value != "" then o.value else fallback
  }

  /** `Number(x || 0)`: null, NaN and 0 all become 0. */
  function AmountOr0(o: Option<Num>): (r: real)
    ensures o.Some? && o.value.Finite? ==> r == o.value.value
    ensures o.None? || o.value.NaN? ==> r == 0.0
  {
    if o.Some? && o.value.Finite? then o.value.value else 0.0
  }

  /** `$${Number(x || 0).toFixed(2)}`: a dollar amount that is never "NaN". */
  function Money(o: Option<Num>): string
  {
    "$" + ToFixed2(Finite(AmountOr0(o)))
  }

  datatype ItemRow = ItemRow(description: string, quantity: string, price: string, subtotal: string)

  /** What the document shows. `address` is the address row, present or not. */
  datatype DocumentView = DocumentView(
    title: string, orderNumber: string, generatedOn: string,
    startDate: string, endDate: string,
    customerName: string, company: string, email: string, phone: string, event: string,
    address: Option<string>, notes: string,
    rows: seq<ItemRow>, noItems: bool,
    delivery: string, pickup: string, grandTotal: string)

  /** The items the table is built from: `order.order_items || []`. */
  function Items(order: StoredOrder): seq<ItemRecord>
  {
    if order.order_items.Some? then order.order_items.value else []
  }

  /** One table row, with "Unknown Item", 0 and $0.00 standing in for missing fields. */
  function RowFor(item: ItemRecord): (row: ItemRow)
    ensures row.description == TextOr(item.product_title, "Unknown Item")
    ensures item.quantity.None? || item.quantity.value == 0 ==> row.quantity == "0"
    ensures item.quantity.Some? ==> row.quantity == IntToString(item.quantity.value)
    ensures row.price == Money(item.product_price) && row.subtotal == Money(item.line_total)
  {
    var q := if item.quantity.Some? then item.quantity.value else 0;
    ItemRow(TextOr(item.product_title, "Unknown Item"), IntToString(q), Money(item.product_price), Money(item.line_total))
  }

  /** `generateHTMLContent`, as the view it renders. */
  function View(order: StoredOrder, docType: string, today: string): (v: DocumentView)
    ensures v.title == "QUOTE" <==> docType == "quote"
    ensures v.title == "RECEIPT" <==> docType != "quote"
    ensures v.generatedOn == today && v.orderNumber == order.order_number
    ensures v.startDate == TextOr(order.event_start_date, "TBD") && v.endDate == TextOr(order.event_end_date, "TBD")
    ensures v.notes == TextOr(order.message, DefaultNote)
    ensures v.address.Some? <==> order.shipping_address.Some? && order.shipping_address.value != ""
    ensures v.address.Some? ==> v.address.value == order.shipping_address.value
    ensures |v.rows| == |Items(order)| && forall i :: 0 <= i < |v.rows| ==> v.rows[i] == RowFor(Items(order)[i])
    ensures v.noItems <==> order.order_items.None? || order.order_items.value == []
    ensures v.noItems <==> v.rows == []
    ensures v.delivery == Money(order.shipping_cost) && v.pickup == Money(order.collection_cost)
    ensures v.grandTotal == Money(order.total_amount)
  {
    var items := Items(order);
    DocumentView(
      if docType == "quote" then "QUOTE" else "RECEIPT",
      order.order_number, today,
      TextOr(order.event_start_date, "TBD"), TextOr(order.event_end_date, "TBD"),
      order.customer_name, order.company_name, order.customer_email, order.customer_phone, order.event_name,
      if order.shipping_address.Some? && order.shipping_address.value != "" then order.shipping_address else None,
      TextOr(order.message, DefaultNote),
      seq(|items|, i requires 0 <= i < |items| => RowFor(items[i])),
      order.order_items.None? || order.order_items.value == [],
      Money(order.shipping_cost), Money(order.collection_cost), Money(order.total_amount))
  }

  /** The grand total is the stored `total_amount`: the item rows play no part in it. */
  lemma GrandTotalIgnoresItems(order: StoredOrder, items: Option<seq<ItemRecord>>, docType: string, today: string)
    ensures View(order.(order_items := items), docType, today).grandTotal == View(order, docType, today).grandTotal
  {
  }

  /** Every amount is shown as "$", digits, a point and two decimals; missing or NaN amounts as "$0.00". */
  lemma MoneyShape(o: Option<Num>)
    ensures var r := Money(o);
      |r| >= 5 && r[0] == '$' && r[|r| - 3] == '.' && (r[1] == '-' <==> AmountOr0(o) < 0.0)
    ensures var r := Money(o); var k := if AmountOr0(o) < 0.0 then 2 else 1;
      k < |r| - 3 && AllDigits(r[k..|r| - 3]) && IsDigit(r[|r| - 2]) && IsDigit(r[|r| - 1])
    ensures o.None? || o.value.NaN? ==> Money(o) == "$0.00"
  {
    var r := Money(o);
    var f := ToFixed2(Finite(AmountOr0(o)));
    assert r[1..] == f;
    ToFixed2Digits(Finite(AmountOr0(o)));
    var k := if AmountOr0(o) < 0.0 then 2 else 1;
    assert r[k..|r| - 3] == f[k - 1..|f| - 3];
    if o.None? || o.value.NaN? {
      assert HalfUpCents(0.0) == 0;
      assert CentsText(0) == "0.00";
    }
  }

  /** A stored amount in whole cents is shown as exactly that amount. */
  lemma MoneyReadsBack(o: Option<Num>)
    requires WholeCents(AmountOr0(o))
    ensures ParseFloat(Money(o)[1..]) == Finite(AmountOr0(o))
  {
    assert Money(o)[1..] == ToFixed2(Finite(AmountOr0(o)));
    ToFixed2RoundTrip(AmountOr0(o));
  }

  // The page's fixed markup: document head and style sheet, banner, branch
  // address and table headings.
  const Head := "<!DOCTYPE html><html><head><meta charset=\"UTF-8\"><title>"
  const Style := "</title><style>/* print layout */</style></head><body><div class=\"document\">"
  const Banner := "<div class=\"header\">Global Event Technology Solutions Partner</div>"
  const Branch := "<div class=\"details-section\">CONTACT BRANCH: One World Rental USA Inc</div>"
  const TableHead := "<table class=\"items-table\"><thead><tr><th>Description</th><th>Quantity</th><th>Price</th><th>Subtotal</th></tr></thead><tbody>"
  const NoItemsRow := "<tr><td colspan=\"4\">No items found</td></tr>"
  const Tail := "</tbody></table><div class=\"footer-note\">*Chargers and cables will be included with the order.</div></div></body></html>"

  function Field(caption: string, value: string): string
  {
    "<div class=\"detail-row\"><span class=\"detail-label\">" + caption + "</span><span>" + value + "</span></div>"
  }

  function RowHtml(row: ItemRow): string
  {
    "<tr><td>" + row.description + "</td><td>" + row.quantity + "</td><td>" + row.price + "</td><td>"
      + row.subtotal + "</td></tr>"
  }

  /** `items.map(row).join('')`. */
  function RowsHtml(rows: seq<ItemRow>): string
  {
    if rows == [] then "" else RowHtml(rows[0]) + RowsHtml(rows[1..])
  }

  /** The rows of a table split in two render as the two parts one after the other. */
  lemma {:induction false} RowsHtmlAppend(a: seq<ItemRow>, b: seq<ItemRow>)
    ensures RowsHtml(a + b) == RowsHtml(a) + RowsHtml(b)
  {
    if a == [] {
      assert a + b == b;
    } else {
      assert (a + b)[0] == a[0] && (a + b)[1..] == a[1..] + b;
      RowsHtmlAppend(a[1..], b);
    }
  }

  function TotalRow(caption: string, amount: string): string
  {
    "<tr class=\"total-row\"><td colspan=\"3\">" + caption + "</td><td>" + amount + "</td></tr>"
  }

  /** The HTML text of a view. */
  function Render(v: DocumentView): string
  {
    Head + v.title + PageMiddle(v) + TotalRow("Total Estimated Cost:", v.grandTotal) + Tail
  }

  /** Everything between the title in the page head and the grand-total row. */
  function PageMiddle(v: DocumentView): string
  {
    " - " + v.orderNumber + Style + Banner
      + "<div class=\"document-info\"><span>" + v.title + "</span><span>Generated on: " + v.generatedOn + "</span></div>"
      + Field("Rental Start Date:", v.startDate) + Field("Rental End Date:", v.endDate) + Branch
      + Field("Name:", v.customerName) + Field("Company:", v.company) + Field("Email:", v.email)
      + Field("Phone:", v.phone) + Field("Event:", v.event)
      + (if v.address.Some? then Field("Address:", v.address.value) else "")
      + "<div class=\"section-header\">" + v.title + " NOTES</div><div>" + v.notes + "</div>"
      + TableHead + RowsHtml(v.rows) + (if v.noItems then NoItemsRow else "")
      + TotalRow("Delivery & Setup:", v.delivery) + TotalRow("Pickup & Collection:", v.pickup)
  }

  /** `generateHTMLContent(order, type)`. */
  function GenerateHtml(order: StoredOrder, docType: string, today: string): string
  {
    Render(View(order, docType, today))
  }

  /** The conversion service's outcome: no key configured, a non-OK reply, a reply without a URL, a thrown error, or the PDF. */
  datatype PdfService = NoServiceKey | NotOk(statusText: string) | NoUrl | Threw(message: string) | Downloaded(pdf: seq<bv8>)

  datatype Body = HtmlBody(html: string) | PdfBody(bytes: seq<bv8>)

  datatype PdfResult = PdfResult(success: bool, data: Body, filename: string, contentType: string, error: Option<string>)

  /** The message of the error the conversion attempt throws. */
  function ServiceError(s: PdfService): string
    requires s.NotOk? || s.NoUrl? || s.Threw?
  {
    match s
    case NotOk(status) => "PDF service error: " + status
    case NoUrl => "PDF generation failed"
    case Threw(m) => m
  }

  /**
   * `generatePDF`: the PDF under the requested name when the service delivers
   * one; otherwise the HTML under the name with its first ".pdf" turned into
   * ".html", marked successful only when no service is configured.
   */
  function GeneratePdf(html: string, filename: string, service: PdfService): (r: PdfResult)
    ensures r.contentType == "application/pdf" <==> service.Downloaded?
    ensures service.Downloaded? ==> r.success && r.data == PdfBody(service.pdf) && r.filename == filename
    ensures !service.Downloaded? ==>
      r.data == HtmlBody(html) && r.contentType == "text/html" && r.filename == ReplaceFirst(filename, ".pdf", ".html")
    ensures r.success <==> service.NoServiceKey? || service.Downloaded?
    ensures r.error.Some? <==> !r.success
    ensures r.error.Some? ==> r.error.value == ServiceError(service)
  {
    match service
    case NoServiceKey => PdfResult(true, HtmlBody(html), ReplaceFirst(filename, ".pdf", ".html"), "text/html", None)
    case Downloaded(bytes) => PdfResult(true, PdfBody(bytes), filename, "application/pdf", None)
    case _ => PdfResult(false, HtmlBody(html), ReplaceFirst(filename, ".pdf", ".html"), "text/html", Some(ServiceError(service)))
  }

  /** With no '.' in the type or the order number, the fallback name is `<type>_<number>.html`. */
  lemma FallbackFilename(docType: string, orderNumber: string)
    requires forall i :: 0 <= i < |docType| ==> docType[i] != '.'
    requires forall i :: 0 <= i < |orderNumber| ==> orderNumber[i] != '.'
    ensures ReplaceFirst(PdfName(docType, orderNumber), ".pdf", ".html") == docType + "_" + orderNumber + ".html"
  {
    var a := docType + "_" + orderNumber;
    var pat := ".pdf";
    var x := a + pat;
    forall j | 0 <= j < |a| ensures !OccursAt(x, pat, j) {
      if j < |docType| {
        assert a[j] == docType[j];
      } else if j > |docType| {
        assert a[j] == orderNumber[j - |docType| - 1];
      }
      assert x[j] == a[j] != '.';
      if j + |pat| <= |x| {
        assert x[j..j + |pat|][0] == x[j];
      }
    }
    ReplaceOnlySuffix(a, pat, ".html");
  }

  /** How the order lookup ended. */
  datatype OrderLookup = QueryFailed(message: string) | NotFound | Found(order: StoredOrder)

  /** The handler's reply: the PDF file, the HTML fallback (status 200), or an error (status 500). */
  datatype PdfReply =
    | PdfFile(bytes: seq<bv8>, filename: string)
    | HtmlFallback(html: string, filename: string, error: string)
    | Failure(error: string)

  const NoServiceNote := "PDF service unavailable, returning HTML"

  /** `${type}_${order.order_number}.pdf`. */
  function PdfName(docType: string, orderNumber: string): string
  {
    docType + "_" + orderNumber + ".pdf"
  }

  /**
   * The reply for a generated document: the PDF when the service delivered
   * one, otherwise the HTML with the fallback name and the error, or a note
   * when there is no error message.
   */
  function Deliver(html: string, filename: string, service: PdfService): (reply: PdfReply)
    ensures reply.PdfFile? <==> service.Downloaded?
    ensures reply.PdfFile? ==> reply == PdfFile(service.pdf, filename)
    ensures reply.HtmlFallback? <==> !service.Downloaded?
    ensures reply.HtmlFallback? ==>
      reply.html == html && reply.filename == ReplaceFirst(filename, ".pdf", ".html")
    ensures reply.HtmlFallback? && service.NoServiceKey? ==> reply.error == NoServiceNote
    ensures reply.HtmlFallback? && !service.NoServiceKey? ==>
      reply.error == if ServiceError(service) != "" then ServiceError(service) else NoServiceNote
  {
    var result := GeneratePdf(html, filename, service);
    if result.success && result.contentType == "application/pdf" then
      PdfFile(result.data.bytes, result.filename)
    else
      HtmlFallback(html, result.filename,
        if result.error.Some? && result.error.value != "" then result.error.value else NoServiceNote)
  }

  /** The handler, given how the order lookup ended. */
  function HandlePdfRequest(lookup: OrderLookup, docType: string, today: string, service: PdfService): (reply: PdfReply)
    ensures lookup.QueryFailed? ==> reply == Failure("Failed to fetch order: " + lookup.message)
    ensures lookup.NotFound? ==> reply == Failure("Order not found")
    ensures reply.Failure? <==> !lookup.Found?
    ensures lookup.Found? ==>
      reply == Deliver(GenerateHtml(lookup.order, docType, today), PdfName(docType, lookup.order.order_number), service)
  {
    match lookup
    case QueryFailed(m) => Failure("Failed to fetch order: " + m)
    case NotFound => Failure("Order not found")
    case Found(order) => Deliver(GenerateHtml(order, docType, today), PdfName(docType, order.order_number), service)
  }
}
