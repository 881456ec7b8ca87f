/**
 * `createOrderEmail`: the order e-mail, described by a view (title,
 * greeting, date, one row per order item, total) and a rendering of it. The
 * formatted order date is an input.
 */
module Email {
  import opened Text
  import opened Numbers

  datatype EmailItem = EmailItem(product_title: string, quantity: int, line_total: Num)

  datatype EmailOrder = EmailOrder(customer_name: string, order_items: seq<EmailItem>, total_amount: Num)

  datatype EmailRow = EmailRow(product: string, quantity: string, price: string)

  datatype EmailView = EmailView(title: string, customerName: string, orderDate: string, rows: seq<EmailRow>, total: string)

  const ConfirmationTitle := "Order Confirmation"
  const ThanksTitle := "Thank You for Your Order!"

  /** `$${amount.toFixed(2)}`. */
  function Dollars(x: Num): string
  {
    "$" + ToFixed2(x)
  }

  /** One row: the title as stored, the quantity as text, the line total to two decimals. */
  function EmailRowFor(item: EmailItem): (row: EmailRow)
    ensures row.product == item.product_title
    ensures row.quantity == IntToString(item.quantity)
    ensures |row.price| > 0 && row.price[0] == '$' && row.price[1..] == ToFixed2(item.line_total)
  {
    EmailRow(item.product_title, IntToString(item.quantity), Dollars(item.line_total))
  }

  /** The e-mail for `order`, as the view it renders. */
  function ViewOf(order: EmailOrder, emailType: string, orderDate: string): (v: EmailView)
    ensures v.title == ConfirmationTitle <==> emailType == "confirmation"
    ensures v.title == ThanksTitle <==> emailType != "confirmation"
    ensures v.customerName == order.customer_name && v.orderDate == orderDate
    ensures |v.rows| == |order.order_items|
    ensures forall i :: 0 <= i < |v.rows| ==> v.rows[i] == EmailRowFor(order.order_items[i])
    ensures v.total == Dollars(order.total_amount)
  {
    EmailView(
      if emailType == "confirmation" then ConfirmationTitle else ThanksTitle,
      order.customer_name, orderDate,
      seq(|order.order_items|, i requires 0 <= i < |order.order_items| => EmailRowFor(order.order_items[i])),
      Dollars(order.total_amount))
  }

  /** The total line shows `total_amount`: changing the items leaves it as it was. */
  lemma TotalIgnoresItems(order: EmailOrder, items: seq<EmailItem>, emailType: string, orderDate: string)
    ensures ViewOf(order.(order_items := items), emailType, orderDate).total == ViewOf(order, emailType, orderDate).total
  {
  }

  /** A line total in whole cents is shown as exactly that amount. */
  lemma RowPriceReadsBack(item: EmailItem)
    requires item.line_total.Finite? && WholeCents(item.line_total.value)
    ensures ParseFloat(EmailRowFor(item).price[1..]) == item.line_total
  {
    ToFixed2RoundTrip(item.line_total.value);
  }

  /** A NaN line total would be shown as "$NaN", since `NaN.toFixed(2)` is "NaN". */
  lemma NaNLineTotalShown(item: EmailItem)
    requires item.line_total.NaN?
    ensures EmailRowFor(item).price == "$NaN"
  {
  }

  // The message's fixed markup, with the inline styles left out.
  const Opening := "<html><body><div><header><h1>"
  const GreetingStart := "</h1></header><section><p>Hi "
  const DateStart := ",</p><p>Thank you for your order placed on <strong>"
  const TableStart := "</strong>.</p><h3>Order Summary</h3><table><thead><tr><th>Product</th><th>Quantity</th><th>Price</th></tr></thead><tbody>"
  const TotalStart := "</tbody></table><h3>Total: "
  const Closing := "</h3></section><footer><p>For any questions, reach us at: <a href=\"mailto:contact@company.com\">contact@company.com</a></p></footer></div></body></html>"

  function EmailRowHtml(row: EmailRow): string
  {
    "<tr><td>" + row.product + "</td><td>" + row.quantity + "</td><td>" + row.price + "</td></tr>"
  }

  /** `order_items.map(row).join('')`. */
  function EmailRowsHtml(rows: seq<EmailRow>): string
  {
    if rows == [] then "" else EmailRowHtml(rows[0]) + EmailRowsHtml(rows[1..])
  }

  /** The rows of a table split in two render as the two parts one after the other. */
  lemma {:induction false} EmailRowsHtmlAppend(a: seq<EmailRow>, b: seq<EmailRow>)
    ensures EmailRowsHtml(a + b) == EmailRowsHtml(a) + EmailRowsHtml(b)
  {
    if a == [] {
      assert a + b == b;
    } else {
      assert (a + b)[0] == a[0] && (a + b)[1..] == a[1..] + b;
      EmailRowsHtmlAppend(a[1..], b);
    }
  }

  /** The message text: it opens with the title and closes with the total line and the footer. */
  function RenderEmail(v: EmailView): (r: string)
    ensures |r| >= |Opening + v.title| && r[..|Opening + v.title|] == Opening + v.title
    ensures |r| >= |v.total + Closing| && r[|r| - |v.total + Closing|..] == v.total + Closing
  {
    var front := Opening + v.title;
    var middle := GreetingStart + v.customerName + DateStart + v.orderDate + TableStart
      + EmailRowsHtml(v.rows) + TotalStart;
    var back := v.total + Closing;
    assert (front + middle + back)[..|front|] == front;
    assert (front + middle + back)[|front + middle|..] == back;
    front + middle + back
  }

  /** `createOrderEmail(order, type)` with the formatted order date supplied. */
  function CreateOrderEmail(order: EmailOrder, emailType: string, orderDate: string): (r: string)
    ensures emailType == "confirmation" ==>
      |r| >= |Opening + ConfirmationTitle| && r[..|Opening + ConfirmationTitle|] == Opening + ConfirmationTitle
    ensures emailType != "confirmation" ==>
      |r| >= |Opening + ThanksTitle| && r[..|Opening + ThanksTitle|] == Opening + ThanksTitle
    ensures var total := Dollars(order.total_amount) + Closing;
      |r| >= |total| && r[|r| - |total|..] == total
  {
    RenderEmail(ViewOf(order, emailType, orderDate))
  }
}
