/**
 * `create-order`: store an order header and its item rows, then open a
 * payment for the order. The order-number service, the two inserts, the
 * payment provider and the final update are collaborators passed in as
 * functions; the handler returns, beside its reply, the calls it made in
 * order, so that its early exits can be stated.
 */
module Orders {
  import opened Wrappers
  import opened Text
  import opened Numbers

  /** `customerData` as the checkout form sends it. */
  datatype Customer = Customer(
    name: string, email: string, phone: string, company: string, event_name: string,
    event_date: Option<string>, event_end_date: Option<string>, postal_code: Option<string>,
    shipping_details: Option<string>, message: Option<string>)

  /** A cart item's `price` as it arrives in JSON: text, a number, or anything else. */
  datatype JsonPrice = PriceText(text: string) | PriceNumber(number: real) | PriceOther

  datatype RequestItem = RequestItem(id: int, title: string, price: JsonPrice, quantity: int)

  datatype OrderRequest = OrderRequest(
    customer: Customer, cartItems: seq<RequestItem>,
    shippingCost: real, collectionCost: real, subtotal: real, totalAmount: real)

  /** The `orders` row that is inserted. */
  datatype OrderHeader = OrderHeader(
    order_number: Option<string>, customer_name: string, customer_email: string, customer_phone: string,
    company_name: string, event_name: string, event_start_date: Option<string>, event_end_date: Option<string>,
    zip_code: Option<string>, shipping_address: Option<string>, message: Option<string>,
    subtotal: real, shipping_cost: real, collection_cost: real, total_amount: real, status: string)

  /** An `order_items` row; a NaN price or total is stored as null. */
  datatype OrderItemRow = OrderItemRow(
    order_id: string, product_id: int, product_title: string, product_price: Num, quantity: int, line_total: Num)

  datatype PaymentIntent = PaymentIntent(id: string, client_secret: string)

  /** The reply on success. */
  datatype Created = Created(order_id: string, order_number: Option<string>, client_secret: string, amount: real)

  /** One call to a collaborator, in the order the handler makes them. */
  datatype Step =
    | GenerateOrderNumber
    | InsertOrder(header: OrderHeader)
    | InsertItems(rows: seq<OrderItemRow>)
    | CreatePayment(amountCents: int, orderId: string, orderNumber: Option<string>)
    | UpdateOrder(orderId: string, paymentIntentId: string)

  const Pending := "pending"

  /** The characters `[0-9.]` that survive price cleaning. */
  predicate IsPriceChar(c: char) { IsDigit(c) || c == '.' }

  /**
   * The unit price stored for a cart item: text is stripped of everything
   * but digits and points and then parsed, a number is kept, anything else is 0.
   */
  function UnitPrice(p: JsonPrice): (r: Num)
    ensures p.PriceNumber? ==> r == Finite(p.number)
    ensures p.PriceOther? ==> r == Finite(0.0)
    ensures p.PriceText? && r.Finite? ==> r.value >= 0.0
  {
    match p
    case PriceText(s) =>
      var cleaned := Keep(s, IsPriceChar);
      assert cleaned == [] || IsDigit(cleaned[0]) || cleaned[0] == '.';
      assert LeadingSpace(cleaned) == 0 by {
        if cleaned != [] { assert !IsJsSpace(cleaned[0]); }
      }
      assert cleaned[0..] == cleaned;
      ParseFloat(cleaned)
    case PriceNumber(v) => Finite(v)
    case PriceOther => Finite(0.0)
  }

  /** The header: customer fields copied over, amounts stored as sent (not recomputed), status "pending". */
  function Header(req: OrderRequest, orderNumber: Option<string>): (h: OrderHeader)
    ensures h.status == Pending && h.order_number == orderNumber
    ensures h.subtotal == req.subtotal && h.shipping_cost == req.shippingCost
    ensures h.collection_cost == req.collectionCost && h.total_amount == req.totalAmount
    ensures h.customer_name == req.customer.name && h.customer_email == req.customer.email
    ensures h.zip_code == req.customer.postal_code && h.shipping_address == req.customer.shipping_details
    ensures h.customer_phone == req.customer.phone && h.company_name == req.customer.company
    ensures h.event_name == req.customer.event_name && h.message == req.customer.message
    ensures h.event_start_date == req.customer.event_date && h.event_end_date == req.customer.event_end_date
  {
    var c := req.customer;
    OrderHeader(orderNumber, c.name, c.email, c.phone, c.company, c.event_name, c.event_date, c.event_end_date,
      c.postal_code, c.shipping_details, c.message,
      req.subtotal, req.shippingCost, req.collectionCost, req.totalAmount, Pending)
  }

  /** `cartItems.map(...)`: one row per cart item, in order, for the new order. */
  function OrderItems(items: seq<RequestItem>, orderId: string): (rows: seq<OrderItemRow>)
    ensures |rows| == |items|
    ensures forall i :: 0 <= i < |items| ==>
      && rows[i].order_id == orderId
      && rows[i].product_id == items[i].id
      && rows[i].product_title == items[i].title
      && rows[i].quantity == items[i].quantity
      && rows[i].product_price == UnitPrice(items[i].price)
      && rows[i].line_total == Times(rows[i].product_price, rows[i].quantity)
  {
    seq(|items|, i requires 0 <= i < |items| =>
      var price := UnitPrice(items[i].price);
      OrderItemRow(orderId, items[i].id, items[i].title, price, items[i].quantity, Times(price, items[i].quantity)))
  }

  /** The items for a cart split in two are the items of each part, concatenated. */
  lemma OrderItemsAppend(a: seq<RequestItem>, b: seq<RequestItem>, orderId: string)
    ensures OrderItems(a + b, orderId) == OrderItems(a, orderId) + OrderItems(b, orderId)
  {
    var l, r := OrderItems(a + b, orderId), OrderItems(a, orderId) + OrderItems(b, orderId);
    forall i | 0 <= i < |l| ensures l[i] == r[i] {
      if i < |a| { assert (a + b)[i] == a[i]; } else { assert (a + b)[i] == b[i - |a|]; }
    }
  }

  /** The amount sent to the payment provider: `Math.round(totalAmount * 100)` cents. */
  function PaymentCents(total: real): (c: int)
    ensures total * 100.0 - 0.5 < c as real <= total * 100.0 + 0.5
  {
    MathRound(total * 100.0)
  }

  /** A total in whole cents is charged exactly. */
  lemma PaymentCentsExact(total: real)
    requires WholeCents(total)
    ensures Cents(PaymentCents(total)) == total
  {
    var k := (total * 100.0).Floor;
    assert total * 100.0 + 0.5 == k as real + 0.5;
    assert PaymentCents(total) == k;
  }

  /** A display price such as "From: $39.75" or "From: £39.75" loses its prefix and is read as the amount. */
  lemma PrefixedPriceParses(prefix: string, c: nat)
    requires forall i :: 0 <= i < |prefix| ==> !IsPriceChar(prefix[i])
    ensures UnitPrice(PriceText(prefix + CentsText(c))) == Finite(Cents(c))
  {
    var t := CentsText(c);
    StripPrefix(prefix, c);
    assert UnitPrice(PriceText(prefix + t)) == ParseFloat(t);
    CentsTextParsesAsFloat(c);
  }

  lemma StripPrefix(prefix: string, c: nat)
    requires forall i :: 0 <= i < |prefix| ==> !IsPriceChar(prefix[i])
    ensures Keep(prefix + CentsText(c), IsPriceChar) == CentsText(c)
  {
    var t := CentsText(c);
    KeepNone(prefix);
    KeepAppend(prefix, t, IsPriceChar);
    CentsTextChars(c);
    KeepAllKept(t, IsPriceChar);
    assert [] + t == t;
  }

  lemma {:induction false} KeepNone(s: string)
    requires forall i :: 0 <= i < |s| ==> !IsPriceChar(s[i])
    ensures Keep(s, IsPriceChar) == []
  {
    if s != [] {
      KeepNone(s[1..]);
    }
  }

  lemma CentsTextChars(c: nat)
    ensures forall i :: 0 <= i < |CentsText(c)| ==> IsPriceChar(CentsText(c)[i])
  {
    var q := NatToString(c / 100);
    assert CentsText(c) == q + "." + [DigitChar(c % 100 / 10), DigitChar(c % 100 % 10)];
  }

  /** "From: $39.75" is stored as 39.75. */
  lemma DollarDisplayPrice()
    ensures UnitPrice(PriceText("From: $" + CentsText(3975))) == Finite(39.75)
  {
    PrefixedPriceParses("From: $", 3975);
  }

  /** "From: £39.75", the catalog's own form, is stored as 39.75 as well: the pound sign is stripped with the rest. */
  lemma PoundDisplayPrice()
    ensures UnitPrice(PriceText("From: £" + CentsText(3975))) == Finite(39.75)
  {
    PrefixedPriceParses("From: £", 3975);
  }

  /** Text with no digit at all is stored as NaN, which makes the line total NaN too. */
  lemma PriceWithoutDigits(s: string, q: int)
    requires forall i :: 0 <= i < |s| ==> !IsDigit(s[i])
    ensures UnitPrice(PriceText(s)) == NaN && Times(UnitPrice(PriceText(s)), q) == NaN
  {
    var cleaned := Keep(s, IsPriceChar);
    assert forall i :: 0 <= i < |cleaned| ==> cleaned[i] == '.' by {
      KeepOnlyKept(s, cleaned);
    }
    DigitPrefixOfPoints(cleaned);
    if cleaned != [] && cleaned[0] == '.' {
      DigitPrefixOfPoints(cleaned[1..]);
    }
    assert cleaned[0..] == cleaned;
    assert ParseUnsigned(cleaned) == NaN;
    CleanedPriceIsUnsigned(s);
  }

  /** A cleaned price has no whitespace or sign in front, so `parseFloat` reads it as an unsigned number. */
  lemma CleanedPriceIsUnsigned(s: string)
    ensures UnitPrice(PriceText(s)) == ParseUnsigned(Keep(s, IsPriceChar))
  {
    var cleaned := Keep(s, IsPriceChar);
    assert cleaned == [] || IsDigit(cleaned[0]) || cleaned[0] == '.';
    UnsignedTextParses(cleaned);
  }

  lemma UnsignedTextParses(t: string)
    requires t == [] || IsDigit(t[0]) || t[0] == '.'
    ensures ParseFloat(t) == ParseUnsigned(t)
  {
    assert LeadingSpace(t) == 0 by {
      if t != [] { assert !IsJsSpace(t[0]); }
    }
    assert t[0..] == t;
  }

  lemma KeepOnlyKept(s: string, cleaned: string)
    requires forall i :: 0 <= i < |s| ==> !IsDigit(s[i])
    requires cleaned == Keep(s, IsPriceChar)
    ensures forall i :: 0 <= i < |cleaned| ==> cleaned[i] == '.'
  {
    forall i | 0 <= i < |cleaned| ensures cleaned[i] == '.' {
      KeptComeFrom(s, i);
    }
  }

  /** Every kept character is a character of the input. */
  lemma {:induction false} KeptComeFrom(s: string, i: int)
    requires 0 <= i < |Keep(s, IsPriceChar)|
    ensures Keep(s, IsPriceChar)[i] in s
  {
    var h := if IsPriceChar(s[0]) then [s[0]] else [];
    assert Keep(s, IsPriceChar) == h + Keep(s[1..], IsPriceChar);
    if i >= |h| {
      KeptComeFrom(s[1..], i - |h|);
      assert Keep(s[1..], IsPriceChar)[i - |h|] in s[1..];
    }
  }

  lemma DigitPrefixOfPoints(s: string)
    requires forall i :: 0 <= i < |s| ==> s[i] == '.'
    ensures DigitPrefix(s) == []
  {
    if s != [] {
      assert !IsDigit(s[0]);
    }
  }

  /**
   * The handler. `insertOrder` returns the new order's id or an error message,
   * `insertItems` an error message or nothing, `createPayment` the payment
   * intent or an error; the result of the final update is ignored.
   */
  method CreateOrder(
    req: OrderRequest,
    orderNumber: Option<string>,
    insertOrder: OrderHeader -> Result<string, string>,
    insertItems: seq<OrderItemRow> -> Option<string>,
    createPayment: (int, string, Option<string>) -> Result<PaymentIntent, string>)
    returns (r: Result<Created, string>, calls: seq<Step>)
    ensures |calls| >= 2 && calls[0] == GenerateOrderNumber && calls[1] == InsertOrder(Header(req, orderNumber))
    ensures insertOrder(Header(req, orderNumber)).Err? ==>
      r == Err(insertOrder(Header(req, orderNumber)).error) && |calls| == 2
    ensures insertOrder(Header(req, orderNumber)).Ok? ==>
      var id := insertOrder(Header(req, orderNumber)).value;
      var rows := OrderItems(req.cartItems, id);
      && |calls| >= 3 && calls[2] == InsertItems(rows)
      && (insertItems(rows).Some? ==> r == Err(insertItems(rows).value) && |calls| == 3)
      && (insertItems(rows).None? ==>
            var pay := createPayment(PaymentCents(req.totalAmount), id, orderNumber);
            && |calls| >= 4 && calls[3] == CreatePayment(PaymentCents(req.totalAmount), id, orderNumber)
            && (pay.Err? ==> r == Err(pay.error) && |calls| == 4)
            && (pay.Ok? ==>
                  && calls == calls[..4] + [UpdateOrder(id, pay.value.id)]
                  && r == Ok(Created(id, orderNumber, pay.value.client_secret, req.totalAmount))))
    ensures r.Ok? <==> |calls| == 5
  {
    calls := [GenerateOrderNumber];
    var header := Header(req, orderNumber);
    var inserted := insertOrder(header);
    calls := calls + [InsertOrder(header)];
    if inserted.Err? {
      return Err(inserted.error), calls;
    }
    var orderId := inserted.value;
    var rows := OrderItems(req.cartItems, orderId);
    var itemsError := insertItems(rows);
    calls := calls + [InsertItems(rows)];
    if itemsError.Some? {
      return Err(itemsError.value), calls;
    }
    var amount := PaymentCents(req.totalAmount);
    var payment := createPayment(amount, orderId, orderNumber);
    calls := calls + [CreatePayment(amount, orderId, orderNumber)];
    if payment.Err? {
      return Err(payment.error), calls;
    }
    calls := calls + [UpdateOrder(orderId, payment.value.id)];
    r := Ok(Created(orderId, orderNumber, payment.value.client_secret, req.totalAmount));
  }
}
