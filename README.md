# Event-rental storefront: cart, shipping, address, order and document logic in Dafny

This project models the deterministic core of an event-equipment rental
storefront and proves properties of it:

- **Cart store** (`cart.dfy`). This is the client-side `useCartStore`, modelled as a class `CartStore`.
  - The class holds the fields `items` and `isOpen`.
  - Its methods are `AddItem`, `RemoveItem`, `UpdateQuantity`, `ClearCart`, `OpenCart` and `CloseCart`. Each replaces `items` with a list computed by a pure function (`Added`, `Removed`, `Updated`).
  - The two totals are left folds, `TotalItems` and `TotalPrice`.
  - The class keeps the invariant that item ids are pairwise distinct.
- **ZIP validation** (`zipcode.dfy`). This logic is shared by `calculate-shipping` and `get-address`. It trims the input, keeps only digits and dashes, and matches `NNNNN` or `NNNNN-NNNN`.
- **Geocoding replies** (`geocoding.dfy`). This file holds the fields of a Google Geocoding reply that the handlers read. It also defines first-match and last-match searches over address components.
- **Shipping quote** (`shipping.dfy`). This models `calculate-shipping`:
  - it resolves the state, with California as the default;
  - it looks up the zone row, falling back to 75.00 + 75.00 and the zone name "<state> Zone";
  - it reports the total to two decimals.
- **Address lookup** (`address.dfy`). This models `get-address`:
  - it builds the fixed fallback record;
  - a loop extracts city, state and country, where the last matching component wins;
  - it composes `full_address`.
- **Order creation** (`orders.dfy`). This models `create-order`:
  - price normalisation;
  - the `order_items` rows;
  - the order header;
  - the payment amount in cents;
  - the step pipeline, with its early exits recorded as a trace of collaborator calls.
- **Documents** (`pdf.dfy`, `email.dfy`). These cover the quote/receipt document of `generate-pdf`, its PDF-or-HTML delivery, and the order e-mail of `createOrderEmail`. Each document is a view, meaning every text it shows with defaults applied, plus a rendering of that view.

JavaScript numbers are modelled in `numbers.dfy` as exact rationals or NaN (`Num`). The model defines `parseFloat`, `toFixed(2)` and `Math.round` on them. JavaScript's `trim`, character-class `replace` and first-occurrence string `replace` are in `text.dfy`.

Cart lines are keyed by `id` alone: two products with the same id and different categories share one line. `create-order` stores the client's `totalAmount` as sent; it does not recompute it from the items.

Collaborators are inputs of the handlers:
- the geocoding request (`Geocode`);
- the zone query (`zoneFor`);
- the reply of the order-number RPC (the value `orderNumber: Option<string>`);
- the inserts and the payment provider (function parameters of `CreateOrder`);
- the order query (`OrderLookup`);
- the HTML-to-PDF service (`PdfService`);
- the formatted dates.

## Model

| member | source | states |
|---|---|---|
| Text.Trim | supabase/functions/calculate-shipping/index.ts:17 | the result is the input minus leading and trailing JavaScript whitespace; it is empty exactly when the input is all whitespace |
| Text.TrimPadded | supabase/functions/get-address/index.ts:21 | whitespace around a text with non-space ends is exactly what trimming removes |
| Text.Keep | supabase/functions/calculate-shipping/index.ts:22 | a character-class `replace(/[^…]/g, '')` keeps only characters of the class |
| Text.KeepAppend | supabase/functions/create-order/index.ts:70 | stripping distributes over concatenation, so kept characters stay in order |
| Text.KeepIdempotent | supabase/functions/calculate-shipping/index.ts:22 | stripping twice is stripping once |
| Text.IndexOfFrom | src/store/cart.ts:69 | the index found is the first occurrence of the pattern at or after the start |
| Text.ReplaceFirst | src/store/cart.ts:69 | a string pattern replaces only its first occurrence; without one the text is unchanged |
| Text.ReplaceOnlySuffix | supabase/functions/generate-pdf/index.ts:379 | when the pattern occurs only as a suffix, exactly that suffix is replaced |
| Text.NatToStringRoundTrip | supabase/functions/calculate-shipping/index.ts:87 | the decimal text of a natural number reads back as that number |
| Text.DigitPrefixOf | src/store/cart.ts:69 | the digit run before a non-digit is what number parsing consumes |
| Numbers.Plus | src/store/cart.ts:70 | addition is NaN when either operand is NaN, otherwise the sum |
| Numbers.Times | supabase/functions/create-order/index.ts:83 | price × quantity is NaN exactly when the price is NaN |
| Numbers.MathRound | supabase/functions/create-order/index.ts:97 | `Math.round` is within one half of its argument |
| Numbers.ToFixed2 | supabase/functions/calculate-shipping/index.ts:87 | `toFixed(2)` shows "NaN" for NaN, otherwise exactly two decimals after a point, with a minus sign exactly for negative values |
| Numbers.ToFixed2Digits | supabase/functions/calculate-shipping/index.ts:87 | between the optional sign and the point `toFixed(2)` shows one or more digits |
| Numbers.RoundToCents | supabase/functions/calculate-shipping/index.ts:87 | the displayed value is within half a cent of the true one |
| Numbers.ParseFloat | src/store/cart.ts:69 | `parseFloat` of empty or all-whitespace text is NaN; a negative result needs a '-' right after the leading whitespace |
| Numbers.ParseFloatOfOtherStart | src/store/cart.ts:69 | text starting with anything but whitespace, a sign, a digit or a point is NaN |
| Numbers.ParseUnsigned | src/store/cart.ts:69 | a parsed number is non-negative, and text not starting with a digit or point is NaN |
| Numbers.CentsTextParsesBack | src/store/cart.ts:69 | two-decimal text of n cents parses back as n cents |
| Numbers.CentsTextParsesAsFloat | src/store/cart.ts:69 | `parseFloat` of two-decimal text of n cents is n cents |
| Numbers.ToFixed2ParsesBack | supabase/functions/calculate-shipping/index.ts:87 | what `toFixed(2)` shows reads back as the value rounded to the cent |
| Numbers.ToFixed2RoundTrip | supabase/functions/calculate-shipping/index.ts:87 | a whole-cent value survives `toFixed(2)` then `parseFloat` unchanged |
| Numbers.WholeCentsSum | supabase/functions/calculate-shipping/index.ts:87 | sums of whole-cent amounts are whole cents |
| Cart.Added | src/store/cart.ts:29-42 | after `addItem` the id is present; an existing line gains the quantity while the length and the other lines are unchanged; a new id appends one line at the end; distinct ids stay distinct |
| Cart.Incremented | src/store/cart.ts:34-36 | each line with the id gains the quantity; every other line is unchanged |
| Cart.AddedExisting | src/store/cart.ts:31-37 | with distinct ids, adding an existing product changes exactly that line's quantity |
| Cart.Removed | src/store/cart.ts:45-49 | after `removeItem` no line has the id; a line remains exactly when it was there with another id |
| Cart.RemoveDropsOnlyThatLine | src/store/cart.ts:45-49 | removing a present id drops exactly its line; the others keep their order |
| Cart.RemovedDistinct | src/store/cart.ts:45-49 | removing keeps ids distinct |
| Cart.Positives | src/store/cart.ts:55 | the filter keeps exactly the lines with a positive quantity |
| Cart.Updated | src/store/cart.ts:51-57 | after `updateQuantity` every quantity is positive and ids stay distinct |
| Cart.PositivesDistinct | src/store/cart.ts:55 | filtering keeps ids distinct |
| Cart.UpdateNonPositiveRemoves | src/store/cart.ts:51-57 | on a cart of positive quantities, updating to q ≤ 0 is removing the id |
| Cart.UpdatePositiveSets | src/store/cart.ts:51-57 | on a cart of positive quantities and distinct ids, updating to q > 0 sets exactly that line's quantity, and an absent id leaves the cart unchanged |
| Cart.UpdateSetsThenFilters | src/store/cart.ts:51-57 | on any cart with distinct ids, `updateQuantity(id, q)` is the cart with that one line set to max(0, q), then filtered to positive quantities; an absent id only filters |
| Cart.PositivesAppend | src/store/cart.ts:55 | the filter distributes over concatenation, so the remaining lines keep their order |
| Cart.WithQuantity | src/store/cart.ts:53-54 | the lines with the id take the new quantity; every other line is unchanged; the length and all ids are kept |
| Cart.TotalItems | src/store/cart.ts:63-65 | with non-negative quantities the item count is non-negative |
| Cart.TotalItemsAppend | src/store/cart.ts:63-65 | the item count of a concatenation is the sum of the counts |
| Cart.TotalItemsAtLeastLines | src/store/cart.ts:63-65 | with positive quantities the item count is at least the number of lines |
| Cart.TotalItemsReplaceAt | src/store/cart.ts:63-65 | replacing one line changes the count by the quantity difference |
| Cart.TotalItemsAfterAdd | src/store/cart.ts:29-43 | after `addItem(p, q)` the item count has grown by exactly q |
| Cart.LinePrice | src/store/cart.ts:69-70 | no contract; Cart.PoundPriceIsNaN and Cart.DollarPriceParses state its value |
| Cart.TotalPrice | src/store/cart.ts:67-72 | the price total is a number exactly when every line's price parses, and NaN otherwise |
| Cart.TotalPriceAppend | src/store/cart.ts:67-72 | the price total of a concatenation is the sum of the totals |
| Cart.TotalPriceReorder | src/store/cart.ts:67-72 | the price total does not depend on the order of the lines |
| Cart.PoundPriceIsNaN | src/store/cart.ts:69 | every catalog price "From: £…" keeps its head through the "From: $" replacement and yields NaN, whatever follows the "£" |
| Cart.PoundLineMakesTotalNaN | src/store/cart.ts:67-72 | a cart holding any line priced "From: £…" has a NaN total |
| Cart.DollarPriceParses | src/store/cart.ts:69-70 | a price "From: $<units>.<cents>" contributes exactly that amount times the quantity |
| Cart.StripDollar | src/store/cart.ts:69 | the "From: $" prefix is removed by the replacement |
| Cart.CartStore.GetTotalItems | src/store/cart.ts:63-65 | `getTotalItems` is `TotalItems` of the current lines: non-negative when every quantity is |
| Cart.CartStore.GetTotalPrice | src/store/cart.ts:67-72 | `getTotalPrice` is `TotalPrice` of the current lines: a number exactly when every line's price parses |
| Cart.CartStore.constructor | src/store/cart.ts:25-27 | the store starts with no items and closed |
| Cart.CartStore.AddItem | src/store/cart.ts:29-43 | items become `Added(old items)`; the open flag is unchanged; the item count grows by the quantity; ids stay distinct |
| Cart.CartStore.RemoveItem | src/store/cart.ts:45-49 | items become `Removed(old items)`; the open flag is unchanged; ids stay distinct |
| Cart.CartStore.UpdateQuantity | src/store/cart.ts:51-57 | items become `Updated(old items)`, all positive; ids stay distinct |
| Cart.CartStore.ClearCart | src/store/cart.ts:59 | items become empty and the open flag is unchanged |
| Cart.CartStore.OpenCart | src/store/cart.ts:60 | the cart is open, the items are unchanged and their ids stay distinct |
| Cart.CartStore.CloseCart | src/store/cart.ts:61 | the cart is closed, the items are unchanged and their ids stay distinct |
| Zip.CleanZip | supabase/functions/calculate-shipping/index.ts:22 | the cleaned ZIP holds only digits and dashes and is no longer than the input |
| Zip.ValidateZip | supabase/functions/calculate-shipping/index.ts:17-25 | a missing or blank ZIP is "ZIP code is required"; otherwise a cleaned ZIP outside the pattern is the format error; acceptance is exactly a blank-free input whose cleaned form matches, and yields the cleaned form |
| Zip.CleanZipIdempotent | supabase/functions/get-address/index.ts:21 | cleaning a cleaned ZIP changes nothing |
| Zip.AcceptedZipShape | supabase/functions/get-address/index.ts:22-24 | an accepted ZIP has length 5 or 10 and is all digits except a dash at position 5 |
| Zip.PaddedZipAccepted | supabase/functions/calculate-shipping/index.ts:21-25 | a well-formed ZIP with surrounding whitespace is accepted as itself |
| Zip.LettersRejected | supabase/functions/calculate-shipping/index.ts:22-24 | "ABCDE" cleans to "" and is rejected with the format error |
| Geocoding.FindFirst | supabase/functions/calculate-shipping/index.ts:46-48 | the index found is the first component of the type; none is found exactly when no component has it |
| Geocoding.FindLast | supabase/functions/get-address/index.ts:92-102 | the index found is the last component of the type; none is found exactly when no component has it |
| Geocoding.FindLastSnoc | supabase/functions/get-address/index.ts:92-102 | a newly seen matching component becomes the last match |
| Geocoding.FirstIsLastWhenUnique | supabase/functions/get-address/index.ts:96-98 | with a single match, the first and last match coincide |
| Shipping.StateComponent | supabase/functions/calculate-shipping/index.ts:41-55 | a state component is read only from an OK reply with results and components, and it is the first of its type; there is none otherwise |
| Shipping.ResolveState | supabase/functions/calculate-shipping/index.ts:34-61 | the state is "CA" unless a state component is found, and then its short name; no key, a failure or a non-OK status leave "CA" |
| Shipping.QuoteFor | supabase/functions/calculate-shipping/index.ts:76-85 | with no row the costs are 75 and 75; otherwise the row's costs; the zone name is the row's when non-empty, else "<state> Zone" |
| Shipping.QuoteShowsTotal | supabase/functions/calculate-shipping/index.ts:85-87 | every quote's `total_shipping` is `toFixed(2)` of its two costs' sum, so it has the two-decimal form `Numbers.ToFixed2` states |
| Shipping.TotalReadsBack | supabase/functions/calculate-shipping/index.ts:87 | `total_shipping` reads back as the two costs' sum rounded to the cent |
| Shipping.TotalIsExactSum | supabase/functions/calculate-shipping/index.ts:85-87 | with whole-cent costs, `total_shipping` reads back as exactly their sum |
| Shipping.FallbackTotal | supabase/functions/calculate-shipping/index.ts:76-87 | without a zone row `total_shipping` is "150.00" |
| Shipping.CalculateShipping | supabase/functions/calculate-shipping/index.ts:14-93 | an invalid ZIP gives its validation error; every valid ZIP gives the quote for the resolved state and its zone row, whatever geocoding did |
| Address.Fallback | supabase/functions/get-address/index.ts:29-41 | the fallback record is "<zip>, USA", Unknown City, Unknown, US, the ZIP, and a `full_address` composed from its own fields |
| Address.ExtractParts | supabase/functions/get-address/index.ts:88-102 | city is the long name of the last locality; state and country are the short names of the last state and country components; each is "" when absent |
| Address.UniqueStateIsRead | supabase/functions/get-address/index.ts:96-98 | a state component that occurs once supplies the state |
| Address.GetAddress | supabase/functions/get-address/index.ts:13-117 | validation errors pass through; unusable geocoding gives the fallback; missing components give an error; otherwise the extracted fields; every record carries the cleaned ZIP and `full_address` = "<city>, <state> <zip>, <country>" |
| Orders.UnitPrice | supabase/functions/create-order/index.ts:66-75 | a numeric price passes through, a non-string non-number is 0, and a parsed text price is never negative |
| Orders.Header | supabase/functions/create-order/index.ts:38-57 | the header has status "pending", the generated order number, and the amounts and customer fields as sent |
| Orders.OrderItems | supabase/functions/create-order/index.ts:66-85 | one row per cart item in order, with the new order's id, the item's id, title and quantity, the normalised price, and `line_total` = price × quantity |
| Orders.OrderItemsAppend | supabase/functions/create-order/index.ts:66 | the rows of a split cart are the rows of each part, concatenated |
| Orders.PaymentCents | supabase/functions/create-order/index.ts:97 | the amount charged is within half a cent of total × 100 |
| Orders.PaymentCentsExact | supabase/functions/create-order/index.ts:97 | a whole-cent total is charged exactly |
| Orders.PrefixedPriceParses | supabase/functions/create-order/index.ts:69-70 | a display price with any prefix free of digits and points is stored as its amount |
| Orders.StripPrefix | supabase/functions/create-order/index.ts:70 | stripping leaves exactly the amount's text |
| Orders.DollarDisplayPrice | supabase/functions/create-order/index.ts:70 | "From: $39.75" is stored as 39.75 |
| Orders.PoundDisplayPrice | supabase/functions/create-order/index.ts:70 | "From: £39.75" is stored as 39.75 too |
| Orders.CleanedPriceIsUnsigned | supabase/functions/create-order/index.ts:69-70 | a text price is `parseFloat` of its cleaned text, which never starts with whitespace or a sign, so it parses as an unsigned number |
| Orders.PriceWithoutDigits | supabase/functions/create-order/index.ts:70 | a text price with no digit is NaN, and so is its line total |
| Orders.CreateOrder | supabase/functions/create-order/index.ts:35-116 | the calls are made in order; an order-insert failure stops before the items are inserted; an items failure stops before payment; a payment failure stops before the update; success echoes the order id, the order number and the amount sent |
| Pdf.TextOr | supabase/functions/generate-pdf/index.ts:263 | a missing or empty text is replaced by its default |
| Pdf.AmountOr0 | supabase/functions/generate-pdf/index.ts:333 | a missing or NaN amount counts as 0 |
| Pdf.MoneyShape | supabase/functions/generate-pdf/index.ts:333-352 | every amount shows as "$", a "-" exactly for negatives, one or more digits, a point and two digits, never "NaN"; a missing or NaN amount shows "$0.00" |
| Pdf.MoneyReadsBack | supabase/functions/generate-pdf/index.ts:352 | a whole-cent amount is shown as exactly that amount |
| Pdf.RowFor | supabase/functions/generate-pdf/index.ts:329-335 | a row shows the title or "Unknown Item", the quantity or 0, and the price and line total as money |
| Pdf.View | supabase/functions/generate-pdf/index.ts:89-365 | title QUOTE exactly for type "quote", else RECEIPT; one row per item in order; "No items found" exactly when the items are missing or empty; TBD dates; the default note; an address row exactly when the address is non-empty; the grand total is the stored `total_amount` |
| Pdf.Render | supabase/functions/generate-pdf/index.ts:89-365 | no contract; Pdf.View states every text the page shows |
| Pdf.GenerateHtml | supabase/functions/generate-pdf/index.ts:89-365 | no contract; it renders Pdf.View of the order, whose contract carries the promises |
| Pdf.GrandTotalIgnoresItems | supabase/functions/generate-pdf/index.ts:350-352 | the grand total does not depend on the items |
| Pdf.RowsHtmlAppend | supabase/functions/generate-pdf/index.ts:329-336 | the rows of a split table render one part after the other |
| Pdf.GeneratePdf | supabase/functions/generate-pdf/index.ts:368-430 | a delivered PDF keeps the name; otherwise the HTML is returned under the name with ".pdf" → ".html"; success is true with no service key and false on error |
| Pdf.FallbackFilename | supabase/functions/generate-pdf/index.ts:379 | with no '.' in the type or order number, the fallback name is "<type>_<number>.html" |
| Pdf.Deliver | supabase/functions/generate-pdf/index.ts:51-76 | the reply is the PDF exactly when the service delivered one; otherwise it is the HTML with the fallback name and the service error, or the default note |
| Pdf.HandlePdfRequest | supabase/functions/generate-pdf/index.ts:24-76 | a query error or a missing order is a failure with its message; a found order's document is delivered |
| Email.EmailRowFor | utils/emailTemplate.ts:27-33 | a row shows the title, the quantity and "$" followed by the line total to two decimals |
| Email.ViewOf | utils/emailTemplate.ts:3-47 | the title is "Order Confirmation" exactly for type "confirmation", else "Thank You for Your Order!"; the greeting names the customer; one row per item in order; the total is `total_amount` to two decimals |
| Email.RenderEmail | utils/emailTemplate.ts:7-46 | the e-mail opens with the fixed head and the title, and ends with the total followed by the fixed footer |
| Email.CreateOrderEmail | utils/emailTemplate.ts:3-47 | the heading is "Order Confirmation" for type "confirmation" and "Thank You for Your Order!" otherwise; the text ends with "$", `total_amount` to two decimals, and the footer |
| Email.TotalIgnoresItems | utils/emailTemplate.ts:36 | the total line does not depend on the items |
| Email.RowPriceReadsBack | utils/emailTemplate.ts:31 | a whole-cent line total is shown as exactly that amount |
| Email.NaNLineTotalShown | utils/emailTemplate.ts:31 | a NaN line total is shown as "$NaN" |
| Email.EmailRowsHtmlAppend | utils/emailTemplate.ts:27-33 | the rows of a split table render one part after the other |

## Left out

- HTTP plumbing is not modelled: `serve`, CORS preflight, JSON request decoding and response status codes. Each handler returns a result or reply datatype, and an error value stands for the 500 response.
- Collaborators are inputs, not code: the Supabase client and queries, the `generate_order_number` RPC, the Google Geocoding request, Stripe and the HTML-to-PDF service. Their outcomes are parameters. The last `update` in `create-order` appears in the call trace, and its result is ignored as in the code.
- Binary floating point is not modelled. Numbers are exact rationals.
  - `parseFloat` does not model exponents or "Infinity".
  - `toFixed(2)` does not model the exponent form for values of 1e21 and above.
  - Negative zero is not modelled.
- Dates are inputs: `new Date().toLocaleDateString('en-CA')` and date-fns `format` are given as already-formatted text.
- Static markup is abbreviated. The long style sheet, the inline styles and the template whitespace of both documents are replaced by short fixed markup. Every text that depends on the order is rendered in full.
- Email.ViewOf: the order date is stated once, as one field of the view. The rendered text is not proved to contain it exactly once.
- Values of the wrong JSON type are not modelled. The code would throw a `TypeError` in these cases:
  - a non-string `zipCode`;
  - a missing `customerData` or a non-array `cartItems` in `create-order`;
  - missing `order_items` or `line_total` in the e-mail;
  - a component without `types`.
- Shipping.QuoteFor: a database error other than "no row" and a duplicate-row error from `.single()` are both the `None` lookup outcome, which matches the code's fallback. Costs are read as exact numbers, so `parseFloat` of a numeric column is the identity here.
- Cart.CartStore.AddItem: positive quantities are not a store invariant. `addItem` accepts any quantity, so `AddItem(p, 0)` leaves a line with quantity 0, as src/store/cart.ts:29-42 does.
- Cart.TotalPriceReorder: it holds because numbers are exact rationals. JavaScript float addition is not associative, so the real total may differ in its last bits when the lines are reordered.
- Cart prices stay display text. The cart store parses them only in `getTotalPrice`, and the model follows that, rather than converting prices to integer cents.
