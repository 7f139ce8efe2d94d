# Family-treats storefront: cart, checkout and order notifier in Dafny

This project models the two pieces of logic in a small storefront:

- **The browser-side cart and checkout** (`app.js`). This is an ordered list of cart lines `{id, name, price, qty}` with add, remove, quantity update, clear and total. Three more parts sit on top of the cart:
  - the rule that enables the payment button;
  - the order record built after the payment processor captures a payment;
  - what happens after capture: the cart is cleared and the shopper is sent to the receipt page.
- **The order notifier** (`functions/functions/index.js`). This is a document-store trigger that runs when an order is created. It checks whether the order was already notified. If not, it composes a text message, sends it to every number in a comma-separated list, and merges either `{smsNotified: true}` or `{smsError}` back into the order.

`app.js` carries two near-identical copies of the cart and checkout code: a preview copy (lines 1–168) and a document-store copy (lines 170–340). The shared logic is modelled once, and the table cites the first copy. `onApprove` differs between the copies, and the model follows the document-store copy (lines 304–338).

## Modelling choices

- **Money.** Money is integer cents, so `toFixed(2)` rounding of a cart total cannot drift by a cent from the per-line subtotals.
- **Uninterpreted formatting.** In the notifier, `Number(v).toFixed(2)` and `encodeURIComponent` are uninterpreted functions passed in (`Notifier.Formats`). `onApprove` also receives `encodeURIComponent` as a parameter.
- **Quantity conversion.** `qty|0` is modelled exactly:
  - truncation toward zero;
  - then ECMAScript ToInt32 wrap-around modulo 2^32;
  - then `Math.max(1, ·)`.

  `NaN` and the infinities give 0. An entry of 2^31 therefore stores quantity 1 (`Cart.ClampQtyExamples`).
- **White space.** `trim()` and the regular-expression class `\s` share one white-space set: the ECMAScript WhiteSpace and LineTerminator code points (`JsText.IsSpace`).
- **Email pattern.** `/\S+@\S+\.\S+/.test(s)` is stated as a ghost predicate over match positions (`EmailPattern.Matches`). A one-pass scanner, `EmailPattern.Test`, is proved to decide it.
- **Outside services as outcomes.** The payment capture, the order save, the SMS client, each delivery and each merge write enter the model as success/failure outcomes. `Promise.all` becomes "every message is issued; the call fails with the first failure in target order".
- **Stored order.** The stored order is a map from field names to JavaScript values (`JsValue.Value`). `Lifecycle.ToDoc` turns checkout's order record into that map, so the notifier can be run on what checkout writes.
- **Stored total.** The order's line subtotals are each rounded to cents (app.js:310), and its total rounds `cartTotal()` (app.js:312). In integer cents the stored subtotals add up to the stored total (`Checkout.SubtotalsMatchTotal`).

## Model

| member | source | states |
|---|---|---|
| Cart.Find | app.js:43 | `cart.find` returns the first line with the id, and nothing exactly when no line has it |
| Cart.Add | app.js:42-46 | For an id already in the cart: same length, that first line's qty goes up by exactly 1, and every other line is unchanged. Otherwise a line `{id, name, price, qty: 1}` is appended at the end |
| Cart.AddTwice | app.js:42-46 | Adding the same product twice to an empty cart gives a single line of quantity 2 |
| Cart.AddKeepsValid | app.js:42-46 | Adding keeps ids unique and every quantity at least 1 |
| Cart.Remove | app.js:47 | No line of the result has the removed id, and the result is no longer than the cart |
| Cart.RemoveKeeps | app.js:47 | A line is in the result iff it was in the cart under a different id |
| Cart.RemoveConcat | app.js:47 | Removal distributes over concatenation, so the surviving lines keep their original order |
| Cart.RemoveAbsent | app.js:47 | Removing an id that is not in the cart changes nothing |
| Cart.RemoveDeletesLine | app.js:47 | With unique ids, removing a present id deletes exactly that one line |
| Cart.RemoveKeepsValid | app.js:47 | Removing keeps ids unique and quantities at least 1 |
| Cart.Trunc | app.js:48 | The integer part of a number, truncated toward zero, lies within 1 of it on the correct side |
| Cart.ToInt32 | app.js:48 | ToInt32 lies in [-2^31, 2^31), is congruent to its input modulo 2^32, and is the identity inside that range |
| Cart.JsToInt32 | app.js:48 | `q \| 0` of a finite number is ToInt32 of its truncation, `NaN` and the infinities give 0, and the result is always a 32-bit signed value |
| Cart.ClampQty | app.js:48 | `Math.max(1, q\|0)` lies in [1, 2^31): the converted value when that is at least 1, and 1 otherwise |
| Cart.ClampQtyInRange | app.js:48 | In the 32-bit range the stored quantity is `max(1, trunc(q))` |
| Cart.ClampQtyExamples | app.js:48 | 0 and −5 give 1, 2.75 gives 2, 7 gives 7, NaN gives 1, 2^31 wraps to 1, and 2^32+5 wraps to 5 |
| Cart.UpdateQty | app.js:48 | Same length. The first line with the id gets the clamped quantity and all other lines are unchanged. An absent id is a no-op |
| Cart.UpdateKeepsValid | app.js:48 | A quantity update keeps ids unique and quantities at least 1 |
| Cart.CartTotal | app.js:49 | The left-to-right fold equals the sum of price × qty over the lines, and the empty cart totals 0 |
| Cart.SumConcat | app.js:49 | The total of two carts laid end to end is the sum of their totals |
| Cart.SumReplace | app.js:49 | Replacing one line changes the total by the difference of the two line totals |
| Cart.TotalAfterAdd | app.js:42-49 | Adding a product already in the cart raises the total by that line's unit price |
| Cart.TotalAfterAddNew | app.js:42-49 | Adding a new product raises the total by its price |
| Cart.TotalAfterRemove | app.js:47-49 | With unique ids, removing a present id lowers the total by that line's total |
| Cart.TotalAfterUpdate | app.js:48-49 | A quantity update changes the total by price × (new qty − old qty) |
| Cart.Apply | app.js:42-74 | One user action: clear gives the empty cart with total 0, a removed id is absent afterwards, and an added id is present afterwards |
| Cart.ApplyKeepsValid | app.js:42-74 | Every user action (add, remove, quantity, clear) preserves the cart invariant |
| Cart.ReplayKeepsValid | app.js:42-74 | Any sequence of user actions preserves the cart invariant |
| JsText.Trim | app.js:118 | `trim()` gives a string with no white space at either end that sits inside the input with only white space around it. It is empty iff the input is all white space, and it is made of the input's characters |
| JsText.TrimUnique | app.js:118 | `trim()` is the only such strip of its input: any white-space-bounded strip with no space at either end equals it |
| JsText.TrimTrimmed | app.js:118 | Trimming a string with no white space at either end returns it unchanged |
| JsText.TrimLeadingSpace | functions/functions/index.js:18 | Trimming removes a leading space from a trimmed string and nothing more |
| JsText.TrimAround | app.js:118 | Trimming removes any run of white space on either side of a trimmed string and nothing more |
| EmailPattern.Test | app.js:118 | The one-pass scan answers true exactly when `/\S+@\S+\.\S+/` matches somewhere in the string |
| EmailPattern.NoAtNoMatch | app.js:118 | A string without `@` never matches |
| EmailPattern.NoDotNoMatch | app.js:118 | A string without `.` never matches |
| EmailPattern.Examples | app.js:118 | `a@b.c`, `jo@mail.example.com` and an address inside other text match; `not-an-email` and `a@b. c` do not |
| Checkout.IsValidCustomer | app.js:118 | `validCustomer()` is true iff the trimmed name is non-empty and the trimmed email matches the pattern |
| Checkout.CheckoutEnabled | app.js:125 | The button is enabled iff the cart is non-empty, the trimmed name is non-empty and the trimmed email matches. An empty cart always disables it |
| Checkout.EmptyCartBlocks | app.js:125 | An empty cart disables checkout whatever the form says |
| Checkout.PaddedEmailSame | app.js:118-125 | Any amount of white space typed on either side of the email makes no difference to the button |
| Checkout.SampleAccepted | app.js:118-125 | A one-line cart with name `A` and email `a@b.c` enables the button |
| Checkout.BlankNameBlocks | app.js:118-125 | A name of nothing but white space disables the button |
| Checkout.NoAtBlocks | app.js:118-125 | An email without `@` disables the button, however it is padded |
| Checkout.LineItems | app.js:308-311 | The order lines have the cart's length and order. Each keeps id, name, price and qty, with subtotal = price × qty |
| Checkout.LineItemsRoundTrip | app.js:308-311 | Dropping the subtotals from the order lines gives back exactly the cart |
| Checkout.SubtotalsMatchTotal | app.js:308-312 | In cents, the stored subtotals add up to the cart total |
| Checkout.BuildOrder | app.js:308-324 | The order has status `paid`, the captured payment id and the trimmed customer fields. Its items are exactly the cart's order lines. Its total equals both the cart total and the sum of subtotals |
| Checkout.SampleOrder | app.js:308-312 | The sample cart (one line at 2500, three at 400) gives subtotals 2500 and 1200 and total 3700 |
| Checkout.OnApprove | app.js:304-338 | A failed capture leaves the cart, stores nothing, does not redirect and shows the payment error. After a capture the cart is always empty and the browser always goes to the receipt: with the stored id if the save succeeded, otherwise with the URI-encoded payment id and the save-failed alert |
| Checkout.CaptureClosesCheckout | app.js:280-333 | After any capture the cart is empty, so the button is disabled. A stored order carries the cart's total |
| JsValue.Or | functions/functions/index.js:31-34 | `a \|\| b` is one of its operands: the first when it is truthy, otherwise the second. The result is truthy iff either operand is |
| JsValue.Prop | functions/functions/index.js:31-34 | `v?.k` is `undefined` on nullish values and on missing fields, and is the field's value otherwise |
| JsValue.Get | functions/functions/index.js:34 | `v.k` throws exactly on `null` and `undefined`, and otherwise agrees with `v?.k`. For an array of items, the summary throws exactly when this read of `it.qty` throws on some item |
| JsValue.NumTextValue | functions/functions/index.js:34 | The text of a non-negative integer is all digits and reads back as that integer |
| JsText.Split | functions/functions/index.js:18 | `split(',')` yields at least one piece, and no piece contains the separator |
| JsText.JoinSplit | functions/functions/index.js:18 | Joining the pieces of a split with the separator gives the string back |
| JsText.JoinPair | functions/functions/index.js:18 | The join of two pieces is the first, the separator and the second; it lets `RecipientsSpaced` read `"a, b"` as the pieces `a` and ` b` |
| JsText.JoinTriple | functions/functions/index.js:18 | The join of three pieces puts the separator between each pair; it lets `RecipientsBlankEntry` read `"a, ,b"` as the pieces `a`, ` ` and `b` |
| JsText.SplitJoin | functions/functions/index.js:18 | Splitting a join of separator-free pieces gives the pieces back |
| Notifier.NonEmpty | functions/functions/index.js:18 | `filter(Boolean)`: a string is in the result iff it is a non-empty string of the input |
| Notifier.NonEmptyConcat | functions/functions/index.js:18 | Filtering distributes over concatenation, so the kept strings stay in input order |
| Notifier.NonEmptyKeepsAll | functions/functions/index.js:18 | Filtering a list with no empty strings keeps it whole |
| Notifier.Recipients | functions/functions/index.js:18 | Every parsed target is non-empty, has no white space at either end and contains no comma |
| Notifier.RecipientsOfJoin | functions/functions/index.js:18 | Parsing any comma-joined list gives its pieces trimmed, with blank pieces dropped, in order |
| Notifier.RecipientsSpaced | functions/functions/index.js:12-18 | `"a, b"`, a space after the comma, names exactly the numbers `a` and `b` |
| Notifier.RecipientsBlankEntry | functions/functions/index.js:18 | `"a, ,b"`, a blank entry between commas, names exactly `a` and `b` |
| Notifier.RecipientsRoundTrip | functions/functions/index.js:18 | A comma-joined list of trimmed, comma-free numbers parses back to exactly that list |
| Notifier.NoRecipients | functions/functions/index.js:18 | An unset or empty recipient list yields no targets |
| Notifier.FirstFailure | functions/functions/index.js:20 | The fan-out succeeds iff every delivery succeeds |
| Notifier.FirstFailureIsFirst | functions/functions/index.js:20 | A reported failure is a failed delivery's own error, and every delivery before it succeeded |
| Notifier.FanOut | functions/functions/index.js:19-20 | Once the client exists: one message per target, in order, each with the sender and body; the outcome passes iff every delivery does, and a failure is the first failed delivery's own error |
| Notifier.SendSms | functions/functions/index.js:16-21 | If the client cannot be created, nothing is sent and that error is returned. Otherwise exactly one message goes to each parsed target in order, and the call succeeds iff every delivery does. A failed call returns the error of the first failed delivery, and every delivery before it succeeded |
| Notifier.Cut | functions/functions/index.js:34 | `slice(0, n)` is a prefix of its input of length min(n, length) |
| Notifier.Summary | functions/functions/index.js:34 | The item summary throws iff `o.items \|\| []` is not an array or reading `.qty` of an item throws. Otherwise it is the first min(200, length) characters of the full `", "`-joined labels |
| Notifier.SummaryEmptyIff | functions/functions/index.js:34 | The summary is empty iff the order has no items |
| Notifier.CustomerName | functions/functions/index.js:31 | The name is the stored name when that is truthy, and `Customer` otherwise |
| Notifier.EmailSegment | functions/functions/index.js:32-39 | The ` (<email>)` segment is present iff the stored email is truthy, and then holds its text |
| Notifier.ReceiptUrl | functions/functions/index.js:35 | The receipt address is present iff the base URL is set and non-empty, and then equals base + `?oid=` + the encoded order id |
| Notifier.MessageLines | functions/functions/index.js:37-41 | The message has a total line and a sender line, then an `Items:` line iff there is a summary, and last the `Receipt:` line, or an empty line when there is no address |
| Notifier.RenderIsJoin | functions/functions/index.js:37-41 | The composed text is its lines joined with newlines |
| Notifier.RenderLines | functions/functions/index.js:37-41 | When no part contains a newline, the message splits back into exactly its lines |
| Notifier.Compose | functions/functions/index.js:31-41 | Composing throws iff the items cannot be summarised. Otherwise the text is built from the formatted total, the defaulted name plus email segment, the summary and the receipt address |
| Notifier.ComposeHeader | functions/functions/index.js:37-38 | Every message starts with `New order: $<total>` and a newline |
| Notifier.Deliver | functions/functions/index.js:43-50 | After the guard: the messages sent are exactly the fan-out of the message; the reply is `true` iff the send and the `smsNotified` write both succeed, and then only `smsNotified: true` is merged; `false` merges only `smsError`; a rejection writes nothing; the run never counts as skipped |
| Notifier.DeliverSuccess | functions/functions/index.js:44-46 | A `true` reply after the guard means the client was created, the mark was written and each recipient's message was delivered, one per recipient |
| Notifier.Handle | functions/functions/index.js:25-52 | The guard stops the run (no sends, no writes) iff the delivered order already says `smsNotified`. Success merges only `smsNotified: true`, a caught failure merges only `smsError`, and a rejection writes nothing. Whenever the guard passes and the message composes, the run sends exactly the fan-out of the composed message, even if a delivery or the mark write then fails; no other run sends anything |
| Notifier.WriteBackShape | functions/functions/index.js:43-51 | A run merges `{smsNotified: true}`, or `{smsError}`, or nothing, never both. No other field changes |
| Notifier.SuccessMeansDelivered | functions/functions/index.js:43-46 | A `true` reply means the guard passed, the message composed, the client was created, the mark was written, and every recipient's message was delivered, one per recipient |
| Notifier.FailureMeansError | functions/functions/index.js:43-50 | On an unnotified order whose message composes, a failed send or a failed `smsNotified` write merges `smsError` holding that error and replies `false`, when the error write succeeds |
| Notifier.RejectedIff | functions/functions/index.js:29-50 | The promise rejects iff the guard passes and then the items cannot be summarised, or the send or mark fails and the `smsError` write fails too |
| Notifier.DeliveredMeansSuccess | functions/functions/index.js:43-46 | Conversely, on an unnotified order with summarisable items, a successful send followed by a successful `smsNotified` write gives the reply `true` |
| Notifier.MarkedIsNotified | functions/functions/index.js:29 | Once `{smsNotified: true}` is merged (line 45), the guard `o.smsNotified` holds |
| Notifier.NotifiedSkips | functions/functions/index.js:29 | A snapshot that says `smsNotified` returns `null` with no sends and the order unchanged |
| Notifier.RerunOnStoredSkips | functions/functions/index.js:29 | Run on the order as stored after a success, the trigger returns `null` with no sends and no writes |
| Notifier.RedeliveryResends | functions/functions/index.js:25-29 | As written: a second delivery of the same creation event after a success sends every message again |
| Notifier.HandleCurrent | functions/functions/index.js:25-52 | Corrected trigger: it stops iff the stored order already says `smsNotified`, and otherwise runs as written |
| Notifier.CurrentSendsOnce | functions/functions/index.js:29 | With the corrected guard, any number of later deliveries after a success send nothing and write nothing |
| Notifier.RedeliverNotified | functions/functions/index.js:29 | Once the stored order says `smsNotified`, deliveries under the corrected guard change nothing |
| Lifecycle.ItemsValue | app.js:321 | The stored item list has one stored object per order line, in order |
| Lifecycle.ToDoc | app.js:317-324 | The stored order has `items`, `customer` and `total` as checkout wrote them, and no notification field |
| Lifecycle.LabelOfLine | functions/functions/index.js:34 | A stored line is printed as its quantity, `×` and its name |
| Lifecycle.ItemListOfDoc | functions/functions/index.js:34 | A stored order's `items \|\| []` is its item list, with no nullish element |
| Lifecycle.StoredSummary | functions/functions/index.js:34 | The full summary of a stored order joins its lines' labels with `", "` |
| Lifecycle.CheckoutSummary | functions/functions/index.js:34 | For an order checkout built from a cart, the summary lists the cart: one label per line, in cart order |
| Lifecycle.CustomerOfDoc | functions/functions/index.js:31-32 | The notifier reads back the stored customer's name and email unchanged |
| Lifecycle.StoredOrderNotifies | functions/functions/index.js:31-41 | For any stored order record: composing never throws, the items line is there iff there are lines, the sender defaults to `Customer` only for an empty name, and the email appears iff there is one |
| Lifecycle.CheckoutOrderNotifies | functions/functions/index.js:31-41 | The same for an order built by checkout, stated in terms of the form as typed: trimmed name or `Customer`, and an email iff one was typed |
| Lifecycle.FirstDeliveryMarks | functions/functions/index.js:29-46 | The first delivery for a checkout order with all services succeeding texts each recipient once and marks the order, under the guard as written and under the corrected guard alike. Under the corrected guard every later delivery does nothing; under the guard as written a later delivery of the same event sends again (`Notifier.RedeliveryResends`) |

## Left out

- **Rendering and the browser.** DOM rendering of the menu, cart, receipt and admin tables is presentation only (`renderMenu`, `renderCart`, receipt.js, admin.js).
- **localStorage.** Loading and saving the cart in localStorage (app.js:40-41) is treated as opaque persistence: the model's cart value is the state.
- **Menu loading.** The menu fallback in `initMenu` (app.js:77-107, app.js:247-261) races a snapshot, an error and a timer.
- **Payment widget.** The widget's `createOrder` and the item list it sends (`paypalItems`) are not modelled. Capture success or failure is an input to `Checkout.OnApprove`.
- **Preview `onApprove`.** The preview copy of `onApprove` (app.js:149-165) writes the order to localStorage and redirects to `receipt.html` without an id. Only the document-store copy is modelled.
- **Timestamps.** The server timestamp `createdAt` is omitted: neither the checkout nor the notifier reads it.
- **Floating point.**
  - Prices and totals are integer cents, so the one-cent drift between a rounded float total and rounded float subtotals cannot occur.
  - `Number(v).toFixed(2)` and `encodeURIComponent` are left uninterpreted.
- **Logging and alerts.** Console logging is not modelled, and the text of the alerts is reduced to which alert is shown.
- Cart.Add: a quantity raised by `+= 1` is an unbounded integer, whereas a JavaScript number is exact only up to 2^53.
- JsValue.Num: numbers are integers. `String()` of a fraction, of `NaN`, and the exponent notation used from 10^21 up are not modelled. Only quantities are turned into text, and checkout stores them as integers.
- Notifier.Cut: `slice(0, 200)` counts UTF-16 code units, while the model counts characters. This affects `Notifier.Summary`, its only caller. Each character outside the Basic Multilingual Plane before the cut makes the model's summary one code unit longer than JavaScript's, and `slice` may split a surrogate pair, leaving a lone surrogate that a Dafny string cannot hold.
- Notifier.SendSms: `Promise.all` rejects with the failure that happens first in time. The model reports the first failure in target order, because delivery timing is not modelled. All messages are issued in both cases.
- Notifier.Handle: reading the snapshot cannot fail, and `Number()` of a stored total is assumed not to throw. Creating the client, each delivery and both merge writes are success/failure outcomes.

## Findings

| source | as written | input that shows it | evidently intended | confidence | as-written member | corrected member |
|---|---|---|---|---|---|---|
| functions/functions/index.js:25-29 | The idempotency guard tests `smsNotified` on `snap.data()`. That is the order as it was created, carried by the creation event, and the trigger's own write never changes it | The creation event is delivered a second time after a successful first run. This is an at-least-once redelivery or a retry. The snapshot still lacks `smsNotified`, so every message is sent again | The guard should read the order as currently stored, so a run after a success sends nothing | medium; not executed | Notifier.RedeliveryResends | Notifier.HandleCurrent |
