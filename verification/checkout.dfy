/** Checkout: when the payment button is enabled, and what happens once the payment
    processor reports a capture — the order record built from the cart, the attempt to
    store it, the cart cleared in every case, and the redirect to the receipt. */
module Checkout {
  import opened Wrappers
  import opened JsText
  import opened Cart
  import EmailPattern

  /** The customer form's fields exactly as typed. */
  datatype Form = Form(name: string, email: string, notes: string)

  /** `validCustomer()`: a non-blank name and an email matching `\S+@\S+\.\S+` once trimmed. */
  ghost predicate ValidCustomer(f: Form) {
    Trim(f.name) != [] && EmailPattern.Matches(Trim(f.email))
  }

  /** The button is enabled exactly when the cart has lines and the customer is valid. */
  ghost predicate CheckoutAllowed(c: seq<Line>, f: Form) {
    |c| > 0 && ValidCustomer(f)
  }

  /** `validCustomer()`, evaluated the way the page does: trim, then test the pattern. */
  method IsValidCustomer(f: Form) returns (ok: bool)
    ensures ok <==> ValidCustomer(f)
  {
    if Trim(f.name) == [] {
      return false;
    }
    ok := EmailPattern.Test(Trim(f.email));
  }

  /** The `check` callback: enable the payment button iff `cart.length && validCustomer()`. */
  method CheckoutEnabled(c: seq<Line>, f: Form) returns (enabled: bool)
    ensures enabled <==> CheckoutAllowed(c, f)
    ensures |c| == 0 ==> !enabled
  {
    if |c| == 0 {
      return false;
    }
    enabled := IsValidCustomer(f);
  }

  /** A valid customer with an empty cart still cannot check out. */
  lemma EmptyCartBlocks(f: Form)
    ensures !CheckoutAllowed([], f)
  {
  }

  /** White space typed around the email, any amount of it on either side, makes no
      difference to the button. */
  lemma PaddedEmailSame(c: seq<Line>, f: Form, w1: string, e: string, w2: string)
    requires AllSpace(w1) && AllSpace(w2) && IsTrimmed(e)
    ensures CheckoutAllowed(c, f.(email := w1 + e + w2)) <==> CheckoutAllowed(c, f.(email := e))
  {
    TrimAround(w1, e, w2);
    TrimTrimmed(e);
  }

  /** A cart with a line, a name and an address: the button is enabled. */
  lemma SampleAccepted(l: Line)
    ensures CheckoutAllowed([l], Form("A", "a@b.c", ""))
  {
    TrimTrimmed("A");
    TrimTrimmed("a@b.c");
    assert EmailPattern.MatchAt("a@b.c", 1, 3);
  }

  /** A name of nothing but white space disables the button. */
  lemma BlankNameBlocks(c: seq<Line>, f: Form)
    requires AllSpace(f.name)
    ensures !CheckoutAllowed(c, f)
  {
  }

  /** An email without `@` disables the button, however it is padded. */
  lemma NoAtBlocks(c: seq<Line>, f: Form)
    requires '@' !in f.email
    ensures !CheckoutAllowed(c, f)
  {
    var e := Trim(f.email);
    assert '@' !in e by {
      forall k | 0 <= k < |e| ensures e[k] != '@' {
        assert e[k] in f.email;
      }
    }
    EmailPattern.NoAtNoMatch(e);
  }

  /** One stored order line: the cart line plus its subtotal. */
  datatype OrderLine = OrderLine(id: string, name: string, price: int, qty: int, subtotal: int)

  /** The customer as recorded on the order: every field trimmed. */
  datatype Customer = Customer(name: string, email: string, notes: string)

  /** The order document written after a capture. The server-assigned `createdAt` is not part of the model. */
  datatype OrderRecord = OrderRecord(
    status: string,
    paymentId: string,
    customer: Customer,
    items: seq<OrderLine>,
    total: int)

  /** What the payment processor's capture call did. */
  datatype Capture = Captured(paymentId: string) | CaptureFailed

  /** What the document store's `addDoc` did. */
  datatype Save = Saved(docId: string) | SaveFailed

  /** The message shown to the shopper, if any. */
  datatype Alert = NoAlert | PaymentErrorAlert | SaveFailedAlert

  /** The observable result of one approval: the cart afterwards, the order stored (at
      most one), where the browser is sent, and the alert shown. */
  datatype Approval = Approval(
    cart: seq<Line>,
    stored: Option<OrderRecord>,
    redirect: Option<string>,
    alert: Alert)

  /** `cart.map(i => ({id, name, price, qty, subtotal: price * qty}))`, in cents. */
  function LineItems(c: seq<Line>): (items: seq<OrderLine>)
    ensures |items| == |c|
    ensures forall i :: 0 <= i < |c| ==>
      && items[i].id == c[i].id && items[i].name == c[i].name
      && items[i].price == c[i].price && items[i].qty == c[i].qty
      && items[i].subtotal == c[i].price * c[i].qty
  {
    if |c| == 0 then []
    else [OrderLine(c[0].id, c[0].name, c[0].price, c[0].qty, c[0].price * c[0].qty)] + LineItems(c[1..])
  }

  /** The sum of the stored subtotals. */
  function SumSubtotals(items: seq<OrderLine>): int {
    if |items| == 0 then 0 else items[0].subtotal + SumSubtotals(items[1..])
  }

  /** Dropping the subtotals of the order lines gives the cart back. */
  function CartLines(items: seq<OrderLine>): (c: seq<Line>)
    ensures |c| == |items|
  {
    if |items| == 0 then []
    else [Line(items[0].id, items[0].name, items[0].price, items[0].qty)] + CartLines(items[1..])
  }

  /** The order lines lose nothing of the cart: same lines, same order. */
  lemma {:induction false} LineItemsRoundTrip(c: seq<Line>)
    ensures CartLines(LineItems(c)) == c
  {
    if |c| > 0 {
      var head := OrderLine(c[0].id, c[0].name, c[0].price, c[0].qty, c[0].price * c[0].qty);
      var tail := LineItems(c[1..]);
      assert LineItems(c) == [head] + tail;
      assert ([head] + tail)[1..] == tail;
      LineItemsRoundTrip(c[1..]);
      assert CartLines(LineItems(c)) == [Line(head.id, head.name, head.price, head.qty)] + CartLines(tail);
      assert c == [c[0]] + c[1..];
    }
  }

  /** In cents the stored subtotals add up to the cart total, so the order's two views of its
      amount agree. */
  lemma {:induction false} SubtotalsMatchTotal(c: seq<Line>)
    ensures SumSubtotals(LineItems(c)) == Sum(c)
  {
    if |c| > 0 {
      SubtotalsMatchTotal(c[1..]);
      assert LineItems(c)[1..] == LineItems(c[1..]);
    }
  }

  /** The order document built from the cart and the form after a capture. */
  function BuildOrder(c: seq<Line>, f: Form, paymentId: string): (o: OrderRecord)
    ensures o.status == "paid" && o.paymentId == paymentId
    ensures o.customer == Customer(Trim(f.name), Trim(f.email), Trim(f.notes))
    ensures o.items == LineItems(c) && |o.items| == |c|
    ensures o.total == Sum(c) && o.total == SumSubtotals(o.items)
  {
    SubtotalsMatchTotal(c);
    OrderRecord("paid", paymentId, Customer(Trim(f.name), Trim(f.email), Trim(f.notes)), LineItems(c), Sum(c))
  }

  /** The receipt page address for an order id. */
  function ReceiptUrl(oid: string): string {
    "receipt.html?oid=" + oid
  }

  /** `onApprove`: capture, build the order, try to store it, clear the cart whatever the
      store said, and go to the receipt of the stored order — or, if storing failed, of the
      payment, whose id is URI-encoded with `encode` (the stored id is not). A capture that
      fails ends the approval before any of this: the cart stays and the widget reports a
      payment error. */
  function OnApprove(c: seq<Line>, f: Form, capture: Capture, save: Save, encode: string -> string): (a: Approval)
    ensures capture.CaptureFailed? ==>
      a.cart == c && a.stored.None? && a.redirect.None? && a.alert == PaymentErrorAlert
    ensures capture.Captured? ==> a.cart == [] && a.redirect.Some?
    ensures capture.Captured? && save.Saved? ==>
      && a.stored == Some(BuildOrder(c, f, capture.paymentId))
      && a.redirect == Some(ReceiptUrl(save.docId))
      && a.alert == NoAlert
    ensures capture.Captured? && save.SaveFailed? ==>
      && a.stored.None?
      && a.redirect == Some(ReceiptUrl(encode(capture.paymentId)))
      && a.alert == SaveFailedAlert
  {
    match capture
    case CaptureFailed => Approval(c, None, None, PaymentErrorAlert)
    case Captured(pid) =>
      var order := BuildOrder(c, f, pid);
      match save
      case Saved(docId) => Approval([], Some(order), Some(ReceiptUrl(docId)), NoAlert)
      case SaveFailed => Approval([], None, Some(ReceiptUrl(encode(pid))), SaveFailedAlert)
  }

  /** After any capture the cart is empty, so the payment button is disabled and the same
      cart cannot be paid for a second time; a stored order carries the cart's total. */
  lemma CaptureClosesCheckout(c: seq<Line>, f: Form, pid: string, save: Save, encode: string -> string)
    ensures !CheckoutAllowed(OnApprove(c, f, Captured(pid), save, encode).cart, f)
    ensures OnApprove(c, f, Captured(pid), save, encode).stored.Some? ==>
      OnApprove(c, f, Captured(pid), save, encode).stored.value.total == Sum(c)
  {
  }

  /** The sample cart of a dozen tamales at $25.00 and three cookies at $4.00. */
  lemma SampleOrder(f: Form, pid: string)
    ensures BuildOrder([Line("a", "12 Tamales", 2500, 1), Line("b", "Cookies", 400, 3)], f, pid).total == 3700
    ensures LineItems([Line("a", "12 Tamales", 2500, 1), Line("b", "Cookies", 400, 3)])[0].subtotal == 2500
    ensures LineItems([Line("a", "12 Tamales", 2500, 1), Line("b", "Cookies", 400, 3)])[1].subtotal == 1200
  {
    var c := [Line("a", "12 Tamales", 2500, 1), Line("b", "Cookies", 400, 3)];
    assert c[1..][1..] == [];
  }
}
