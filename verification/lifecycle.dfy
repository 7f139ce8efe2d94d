/** From checkout to text message: the order record the storefront writes after a capture,
    seen as the stored document the notifier later reads. */
module Lifecycle {
  import opened Wrappers
  import opened JsText
  import opened JsValue
  import opened Cart
  import Checkout
  import Notifier

  /** One order line as a stored object. Money fields hold cents. */
  function LineValue(l: Checkout.OrderLine): Value {
    Obj(map[
      "id" := Str(l.id),
      "name" := Str(l.name),
      "price" := Num(l.price),
      "qty" := Num(l.qty),
      "subtotal" := Num(l.subtotal)])
  }

  /** The stored customer object. */
  function CustomerValue(c: Checkout.Customer): Value {
    Obj(map["name" := Str(c.name), "email" := Str(c.email), "notes" := Str(c.notes)])
  }

  /** The stored item list. */
  function ItemsValue(items: seq<Checkout.OrderLine>): (v: Value)
    ensures v.Arr? && |v.elems| == |items|
    ensures forall i :: 0 <= i < |items| ==> v.elems[i] == LineValue(items[i])
  {
    Arr(seq(|items|, i requires 0 <= i < |items| => LineValue(items[i])))
  }

  /** The order record as the document the store holds: no notification field yet. The
      server timestamp `createdAt` is not part of the model. */
  function ToDoc(o: Checkout.OrderRecord): (d: Notifier.Doc)
    ensures "smsNotified" !in d && "smsError" !in d
    ensures "items" in d && d["items"] == ItemsValue(o.items)
    ensures "customer" in d && d["customer"] == CustomerValue(o.customer)
    ensures "total" in d && d["total"] == Num(o.total)
  {
    assert "smsNotified"[0] == 's' && "smsNotified"[1] == 'm';
    assert "smsError"[0] == 's' && "smsError"[1] == 'm';
    assert "status"[1] == 't';
    map[
      "status" := Str(o.status),
      "paypalOrderId" := Str(o.paymentId),
      "customer" := CustomerValue(o.customer),
      "items" := ItemsValue(o.items),
      "total" := Num(o.total)]
  }

  /** The label the notifier prints for a cart line. */
  function LineLabel(l: Line): string {
    Notifier.ItemLabel(IntText(l.qty), l.name)
  }

  /** The notifier prints a stored line as its quantity, `×` and its name. */
  lemma LabelOfLine(l: Checkout.OrderLine)
    ensures Notifier.LabelText(LineValue(l)) == IntText(l.qty) + "\U{00D7} " + l.name
  {
    var v := LineValue(l);
    assert "qty" in v.fields && v.fields["qty"] == Num(l.qty);
    assert "name" in v.fields && v.fields["name"] == Str(l.name);
  }

  /** `o.items || []` of a stored order is its item list, and no element is nullish. */
  lemma ItemListOfDoc(o: Checkout.OrderRecord)
    ensures Notifier.ItemList(ToDoc(o)) == ItemsValue(o.items)
    ensures Notifier.ItemsOk(ToDoc(o))
  {
    assert Prop(Obj(ToDoc(o)), "items") == ItemsValue(o.items);
  }

  /** The labels of the order's lines, in order. */
  function OrderLabels(items: seq<Checkout.OrderLine>): (labels: seq<string>)
    ensures |labels| == |items|
  {
    seq(|items|, i requires 0 <= i < |items| => Notifier.ItemLabel(IntText(items[i].qty), items[i].name))
  }

  /** The notifier's full item summary of a stored order joins the labels of its lines. */
  lemma StoredSummary(o: Checkout.OrderRecord)
    ensures Notifier.ItemsOk(ToDoc(o))
    ensures Notifier.FullSummary(ToDoc(o)) == Join(OrderLabels(o.items), ", ")
  {
    ItemListOfDoc(o);
    var es := Notifier.ItemList(ToDoc(o)).elems;
    var labels := seq(|es|, i requires 0 <= i < |es| => Notifier.LabelText(es[i]));
    var want := OrderLabels(o.items);
    forall i | 0 <= i < |es| ensures labels[i] == want[i] {
      LabelOfLine(o.items[i]);
    }
    assert labels == want;
  }

  /** Checkout's order lines carry the cart's quantities and names, so their labels are
      the cart lines' labels, one per line in cart order. */
  lemma CartLabels(c: seq<Line>)
    ensures OrderLabels(Checkout.LineItems(c)) == seq(|c|, i requires 0 <= i < |c| => LineLabel(c[i]))
  {
  }

  /** The notifier reads the stored customer's name and email back unchanged. */
  lemma CustomerOfDoc(o: Checkout.OrderRecord)
    ensures Prop(Prop(Obj(ToDoc(o)), "customer"), "name") == Str(o.customer.name)
    ensures Prop(Prop(Obj(ToDoc(o)), "customer"), "email") == Str(o.customer.email)
  {
    var cv := CustomerValue(o.customer);
    assert Prop(Obj(ToDoc(o)), "customer") == cv;
    assert "name" in cv.fields && cv.fields["name"] == Str(o.customer.name);
    assert "email" in cv.fields && cv.fields["email"] == Str(o.customer.email);
  }

  /** What the notifier makes of any stored order record: composing its message never
      throws, the items line is there iff the order has lines, the sender is the name or
      `Customer` when that is empty, the email appears iff there is one, and the guard
      lets its first delivery through. */
  lemma StoredOrderNotifies(o: Checkout.OrderRecord, orderId: string, env: Notifier.Env, fmt: Notifier.Formats)
    ensures Notifier.Compose(ToDoc(o), orderId, env, fmt).Normal?
    ensures Notifier.Summary(ToDoc(o)).value == [] <==> |o.items| == 0
    ensures Text(Notifier.CustomerName(ToDoc(o))) == if o.customer.name != [] then o.customer.name else "Customer"
    ensures Notifier.EmailSegment(ToDoc(o)) != [] <==> o.customer.email != []
    ensures !Notifier.AlreadyNotified(ToDoc(o))
  {
    StoredSummary(o);
    ItemListOfDoc(o);
    Notifier.SummaryEmptyIff(ToDoc(o));
    CustomerOfDoc(o);
  }

  /** For an order written by checkout: the items line is there iff the cart had lines,
      the sender is the trimmed name or `Customer` when that was blank, and the email
      appears iff one was typed. */
  lemma CheckoutOrderNotifies(c: seq<Line>, f: Checkout.Form, pid: string, orderId: string,
                              env: Notifier.Env, fmt: Notifier.Formats)
    ensures var d := ToDoc(Checkout.BuildOrder(c, f, pid));
      && Notifier.Compose(d, orderId, env, fmt).Normal?
      && (Notifier.Summary(d).value == [] <==> |c| == 0)
      && Text(Notifier.CustomerName(d)) == (if Trim(f.name) != [] then Trim(f.name) else "Customer")
      && (Notifier.EmailSegment(d) != [] <==> Trim(f.email) != [])
      && !Notifier.AlreadyNotified(d)
  {
    StoredOrderNotifies(Checkout.BuildOrder(c, f, pid), orderId, env, fmt);
  }

  /** The items line of an order whose lines checkout made from a cart lists that cart:
      one label per line, in cart order (before the cut to 200 characters). */
  lemma CheckoutSummary(c: seq<Line>, o: Checkout.OrderRecord)
    requires o.items == Checkout.LineItems(c)
    ensures Notifier.ItemsOk(ToDoc(o))
    ensures Notifier.FullSummary(ToDoc(o)) == Join(seq(|c|, i requires 0 <= i < |c| => LineLabel(c[i])), ", ")
  {
    StoredSummary(o);
    CartLabels(c);
  }

  /** The first delivery for a new order, with every service succeeding, texts each
      recipient once and marks the order; the guard as written and the corrected guard
      agree on it. Under the corrected guard, which reads the stored order, every later
      delivery does nothing more (under the guard as written a later delivery of the same
      event sends again: `Notifier.RedeliveryResends`). */
  lemma FirstDeliveryMarks(c: seq<Line>, f: Checkout.Form, pid: string, orderId: string,
                           env: Notifier.Env, svc: Notifier.Services, fmt: Notifier.Formats,
                           later: seq<Notifier.Services>)
    requires svc.client.Pass? && svc.markWrite.Pass?
    requires forall s :: svc.deliver(s).Pass?
    ensures var d := ToDoc(Checkout.BuildOrder(c, f, pid));
      var r := Notifier.HandleCurrent(d, orderId, env, svc, fmt);
      && r == Notifier.Handle(Some(d), d, orderId, env, svc, fmt)
      && r.reply == Notifier.Done(true)
      && |r.sent| == |Notifier.Recipients(env.alertTo)|
      && r.doc == d["smsNotified" := Bool(true)]
      && Notifier.Redeliver(r.doc, orderId, env, later, fmt) == Notifier.Tally(r.doc, 0)
  {
    var d := ToDoc(Checkout.BuildOrder(c, f, pid));
    CheckoutOrderNotifies(c, f, pid, orderId, env, fmt);
    var msg := Notifier.Compose(d, orderId, env, fmt);
    assert !Notifier.AlreadyNotified(d) && Notifier.ItemsOk(d) && msg.Normal?;
    assert Notifier.SendSms(env, svc, msg.value).outcome.Pass?;
    Notifier.DeliveredMeansSuccess(Some(d), d, orderId, env, svc, fmt);
    Notifier.SuccessMeansDelivered(Some(d), d, orderId, env, svc, fmt);
    Notifier.CurrentSendsOnce(d, orderId, env, svc, fmt, later);
  }
}
