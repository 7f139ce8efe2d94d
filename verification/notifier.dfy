/** The order notifier: a document-store trigger that runs when an order is created, texts
    a summary of it to the shop's phone numbers, and records on the order whether that
    worked. The gateway client, each delivery and each write are outside services and
    enter as the outcomes they produce; number formatting and URI encoding are left
    uninterpreted. */
module Notifier {
  import opened Wrappers
  import opened JsText
  import opened JsValue

  /** A stored order document: its top-level fields. */
  type Doc = map<string, Value>

  /** The deployment's environment variables; an unset variable is `None`. */
  datatype Env = Env(alertTo: Option<string>, from: Option<string>, receiptBase: Option<string>)

  /** One message handed to the SMS gateway. */
  datatype Sms = Sms(to: string, from: Option<string>, body: string)

  /** What the outside services do: creating the gateway client, delivering one message,
      and the two merge writes on the order. A failure carries the text `String(err)`. */
  datatype Services = Services(
    client: Outcome<string>,
    deliver: Sms -> Outcome<string>,
    markWrite: Outcome<string>,
    errorWrite: Outcome<string>)

  /** `Number(v).toFixed(2)` and `encodeURIComponent`, uninterpreted. */
  datatype Formats = Formats(fixed2: Value -> string, encode: string -> string)

  // ---------------------------------------------------------------------------------
  // Recipients and fan-out

  /** `map(s => s.trim())`. */
  function TrimAll(ps: seq<string>): (r: seq<string>)
    ensures |r| == |ps|
    ensures forall i :: 0 <= i < |ps| ==> r[i] == Trim(ps[i])
  {
    seq(|ps|, i requires 0 <= i < |ps| => Trim(ps[i]))
  }

  /** `filter(Boolean)` on strings: drop the empty ones, keep the order. */
  function NonEmpty(ps: seq<string>): (r: seq<string>)
    ensures |r| <= |ps|
    ensures forall s :: s in r <==> s in ps && s != []
  {
    if |ps| == 0 then []
    else if ps[0] == [] then NonEmpty(ps[1..])
    else [ps[0]] + NonEmpty(ps[1..])
  }

  /** `(toCsv || "").split(',').map(s => s.trim()).filter(Boolean)`: every target is a
      non-empty number with no white space at either end and no comma. */
  function Recipients(toCsv: Option<string>): (targets: seq<string>)
    ensures forall i :: 0 <= i < |targets| ==>
      targets[i] != [] && IsTrimmed(targets[i]) && ',' !in targets[i]
  {
    var csv := if toCsv.Some? then toCsv.value else "";
    var pieces := Split(csv, ',');
    var trimmed := TrimAll(pieces);
    var r := NonEmpty(trimmed);
    forall i | 0 <= i < |r| ensures r[i] != [] && IsTrimmed(r[i]) && ',' !in r[i] {
      assert r[i] in r;
      var j :| 0 <= j < |trimmed| && trimmed[j] == r[i];
      assert ',' !in pieces[j];
    }
    r
  }

  /** Keeping the non-empty strings of a list that has none changes nothing. */
  lemma {:induction false} NonEmptyKeepsAll(ps: seq<string>)
    requires forall i :: 0 <= i < |ps| ==> ps[i] != []
    ensures NonEmpty(ps) == ps
  {
    if |ps| > 0 {
      NonEmptyKeepsAll(ps[1..]);
      assert [ps[0]] + ps[1..] == ps;
    }
  }

  /** Filtering distributes over concatenation, so the kept strings stay in their order. */
  lemma {:induction false} NonEmptyConcat(a: seq<string>, b: seq<string>)
    ensures NonEmpty(a + b) == NonEmpty(a) + NonEmpty(b)
  {
    if |a| > 0 {
      NonEmptyConcat(a[1..], b);
      assert (a + b)[1..] == a[1..] + b;
    } else {
      assert a + b == b;
    }
  }

  /** Parsing a comma-joined list gives its pieces trimmed, without the ones that were
      blank, in their order. */
  lemma RecipientsOfJoin(ps: seq<string>)
    requires |ps| >= 1
    requires forall i :: 0 <= i < |ps| ==> ',' !in ps[i]
    ensures Recipients(Some(Join(ps, ","))) == NonEmpty(TrimAll(ps))
  {
    SplitJoin(ps, ',');
  }

  /** A list of two is its two elements. */
  lemma PairIs(t: seq<string>, a: string, b: string)
    requires |t| == 2 && t[0] == a && t[1] == b
    ensures t == [a, b]
  {
  }

  /** A list of three is its three elements. */
  lemma TripleIs(t: seq<string>, a: string, w: string, b: string)
    requires |t| == 3 && t[0] == a && t[1] == w && t[2] == b
    ensures t == [a, w, b]
  {
  }

  /** Trimming the pieces of `"a, b"`: the space after the comma goes. */
  lemma TrimSpacedPieces(a: string, b: string)
    requires IsTrimmed(a) && IsTrimmed(b)
    ensures TrimAll([a, [' '] + b]) == [a, b]
  {
    TrimTrimmed(a);
    TrimLeadingSpace(b);
    PairIs(TrimAll([a, [' '] + b]), a, b);
  }

  /** Trimming a list with a blank piece `w` between `a` and `b` empties that piece. */
  lemma TrimBlankPiece(a: string, w: string, b: string)
    requires IsTrimmed(a) && IsTrimmed(b) && AllSpace(w)
    ensures TrimAll([a, w, b]) == [a, [], b]
  {
    TrimTrimmed(a);
    TrimTrimmed(b);
    TripleIs(TrimAll([a, w, b]), a, [], b);
  }

  /** Filtering keeps two non-empty strings and drops an empty one between them. */
  lemma NonEmptyPair(a: string, b: string)
    requires a != [] && b != []
    ensures NonEmpty([a, b]) == [a, b]
    ensures NonEmpty([a, [], b]) == [a, b]
  {
    assert [a, b][1..] == [b] && [b][1..] == [];
    assert [a, [], b][1..] == [[], b] && [[], b][1..] == [b];
  }

  /** A space after the comma is tolerated: `"a, b"` names the two numbers `a` and `b`. */
  lemma RecipientsSpaced(a: string, b: string)
    requires a != [] && IsTrimmed(a) && ',' !in a
    requires b != [] && IsTrimmed(b) && ',' !in b
    ensures Recipients(Some(a + ", " + b)) == [a, b]
  {
    var sp := [' '];
    JoinPair(a, sp + b, ",");
    assert a + "," + (sp + b) == a + ", " + b;
    RecipientsOfJoin([a, sp + b]);
    TrimSpacedPieces(a, b);
    NonEmptyPair(a, b);
  }

  /** A blank entry between two commas is dropped: `"a, ,b"` names `a` and `b`. */
  lemma RecipientsBlankEntry(a: string, b: string)
    requires a != [] && IsTrimmed(a) && ',' !in a
    requires b != [] && IsTrimmed(b) && ',' !in b
    ensures Recipients(Some(a + ", ," + b)) == [a, b]
  {
    var sp := [' '];
    JoinTriple(a, sp, b, ",");
    assert a + "," + sp + "," + b == a + ", ," + b;
    RecipientsOfJoin([a, sp, b]);
    assert AllSpace(sp);
    TrimBlankPiece(a, sp, b);
    NonEmptyPair(a, b);
  }

  /** Listing numbers with commas between them gives back exactly those numbers. */
  lemma RecipientsRoundTrip(ps: seq<string>)
    requires |ps| >= 1
    requires forall i :: 0 <= i < |ps| ==> ps[i] != [] && IsTrimmed(ps[i]) && ',' !in ps[i]
    ensures Recipients(Some(Join(ps, ","))) == ps
  {
    SplitJoin(ps, ',');
    var trimmed := TrimAll(ps);
    forall i | 0 <= i < |ps| ensures trimmed[i] == ps[i] {
      TrimTrimmed(ps[i]);
    }
    assert trimmed == ps;
    NonEmptyKeepsAll(ps);
  }

  /** An unset or empty `ALERT_TO` names nobody. */
  lemma NoRecipients()
    ensures Recipients(None) == []
    ensures Recipients(Some("")) == []
  {
    assert Split("", ',') == [""];
    assert AllSpace("");
  }

  /** One message per target, in target order, all with the same body. */
  function Messages(targets: seq<string>, from: Option<string>, body: string): (sent: seq<Sms>)
    ensures |sent| == |targets|
    ensures forall i :: 0 <= i < |targets| ==> sent[i].to == targets[i] && sent[i].body == body
  {
    seq(|targets|, i requires 0 <= i < |targets| => Sms(targets[i], from, body))
  }

  /** The first failed delivery of `sent`, in list order, or `Pass` when all succeed. */
  function FirstFailure(sent: seq<Sms>, deliver: Sms -> Outcome<string>): (r: Outcome<string>)
    ensures r.Pass? <==> forall i :: 0 <= i < |sent| ==> deliver(sent[i]).Pass?
  {
    if |sent| == 0 then Pass
    else if deliver(sent[0]).Fail? then deliver(sent[0])
    else FirstFailure(sent[1..], deliver)
  }

  /** A failure reported by `FirstFailure` is the outcome of a delivery that really
      failed, and every delivery before it succeeded. */
  lemma {:induction false} FirstFailureIsFirst(sent: seq<Sms>, deliver: Sms -> Outcome<string>)
    requires FirstFailure(sent, deliver).Fail?
    ensures exists i :: (0 <= i < |sent| && deliver(sent[i]) == FirstFailure(sent, deliver)
      && forall j :: 0 <= j < i ==> deliver(sent[j]).Pass?)
  {
    if deliver(sent[0]).Fail? {
      assert deliver(sent[0]) == FirstFailure(sent, deliver);
    } else {
      FirstFailureIsFirst(sent[1..], deliver);
      var i :| 0 <= i < |sent[1..]| && deliver(sent[1..][i]) == FirstFailure(sent[1..], deliver)
        && forall j :: 0 <= j < i ==> deliver(sent[1..][j]).Pass?;
      var k := i + 1;
      assert deliver(sent[k]) == FirstFailure(sent, deliver);
      forall j | 0 <= j < k ensures deliver(sent[j]).Pass? {
        if j > 0 {
          assert sent[j] == sent[1..][j - 1];
        }
      }
    }
  }

  /** The messages issued by one `sendSMS` call and the outcome of its `Promise.all`. */
  datatype SendResult = SendResult(sent: seq<Sms>, outcome: Outcome<string>)

  /** The messages to `targets` once the client exists, and the outcome of waiting on all
      of them: the first failure in target order, or `Pass`. */
  function FanOut(targets: seq<string>, from: Option<string>, body: string, deliver: Sms -> Outcome<string>): (r: SendResult)
    ensures |r.sent| == |targets|
    ensures forall i :: 0 <= i < |r.sent| ==> r.sent[i] == Sms(targets[i], from, body)
    ensures r.outcome.Pass? <==> forall i :: 0 <= i < |r.sent| ==> deliver(r.sent[i]).Pass?
    ensures r.outcome.Fail? ==>
      exists i :: 0 <= i < |r.sent| && deliver(r.sent[i]) == r.outcome
        && forall j :: 0 <= j < i ==> deliver(r.sent[j]).Pass?
  {
    var sent := Messages(targets, from, body);
    var outcome := FirstFailure(sent, deliver);
    if outcome.Fail? then
      FirstFailureIsFirst(sent, deliver);
      SendResult(sent, outcome)
    else
      SendResult(sent, outcome)
  }

  /** `sendSMS(toCsv, body)`: create the client, then issue one message per target. The
      call succeeds when every delivery does (also when there is no target) and otherwise
      fails with the first failure in target order. */
  function SendSms(env: Env, svc: Services, body: string): (r: SendResult)
    ensures svc.client.Fail? ==> r.sent == [] && r.outcome == svc.client
    ensures svc.client.Pass? ==> |r.sent| == |Recipients(env.alertTo)|
    ensures svc.client.Pass? ==> forall i :: 0 <= i < |r.sent| ==>
      r.sent[i] == Sms(Recipients(env.alertTo)[i], env.from, body)
    ensures r.outcome.Pass? <==> svc.client.Pass? && forall i :: 0 <= i < |r.sent| ==> svc.deliver(r.sent[i]).Pass?
    ensures svc.client.Pass? && r.outcome.Fail? ==>
      exists i :: 0 <= i < |r.sent| && svc.deliver(r.sent[i]) == r.outcome
        && forall j :: 0 <= j < i ==> svc.deliver(r.sent[j]).Pass?
  {
    if svc.client.Fail? then SendResult([], svc.client)
    else FanOut(Recipients(env.alertTo), env.from, body, svc.deliver)
  }

  // ---------------------------------------------------------------------------------
  // Message composition

  /** The longest item summary sent: `slice(0, 200)`. */
  const SummaryLimit := 200

  /** The label of one item from the texts of its quantity and name: `<qty>× <name>`. */
  function ItemLabel(qty: string, name: string): string {
    qty + "\U{00D7} " + name
  }

  /** `` `${it.qty}× ${it.name}` `` for an item that is not `null` or `undefined`. */
  function LabelText(it: Value): string {
    ItemLabel(Text(Prop(it, "qty")), Text(Prop(it, "name")))
  }

  /** `o.items || []`. */
  function ItemList(o: Doc): Value {
    Or(Prop(Obj(o), "items"), Arr([]))
  }

  /** The items can be summarised: `o.items || []` is an array, and reading `.qty` of
      each element does not throw (none is `null` or `undefined`). */
  predicate ItemsOk(o: Doc) {
    var v := ItemList(o);
    v.Arr? && forall i :: 0 <= i < |v.elems| ==> Get(v.elems[i], "qty").Normal?
  }

  /** The whole summary before truncation: the labels joined with `", "`. */
  function FullSummary(o: Doc): string
    requires ItemsOk(o)
  {
    var es := ItemList(o).elems;
    Join(seq(|es|, i requires 0 <= i < |es| => LabelText(es[i])), ", ")
  }

  /** `s.slice(0, n)` for `n >= 0`. */
  function Cut(s: string, n: nat): (r: string)
    ensures r <= s
    ensures |r| == if |s| <= n then |s| else n
  {
    if |s| <= n then s else s[..n]
  }

  /** `(o.items || []).map(label).join(', ').slice(0, 200)`, or the `TypeError` that
      `.map` or `.qty` raises. */
  function Summary(o: Doc): (r: Completion<string>)
    ensures r.Throw? <==> !ItemsOk(o)
    ensures r.Normal? ==> r.value <= FullSummary(o)
    ensures r.Normal? ==> |r.value| == if |FullSummary(o)| <= SummaryLimit then |FullSummary(o)| else SummaryLimit
    ensures r.Normal? && |FullSummary(o)| <= SummaryLimit ==> r.value == FullSummary(o)
  {
    if ItemsOk(o) then Normal(Cut(FullSummary(o), SummaryLimit)) else Throw
  }

  /** A join of at least one non-empty piece is not empty. */
  lemma JoinNonEmpty(ps: seq<string>, sep: string)
    requires |ps| >= 1 && ps[0] != []
    ensures Join(ps, sep) != []
  {
  }

  /** The summary is empty exactly when the order has no items: every label holds `×`. */
  lemma SummaryEmptyIff(o: Doc)
    requires ItemsOk(o)
    ensures Summary(o).value == [] <==> |ItemList(o).elems| == 0
  {
    var es := ItemList(o).elems;
    var labels := seq(|es|, i requires 0 <= i < |es| => LabelText(es[i]));
    if |es| > 0 {
      assert labels[0] != [];
      JoinNonEmpty(labels, ", ");
    }
  }

  /** `o?.customer?.name || 'Customer'`: always truthy, and the stored name whenever that
      is truthy. */
  function CustomerName(o: Doc): (name: Value)
    ensures Truthy(name)
    ensures Truthy(Prop(Prop(Obj(o), "customer"), "name")) ==> name == Prop(Prop(Obj(o), "customer"), "name")
    ensures !Truthy(Prop(Prop(Obj(o), "customer"), "name")) ==> name == Str("Customer")
  {
    Or(Prop(Prop(Obj(o), "customer"), "name"), Str("Customer"))
  }

  /** `` email ? ` (${email})` : '' `` with `email = o?.customer?.email || ''`. */
  function EmailSegment(o: Doc): (seg: string)
    ensures seg != [] <==> Truthy(Prop(Prop(Obj(o), "customer"), "email"))
    ensures seg != [] ==> seg == " (" + Text(Prop(Prop(Obj(o), "customer"), "email")) + ")"
  {
    var email := Or(Prop(Prop(Obj(o), "customer"), "email"), Str(""));
    if Truthy(email) then " (" + Text(email) + ")" else ""
  }

  /** `` RECEIPT_BASE_URL ? `${RECEIPT_BASE_URL}?oid=${encodeURIComponent(orderId)}` : '' ``. */
  function ReceiptUrl(env: Env, orderId: string, fmt: Formats): (url: string)
    ensures url != [] <==> env.receiptBase.Some? && env.receiptBase.value != []
    ensures url != [] ==> url == env.receiptBase.value + "?oid=" + fmt.encode(orderId)
  {
    if env.receiptBase.Some? && env.receiptBase.value != [] then
      env.receiptBase.value + "?oid=" + fmt.encode(orderId)
    else ""
  }

  /** The text of the message from its four parts, as the trigger concatenates it: the
      items line only when there is a summary, and the receipt line, which has no newline
      after it, only when there is an address. */
  function Render(total: string, sender: string, summary: string, url: string): string {
    "New order: $" + total + "\n"
    + "From: " + sender + "\n"
    + (if summary != [] then "Items: " + summary + "\n" else "")
    + (if url != [] then "Receipt: " + url else "")
  }

  /** The lines of a rendered message, the last one empty when there is no receipt line. */
  function MessageLines(total: string, sender: string, summary: string, url: string): (lines: seq<string>)
    ensures |lines| == if summary != [] then 4 else 3
    ensures lines[0] == "New order: $" + total && lines[1] == "From: " + sender
    ensures summary != [] ==> lines[2] == "Items: " + summary
    ensures lines[|lines| - 1] == if url != [] then "Receipt: " + url else ""
  {
    ["New order: $" + total, "From: " + sender]
    + (if summary != [] then ["Items: " + summary] else [])
    + [if url != [] then "Receipt: " + url else ""]
  }

  /** Four lines joined with newlines. */
  lemma Join4(a: string, b: string, c: string, d: string)
    ensures Join([a, b, c, d], "\n") == a + "\n" + b + "\n" + c + "\n" + d
  {
    JoinCons(c, [d], "\n");
    assert [b, c, d] == [b] + [c, d];
    JoinCons(b, [c, d], "\n");
    assert [a, b, c, d] == [a] + [b, c, d];
    JoinCons(a, [b, c, d], "\n");
  }

  /** Three lines joined with newlines. */
  lemma Join3(a: string, b: string, d: string)
    ensures Join([a, b, d], "\n") == a + "\n" + b + "\n" + d
  {
    JoinCons(b, [d], "\n");
    assert [a, b, d] == [a] + [b, d];
    JoinCons(a, [b, d], "\n");
  }

  /** The message is its lines joined with newlines. */
  lemma RenderIsJoin(total: string, sender: string, summary: string, url: string)
    ensures Render(total, sender, summary, url) == Join(MessageLines(total, sender, summary, url), "\n")
  {
    var head := "New order: $" + total;
    var from := "From: " + sender;
    var last := if url != [] then "Receipt: " + url else "";
    if summary != [] {
      var items := "Items: " + summary;
      assert MessageLines(total, sender, summary, url) == [head, from, items, last];
      Join4(head, from, items, last);
    } else {
      assert MessageLines(total, sender, summary, url) == [head, from, last];
      Join3(head, from, last);
    }
  }

  /** When no part contains a newline, the message splits back into exactly its lines: the
      `Items:` line is there iff there is a summary, and the last line is the `Receipt:`
      line iff there is an address. */
  lemma RenderLines(total: string, sender: string, summary: string, url: string)
    requires '\n' !in total && '\n' !in sender && '\n' !in summary && '\n' !in url
    ensures Split(Render(total, sender, summary, url), '\n') == MessageLines(total, sender, summary, url)
  {
    var lines := MessageLines(total, sender, summary, url);
    RenderIsJoin(total, sender, summary, url);
    forall i | 0 <= i < |lines| ensures '\n' !in lines[i] {
    }
    SplitJoin(lines, '\n');
  }

  /** The SMS text for an order, or the `TypeError` raised while summarising its items. */
  function Compose(o: Doc, orderId: string, env: Env, fmt: Formats): (r: Completion<string>)
    ensures r.Throw? <==> !ItemsOk(o)
    ensures r.Normal? ==> r.value == Render(
      fmt.fixed2(Or(Prop(Obj(o), "total"), Num(0))),
      Text(CustomerName(o)) + EmailSegment(o),
      Summary(o).value,
      ReceiptUrl(env, orderId, fmt))
  {
    var total := fmt.fixed2(Or(Prop(Obj(o), "total"), Num(0)));
    var sender := Text(CustomerName(o)) + EmailSegment(o);
    match Summary(o)
    case Throw => Throw
    case Normal(items) => Normal(Render(total, sender, items, ReceiptUrl(env, orderId, fmt)))
  }

  /** Every message starts with the total line. */
  lemma ComposeHeader(o: Doc, orderId: string, env: Env, fmt: Formats)
    requires ItemsOk(o)
    ensures "New order: $" + fmt.fixed2(Or(Prop(Obj(o), "total"), Num(0))) + "\n" <= Compose(o, orderId, env, fmt).value
  {
  }

  // ---------------------------------------------------------------------------------
  // The trigger

  /** What the trigger's promise settles to: `null` when the guard stops it, the boolean
      it returns, or a rejection. */
  datatype Reply = Skipped | Done(ok: bool) | Rejected

  /** One run of the trigger: the stored order afterwards, the messages issued, the reply. */
  datatype Run = Run(doc: Doc, sent: seq<Sms>, reply: Reply)

  /** `snap.data() || {}`. */
  function SnapData(snap: Option<Doc>): Doc {
    if snap.Some? then snap.value else map[]
  }

  /** The guard: the order as the event delivered it already says `smsNotified`. */
  predicate AlreadyNotified(o: Doc) {
    Truthy(Prop(Obj(o), "smsNotified"))
  }

  /** The rest of a run once the guard let it through and `msg` is composed: send it,
      then merge `{smsNotified: true}`. A failure of either is caught and merged as
      `{smsError: String(err)}`; a failed `smsError` write rejects. */
  function Deliver(stored: Doc, msg: string, env: Env, svc: Services): (r: Run)
    ensures r.sent == SendSms(env, svc, msg).sent
    ensures !r.reply.Skipped?
    ensures r.reply == Done(true) <==> SendSms(env, svc, msg).outcome.Pass? && svc.markWrite.Pass?
    ensures r.reply == Done(true) ==> r.doc == stored["smsNotified" := Bool(true)]
    ensures r.reply == Done(false) ==> exists e :: r.doc == stored["smsError" := Str(e)]
    ensures r.reply.Rejected? ==> r.doc == stored
  {
    var send := SendSms(env, svc, msg);
    if send.outcome.Pass? && svc.markWrite.Pass? then
      Run(stored["smsNotified" := Bool(true)], send.sent, Done(true))
    else
      var e := if send.outcome.Fail? then send.outcome.error else svc.markWrite.error;
      if svc.errorWrite.Pass? then Run(stored["smsError" := Str(e)], send.sent, Done(false))
      else Run(stored, send.sent, Rejected)
  }

  /** `onOrderCreated` for one delivery of the creation event. `snap` is the order as the
      event carries it, `stored` the order as the store holds it now; the guard reads the
      former and the merge writes go to the latter. Every run that passes the guard and
      composes its message issues the messages, since the send comes before the mark
      write, whatever fails afterwards. A failed `smsNotified` write is caught like a
      failed send; a failed `smsError` write rejects. */
  function Handle(snap: Option<Doc>, stored: Doc, orderId: string, env: Env, svc: Services, fmt: Formats): (r: Run)
    ensures r.reply.Skipped? <==> AlreadyNotified(SnapData(snap))
    ensures r.reply.Skipped? ==> r.sent == [] && r.doc == stored
    ensures r.reply == Done(true) ==> r.doc == stored["smsNotified" := Bool(true)]
    ensures r.reply == Done(false) ==> exists e :: r.doc == stored["smsError" := Str(e)]
    ensures r.reply.Rejected? ==> r.doc == stored
    ensures r.sent == if !AlreadyNotified(SnapData(snap)) && ItemsOk(SnapData(snap))
      then SendSms(env, svc, Compose(SnapData(snap), orderId, env, fmt).value).sent else []
  {
    var o := SnapData(snap);
    if AlreadyNotified(o) then Run(stored, [], Skipped)
    else match Compose(o, orderId, env, fmt)
      case Throw => Run(stored, [], Rejected)
      case Normal(msg) => Deliver(stored, msg, env, svc)
  }

  /** A run changes at most one field, and only one of `smsNotified` or `smsError`: it
      merges `{smsNotified: true}`, or `{smsError: …}`, or nothing. */
  lemma WriteBackShape(snap: Option<Doc>, stored: Doc, orderId: string, env: Env, svc: Services, fmt: Formats)
    ensures var r := Handle(snap, stored, orderId, env, svc, fmt);
      || r.doc == stored
      || (r.doc == stored["smsNotified" := Bool(true)] && r.reply == Done(true))
      || (exists e :: r.doc == stored["smsError" := Str(e)] && r.reply == Done(false))
    ensures var r := Handle(snap, stored, orderId, env, svc, fmt);
      forall k :: k != "smsNotified" && k != "smsError" ==>
        (k in r.doc <==> k in stored) && (k in stored ==> r.doc[k] == stored[k])
  {
  }

  /** Once the message is composed, success means the client was created, the mark was
      written and each recipient's message went out and was delivered. */
  lemma DeliverSuccess(stored: Doc, msg: string, env: Env, svc: Services)
    ensures var r := Deliver(stored, msg, env, svc);
      r.reply == Done(true) ==>
        && svc.client.Pass? && svc.markWrite.Pass?
        && |r.sent| == |Recipients(env.alertTo)|
        && forall i :: 0 <= i < |r.sent| ==> svc.deliver(r.sent[i]).Pass?
  {
  }

  /** The trigger reports success only when the guard let it through, the message was
      composed, the client was created, every recipient's message was delivered and the
      `smsNotified` write went through. */
  lemma SuccessMeansDelivered(snap: Option<Doc>, stored: Doc, orderId: string, env: Env, svc: Services, fmt: Formats)
    ensures var r := Handle(snap, stored, orderId, env, svc, fmt);
      r.reply == Done(true) ==>
        && !AlreadyNotified(SnapData(snap)) && ItemsOk(SnapData(snap))
        && svc.client.Pass? && svc.markWrite.Pass?
        && |r.sent| == |Recipients(env.alertTo)|
        && forall i :: 0 <= i < |r.sent| ==> svc.deliver(r.sent[i]).Pass?
  {
    var r := Handle(snap, stored, orderId, env, svc, fmt);
    if r.reply == Done(true) {
      var o := SnapData(snap);
      var c := Compose(o, orderId, env, fmt);
      assert !AlreadyNotified(o) && c.Normal?;
      assert r == Deliver(stored, c.value, env, svc);
      DeliverSuccess(stored, c.value, env, svc);
    }
  }

  /** Conversely, when the guard lets the run through, the items can be summarised, the
      send succeeds and the `smsNotified` write goes through, the trigger reports success. */
  lemma DeliveredMeansSuccess(snap: Option<Doc>, stored: Doc, orderId: string, env: Env, svc: Services, fmt: Formats)
    ensures var o := SnapData(snap);
      && !AlreadyNotified(o) && ItemsOk(o)
      && SendSms(env, svc, Compose(o, orderId, env, fmt).value).outcome.Pass? && svc.markWrite.Pass?
      ==> Handle(snap, stored, orderId, env, svc, fmt).reply == Done(true)
  {
  }

  /** A caught failure is recorded: when the guard lets the run through and the message
      composes, a failed send (the client or a delivery) or a failed `smsNotified` write
      merges `{smsError: String(err)}` with that error and replies `false`, provided the
      `smsError` write itself succeeds. */
  lemma FailureMeansError(snap: Option<Doc>, stored: Doc, orderId: string, env: Env, svc: Services, fmt: Formats)
    ensures var o := SnapData(snap);
      !AlreadyNotified(o) && ItemsOk(o) && svc.errorWrite.Pass? ==>
        var send := SendSms(env, svc, Compose(o, orderId, env, fmt).value);
        var r := Handle(snap, stored, orderId, env, svc, fmt);
        && (send.outcome.Fail? ==>
              r.reply == Done(false) && r.doc == stored["smsError" := Str(send.outcome.error)])
        && (send.outcome.Pass? && svc.markWrite.Fail? ==>
              r.reply == Done(false) && r.doc == stored["smsError" := Str(svc.markWrite.error)])
  {
    var o := SnapData(snap);
    if !AlreadyNotified(o) && ItemsOk(o) && svc.errorWrite.Pass? {
      var c := Compose(o, orderId, env, fmt);
      assert c.Normal?;
      assert Handle(snap, stored, orderId, env, svc, fmt) == Deliver(stored, c.value, env, svc);
    }
  }

  /** The trigger's promise rejects exactly when it passes the guard and then either the
      items cannot be summarised, or the send or the mark fails and recording the error
      fails too. */
  lemma RejectedIff(snap: Option<Doc>, stored: Doc, orderId: string, env: Env, svc: Services, fmt: Formats)
    ensures var o := SnapData(snap);
      Handle(snap, stored, orderId, env, svc, fmt).reply.Rejected? <==>
        && !AlreadyNotified(o)
        && (|| !ItemsOk(o)
            || (&& svc.errorWrite.Fail?
                && (SendSms(env, svc, Compose(o, orderId, env, fmt).value).outcome.Fail? || svc.markWrite.Fail?)))
  {
    var o := SnapData(snap);
    if !AlreadyNotified(o) && ItemsOk(o) {
      assert Compose(o, orderId, env, fmt).Normal?;
    }
  }

  /** Run again on the order as it is stored after a successful run, the trigger stops at
      the guard: nothing is sent and nothing is written. */
  lemma RerunOnStoredSkips(snap: Option<Doc>, stored: Doc, orderId: string, env: Env, svc: Services, fmt: Formats,
                           env2: Env, svc2: Services)
    ensures var r := Handle(snap, stored, orderId, env, svc, fmt);
      r.reply == Done(true) ==> Handle(Some(r.doc), r.doc, orderId, env2, svc2, fmt) == Run(r.doc, [], Skipped)
  {
    var r := Handle(snap, stored, orderId, env, svc, fmt);
    if r.reply == Done(true) {
      MarkedIsNotified(stored);
      NotifiedSkips(r.doc, orderId, env2, svc2, fmt);
    }
  }

  /** Merging `{smsNotified: true}` makes the guard hold. */
  lemma MarkedIsNotified(stored: Doc)
    ensures AlreadyNotified(stored["smsNotified" := Bool(true)])
  {
    assert Prop(Obj(stored["smsNotified" := Bool(true)]), "smsNotified") == Bool(true);
  }

  /** Delivered with a snapshot that already says `smsNotified`, the trigger stops at the
      guard and leaves the order as it is. */
  lemma NotifiedSkips(d: Doc, orderId: string, env: Env, svc: Services, fmt: Formats)
    requires AlreadyNotified(d)
    ensures Handle(Some(d), d, orderId, env, svc, fmt) == Run(d, [], Skipped)
  {
    assert SnapData(Some(d)) == d;
  }

  /** A second delivery of the same creation event, after the first one succeeded, sends
      every message again: the event still carries the order as it was created, without
      `smsNotified`, so the guard does not stop it. */
  lemma RedeliveryResends(order: Doc, orderId: string, env: Env, svc: Services, fmt: Formats)
    requires !AlreadyNotified(order) && ItemsOk(order)
    requires svc.client.Pass? && svc.markWrite.Pass?
    requires forall s :: svc.deliver(s).Pass?
    ensures var first := Handle(Some(order), order, orderId, env, svc, fmt);
      var second := Handle(Some(order), first.doc, orderId, env, svc, fmt);
      && first.reply == Done(true) && second.reply == Done(true)
      && |first.sent| == |Recipients(env.alertTo)| && second.sent == first.sent
  {
  }

  /** The guard read from the order as currently stored, which is what an idempotent
      trigger needs: otherwise the same as `Handle`. */
  function HandleCurrent(stored: Doc, orderId: string, env: Env, svc: Services, fmt: Formats): (r: Run)
    ensures r.reply.Skipped? <==> AlreadyNotified(stored)
    ensures !AlreadyNotified(stored) ==> r == Handle(Some(stored), stored, orderId, env, svc, fmt)
  {
    if AlreadyNotified(stored) then Run(stored, [], Skipped)
    else Handle(Some(stored), stored, orderId, env, svc, fmt)
  }

  /** With the guard on the stored order, any number of later deliveries after a
      successful one send nothing and write nothing. */
  lemma {:induction false} CurrentSendsOnce(stored: Doc, orderId: string, env: Env, svc: Services, fmt: Formats,
                                            later: seq<Services>)
    requires HandleCurrent(stored, orderId, env, svc, fmt).reply == Done(true)
    ensures var d := HandleCurrent(stored, orderId, env, svc, fmt).doc;
      Redeliver(d, orderId, env, later, fmt) == Tally(d, 0)
  {
    var d := HandleCurrent(stored, orderId, env, svc, fmt).doc;
    assert AlreadyNotified(d) by {
      assert Prop(Obj(d), "smsNotified") == Bool(true);
    }
    RedeliverNotified(d, orderId, env, later, fmt);
  }

  /** The order after a series of deliveries, and how many messages they issued in all. */
  datatype Tally = Tally(doc: Doc, messages: nat)

  /** Deliver the event once per entry of `runs`, each time to the order as stored by the
      previous one. */
  function Redeliver(stored: Doc, orderId: string, env: Env, runs: seq<Services>, fmt: Formats): Tally
    decreases |runs|
  {
    if |runs| == 0 then Tally(stored, 0)
    else
      var r := HandleCurrent(stored, orderId, env, runs[0], fmt);
      var rest := Redeliver(r.doc, orderId, env, runs[1..], fmt);
      Tally(rest.doc, |r.sent| + rest.messages)
  }

  /** Once the stored order says `smsNotified`, deliveries change nothing. */
  lemma {:induction false} RedeliverNotified(d: Doc, orderId: string, env: Env, runs: seq<Services>, fmt: Formats)
    requires AlreadyNotified(d)
    ensures Redeliver(d, orderId, env, runs, fmt) == Tally(d, 0)
  {
    if |runs| > 0 {
      RedeliverNotified(d, orderId, env, runs[1..], fmt);
    }
  }
}
