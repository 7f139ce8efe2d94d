/** The storefront's cart store: an ordered list of lines keyed by product id, with
    add, remove, quantity update, clear and total. Prices are integer cents. */
module Cart {
  import opened Wrappers

  /** What an "Add to cart" button hands over: a catalogue entry. */
  datatype MenuItem = MenuItem(id: string, name: string, price: int)

  /** One cart line `{id, name, price, qty}`. */
  datatype Line = Line(id: string, name: string, price: int, qty: int)

  /** A JavaScript number as read from the quantity input (`+e.target.value`):
      a finite value, or NaN / an infinity. */
  datatype JsNumber = Finite(value: real) | NonFinite

  /** The user actions that change the cart. */
  datatype Event =
    | AddItem(item: MenuItem)
    | RemoveItem(id: string)
    | SetQty(id: string, qty: JsNumber)
    | ClearCart

  const Two31: int := 0x8000_0000
  const Two32: int := 0x1_0000_0000

  ghost predicate Contains(c: seq<Line>, id: string) {
    exists i :: 0 <= i < |c| && c[i].id == id
  }

  /** Line `i` is the one `cart.find(x => x.id === id)` returns. */
  predicate IsFirst(c: seq<Line>, id: string, i: int) {
    0 <= i < |c| && c[i].id == id && forall j :: 0 <= j < i ==> c[j].id != id
  }

  ghost predicate UniqueIds(c: seq<Line>) {
    forall i, j :: 0 <= i < j < |c| ==> c[i].id != c[j].id
  }

  /** The cart invariant: one line per product id, and every quantity at least 1. */
  ghost predicate Valid(c: seq<Line>) {
    UniqueIds(c) && forall i :: 0 <= i < |c| ==> c[i].qty >= 1
  }

  /** The position `cart.find(x => x.id === id)` lands on, if any. */
  function Find(c: seq<Line>, id: string): (r: Option<nat>)
    ensures r.Some? ==> IsFirst(c, id, r.value)
    ensures r.None? <==> !Contains(c, id)
  {
    if |c| == 0 then None
    else if c[0].id == id then Some(0)
    else match Find(c[1..], id)
      case None =>
        assert forall i :: 1 <= i < |c| ==> c[i] == c[1..][i - 1];
        None
      case Some(k) =>
        assert c[k + 1] == c[1..][k];
        assert forall j :: 1 <= j < k + 1 ==> c[j] == c[1..][j - 1];
        Some(k + 1)
  }

  lemma ContainsTail(c: seq<Line>, id: string)
    requires |c| > 0
    ensures Contains(c[1..], id) ==> Contains(c, id)
  {
    if Contains(c[1..], id) {
      var i :| 0 <= i < |c[1..]| && c[1..][i].id == id;
      assert c[i + 1].id == id;
    }
  }

  lemma NoLineNoId(c: seq<Line>, id: string)
    requires forall l :: l in c ==> l.id != id
    ensures !Contains(c, id)
  {
  }

  /** `addToCart(item)`: one more of an existing line, or a new line of quantity 1 at the end. */
  function Add(c: seq<Line>, item: MenuItem): (r: seq<Line>)
    ensures Contains(c, item.id) ==>
      && |r| == |c|
      && forall i :: 0 <= i < |c| ==>
           r[i] == (if IsFirst(c, item.id, i) then c[i].(qty := c[i].qty + 1) else c[i])
    ensures !Contains(c, item.id) ==> r == c + [Line(item.id, item.name, item.price, 1)]
  {
    var f := Find(c, item.id);
    if f.Some? then c[f.value := c[f.value].(qty := c[f.value].qty + 1)]
    else c + [Line(item.id, item.name, item.price, 1)]
  }

  /** `removeFromCart(id)`: `cart.filter(c => c.id !== id)`. */
  function Remove(c: seq<Line>, id: string): (r: seq<Line>)
    ensures |r| <= |c|
    ensures forall i :: 0 <= i < |r| ==> r[i].id != id
  {
    if |c| == 0 then []
    else
      var rest := Remove(c[1..], id);
      if c[0].id == id then rest else [c[0]] + rest
  }

  /** Removing an id that is not in the cart changes nothing. */
  lemma {:induction false} RemoveAbsent(c: seq<Line>, id: string)
    requires !Contains(c, id)
    ensures Remove(c, id) == c
  {
    if |c| > 0 {
      ContainsTail(c, id);
      RemoveAbsent(c[1..], id);
      assert c == [c[0]] + c[1..];
    }
  }

  /** A line survives removal exactly when it was in the cart under another id. */
  lemma {:induction false} RemoveKeeps(c: seq<Line>, id: string, l: Line)
    ensures l in Remove(c, id) <==> l in c && l.id != id
  {
    if |c| > 0 {
      RemoveKeeps(c[1..], id, l);
      assert c == [c[0]] + c[1..];
    }
  }

  lemma RemoveCons(x: Line, t: seq<Line>, id: string)
    ensures Remove([x] + t, id) == if x.id == id then Remove(t, id) else [x] + Remove(t, id)
  {
    assert ([x] + t)[1..] == t;
  }

  /** Filtering distributes over concatenation, so `Remove` keeps the surviving lines in order. */
  lemma {:induction false} RemoveConcat(a: seq<Line>, b: seq<Line>, id: string)
    ensures Remove(a + b, id) == Remove(a, id) + Remove(b, id)
  {
    if |a| == 0 {
      assert a + b == b;
    } else {
      var x, t := a[0], a[1..];
      assert a == [x] + t;
      assert a + b == [x] + (t + b);
      RemoveCons(x, t + b, id);
      RemoveCons(x, t, id);
      RemoveConcat(t, b, id);
    }
  }

  /** On a cart with unique ids, removing a present id deletes exactly that line. */
  lemma {:induction false} RemoveDeletesLine(c: seq<Line>, id: string, k: int)
    requires UniqueIds(c) && 0 <= k < |c| && c[k].id == id
    ensures Remove(c, id) == c[..k] + c[k + 1..]
  {
    assert c == c[..k] + [c[k]] + c[k + 1..];
    RemoveConcat(c[..k] + [c[k]], c[k + 1..], id);
    RemoveConcat(c[..k], [c[k]], id);
    assert !Contains(c[..k], id);
    assert !Contains(c[k + 1..], id);
    RemoveAbsent(c[..k], id);
    RemoveAbsent(c[k + 1..], id);
    RemoveCons(c[k], [], id);
    assert [c[k]] + [] == [c[k]];
  }

  /** Truncation toward zero, as `x | 0` does before wrapping. */
  function Trunc(x: real): (n: int)
    ensures x >= 0.0 ==> n as real <= x < n as real + 1.0
    ensures x < 0.0 ==> n as real - 1.0 < x <= n as real
  {
    if x >= 0.0 then x.Floor else -((-x).Floor)
  }

  /** ECMAScript ToInt32 on an integer: the representative of `n` modulo 2^32 in [-2^31, 2^31). */
  function ToInt32(n: int): (r: int)
    ensures -Two31 <= r < Two31
    ensures (n - r) % Two32 == 0
    ensures -Two31 <= n < Two31 ==> r == n
  {
    var m := n % Two32;
    if m >= Two31 then m - Two32 else m
  }

  /** `q | 0`: NaN and the infinities give 0. */
  function JsToInt32(q: JsNumber): (r: int)
    ensures -Two31 <= r < Two31
    ensures q.Finite? ==> r == ToInt32(Trunc(q.value))
    ensures q.NonFinite? ==> r == 0
  {
    match q
    case Finite(x) => ToInt32(Trunc(x))
    case NonFinite => 0
  }

  /** `Math.max(1, q | 0)`: the quantity `updateQty` stores. */
  function ClampQty(q: JsNumber): (n: int)
    ensures 1 <= n < Two31
    ensures JsToInt32(q) >= 1 ==> n == JsToInt32(q)
    ensures JsToInt32(q) < 1 ==> n == 1
  {
    if JsToInt32(q) >= 1 then JsToInt32(q) else 1
  }

  /** Within the 32-bit range the stored quantity is `max(1, trunc(q))`. */
  lemma ClampQtyInRange(x: real)
    requires -Two31 <= Trunc(x) < Two31
    ensures ClampQty(Finite(x)) == if Trunc(x) >= 1 then Trunc(x) else 1
  {
  }

  /** Zero and negative entries are raised to 1, fractions are cut, and a quantity of
      2^31 or more wraps around before the clamp. */
  lemma ClampQtyExamples()
    ensures ClampQty(Finite(0.0)) == 1
    ensures ClampQty(Finite(-5.0)) == 1
    ensures ClampQty(Finite(2.75)) == 2
    ensures ClampQty(Finite(7.0)) == 7
    ensures ClampQty(NonFinite) == 1
    ensures ClampQty(Finite(2147483648.0)) == 1
    ensures ClampQty(Finite(4294967301.0)) == 5
  {
    assert Trunc(2.75) == 2;
    assert Trunc(2147483648.0) == Two31;
    assert Trunc(4294967301.0) == Two32 + 5;
  }

  /** `updateQty(id, q)`: the first line with `id` gets `max(1, q | 0)`; a missing id is a no-op. */
  function UpdateQty(c: seq<Line>, id: string, q: JsNumber): (r: seq<Line>)
    ensures |r| == |c|
    ensures forall i :: 0 <= i < |c| ==>
      r[i] == (if IsFirst(c, id, i) then c[i].(qty := ClampQty(q)) else c[i])
    ensures !Contains(c, id) ==> r == c
  {
    var f := Find(c, id);
    if f.Some? then c[f.value := c[f.value].(qty := ClampQty(q))] else c
  }

  /** What one line contributes to the total. */
  function LineTotal(l: Line): int {
    l.price * l.qty
  }

  /** The sum of price × qty over the lines. */
  function Sum(c: seq<Line>): int {
    if |c| == 0 then 0 else LineTotal(c[0]) + Sum(c[1..])
  }

  lemma {:induction false} SumConcat(a: seq<Line>, b: seq<Line>)
    ensures Sum(a + b) == Sum(a) + Sum(b)
  {
    if |a| == 0 {
      assert a + b == b;
    } else {
      SumConcat(a[1..], b);
      assert (a + b)[1..] == a[1..] + b;
    }
  }

  /** Replacing one line changes the total by the difference of the two lines' totals. */
  lemma SumReplace(c: seq<Line>, k: int, l: Line)
    requires 0 <= k < |c|
    ensures Sum(c[k := l]) == Sum(c) - LineTotal(c[k]) + LineTotal(l)
  {
    assert c == c[..k] + [c[k]] + c[k + 1..];
    assert c[k := l] == c[..k] + [l] + c[k + 1..];
    SumConcat(c[..k] + [c[k]], c[k + 1..]);
    SumConcat(c[..k], [c[k]]);
    SumConcat(c[..k] + [l], c[k + 1..]);
    SumConcat(c[..k], [l]);
  }

  /** `cartTotal()`: `cart.reduce((s, i) => s + i.price * i.qty, 0)`, a left-to-right fold. */
  method CartTotal(c: seq<Line>) returns (t: int)
    ensures t == Sum(c)
    ensures |c| == 0 ==> t == 0
  {
    t := 0;
    var i := 0;
    while i < |c|
      invariant 0 <= i <= |c|
      invariant t == Sum(c[..i])
    {
      SumConcat(c[..i], [c[i]]);
      assert c[..i + 1] == c[..i] + [c[i]];
      t := t + c[i].price * c[i].qty;
      i := i + 1;
    }
    assert c[..|c|] == c;
  }

  /** Only one line can be the first with a given id. */
  lemma FirstUnique(c: seq<Line>, id: string, k: int, k': int)
    requires IsFirst(c, id, k) && IsFirst(c, id, k')
    ensures k == k'
  {
  }

  lemma SumBump(c: seq<Line>, k: int)
    requires 0 <= k < |c|
    ensures Sum(c[k := c[k].(qty := c[k].qty + 1)]) == Sum(c) + c[k].price
  {
    var l := c[k].(qty := c[k].qty + 1);
    SumReplace(c, k, l);
    assert LineTotal(l) == c[k].price * c[k].qty + c[k].price;
  }

  lemma AddAt(c: seq<Line>, item: MenuItem, k: int)
    requires IsFirst(c, item.id, k)
    ensures Add(c, item) == c[k := c[k].(qty := c[k].qty + 1)]
  {
    assert Contains(c, item.id) by { assert c[k].id == item.id; }
    var f := Find(c, item.id);
    FirstUnique(c, item.id, k, f.value);
    calc {
      Add(c, item);
      c[f.value := c[f.value].(qty := c[f.value].qty + 1)];
      { assert f.value == k; }
      c[k := c[k].(qty := c[k].qty + 1)];
    }
  }

  lemma UpdateAt(c: seq<Line>, id: string, q: JsNumber, k: int)
    requires IsFirst(c, id, k)
    ensures UpdateQty(c, id, q) == c[k := c[k].(qty := ClampQty(q))]
  {
    assert Contains(c, id) by { assert c[k].id == id; }
    var f := Find(c, id);
    FirstUnique(c, id, k, f.value);
    calc {
      UpdateQty(c, id, q);
      c[f.value := c[f.value].(qty := ClampQty(q))];
      { assert f.value == k; }
      c[k := c[k].(qty := ClampQty(q))];
    }
  }

  /** Adding a product already in the cart raises the total by that line's unit price. The price
      kept is the one from the first add, even if the catalogue price changed since. */
  lemma TotalAfterAdd(c: seq<Line>, item: MenuItem, k: int)
    requires IsFirst(c, item.id, k)
    ensures Sum(Add(c, item)) == Sum(c) + c[k].price
  {
    AddAt(c, item, k);
    SumBump(c, k);
  }

  /** Adding a new product raises the total by its price. */
  lemma TotalAfterAddNew(c: seq<Line>, item: MenuItem)
    requires !Contains(c, item.id)
    ensures Sum(Add(c, item)) == Sum(c) + item.price
  {
    SumConcat(c, [Line(item.id, item.name, item.price, 1)]);
    assert [Line(item.id, item.name, item.price, 1)][1..] == [];
  }

  /** Removing a present id from a cart with unique ids lowers the total by that line's total. */
  lemma TotalAfterRemove(c: seq<Line>, id: string, k: int)
    requires UniqueIds(c) && 0 <= k < |c| && c[k].id == id
    ensures Sum(Remove(c, id)) == Sum(c) - LineTotal(c[k])
  {
    RemoveDeletesLine(c, id, k);
    assert c == c[..k] + [c[k]] + c[k + 1..];
    SumConcat(c[..k] + [c[k]], c[k + 1..]);
    SumConcat(c[..k], [c[k]]);
    SumConcat(c[..k], c[k + 1..]);
  }

  /** Setting a quantity changes the total by price × the change in quantity. */
  lemma TotalAfterUpdate(c: seq<Line>, id: string, q: JsNumber, k: int)
    requires IsFirst(c, id, k)
    ensures Sum(UpdateQty(c, id, q)) == Sum(c) + c[k].price * (ClampQty(q) - c[k].qty)
  {
    UpdateAt(c, id, q, k);
    var n := ClampQty(q);
    var l := c[k].(qty := n);
    SumReplace(c, k, l);
    ScaleDifference(c[k].price, n, c[k].qty);
  }

  lemma ScaleDifference(p: int, a: int, b: int)
    ensures p * a - p * b == p * (a - b)
  {
  }

  lemma AddContains(c: seq<Line>, item: MenuItem)
    ensures Contains(Add(c, item), item.id)
  {
    var r := Add(c, item);
    match Find(c, item.id)
    case Some(k) => assert r[k].id == item.id;
    case None => assert r[|c|].id == item.id;
  }

  /** One user action on the cart; the clear button empties it. */
  function Apply(c: seq<Line>, e: Event): (r: seq<Line>)
    ensures e.ClearCart? ==> r == [] && Sum(r) == 0
    ensures e.RemoveItem? ==> !Contains(r, e.id)
    ensures e.AddItem? ==> Contains(r, e.item.id)
  {
    match e
    case AddItem(item) =>
      AddContains(c, item);
      Add(c, item)
    case RemoveItem(id) =>
      var r := Remove(c, id);
      NoLineNoId(r, id);
      r
    case SetQty(id, q) => UpdateQty(c, id, q)
    case ClearCart => []
  }

  /** The cart after a run of user actions. */
  function Replay(c: seq<Line>, es: seq<Event>): seq<Line>
    decreases |es|
  {
    if |es| == 0 then c else Replay(Apply(c, es[0]), es[1..])
  }

  lemma AddKeepsValid(c: seq<Line>, item: MenuItem)
    requires Valid(c)
    ensures Valid(Add(c, item))
  {
    var r := Add(c, item);
    if Contains(c, item.id) {
      assert forall i :: 0 <= i < |c| ==> r[i].id == c[i].id;
    } else {
      assert forall i :: 0 <= i < |c| ==> r[i] == c[i];
    }
  }

  lemma RemoveKeepsValid(c: seq<Line>, id: string)
    requires Valid(c)
    ensures Valid(Remove(c, id))
  {
    if Contains(c, id) {
      var k :| 0 <= k < |c| && c[k].id == id;
      RemoveDeletesLine(c, id, k);
      var r := Remove(c, id);
      assert |r| == |c| - 1;
      forall i | 0 <= i < |r| ensures r[i] == c[if i < k then i else i + 1] {
      }
      forall i, j | 0 <= i < j < |r| ensures r[i].id != r[j].id {
        var i', j' := if i < k then i else i + 1, if j < k then j else j + 1;
        assert r[i] == c[i'] && r[j] == c[j'] && i' < j';
      }
    } else {
      RemoveAbsent(c, id);
    }
  }

  lemma UpdateKeepsValid(c: seq<Line>, id: string, q: JsNumber)
    requires Valid(c)
    ensures Valid(UpdateQty(c, id, q))
  {
    var r := UpdateQty(c, id, q);
    assert forall i :: 0 <= i < |c| ==> r[i].id == c[i].id;
  }

  /** Every user action keeps one line per id with quantities of at least 1. */
  lemma ApplyKeepsValid(c: seq<Line>, e: Event)
    requires Valid(c)
    ensures Valid(Apply(c, e))
  {
    match e
    case AddItem(item) => AddKeepsValid(c, item);
    case RemoveItem(id) => RemoveKeepsValid(c, id);
    case SetQty(id, q) => UpdateKeepsValid(c, id, q);
    case ClearCart =>
  }

  /** Any run of add, remove, quantity and clear actions keeps the cart invariant. */
  lemma {:induction false} ReplayKeepsValid(c: seq<Line>, es: seq<Event>)
    requires Valid(c)
    ensures Valid(Replay(c, es))
    decreases |es|
  {
    if |es| > 0 {
      ApplyKeepsValid(c, es[0]);
      ReplayKeepsValid(Apply(c, es[0]), es[1..]);
    }
  }

  /** Adding the same product twice to an empty cart gives one line of quantity 2. */
  lemma AddTwice(item: MenuItem)
    ensures Add(Add([], item), item) == [Line(item.id, item.name, item.price, 2)]
  {
    var once := Add([], item);
    assert once == [Line(item.id, item.name, item.price, 1)];
    assert IsFirst(once, item.id, 0);
  }
}
