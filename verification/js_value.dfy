/** The JavaScript values a stored order document can hold, and the few operations the
    notifier applies to them: truthiness, `a || b`, optional property access `v?.k`,
    plain property access `v.k` (which throws on `null` and `undefined`), and `String(v)`.
    Numbers are integral: the only numbers the notifier turns into text are quantities. */
module JsValue {
  import opened JsText

  datatype Value =
    | Undefined
    | Null
    | Bool(b: bool)
    | Num(n: int)
    | Str(s: string)
    | Arr(elems: seq<Value>)
    | Obj(fields: map<string, Value>)

  /** A JavaScript evaluation either yields a value or throws a `TypeError`. */
  datatype Completion<+T> = Normal(value: T) | Throw

  /** `Boolean(v)`. */
  predicate Truthy(v: Value) {
    match v
    case Undefined => false
    case Null => false
    case Bool(b) => b
    case Num(n) => n != 0
    case Str(s) => s != []
    case Arr(_) => true
    case Obj(_) => true
  }

  /** `null` or `undefined`: the values on which property access throws. */
  predicate Nullish(v: Value) {
    v.Undefined? || v.Null?
  }

  /** `a || b`: the first operand when it is truthy, the second otherwise. */
  function Or(a: Value, b: Value): (r: Value)
    ensures r == a || r == b
    ensures Truthy(r) <==> Truthy(a) || Truthy(b)
    ensures Truthy(a) ==> r == a
    ensures !Truthy(a) ==> r == b
  {
    if Truthy(a) then a else b
  }

  /** `v?.k`: `undefined` on a nullish value, the own field of an object, and `undefined`
      for the other values (no primitive wrapper property is ever read here). */
  function Prop(v: Value, k: string): (r: Value)
    ensures Nullish(v) ==> r == Undefined
    ensures v.Obj? && k in v.fields ==> r == v.fields[k]
    ensures !v.Obj? || k !in v.fields ==> r == Undefined
  {
    match v
    case Obj(fields) => if k in fields then fields[k] else Undefined
    case _ => Undefined
  }

  /** `v.k`: throws exactly when `v` is nullish, and otherwise agrees with `v?.k`. */
  function Get(v: Value, k: string): (r: Completion<Value>)
    ensures r.Throw? <==> Nullish(v)
    ensures r.Normal? ==> r.value == Prop(v, k)
  {
    if Nullish(v) then Throw else Normal(Prop(v, k))
  }

  /** `String(v)` as a template literal renders it: array elements are joined with `,`,
      with `null` and `undefined` elements rendered empty. */
  function Text(v: Value): (r: string)
    decreases v, 0
  {
    match v
    case Undefined => "undefined"
    case Null => "null"
    case Bool(b) => if b then "true" else "false"
    case Num(n) => IntText(n)
    case Str(s) => s
    case Arr(es) => Join(seq(|es|, i requires 0 <= i < |es| => ElemText(es[i])), ",")
    case Obj(_) => "[object Object]"
  }

  /** How `Array.prototype.join` renders one element. */
  function ElemText(v: Value): string
    decreases v, 1
  {
    if Nullish(v) then "" else Text(v)
  }

  /** The decimal text of a non-negative number reads back as that number. */
  lemma NumTextValue(n: nat)
    ensures forall k :: 0 <= k < |Text(Num(n))| ==> IsDigit(Text(Num(n))[k])
    ensures DigitsValue(Text(Num(n))) == n
  {
    NatTextValue(n);
  }
}
