/**
 * Parsed JSON response bodies and the few JavaScript operations the
 * provider code applies to them: truthiness, property and index access
 * (which throws a TypeError on `undefined` and `null`), optional chaining,
 * comparison of a `length` with zero and string conversion in `join`.
 */
module JsValues {
  import opened JsStrings

  /** A JavaScript value as produced by `response.json()`, plus `undefined`. Numbers are integers here. */
  datatype Js =
    | Undefined
    | Null
    | Bool(b: bool)
    | Num(n: int)
    | Str(s: string)
    | Arr(items: seq<Js>)
    | Obj(fields: map<string, Js>)

  /** A property name (`x.name`) or an array index (`x[i]`). */
  datatype Key = Name(name: string) | Index(i: nat)

  /** The outcome of evaluating an expression that may throw: its value or the thrown error's message. */
  datatype Completion<T> = Normal(value: T) | Threw(message: string) {
    predicate IsFailure() { Threw? }
    function PropagateFailure<U>(): Completion<U>
      requires Threw?
    {
      Threw(message)
    }
    function Extract(): T
      requires Normal?
    {
      value
    }
  }

  /** The boolean a value converts to in `if`, `&&`, `||` and `!`. */
  predicate Truthy(v: Js) {
    match v
    case Undefined => false
    case Null => false
    case Bool(b) => b
    case Num(n) => n != 0
    case Str(s) => s != ""
    case _ => true
  }

  /** `a || b`: the first operand when it is truthy, else the second. */
  function Or(a: Js, b: Js): (r: Js)
    ensures Truthy(a) ==> r == a
    ensures !Truthy(a) ==> r == b
  {
    if Truthy(a) then a else b
  }

  /** The property name a key stands for. */
  function KeyText(k: Key): string {
    match k
    case Name(n) => n
    case Index(i) => NatToString(i)
  }

  /** The message of the TypeError thrown when reading a property of `undefined` or `null` (V8 wording). */
  function ReadError(base: string, k: Key): string {
    "Cannot read properties of " + base + " (reading '" + KeyText(k) + "')"
  }

  /**
   * `v[k]`: throws exactly when `v` is `undefined` or `null`; a missing
   * property reads as `undefined`.
   */
  function Get(v: Js, k: Key): (r: Completion<Js>)
    ensures r.Threw? <==> v.Undefined? || v.Null?
    ensures v.Obj? ==> r == Normal(if KeyText(k) in v.fields then v.fields[KeyText(k)] else Undefined)
  {
    match v
    case Undefined => Threw(ReadError("undefined", k))
    case Null => Threw(ReadError("null", k))
    case Obj(m) => Normal(if KeyText(k) in m then m[KeyText(k)] else Undefined)
    case Arr(xs) =>
      (match k
       case Index(i) => Normal(if i < |xs| then xs[i] else Undefined)
       case Name(n) => Normal(if n == "length" then Num(|xs|) else Undefined))
    case Str(s) =>
      (match k
       case Index(i) => Normal(if i < |s| then Str([s[i]]) else Undefined)
       case Name(n) => Normal(if n == "length" then Num(|s|) else Undefined))
    case _ => Normal(Undefined)
  }

  /** `v?.k`: `undefined` instead of a TypeError when `v` is `undefined` or `null`. */
  function OptGet(v: Js, k: Key): (r: Completion<Js>)
    ensures r.Normal?
  {
    if v.Undefined? || v.Null? then Normal(Undefined) else Get(v, k)
  }

  /** A chain of accesses `v[k0][k1]...`, throwing at the first `undefined` or `null` on the way. */
  function Path(v: Js, ks: seq<Key>): Completion<Js>
    decreases |ks|
  {
    if ks == [] then Normal(v)
    else
      var w :- Get(v, ks[0]);
      Path(w, ks[1..])
  }

  /** `v.length > 0` where `v` is known to be truthy. */
  predicate LengthPositive(v: Js) {
    var len := Get(v, Name("length"));
    len.Normal? && (match len.value
                    case Num(n) => n > 0
                    case Bool(b) => b
                    case _ => false)
  }

  /** `String(v)`. */
  function ToText(v: Js): string
    decreases v, 0
  {
    match v
    case Undefined => "undefined"
    case Null => "null"
    case Bool(b) => if b then "true" else "false"
    case Num(n) => IntToString(n)
    case Str(s) => s
    case Arr(xs) => JoinTexts(xs, ",")
    case Obj(_) => "[object Object]"
  }

  /** How `join` renders one element: `undefined` and `null` become the empty string. */
  function JoinItem(v: Js): string
    decreases v, 1
  {
    if v.Undefined? || v.Null? then "" else ToText(v)
  }

  /** `xs.join(sep)`. */
  function JoinTexts(xs: seq<Js>, sep: string): string
    decreases xs, 0
  {
    if xs == [] then ""
    else if |xs| == 1 then JoinItem(xs[0])
    else JoinItem(xs[0]) + sep + JoinTexts(xs[1..], sep)
  }
}
