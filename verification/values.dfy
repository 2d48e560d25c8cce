/** The loosely typed input the engine validates: JSON-like values, the
    closed set of runtime kinds it can test for, and the few pieces of
    JavaScript value semantics the combinators rely on. */
module Values {
  import opened Maybe
  import Numerals

  /** An input value. `Null` stands for both JavaScript `null` and
      `undefined`; a context never holds it (see `FromNullable`). */
  datatype Value =
    | Null
    | Bool(b: bool)
    | Num(n: int)
    | Str(s: string)
    | Arr(items: seq<Value>)
    | Obj(fields: map<string, Value>)

  /** The constructors `R.is(t)` is applied to. */
  datatype Kind = NumberKind | StringKind | BooleanKind | ArrayKind | ObjectKind

  /** `R.is(t, v)`: the value's constructor is `t`, or it is an instance of
      `t`; arrays are therefore also Objects, and null is nothing. */
  predicate HasKind(v: Value, k: Kind)
  {
    match k
    case NumberKind => v.Num?
    case StringKind => v.Str?
    case BooleanKind => v.Bool?
    case ArrayKind => v.Arr?
    case ObjectKind => v.Arr? || v.Obj?
  }

  /** How JavaScript prints the constructor `k` when it is concatenated to
      a string. */
  function KindText(k: Kind): string
  {
    var name := match k
      case NumberKind => "Number"
      case StringKind => "String"
      case BooleanKind => "Boolean"
      case ArrayKind => "Array"
      case ObjectKind => "Object";
    "function " + name + "() { [native code] }"
  }

  /** `Maybe.fromNullable`: null and undefined become absent. */
  function FromNullable(v: Value): (o: Option<Value>)
    ensures o.None? <==> v.Null?
    ensures o.Some? ==> o.value == v
  {
    if v.Null? then None else Some(v)
  }

  /** JavaScript truthiness. */
  predicate Truthy(v: Value)
  {
    match v
    case Null => false
    case Bool(b) => b
    case Num(n) => n != 0
    case Str(s) => |s| > 0
    case Arr(_) => true
    case Obj(_) => true
  }

  /** Code-point-wise lexicographic `a < b` on strings. */
  predicate StrLess(a: string, b: string)
  {
    |b| > 0 && (|a| == 0 || a[0] < b[0] || (a[0] == b[0] && StrLess(a[1..], b[1..])))
  }

  /** JavaScript `a < b` between two numbers or two strings; every other
      pair of kinds compares false. */
  predicate Less(a: Value, b: Value)
  {
    (a.Num? && b.Num? && a.n < b.n) || (a.Str? && b.Str? && StrLess(a.s, b.s))
  }

  /** JavaScript `a <= b` between two numbers or two strings. */
  predicate LessOrEqual(a: Value, b: Value)
  {
    (a.Num? && b.Num? && a.n <= b.n) || (a.Str? && b.Str? && !StrLess(b.s, a.s))
  }

  /** The decimal text of an integer, as `String(n)`. */
  function IntText(n: int): string
  {
    if n < 0 then "-" + Numerals.ToRadix(-n, 10) else Numerals.ToRadix(n, 10)
  }

  /** `String(v)`: what a value becomes when concatenated to a message. */
  function Text(v: Value): string
    decreases v, 1
  {
    match v
    case Null => "null"
    case Bool(b) => if b then "true" else "false"
    case Num(n) => IntText(n)
    case Str(s) => s
    case Arr(items) => JoinText(v, items)
    case Obj(_) => "[object Object]"
  }

  /** `Array.prototype.join(",")`: null elements print as nothing. */
  function JoinText(whole: Value, items: seq<Value>): string
    requires whole.Arr? && items <= whole.items
    decreases whole, 0, |items|
  {
    if |items| == 0 then ""
    else
      var last := items[|items| - 1];
      var text := if last.Null? then "" else Text(last);
      if |items| == 1 then text else JoinText(whole, items[..|items| - 1]) + "," + text
  }
}
