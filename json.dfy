/** A parsed JSON request body as JavaScript sees it, with the parts of the
    language the route handlers test: property access, truthiness, `typeof`
    and `Array.isArray`. */
module Json {

  /** A JavaScript number. Exact reals stand for the finite doubles. */
  datatype Number = NaN | PosInf | NegInf | Finite(r: real)

  /** `Undefined` is the value of a missing property. */
  datatype Value =
    | Undefined
    | Null
    | Bool(b: bool)
    | Num(n: Number)
    | Str(s: string)
    | Arr(items: seq<Value>)
    | Obj(fields: map<string, Value>)

  /** `v.key` for a key that is not inherited from a prototype: the field of
      an object, `undefined` on anything else. */
  function Get(v: Value, key: string): (r: Value)
    ensures !v.Obj? ==> r == Undefined
    ensures v.Obj? && key !in v.fields ==> r == Undefined
  {
    if v.Obj? && key in v.fields then v.fields[key] else Undefined
  }

  /** JavaScript truthiness. */
  predicate Truthy(v: Value)
  {
    match v
    case Undefined => false
    case Null => false
    case Bool(b) => b
    case Num(n) => !(n.NaN? || n == Finite(0.0))
    case Str(s) => s != ""
    case Arr(_) => true
    case Obj(_) => true
  }

  /** `typeof v === "object"`, which holds for `null` as well. */
  predicate IsObjectType(v: Value)
  {
    v.Null? || v.Arr? || v.Obj?
  }

  /** `!v || typeof v !== "object"` fails exactly for arrays and objects. */
  lemma TruthyObject(v: Value)
    ensures (Truthy(v) && IsObjectType(v)) <==> (v.Arr? || v.Obj?)
  {
  }

  /** `typeof v === "number" && !isNaN(v)`. */
  predicate IsNumber(v: Value)
  {
    v.Num? && !v.n.NaN?
  }

  /** `n >= 0` on a number that is not NaN. */
  predicate NonNegative(n: Number)
  {
    match n
    case NaN => false
    case PosInf => true
    case NegInf => false
    case Finite(r) => r >= 0.0
  }

  /** `Math.max(0, n)` for `n` not NaN. */
  function MaxZero(n: Number): (r: Number)
    requires !n.NaN?
    ensures NonNegative(r)
    ensures NonNegative(n) ==> r == n
    ensures !NonNegative(n) ==> r == Finite(0.0)
  {
    match n
    case PosInf => PosInf
    case NegInf => Finite(0.0)
    case Finite(x) => if x > 0.0 then n else Finite(0.0)
  }
}
